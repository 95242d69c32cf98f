/** The optional-value wrapper used for JavaScript's `T | null` and `T | undefined` fields. */
module Wrappers {
  datatype Option<+T> = None | Some(value: T)
}
