# ember-learning state logic in Dafny

This project models the state logic of six pieces of the Ember app
`ember-learning` and proves properties about them:

- `AsyncResource` (`app/utils/async-resource.ts`): a load, cancel and reset
  state machine around a caller-supplied fetch function.
- `ShoppingCartService` (`app/services/shopping-cart.ts`): cart lines with a
  derived item count and subtotal.
- `DebouncedSearch` (`app/utils/debounced-search.ts`): a timer-debounced
  callback that begins a token of a shared test waiter for each search and
  ends it when the search is cancelled or its callback settles. That a
  pending search always holds an outstanding token holds only for the
  corrected class `GuardedDebouncedSearch`; see "Findings".
- `SessionService` (`app/services/session.ts`): a mock login. It keeps a
  base64 token of `email:timestamp` in `localStorage` and restores the
  session from it.
- `GlobalSearchService` (`app/services/global-search.ts`): a restartable
  search task, its search history and the mock search backend.
- The `or` template helper (`app/helpers/or.ts`).

The Dafny modules, one per source file plus shared helpers:

- `AsyncResources` (`async_resource.dfy`): class `AsyncResource` and class `AbortController`.
- `ShoppingCart` (`shopping_cart.dfy`): class `ShoppingCartService` over a `seq` of line values; the totals are recursive functions.
- `DebouncedSearches` (`debounced_search.dfy`): class `DebouncedSearch` as written, class `GuardedDebouncedSearch` corrected, class `Waiter` for the test waiter.
- `Session` (`session.dfy`): class `SessionService` over class `LocalStorage`, a `map`.
- `Base64` (`base64.dfy`): `btoa` and `atob` as functions, with the alphabet of section 4 of RFC 4648 and the browsers' forgiving decoder.
- `GlobalSearch` (`global_search.dfy`): class `GlobalSearchService`; `mockSearch`, `trim` and `lastSuccessful` as functions.
- `OrHelper` (`or_helper.dfy`): functions.
- `JsValues` and `Wrappers` (`js_values.dfy`, `wrappers.dfy`): JavaScript values and `String(v)`; `Option`.

Asynchronous methods are split at their suspension points into steps that
the environment triggers:

- `load()` becomes `BeginLoad` and `Settle(controller, settlement)`.
- The debounced search's timer becomes `Search`, `Fire` and `CallbackDone`.
- The restartable task becomes `Perform` and `Complete`.

The classes `AsyncResource`, `ShoppingCartService`, `DebouncedSearch`,
`GuardedDebouncedSearch`, `SessionService` and `GlobalSearchService` carry an
invariant `Valid()`, which each of their state-changing methods preserves.
The postconditions of every state-changing method give the new value of each
non-ghost field it may change. Short scenario methods replay the
repository's unit tests against the model.

Two behaviours of `AsyncResource` are kept as the code has them:

- `load()` replaces `abortController` without aborting the previous
  controller (`app/utils/async-resource.ts:19`). A fetch that began earlier
  and settles later still writes `data`, `error`, `isError` and `isSuccess`,
  so `isError` and `isSuccess` can both end up set (`OverlapScenario`). Flag
  exclusivity is therefore stated only while loads have not overlapped.
- Neither `load()` nor its error branch clears `data`
  (`app/utils/async-resource.ts:14-33`); only `reset()` does
  (`app/utils/async-resource.ts:52`). `Settle` states that `data` is kept on
  a rejection.

## Model

| member | source | states |
|---|---|---|
| JsValues.IntToDecimal | app/utils/async-resource.ts:31 | `String(n)` of an integer: digits, preceded by `-` exactly when `n < 0`; no leading zero except in `0` itself; the digits spell `n`, or `-n` for a negative `n` |
| JsValues.DecimalRoundTrip | app/utils/async-resource.ts:31 | reading the decimal spelling of `n` back gives `n` |
| JsValues.ToJsString | app/utils/async-resource.ts:31 | `String(v)`: a number prints exactly as `IntToDecimal` spells it (sign only for negatives, no leading zero, digits that spell it); an empty array prints as the empty string, and a one-element array of a string as that string |
| AsyncResources.ToError | app/utils/async-resource.ts:31 | an Error is kept as is; any other thrown value becomes an `Error` whose message is `String(value)` and which is not a DOMException |
| AsyncResources.IsAbortError | app/utils/async-resource.ts:26 | the rejection an aborted fetch produces counts as an abort; a thrown non-Error value, or an Error that is not a DOMException, never does |
| AsyncResources.AbortController.Abort | app/utils/async-resource.ts:44 | the signal is aborted afterwards |
| AsyncResources.AsyncResource.constructor | app/utils/async-resource.ts:4-9 | a new resource has all three flags false, `data` and `error` null and no controller, and satisfies the invariant |
| AsyncResources.AsyncResource.BeginLoad | app/utils/async-resource.ts:14-19 | `isLoading` is raised, `isError`, `isSuccess` and `error` are cleared, and `data` is kept; a fresh unaborted controller replaces the old one, which is not aborted; the fetch count grows by one |
| AsyncResources.AsyncResource.Settle | app/utils/async-resource.ts:21-35 | a value becomes `data` with `isSuccess`; an AbortError changes nothing but `isLoading`; any other rejection becomes `error` with `isError` and leaves `data`; `isLoading` ends false; without overlap exactly the branch's own flag stands |
| AsyncResources.AsyncResource.Retry | app/utils/async-resource.ts:38-40 | the same new state as `BeginLoad`: one more fetch call and a fresh controller |
| AsyncResources.AsyncResource.Cancel | app/utils/async-resource.ts:42-46 | only the current controller, if any, is aborted; no field of the resource changes |
| AsyncResources.AsyncResource.Reset | app/utils/async-resource.ts:48-55 | all flags false, `data` and `error` null, the current controller aborted, the invariant kept |
| AsyncResources.AsyncResource.IsEmpty | app/utils/async-resource.ts:57-59 | true exactly when `data` is the empty array |
| AsyncResources.SignalHonouringFetch | tests/unit/utils/async-resource-test.ts:80-89 | the test's fetch rejects, with an AbortError, exactly when its signal was aborted |
| AsyncResources.ResolveScenario | tests/unit/utils/async-resource-test.ts:18-45 | loading until the fetch resolves, then success with the value and no error |
| AsyncResources.FailureScenario | tests/unit/utils/async-resource-test.ts:47-58 | a rejected fetch leaves `isError`, the message `Failed`, no success and `data` still null |
| AsyncResources.RetryScenario | tests/unit/utils/async-resource-test.ts:60-77 | a failed load and then `retry()` ends in success with `success` and exactly two fetch calls |
| AsyncResources.CancelScenario | tests/unit/utils/async-resource-test.ts:79-100 | `load()` then `cancel()` ends with no flag set and no error |
| AsyncResources.EmptyArrayScenario | tests/unit/utils/async-resource-test.ts:102-109 | a load resolving with `[]` is a success and empty |
| AsyncResources.ResetScenario | tests/unit/utils/async-resource-test.ts:111-123 | `reset()` after a success restores the idle state and aborts the controller |
| AsyncResources.OverlapScenario | app/utils/async-resource.ts:19-35 | a second load does not abort the first; the first one's failure and the second one's success leave both `isError` and `isSuccess` set |
| ShoppingCart.FindIndex | app/services/shopping-cart.ts:29 | the first line with the id, or the cart length when no line has it |
| ShoppingCart.WithoutId | app/services/shopping-cart.ts:44 | the filtered cart holds exactly the lines whose id differs, and is no longer than the cart |
| ShoppingCart.TotalQuantity | app/services/shopping-cart.ts:16 | the count of a one-line cart is that line's quantity; `TotalsOfAppend` makes the sum additive over any split of the cart |
| ShoppingCart.TotalPrice | app/services/shopping-cart.ts:21 | the subtotal of a one-line cart is its price times its quantity; `TotalsOfAppend` makes the sum additive over any split of the cart |
| ShoppingCart.TotalsOfAppend | app/services/shopping-cart.ts:15-22 | item count and subtotal add up over a concatenation of carts |
| ShoppingCart.TotalsAfterUpdate | app/services/shopping-cart.ts:53 | setting one line's quantity to `q` changes the item count by `q` minus the old quantity, and the subtotal by that line's price times the same difference |
| ShoppingCart.TotalsAfterDrop | app/services/shopping-cart.ts:44 | dropping one line takes away exactly its quantity and its price times quantity |
| ShoppingCart.UpdateKeepsInvariant | app/services/shopping-cart.ts:53 | a positive new quantity keeps ids distinct and quantities positive |
| ShoppingCart.AppendKeepsInvariant | app/services/shopping-cart.ts:34-39 | appending a line with a new id and positive quantity keeps ids distinct and quantities positive |
| ShoppingCart.BumpLineFacts | app/services/shopping-cart.ts:31-32 | one more unit on a line keeps the invariant, adds 1 to the item count and the line's price to the subtotal |
| ShoppingCart.NewLineFacts | app/services/shopping-cart.ts:34-39 | a new line of quantity 1 keeps the invariant, adds 1 to the item count and the product's price to the subtotal |
| ShoppingCart.WithoutIdKeepsInvariant | app/services/shopping-cart.ts:44 | filtering keeps ids distinct and quantities positive |
| ShoppingCart.WithoutIdDropsLine | app/services/shopping-cart.ts:44 | with distinct ids, filtering out line `k`'s id removes exactly line `k` and keeps the others in order |
| ShoppingCart.WithoutAbsentId | app/services/shopping-cart.ts:44 | filtering out an id no line has leaves the cart unchanged |
| ShoppingCart.RemoveFacts | app/services/shopping-cart.ts:44 | on a valid cart, filtering out an id keeps the invariant, drops exactly the line that has it (or nothing), and takes that line's quantity off the count |
| ShoppingCart.ItemCountBoundsLines | app/services/shopping-cart.ts:15-26 | with positive quantities the item count is at least the number of lines, and is 0 exactly for the empty cart |
| ShoppingCart.ShoppingCartService.constructor | app/services/shopping-cart.ts:12 | a new cart is empty and valid |
| ShoppingCart.ShoppingCartService.ItemCount | app/services/shopping-cart.ts:15-17 | 0 for the empty cart; its sum is related to the operations by the totals lemmas |
| ShoppingCart.ShoppingCartService.Subtotal | app/services/shopping-cart.ts:20-22 | 0 for the empty cart; its sum is related to the operations by the totals lemmas |
| ShoppingCart.ShoppingCartService.IsEmpty | app/services/shopping-cart.ts:24-26 | on a valid cart, empty exactly when the item count is 0 |
| ShoppingCart.ShoppingCartService.AddItem | app/services/shopping-cart.ts:28-41 | a known id gets one more unit on its line and nothing else changes; a new id is appended as a line of quantity 1; the item count grows by exactly 1 and the subtotal by that product's price; ids stay distinct |
| ShoppingCart.ShoppingCartService.RemoveItem | app/services/shopping-cart.ts:43-45 | no line with the id is left; the line that had it is dropped and the rest keep their order; an unknown id changes nothing; the item count drops by the removed quantity |
| ShoppingCart.ShoppingCartService.UpdateQuantity | app/services/shopping-cart.ts:47-57 | a quantity of 0 or less is `removeItem`; a positive one replaces that line's quantity only and moves the item count by the difference; an unknown id changes nothing |
| ShoppingCart.ShoppingCartService.ClearCart | app/services/shopping-cart.ts:59-61 | the cart is empty with item count and subtotal 0 |
| DebouncedSearches.Waiter.BeginAsync | app/utils/debounced-search.ts:5 | a fresh token joins the outstanding tokens |
| DebouncedSearches.Waiter.EndAsync | app/utils/debounced-search.ts:5 | the token moves from outstanding to completed |
| DebouncedSearches.DebouncedSearch.constructor | app/utils/debounced-search.ts:8-9 | no timer and no token |
| DebouncedSearches.DebouncedSearch.IsPending | app/utils/debounced-search.ts:69-71 | true exactly when a timer handle is set |
| DebouncedSearches.DebouncedSearch.Cancel | app/utils/debounced-search.ts:53-64 | not pending and no token afterwards; a held token is ended once, and with none held the waiter is untouched, so a second cancel changes nothing; every token begun has been ended |
| DebouncedSearches.DebouncedSearch.Search | app/utils/debounced-search.ts:24-48 | pending on the new timer with the new query; the previous token ended (moved to the waiter's completed tokens) and exactly one fresh token held and outstanding |
| DebouncedSearches.DebouncedSearch.Fire | app/utils/debounced-search.ts:35-39 | the handle is cleared before the callback starts, which gets the query of the last `search`; the token and the captured query are kept |
| DebouncedSearches.DebouncedSearch.CallbackDone | app/utils/debounced-search.ts:40-46 | only a started callback can settle; it ends whatever token is current at that moment, moving it to the waiter's completed tokens, and clears it; the timer is untouched |
| DebouncedSearches.LastQueryWinsScenario | tests/unit/utils/debounced-search-test.ts:30-56 | two quick searches reach the callback once, with the second query, and leave nothing pending or outstanding |
| DebouncedSearches.CancelScenario | tests/unit/utils/debounced-search-test.ts:58-80 | cancel stops a pending search and ends its token; cancelling again changes nothing |
| DebouncedSearches.StaleCallbackScenario | app/utils/debounced-search.ts:30-46 | as written: a search made while the previous callback runs loses its token when that callback settles, so it is pending with nothing outstanding |
| DebouncedSearches.GuardedDebouncedSearch.PendingHoldsToken | app/utils/debounced-search.ts:29-47 | in the corrected class a pending search always holds exactly one outstanding token |
| DebouncedSearches.GuardedDebouncedSearch.Search | app/utils/debounced-search.ts:24-48 | as `DebouncedSearch.Search`, with the corrected invariant kept |
| DebouncedSearches.GuardedDebouncedSearch.Cancel | app/utils/debounced-search.ts:53-64 | as `DebouncedSearch.Cancel`, with the corrected invariant kept |
| DebouncedSearches.GuardedDebouncedSearch.Fire | app/utils/debounced-search.ts:35-39 | the callback starts with the last query and captures the current token |
| DebouncedSearches.GuardedDebouncedSearch.CallbackDone | app/utils/debounced-search.ts:40-46 | a settling callback ends its captured token only while it is still current; a newer search's token and timer are left alone |
| DebouncedSearches.GuardedStaleCallbackScenario | app/utils/debounced-search.ts:30-46 | in the corrected class the same sequence leaves the new search pending with its one token outstanding |
| Base64.LetterOf | app/services/session.ts:24 | every six-bit value has an alphabet letter that decodes back to it |
| Base64.EncodeLetters | app/services/session.ts:24 | the encoding's letters are all in the alphabet; four per full group of three bytes, and two or three for a final one or two bytes |
| Base64.EncodeGroup | app/services/session.ts:24 | three bytes become four alphabet letters; `GroupRoundTrip` decodes them back |
| Base64.Padding | app/services/session.ts:24 | no `=` for a length that is a multiple of 3, otherwise the `=` signs that bring the last group to four characters |
| Base64.Encode | app/services/session.ts:24 | the padded encoding's length is a multiple of 4 |
| Base64.Btoa | app/services/session.ts:24 | `btoa` fails exactly on a code unit above 255, and otherwise yields the padded encoding |
| Base64.RemoveWhitespace | app/services/session.ts:52 | the cleaned input holds no ASCII whitespace, is no longer than the input, and holds exactly the input's other characters |
| Base64.RemoveWhitespaceOfAppend | app/services/session.ts:52 | whitespace removal distributes over concatenation, so the kept characters stay in their order |
| Base64.RemoveWhitespaceOfChar | app/services/session.ts:52 | a single character is dropped exactly when it is ASCII whitespace |
| Base64.StripPadding | app/services/session.ts:52 | only a length that is a multiple of 4 loses anything, and what it loses is at most two trailing `=`; the rest is a prefix of the input |
| Base64.DecodeQuad | app/services/session.ts:52 | four six-bit values become three bytes; `GroupRoundTrip` shows they invert `EncodeGroup` |
| Base64.DecodeLetters | app/services/session.ts:52 | the decoded text fits in bytes |
| Base64.Atob | app/services/session.ts:52 | a successful decode is a byte string |
| Base64.GroupRoundTrip | app/services/session.ts:24-52 | four letters of three bytes decode back to the bytes |
| Base64.LettersRoundTrip | app/services/session.ts:24-52 | decoding the letters of any byte string's encoding gives the string back |
| Base64.StripPaddingOfEncoding | app/services/session.ts:24-52 | the padding `btoa` adds is exactly what `atob` strips |
| Base64.EncodingHasNoWhitespace | app/services/session.ts:24-52 | an encoding holds no whitespace for `atob` to remove |
| Base64.RoundTrip | app/services/session.ts:24-52 | `atob(btoa(s))` is `s` for every `s` that `btoa` accepts |
| Base64.UnpaddedLengthRejected | app/services/session.ts:52-68 | input without whitespace whose length is 1 more than a multiple of 4 never decodes |
| Base64.InvalidTokenRejected | tests/unit/services/session-test.ts:81-89 | `atob("invalid-token")` throws |
| Base64.ForeignCharRejected | app/services/session.ts:52 | a character that is not an alphabet letter, whitespace or `=` makes `atob` fail, wherever it stands |
| Base64.InvalidTokenHyphen | tests/unit/services/session-test.ts:81-89 | `atob("invalid-token")` fails because of its `-`, whatever its length |
| Session.BeforeColon | app/services/session.ts:53 | `split(':')[0]`: a colon-free prefix of the text that ends at the first colon or at the end |
| Session.TokenEmail | app/services/session.ts:52-55 | both ways: an email is read from a token exactly when the token decodes and the text before the first colon is non-empty, and it is then that colon-free text |
| Session.TokenEmailOfJoin | app/services/session.ts:52-61 | any token that decodes to `e:rest`, whoever wrote it, names `e` when `e` is non-empty and colon-free |
| Session.LoginToken | app/services/session.ts:24 | the `login` token has a length that is a multiple of 4 and decodes to `email:timestamp` |
| Session.TimestampedIsLatin1 | app/services/session.ts:24 | `email:timestamp` is acceptable to `btoa` whenever the email is |
| Session.BeforeColonOfJoin | app/services/session.ts:24-53 | splitting `a:b` at the first colon gives back a colon-free `a` |
| Session.LoginTokenRestores | app/services/session.ts:24-53 | a token written by `login` names the same email when that email is non-empty, colon-free and fits in bytes |
| Session.DemoTokenRestores | app/services/session.ts:19-55 | every token issued for the demo account restores to it |
| Session.LocalStorage.GetItem | app/services/session.ts:45 | the stored value exactly when the key is present |
| Session.LocalStorage.SetItem | app/services/session.ts:31 | the map with the key set to the value |
| Session.LocalStorage.RemoveItem | app/services/session.ts:41 | the map without the key |
| Session.SessionService.constructor | app/services/session.ts:12-14 | a new service is signed out and valid |
| Session.SessionService.SignIn | app/services/session.ts:56-61 | the three fields are set together for the email the token names, keeping the invariant |
| Session.SessionService.Login | app/services/session.ts:17-35 | the demo credentials sign in as `John Doe` with the token for `now`, stored under `auth-token`; any other credentials throw `Invalid email or password` and change no field and no storage entry |
| Session.SessionService.Logout | app/services/session.ts:37-42 | signed out, all three fields cleared, `auth-token` removed |
| Session.SessionService.RestoreSession | app/services/session.ts:44-69 | a missing or empty token changes nothing; a token naming an email signs it in with that token and leaves storage; any other token is removed from storage and the fields stay as they were |
| Session.PersistAcrossReloadScenario | tests/acceptance/authentication-test.ts:42-54 | after a login, a new service over the same storage restores the demo user |
| Session.WrongPasswordScenario | tests/unit/services/session-test.ts:35-49 | a wrong password throws the documented message, and nobody is signed in or stored |
| Session.InvalidTokenScenario | tests/unit/services/session-test.ts:81-89 | an invalid stored token is removed and nobody is signed in |
| Session.LogoutTwiceScenario | tests/unit/services/session-test.ts:51-67 | logging out twice leaves the same storage as logging out once, without `auth-token` |
| GlobalSearch.TrimStartSpec | app/services/global-search.ts:22 | trimming the start drops exactly a whitespace prefix, ending at a non-whitespace character or at the end |
| GlobalSearch.TrimEndSpec | app/services/global-search.ts:22 | trimming the end drops exactly a whitespace suffix, ending at a non-whitespace character or at the start |
| GlobalSearch.TrimSpec | app/services/global-search.ts:22 | `trim()` keeps one slice of the input, and every character before or after that slice is whitespace |
| GlobalSearch.TrimStart | app/services/global-search.ts:22 | the result is no longer than the input and does not start with whitespace; `TrimStartSpec` shows it is the input minus its whitespace prefix |
| GlobalSearch.TrimEnd | app/services/global-search.ts:22 | the result is no longer than the input and does not end with whitespace; `TrimEndSpec` shows it is the input minus its whitespace suffix |
| GlobalSearch.Trim | app/services/global-search.ts:22 | `trim()`: no longer than the input, and empty or neither starting nor ending with whitespace; `TrimSpec` shows it is the input minus its whitespace prefix and suffix |
| GlobalSearch.BlankIffAllWhitespace | app/services/global-search.ts:22 | `query.trim()` is empty exactly when every character is whitespace |
| GlobalSearch.ResultTitle | app/services/global-search.ts:28-29 | a result title contains the query |
| GlobalSearch.MockSearch | app/services/global-search.ts:18-31 | `mockSearch`: no results for a blank query and two for any other; `MockSearchShape` gives their ids, titles and descriptions |
| GlobalSearch.MockSearchShape | app/services/global-search.ts:18-31 | a blank query finds nothing; any other finds two results with ids `1` and `2`, titles containing the query and no description |
| GlobalSearch.WordQueryHasTwoResults | tests/unit/services/global-search-test.ts:14-21 | a query starting with a lowercase ASCII letter gets both results |
| GlobalSearch.LastSuccessful | app/services/global-search.ts:59 | there is a last successful value exactly when some instance finished |
| GlobalSearch.LastSuccessfulAfterUnfinished | app/services/global-search.ts:38-59 | starting or cancelling an instance leaves the last successful value alone |
| GlobalSearch.LastSuccessfulAfterFinished | app/services/global-search.ts:54-59 | the newest finished instance's results become the last successful value |
| GlobalSearch.CancelNewest | app/services/global-search.ts:72-74 | cancelling the newest instance marks it cancelled with its query kept, and leaves every older instance as it was |
| GlobalSearch.CancelNewestFacts | app/services/global-search.ts:72-74 | cancelling the running instance leaves nothing running, keeps every history entry backed by its instance and keeps the last successful value |
| GlobalSearch.StartFacts | app/services/global-search.ts:38 | starting an instance when none runs keeps every history entry backed and the last successful value |
| GlobalSearch.FinishFacts | app/services/global-search.ts:42-54 | the running instance finishing backs its new history entry and makes its results the last successful value |
| GlobalSearch.GlobalSearchService.constructor | app/services/global-search.ts:34 | no history and no task instance |
| GlobalSearch.GlobalSearchService.IsSearching | app/services/global-search.ts:62-64 | under the invariant, searching exactly when some instance runs |
| GlobalSearch.GlobalSearchService.Results | app/services/global-search.ts:58-60 | no results before any instance finished; afterwards the last successful value |
| GlobalSearch.GlobalSearchService.LastQuery | app/services/global-search.ts:66-69 | undefined exactly for an empty history, otherwise the newest entry's query |
| GlobalSearch.GlobalSearchService.Perform | app/services/global-search.ts:38 | a running instance is cancelled first and a new one runs; the history and `results` are unchanged; at most one instance runs |
| GlobalSearch.GlobalSearchService.Complete | app/services/global-search.ts:40-54 | the running instance finishes with the mock results; exactly one entry is appended with its query, the time and the result count; earlier entries stay; `results` and `lastQuery` follow |
| GlobalSearch.GlobalSearchService.CancelAllSearches | app/services/global-search.ts:72-74 | nothing is searching afterwards; no history entry is added and `results` is unchanged |
| GlobalSearch.GlobalSearchService.ClearHistory | app/services/global-search.ts:76-78 | the history is empty and `lastQuery` is undefined; the task is untouched |
| GlobalSearch.HistoryScenario | tests/unit/services/global-search-test.ts:52-77 | two awaited searches append one entry each, with two results, and the last query is the second |
| GlobalSearch.RestartableScenario | tests/unit/services/global-search-test.ts:105-123 | a second search cancels the first, and only the second reaches the history |
| GlobalSearch.CancelScenario | tests/unit/services/global-search-test.ts:79-90 | cancelling a running search stops it and leaves no results |
| OrHelper.Qualifies | app/helpers/or.ts:2 | every number, array and object qualifies, 0 included; whatever does not qualify is falsy for the logical-or operator too |
| OrHelper.FirstQualifying | app/helpers/or.ts:2 | where `find` stops: no earlier argument qualifies, and the argument there does |
| OrHelper.Or | app/helpers/or.ts:1-3 | undefined exactly when no argument qualifies; otherwise the first qualifying argument, which is one of the arguments |
| OrHelper.OrFirstArgumentWins | app/helpers/or.ts:2 | a qualifying first argument is the result whatever follows |
| OrHelper.OrOperatorChain | app/helpers/or.ts:2 | the reference chain of the logical-or operator: its value is one of the operands, and is truthy whenever some operand is |
| OrHelper.OrMatchesOperatorWithoutZero | app/helpers/or.ts:2 | when some argument qualifies and none is 0, `or` picks what a chain of JavaScript's logical-or operator picks |
| OrHelper.OrKeepsZero | app/helpers/or.ts:2 | for any further arguments, `or` keeps a leading 0, while a chain of JavaScript's logical-or operator skips it and picks from the rest |

## Left out

- Timers, the event loop, `waitForPromise`, the internals of `buildWaiter`, and the scheduling of the ember-concurrency task. These are library machinery. The model has explicit step events instead: `BeginLoad`/`Settle`, `Search`/`Fire`/`CallbackDone` and `Perform`/`Complete`. Any interleaving of those steps can be expressed.
- The 50 ms simulated latency in `login` and the 300 ms delays in `mockSearch` and the search task. `Login` is one atomic step. A search instance finishes only through `Complete`.
- `@tracked`/`@cached` reactivity, `registerDestructor` wiring, `attemptedTransition`, the theme service, routes and static data. These are framework and UI concerns. One consequence is not modelled: `addItem` bumps `existingItem.quantity` in place without reassigning the tracked `items` (`app/services/shopping-cart.ts:32`), unlike `updateQuantity` (`app/services/shopping-cart.ts:54`), so the `@cached` `itemCount` and `subtotal` getters (`app/services/shopping-cart.ts:14-22`) may keep an earlier value after it. `ItemCount` and `Subtotal` are the uncached sums, and `AddItem`'s growth by one is stated for those. This is read from the code and not executed.
- `Date.now()` and `new Date()` are parameters (`now`). A history timestamp is that integer.
- JsValues.IntToDecimal: spells every integer positionally. JavaScript's `String(n)` switches to exponent form (`1e+21`) from 10^21 in magnitude; the model does not switch, so its spelling differs from JavaScript's for those magnitudes. Timestamps from `Date.now()` are far below 10^21.
- Floating-point numbers. Prices and quantities are integers, for example cents, so subtotals have no rounding. `String(v)` is modelled for integers, strings, booleans, null, undefined, arrays and plain objects, not for fractional numbers.
- ShoppingCart.ShoppingCartService.AddItem: the line is replaced by an updated value. The source increments `existingItem.quantity` in place on the shared object. Aliasing of cart items by other holders is not modelled.
- ShoppingCart.ShoppingCartService.UpdateQuantity: same reason as `AddItem`; the line is replaced by an updated value.
- The fetch function of `AsyncResource` is environment. Each `Settle` receives the settlement. A fetch that honours its signal is modelled only in the scenarios, through `SignalHonouringFetch`.
- AsyncResources.AsyncResource.Settle: flag exclusivity is stated only while loads have never overlapped. After an overlap the source lets a stale load's settlement write the state, and the model keeps that.
- GlobalSearch.GlobalSearchService.Complete: the history entry's `resultCount` is stated by `Complete`'s postcondition. The class invariant does not restate it.
- `btoa`/`atob` work on code units below 256, the only ones `btoa` accepts. `atob` is the forgiving decoder: ASCII whitespace is dropped, padding is optional, and leftover bits are ignored. Unicode handling beyond that is not modelled.

## Findings

| source | as written | input that shows it | evidently intended | confidence | as-written member | corrected member |
|---|---|---|---|---|---|---|
| app/utils/debounced-search.ts:40-46 | the timer callback's `finally` ends whatever `currentToken` holds when the callback settles | `search("a")`, the timer fires and the callback for `a` starts, `search("b")`, then the callback for `a` settles: it ends the token of `b`, so `isPending` is true while the waiter holds no token and test helpers stop waiting | a callback ends only the token its own search began, so a pending search always holds an outstanding token | medium, not executed | `DebouncedSearches.StaleCallbackScenario` (on `DebouncedSearches.DebouncedSearch.CallbackDone`) | `DebouncedSearches.GuardedDebouncedSearch.CallbackDone`, with `DebouncedSearches.GuardedDebouncedSearch.PendingHoldsToken` and `DebouncedSearches.GuardedStaleCallbackScenario` |
