/**
 * `AsyncResource`: loading state around one caller-supplied fetch function.
 *
 * The asynchronous `load()` is split at its only suspension point:
 * `BeginLoad` is the synchronous part up to the call of the fetch function,
 * and `Settle` is the continuation that runs when the promise it returned
 * settles. Other operations may run in between. The fetch function itself is
 * the environment: each settlement names the controller of the load it
 * belongs to and the way its promise settled.
 */
module AsyncResources {
  import opened Wrappers
  import opened JsValues

  /** An `Error` object: its `name`, its `message`, and whether it is a `DOMException`. */
  datatype ErrorObj = ErrorObj(name: string, message: string, isDomException: bool)

  /** What a rejected promise carries: an Error object or any other value. */
  datatype Thrown = ThrownError(err: ErrorObj) | ThrownValue(value: JsValue)

  /** How the promise returned by the fetch function settled. */
  datatype Settlement = Resolved(value: JsValue) | Rejected(reason: Thrown)

  /** `err instanceof DOMException && err.name === 'AbortError'`. */
  predicate IsAbortError(t: Thrown)
    ensures t == AbortRejection ==> IsAbortError(t)
    ensures t.ThrownValue? ==> !IsAbortError(t)
    ensures t.ThrownError? && !t.err.isDomException ==> !IsAbortError(t)
  {
    t.ThrownError? && t.err.isDomException && t.err.name == "AbortError"
  }

  /** The rejection a fetch function that honours its signal produces on abort. */
  const AbortRejection: Thrown := ThrownError(ErrorObj("AbortError", "Aborted", true))

  /** `err instanceof Error ? err : new Error(String(err))`. */
  function ToError(t: Thrown): (e: ErrorObj)
    ensures t.ThrownError? ==> e == t.err
    ensures t.ThrownValue? ==> e.name == "Error" && !e.isDomException && e.message == ToJsString(t.value)
  {
    match t
    case ThrownError(err) => err
    case ThrownValue(v) => ErrorObj("Error", ToJsString(v), false)
  }

  /** An `AbortController` together with its signal's `aborted` flag. */
  class AbortController {
    var aborted: bool

    constructor ()
      ensures !aborted
    {
      aborted := false;
    }

    /** `abort()`: marks the signal aborted; aborting twice is harmless. */
    method Abort()
      modifies this
      ensures aborted
    {
      aborted := true;
    }
  }

  class AsyncResource {
    var isLoading: bool
    var isError: bool
    var isSuccess: bool
    var data: JsValue
    var error: Option<ErrorObj>
    var abortController: AbortController?
    /** How many times the fetch function has been called. */
    var fetchCalls: nat

    /** Controllers of the loads that have begun and not yet settled. */
    ghost var pending: set<AbortController>
    /** Whether a load has ever begun while another was still pending. */
    ghost var overlapped: bool

    ghost predicate AtMostOneFlag()
      reads this
    {
      (isLoading ==> !isError && !isSuccess) && !(isError && isSuccess)
    }

    /** The class invariant. Only `BeginLoad` raises `isLoading`, and `isError`
        and `error` are always set and cleared together. As long as loads have
        never overlapped, the only pending load is the one with the current
        controller and the three flags exclude each other; after an overlap
        that no longer holds, because the settlement of an earlier load still
        writes the state. */
    ghost predicate Valid()
      reads this
    {
      && (isLoading ==> pending != {})
      && (isError <==> error.Some?)
      && (!overlapped ==>
            && (forall p :: p in pending ==> p == abortController)
            && AtMostOneFlag()
            && (pending != {} ==> !isError && !isSuccess))
    }

    /** A new resource is idle: no flag set, `data` and `error` null. */
    constructor ()
      ensures Valid()
      ensures !isLoading && !isError && !isSuccess
      ensures data == Null && error == None
      ensures abortController == null && fetchCalls == 0
      ensures pending == {} && !overlapped
    {
      isLoading, isError, isSuccess := false, false, false;
      data, error := Null, None;
      abortController := null;
      fetchCalls := 0;
      pending, overlapped := {}, false;
    }

    /** The synchronous start of `load()`: raise `isLoading`, clear the other
        flags and `error`, install a fresh controller without aborting the
        previous one, and call the fetch function once. `data` is kept. */
    method BeginLoad() returns (c: AbortController)
      requires Valid()
      modifies this
      ensures Valid()
      ensures fresh(c) && !c.aborted
      ensures isLoading && !isError && !isSuccess && error == None
      ensures data == old(data)
      ensures abortController == c
      ensures fetchCalls == old(fetchCalls) + 1
      ensures pending == old(pending) + {c}
      ensures overlapped == (old(overlapped) || old(pending) != {})
    {
      c := new AbortController();
      isLoading, isError, isSuccess, error := true, false, false, None;
      abortController, fetchCalls := c, fetchCalls + 1;
      overlapped, pending := overlapped || pending != {}, pending + {c};
    }

    /** The continuation of `load()` once the promise of the load that owns `c`
        settles. A value is stored as `data` with `isSuccess`; an AbortError
        only lowers `isLoading`; any other rejection becomes `error` with
        `isError`. No branch touches the flags the others set, and `isLoading`
        ends false in all three. */
    method Settle(c: AbortController, outcome: Settlement)
      requires Valid()
      requires c in pending
      modifies this
      ensures Valid()
      ensures !isLoading
      ensures pending == old(pending) - {c} && overlapped == old(overlapped)
      ensures abortController == old(abortController) && fetchCalls == old(fetchCalls)
      ensures outcome.Resolved? ==>
        data == outcome.value && isSuccess && isError == old(isError) && error == old(error)
      ensures outcome.Rejected? && IsAbortError(outcome.reason) ==>
        data == old(data) && isSuccess == old(isSuccess) && isError == old(isError) && error == old(error)
      ensures outcome.Rejected? && !IsAbortError(outcome.reason) ==>
        data == old(data) && isSuccess == old(isSuccess) && isError && error == Some(ToError(outcome.reason))
      // when loads have not overlapped, exactly the branch's own flag is left standing
      ensures !overlapped && outcome.Resolved? ==> isSuccess && !isError && error == None
      ensures !overlapped && outcome.Rejected? && IsAbortError(outcome.reason) ==>
        !isSuccess && !isError && error == None
      ensures !overlapped && outcome.Rejected? && !IsAbortError(outcome.reason) ==> isError && !isSuccess
    {
      match outcome {
        case Resolved(v) =>
          data := v;
          isSuccess := true;
        case Rejected(reason) =>
          if IsAbortError(reason) {
            isLoading := false;
          } else {
            error := Some(ToError(reason));
            isError := true;
          }
      }
      isLoading := false;
      pending := pending - {c};
    }

    /** `retry()` is `load()` again. */
    method Retry() returns (c: AbortController)
      requires Valid()
      modifies this
      ensures Valid()
      ensures fresh(c) && !c.aborted
      ensures isLoading && !isError && !isSuccess && error == None
      ensures data == old(data)
      ensures abortController == c
      ensures fetchCalls == old(fetchCalls) + 1
      ensures pending == old(pending) + {c}
      ensures overlapped == (old(overlapped) || old(pending) != {})
    {
      c := BeginLoad();
    }

    /** `cancel()` only aborts the current controller, if there is one; no
        field of the resource changes. */
    method Cancel()
      modifies abortController
      ensures abortController != null ==> abortController.aborted
      ensures unchanged(this)
    {
      if abortController != null {
        abortController.Abort();
      }
    }

    /** `reset()` clears every flag, `data` and `error`, then cancels. */
    method Reset()
      requires Valid()
      modifies this, abortController
      ensures Valid()
      ensures !isLoading && !isError && !isSuccess
      ensures data == Null && error == None
      ensures abortController == old(abortController)
      ensures abortController != null ==> abortController.aborted
      ensures fetchCalls == old(fetchCalls)
      ensures pending == old(pending) && overlapped == old(overlapped)
    {
      isLoading := false;
      isError := false;
      isSuccess := false;
      data := Null;
      error := None;
      Cancel();
    }

    /** The `isEmpty` getter: the data is an array with no elements. */
    function IsEmpty(): (b: bool)
      reads this
      ensures b <==> data == Arr([])
    {
      data.Arr? && |data.elems| == 0
    }
  }

  /** The fetch function of the cancellation test: it resolves with "data"
      unless its signal was aborted, in which case it rejects with an AbortError. */
  function SignalHonouringFetch(aborted: bool): (s: Settlement)
    ensures s.Rejected? <==> aborted
    ensures s.Rejected? ==> IsAbortError(s.reason)
  {
    if aborted then Rejected(AbortRejection) else Resolved(Str("data"))
  }

  /** A load whose fetch resolves: loading until it settles, then success with the value. */
  method ResolveScenario(v: JsValue) returns (loadingBefore: bool, loading: bool, success: bool, failed: bool, data: JsValue)
    ensures loadingBefore && !loading && success && !failed && data == v
  {
    var r := new AsyncResource();
    var c := r.BeginLoad();
    loadingBefore := r.isLoading && !r.isSuccess;
    r.Settle(c, Resolved(v));
    loading, success, failed, data := r.isLoading, r.isSuccess, r.isError, r.data;
  }

  /** A load whose fetch rejects with `Error("Failed")`: error state, message kept, data still null. */
  method FailureScenario() returns (failed: bool, message: string, success: bool, data: JsValue)
    ensures failed && message == "Failed" && !success && data == Null
  {
    var r := new AsyncResource();
    var c := r.BeginLoad();
    r.Settle(c, Rejected(ThrownError(ErrorObj("Error", "Failed", false))));
    failed, success, data := r.isError, r.isSuccess, r.data;
    message := if r.error.Some? then r.error.value.message else "";
  }

  /** The fetch fails the first time and resolves "success" the second: after
      `load()` the resource is in error, after `retry()` in success, and the
      fetch function ran exactly twice. */
  method RetryScenario() returns (failedFirst: bool, success: bool, failed: bool, data: JsValue, calls: nat)
    ensures failedFirst && success && !failed && data == Str("success") && calls == 2
  {
    var r := new AsyncResource();
    var c := r.BeginLoad();
    r.Settle(c, Rejected(ThrownError(ErrorObj("Error", "First attempt failed", false))));
    failedFirst := r.isError;
    c := r.Retry();
    r.Settle(c, Resolved(Str("success")));
    success, failed, data, calls := r.isSuccess, r.isError, r.data, r.fetchCalls;
  }

  /** `load()` then `cancel()` with a fetch that honours its signal: the
      resource ends with every flag down and no error. */
  method CancelScenario() returns (loading: bool, failed: bool, success: bool, hasError: bool)
    ensures !loading && !failed && !success && !hasError
  {
    var r := new AsyncResource();
    var c := r.BeginLoad();
    r.Cancel();
    r.Settle(c, SignalHonouringFetch(c.aborted));
    loading, failed, success, hasError := r.isLoading, r.isError, r.isSuccess, r.error.Some?;
  }

  /** A load that resolves with an empty array is a success and empty. */
  method EmptyArrayScenario() returns (empty: bool, success: bool)
    ensures empty && success
  {
    var r := new AsyncResource();
    var c := r.BeginLoad();
    r.Settle(c, Resolved(Arr([])));
    empty, success := r.IsEmpty(), r.isSuccess;
  }

  /** `reset()` after a success brings back the idle state and aborts the controller. */
  method ResetScenario() returns (loading: bool, failed: bool, success: bool, data: JsValue, aborted: bool)
    ensures !loading && !failed && !success && data == Null && aborted
  {
    var r := new AsyncResource();
    var c := r.BeginLoad();
    r.Settle(c, Resolved(Str("data")));
    r.Reset();
    loading, failed, success, data, aborted := r.isLoading, r.isError, r.isSuccess, r.data, c.aborted;
  }

  /** Two overlapping loads: the second `load()` does not abort the first, so
      the first one's failure still lands after the second began, and the
      second one's success then leaves `isError` and `isSuccess` both true,
      with the stale error still in place. */
  method OverlapScenario() returns (firstAborted: bool, failed: bool, success: bool, data: JsValue)
    ensures !firstAborted && failed && success && data == Str("second")
  {
    var r := new AsyncResource();
    var first := r.BeginLoad();
    var second := r.BeginLoad();
    firstAborted := first.aborted;
    r.Settle(first, Rejected(ThrownValue(Str("stale"))));
    r.Settle(second, Resolved(Str("second")));
    failed, success, data := r.isError, r.isSuccess, r.data;
  }
}
