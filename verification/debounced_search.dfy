/**
 * `DebouncedSearch`: runs a callback with the latest query once a timer
 * expires, and holds a token of the shared test waiter
 * `debounced-search:search` meanwhile so that test helpers wait for it.
 *
 * The timer is explicit: `Search` schedules it, `Fire` is the timer expiring
 * (the callback starts with the captured query), `CallbackDone` is the
 * callback's promise settling (the `finally` block), `Cancel` is `cancel()`.
 * Handles returned by `setTimeout` and waiter tokens are always truthy, so
 * the `if (this.timeoutId)` and `if (this.currentToken)` tests read as "is set".
 */
module DebouncedSearches {
  import opened Wrappers

  /** A token handed out by the waiter. */
  class WaiterToken {
    constructor () {}
  }

  /** The module-level test waiter: the tokens begun and not yet ended, and
      those already ended. Ending a token that was never begun is an error. */
  class Waiter {
    var outstanding: set<WaiterToken>
    var completed: set<WaiterToken>

    constructor ()
      ensures outstanding == {} && completed == {}
    {
      outstanding, completed := {}, {};
    }

    method BeginAsync() returns (t: WaiterToken)
      modifies this
      ensures fresh(t)
      ensures outstanding == old(outstanding) + {t} && completed == old(completed)
    {
      t := new WaiterToken();
      outstanding := outstanding + {t};
    }

    method EndAsync(t: WaiterToken)
      requires t in outstanding || t in completed
      modifies this
      ensures outstanding == old(outstanding) - {t} && completed == old(completed) + {t}
    {
      outstanding := outstanding - {t};
      completed := completed + {t};
    }
  }

  /** A set step the cancel and callback proofs use: once no begun token is
      left unended, the ended tokens are exactly the begun ones. */
  lemma AllEnded(begun: set<WaiterToken>, ended: set<WaiterToken>)
    requires ended <= begun && begun - ended == {}
    ensures ended == begun
  {
    forall t | t in begun ensures t in ended {
      assert t !in begun - ended;
    }
  }

  /** The class as written: the callback's `finally` ends whatever token is
      current when it runs. */
  class DebouncedSearch {
    const waiter: Waiter
    var timeoutId: Option<nat>
    var currentToken: Option<WaiterToken>
    /** The query captured by the scheduled timer callback. */
    var scheduledQuery: string

    /** Tokens this instance began, and those it ended. */
    ghost var begun: set<WaiterToken>
    ghost var ended: set<WaiterToken>
    /** Callbacks that started and have not settled yet. */
    ghost var running: nat

    /** Every token this instance ended was one it had begun and not yet
        ended, so none is ended twice; the only token it holds is the current
        one, and the waiter still counts it as outstanding. */
    ghost predicate Valid()
      reads this, waiter
    {
      && ended <= begun
      && begun - ended == (if currentToken.Some? then {currentToken.value} else {})
      && (currentToken.Some? ==> currentToken.value in waiter.outstanding)
    }

    constructor (w: Waiter)
      ensures Valid() && waiter == w
      ensures timeoutId == None && currentToken == None
      ensures begun == {} && ended == {} && running == 0
    {
      waiter := w;
      timeoutId, currentToken := None, None;
      scheduledQuery := "";
      begun, ended, running := {}, {}, 0;
    }

    /** The `isPending` getter. */
    function IsPending(): (b: bool)
      reads this
      ensures b <==> timeoutId != None
    {
      timeoutId.Some?
    }

    /** `cancel()`: clears the timer and ends the held token, if any. */
    method Cancel()
      requires Valid()
      modifies this, waiter
      ensures Valid()
      ensures !IsPending() && currentToken == None
      ensures begun == old(begun) && ended == begun
      ensures scheduledQuery == old(scheduledQuery) && running == old(running)
      ensures old(currentToken).Some? ==>
        waiter.outstanding == old(waiter.outstanding) - {old(currentToken).value} &&
        waiter.completed == old(waiter.completed) + {old(currentToken).value}
      ensures old(currentToken).None? ==> unchanged(waiter)
    {
      if timeoutId.Some? {
        timeoutId := None;
      }
      if currentToken.Some? {
        waiter.EndAsync(currentToken.value);
        ended := ended + {currentToken.value};
        currentToken := None;
      }
      AllEnded(begun, ended);
    }

    /** `search(query, callback, delay)`: cancels what is pending, begins one
        fresh waiter token and schedules the timer (with handle `handle`). */
    method Search(query: string, handle: nat)
      requires Valid()
      modifies this, waiter
      ensures Valid()
      ensures IsPending() && timeoutId == Some(handle) && scheduledQuery == query
      ensures currentToken.Some? && fresh(currentToken.value)
      ensures begun == old(begun) + {currentToken.value} && ended == old(begun)
      ensures begun - ended == {currentToken.value}
      ensures waiter.outstanding ==
        old(waiter.outstanding) - (if old(currentToken).Some? then {old(currentToken).value} else {})
        + {currentToken.value}
      ensures waiter.completed ==
        old(waiter.completed) + (if old(currentToken).Some? then {old(currentToken).value} else {})
      ensures running == old(running)
    {
      Cancel();
      var t := waiter.BeginAsync();
      currentToken := Some(t);
      begun := begun + {t};
      timeoutId := Some(handle);
      scheduledQuery := query;
    }

    /** The timer expires: the handle is cleared first, then the callback
        starts with the query the last `Search` captured. */
    method Fire() returns (query: string)
      requires Valid()
      requires IsPending()
      modifies this
      ensures Valid()
      ensures !IsPending()
      ensures query == old(scheduledQuery) && scheduledQuery == old(scheduledQuery)
      ensures currentToken == old(currentToken) && running == old(running) + 1
      ensures begun == old(begun) && ended == old(ended)
    {
      timeoutId := None;
      query := scheduledQuery;
      running := running + 1;
    }

    /** A started callback settles (resolved or thrown alike): the `finally`
        block ends the token that is current now and clears it. */
    method CallbackDone()
      requires Valid()
      requires running > 0
      modifies this, waiter
      ensures Valid()
      ensures currentToken == None && running == old(running) - 1
      ensures timeoutId == old(timeoutId) && scheduledQuery == old(scheduledQuery)
      ensures begun == old(begun) && ended == begun
      ensures old(currentToken).Some? ==>
        waiter.outstanding == old(waiter.outstanding) - {old(currentToken).value} &&
        waiter.completed == old(waiter.completed) + {old(currentToken).value}
      ensures old(currentToken).None? ==> unchanged(waiter)
    {
      if currentToken.Some? {
        waiter.EndAsync(currentToken.value);
        ended := ended + {currentToken.value};
        currentToken := None;
      }
      AllEnded(begun, ended);
      running := running - 1;
    }
  }

  /** Two searches in a row before the timer expires: only the second query
      reaches the callback, and afterwards nothing is pending or held. */
  method LastQueryWinsScenario() returns (calls: seq<string>, pending: bool, outstanding: set<WaiterToken>)
    ensures calls == ["second"] && !pending && outstanding == {}
  {
    var w := new Waiter();
    var d := new DebouncedSearch(w);
    d.Search("first", 1);
    d.Search("second", 2);
    var q := d.Fire();
    calls := [q];
    d.CallbackDone();
    pending, outstanding := d.IsPending(), w.outstanding;
  }

  /** `cancel()` before the timer expires: nothing pending, no token held,
      and a second `cancel()` changes nothing. */
  method CancelScenario() returns (pendingBefore: bool, pending: bool, outstanding: set<WaiterToken>, again: set<WaiterToken>)
    ensures pendingBefore && !pending && outstanding == {} && again == {}
  {
    var w := new Waiter();
    var d := new DebouncedSearch(w);
    d.Search("query", 1);
    pendingBefore := d.IsPending();
    d.Cancel();
    pending, outstanding := d.IsPending(), w.outstanding;
    d.Cancel();
    again := w.outstanding;
  }

  /** A new search while the previous callback is still running: when that
      callback settles, it ends the token of the new search, whose timer is
      still pending. The waiter then holds nothing although a search is pending. */
  method StaleCallbackScenario() returns (pending: bool, outstanding: set<WaiterToken>)
    ensures pending && outstanding == {}
  {
    var w := new Waiter();
    var d := new DebouncedSearch(w);
    d.Search("a", 1);
    var q := d.Fire();
    d.Search("b", 2);
    d.CallbackDone();
    pending, outstanding := d.IsPending(), w.outstanding;
  }

  /** The corrected class: each timer callback captures the token its search
      began and, when it settles, ends that token only if it is still the
      current one. A pending search then always holds a token. */
  class GuardedDebouncedSearch {
    const waiter: Waiter
    var timeoutId: Option<nat>
    var currentToken: Option<WaiterToken>
    var scheduledQuery: string

    ghost var begun: set<WaiterToken>
    ghost var ended: set<WaiterToken>
    /** Tokens captured by callbacks that started and have not settled yet. */
    ghost var running: set<WaiterToken>

    ghost predicate Valid()
      reads this, waiter
    {
      && ended <= begun
      && begun - ended == (if currentToken.Some? then {currentToken.value} else {})
      && (currentToken.Some? ==> currentToken.value in waiter.outstanding)
      && running <= begun
      && (timeoutId.Some? ==> currentToken.Some? && currentToken.value !in running)
    }

    constructor (w: Waiter)
      ensures Valid() && waiter == w
      ensures timeoutId == None && currentToken == None
      ensures begun == {} && ended == {} && running == {}
    {
      waiter := w;
      timeoutId, currentToken := None, None;
      scheduledQuery := "";
      begun, ended, running := {}, {}, {};
    }

    /** This class's copy of the `isPending` getter, unchanged from `DebouncedSearch`. */
    function IsPending(): (b: bool)
      reads this
      ensures b <==> timeoutId != None
    {
      timeoutId.Some?
    }

    /** Pending implies a held token that the waiter still counts. */
    lemma PendingHoldsToken()
      requires Valid() && IsPending()
      ensures currentToken.Some? && currentToken.value in waiter.outstanding
      ensures begun - ended == {currentToken.value}
    {
    }

    method Cancel()
      requires Valid()
      modifies this, waiter
      ensures Valid()
      ensures !IsPending() && currentToken == None
      ensures begun == old(begun) && ended == begun && running == old(running)
      ensures scheduledQuery == old(scheduledQuery)
      ensures old(currentToken).Some? ==>
        waiter.outstanding == old(waiter.outstanding) - {old(currentToken).value} &&
        waiter.completed == old(waiter.completed) + {old(currentToken).value}
      ensures old(currentToken).None? ==> unchanged(waiter)
    {
      if timeoutId.Some? {
        timeoutId := None;
      }
      if currentToken.Some? {
        waiter.EndAsync(currentToken.value);
        ended := ended + {currentToken.value};
        currentToken := None;
      }
      AllEnded(begun, ended);
    }

    method Search(query: string, handle: nat)
      requires Valid()
      modifies this, waiter
      ensures Valid()
      ensures IsPending() && timeoutId == Some(handle) && scheduledQuery == query
      ensures currentToken.Some? && fresh(currentToken.value)
      ensures begun == old(begun) + {currentToken.value} && ended == old(begun)
      ensures begun - ended == {currentToken.value}
      ensures waiter.outstanding ==
        old(waiter.outstanding) - (if old(currentToken).Some? then {old(currentToken).value} else {})
        + {currentToken.value}
      ensures waiter.completed ==
        old(waiter.completed) + (if old(currentToken).Some? then {old(currentToken).value} else {})
      ensures running == old(running)
    {
      Cancel();
      var t := waiter.BeginAsync();
      currentToken := Some(t);
      begun := begun + {t};
      timeoutId := Some(handle);
      scheduledQuery := query;
    }

    /** The timer expires; the callback starts with the query and captures the token. */
    method Fire() returns (query: string, token: WaiterToken)
      requires Valid()
      requires IsPending()
      modifies this
      ensures Valid()
      ensures !IsPending()
      ensures query == old(scheduledQuery) && scheduledQuery == old(scheduledQuery)
      ensures old(currentToken) == Some(token)
      ensures currentToken == old(currentToken) && running == old(running) + {token}
      ensures begun == old(begun) && ended == old(ended)
    {
      timeoutId := None;
      query := scheduledQuery;
      token := currentToken.value;
      running := running + {token};
    }

    /** The callback that captured `token` settles: it ends `token` only if that
        is still the current one, so it never ends a newer search's token. */
    method CallbackDone(token: WaiterToken)
      requires Valid()
      requires token in running
      modifies this, waiter
      ensures Valid()
      ensures running == old(running) - {token}
      ensures timeoutId == old(timeoutId) && scheduledQuery == old(scheduledQuery)
      ensures old(currentToken) == Some(token) ==>
        && currentToken == None && begun == old(begun) && ended == old(ended) + {token}
        && waiter.outstanding == old(waiter.outstanding) - {token}
        && waiter.completed == old(waiter.completed) + {token}
      ensures old(currentToken) != Some(token) ==>
        && currentToken == old(currentToken) && begun == old(begun) && ended == old(ended)
        && unchanged(waiter)
    {
      if currentToken == Some(token) {
        waiter.EndAsync(token);
        ended := ended + {token};
        currentToken := None;
      }
      running := running - {token};
    }
  }

  /** The stale-callback sequence on the corrected class: the new search keeps its token. */
  method GuardedStaleCallbackScenario() returns (pending: bool, held: nat)
    ensures pending && held == 1
  {
    var w := new Waiter();
    var d := new GuardedDebouncedSearch(w);
    d.Search("a", 1);
    var q, t := d.Fire();
    d.Search("b", 2);
    d.CallbackDone(t);
    pending, held := d.IsPending(), |w.outstanding|;
  }
}
