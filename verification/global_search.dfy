/**
 * `GlobalSearchService`: one restartable search task shared by every
 * component, a history of completed searches, and the mock search backend.
 *
 * The task is modelled by its instances: `Perform` starts one, `Complete`
 * is the moment the running one has waited out its delays and finishes, and
 * `CancelAllSearches` cancels it. Timers and the scheduling of the task
 * library are not modelled; the clock is a parameter.
 */
module GlobalSearch {
  import opened Wrappers

  datatype SearchResult = SearchResult(id: string, title: string, description: Option<string>)

  datatype HistoryEntry = HistoryEntry(query: string, timestamp: int, resultCount: nat)

  datatype RunState = Running | Cancelled | Finished

  /** One `perform` of the task and the query it was given. */
  datatype TaskInstance = TaskInstance(query: string, state: RunState)

  /** The characters `String.prototype.trim` removes: the ECMAScript
      WhiteSpace and LineTerminator code points. */
  predicate IsTrimmable(c: char) {
    || c == '\t' || c == '\n' || c == '\U{000B}' || c == '\U{000C}' || c == '\r' || c == ' '
    || c == '\U{00A0}' || c == '\U{1680}' || ('\U{2000}' <= c <= '\U{200A}')
    || c == '\U{2028}' || c == '\U{2029}' || c == '\U{202F}' || c == '\U{205F}'
    || c == '\U{3000}' || c == '\U{FEFF}'
  }

  /** `s` without its leading whitespace. */
  function TrimStart(s: string): (r: string)
    ensures |r| <= |s|
    ensures r == [] || !IsTrimmable(r[0])
  {
    if s != [] && IsTrimmable(s[0]) then TrimStart(s[1..]) else s
  }

  /** `s` without its trailing whitespace. */
  function TrimEnd(s: string): (r: string)
    ensures |r| <= |s|
    ensures r == [] || !IsTrimmable(r[|r| - 1])
  {
    if s != [] && IsTrimmable(s[|s| - 1]) then TrimEnd(s[..|s| - 1]) else s
  }

  /** `s.trim()`. */
  function Trim(s: string): (r: string)
    ensures |r| <= |s|
    ensures r == [] || (!IsTrimmable(r[0]) && !IsTrimmable(r[|r| - 1]))
  {
    var start := TrimStart(s);
    var r := TrimEnd(start);
    TrimEndSpec(start);
    assert r != [] ==> r[0] == start[0];
    r
  }

  /** `trim()` keeps one slice of the input, starting where the whitespace
      prefix ends; everything outside that slice is whitespace. */
  lemma TrimSpec(s: string)
    ensures var i, r := |s| - |TrimStart(s)|, Trim(s);
      && i + |r| <= |s| && r == s[i..i + |r|]
      && (forall k :: 0 <= k < i ==> IsTrimmable(s[k]))
      && (forall k :: i + |r| <= k < |s| ==> IsTrimmable(s[k]))
  {
    var start := TrimStart(s);
    TrimStartSpec(s);
    TrimEndSpec(start);
    SliceOfSlice(s, start, TrimEnd(start));
  }

  /** A prefix `r` of a suffix `start` of `s` is a slice of `s`, and what
      follows `r` in `start` is what follows that slice in `s`. */
  lemma SliceOfSlice(s: string, start: string, r: string)
    requires |start| <= |s| && start == s[|s| - |start|..]
    requires |r| <= |start| && r == start[..|r|]
    requires forall k :: |r| <= k < |start| ==> IsTrimmable(start[k])
    ensures var i := |s| - |start|;
      r == s[i..i + |r|] && forall k :: i + |r| <= k < |s| ==> IsTrimmable(s[k])
  {
    var i := |s| - |start|;
    forall k | i + |r| <= k < |s| ensures IsTrimmable(s[k]) {
      assert s[k] == start[k - i];
    }
  }

  /** `TrimStart` drops a whitespace prefix and keeps the rest, which is
      empty or starts with a character that is not whitespace. */
  lemma {:induction false} TrimStartSpec(s: string)
    ensures var r := TrimStart(s);
      && |r| <= |s| && r == s[|s| - |r|..]
      && (forall i :: 0 <= i < |s| - |r| ==> IsTrimmable(s[i]))
      && (r != [] ==> !IsTrimmable(r[0]))
  {
    if s != [] && IsTrimmable(s[0]) {
      TrimStartSpec(s[1..]);
      var r := TrimStart(s);
      forall i | 0 <= i < |s| - |r| ensures IsTrimmable(s[i]) {
        if i > 0 {
          assert s[i] == s[1..][i - 1];
        }
      }
    }
  }

  /** `TrimEnd` drops a whitespace suffix and keeps the rest, which is empty
      or ends with a character that is not whitespace. */
  lemma {:induction false} TrimEndSpec(s: string)
    ensures var r := TrimEnd(s);
      && |r| <= |s| && r == s[..|r|]
      && (forall i :: |r| <= i < |s| ==> IsTrimmable(s[i]))
      && (r != [] ==> !IsTrimmable(r[|r| - 1]))
  {
    if s != [] && IsTrimmable(s[|s| - 1]) {
      TrimEndSpec(s[..|s| - 1]);
      var r := TrimEnd(s);
      forall i | |r| <= i < |s| ensures IsTrimmable(s[i]) {
        if i < |s| - 1 {
          assert s[i] == s[..|s| - 1][i];
        }
      }
    }
  }

  /** `!query.trim()`. */
  predicate IsBlank(query: string) {
    Trim(query) == ""
  }

  /** The trimmed query is empty exactly when every character is whitespace. */
  lemma BlankIffAllWhitespace(query: string)
    ensures IsBlank(query) <==> forall i :: 0 <= i < |query| ==> IsTrimmable(query[i])
  {
    var start := TrimStart(query);
    TrimStartSpec(query);
    TrimEndSpec(start);
    if start != [] {
      assert query[|query| - |start|] == start[0];
      assert !IsTrimmable(start[0]);
    }
  }

  /** `part` occurs in `text` starting at index `i`. */
  predicate OccursAt(text: string, part: string, i: int) {
    0 <= i && i + |part| <= |text| && text[i..i + |part|] == part
  }

  /** `text.includes(part)`. */
  ghost predicate Contains(text: string, part: string) {
    exists i :: OccursAt(text, part, i)
  }

  /** The title of the `n`th mock result: the query in quotes, then `#n`. */
  function ResultTitle(query: string, n: string): (title: string)
    ensures Contains(title, query)
  {
    var prefix := "Global result for \"";
    var title := prefix + query + "\" #" + n;
    assert title[|prefix|..|prefix| + |query|] == query;
    assert OccursAt(title, query, |prefix|);
    title
  }

  /** `mockSearch`, without its delay. */
  function MockSearch(query: string): (r: seq<SearchResult>)
    ensures |r| == if IsBlank(query) then 0 else 2
  {
    if IsBlank(query) then []
    else [SearchResult("1", ResultTitle(query, "1"), None), SearchResult("2", ResultTitle(query, "2"), None)]
  }

  /** A blank query finds nothing; any other finds results `1` and `2`,
      whose titles quote the query and which carry no description. */
  lemma MockSearchShape(query: string)
    ensures IsBlank(query) ==> MockSearch(query) == []
    ensures !IsBlank(query) ==>
      var r := MockSearch(query);
      && |r| == 2 && r[0].id == "1" && r[1].id == "2"
      && Contains(r[0].title, query) && Contains(r[1].title, query)
      && r[0].description == None && r[1].description == None
  {
  }

  /** A query that starts with a letter is not blank, so it gets both results. */
  lemma WordQueryHasTwoResults(query: string)
    requires query != [] && 'a' <= query[0] <= 'z'
    ensures |MockSearch(query)| == 2
  {
    BlankIffAllWhitespace(query);
    assert !IsTrimmable(query[0]);
  }

  /** `lastSuccessful.value` of the task: the results of the most recent
      instance that finished, if any did. */
  function LastSuccessful(instances: seq<TaskInstance>): (r: Option<seq<SearchResult>>)
    ensures r.None? <==> forall i :: 0 <= i < |instances| ==> instances[i].state != Finished
  {
    if instances == [] then None
    else if instances[|instances| - 1].state == Finished then Some(MockSearch(instances[|instances| - 1].query))
    else LastSuccessful(instances[..|instances| - 1])
  }

  /** Appending an instance that has not finished leaves the last success as it was. */
  lemma LastSuccessfulAfterUnfinished(instances: seq<TaskInstance>, t: TaskInstance)
    requires t.state != Finished
    ensures LastSuccessful(instances + [t]) == LastSuccessful(instances)
  {
    assert (instances + [t])[..|instances|] == instances;
  }

  /** Appending a finished instance makes its results the last success. */
  lemma LastSuccessfulAfterFinished(instances: seq<TaskInstance>, query: string)
    ensures LastSuccessful(instances + [TaskInstance(query, Finished)]) == Some(MockSearch(query))
  {
  }

  /** Only the newest instance may still be running. */
  ghost predicate OnlyNewestRuns(instances: seq<TaskInstance>) {
    forall i :: 0 <= i < |instances| - 1 ==> instances[i].state != Running
  }

  /** Every history entry was appended by its own instance, in the order the
      instances started, and that instance finished with the entry's query. */
  ghost predicate RecordedBy(history: seq<HistoryEntry>, origin: seq<nat>, instances: seq<TaskInstance>) {
    && |origin| == |history|
    && (forall j :: 0 <= j < |history| ==>
          origin[j] < |instances| && instances[origin[j]] == TaskInstance(history[j].query, Finished))
    && (forall j, k :: 0 <= j < k < |origin| ==> origin[j] < origin[k])
  }

  /** The instances after the newest one is cancelled. */
  function CancelNewest(instances: seq<TaskInstance>): (r: seq<TaskInstance>)
    requires |instances| > 0
    ensures |r| == |instances| && r[|r| - 1].state == Cancelled
    ensures r[|r| - 1].query == instances[|r| - 1].query
    ensures forall i :: 0 <= i < |r| - 1 ==> r[i] == instances[i]
  {
    instances[|instances| - 1 := instances[|instances| - 1].(state := Cancelled)]
  }

  /** Cancelling the running newest instance leaves nothing running, keeps
      every history entry accounted for and leaves the last success alone. */
  lemma CancelNewestFacts(instances: seq<TaskInstance>, history: seq<HistoryEntry>, origin: seq<nat>)
    requires |instances| > 0 && instances[|instances| - 1].state == Running
    requires OnlyNewestRuns(instances) && RecordedBy(history, origin, instances)
    ensures var c := CancelNewest(instances);
      && OnlyNewestRuns(c) && c[|c| - 1].state == Cancelled
      && RecordedBy(history, origin, c)
      && LastSuccessful(c) == LastSuccessful(instances)
  {
    var n := |instances| - 1;
    var c := CancelNewest(instances);
    assert instances == instances[..n] + [instances[n]];
    assert c == instances[..n] + [c[n]];
    LastSuccessfulAfterUnfinished(instances[..n], instances[n]);
    LastSuccessfulAfterUnfinished(instances[..n], c[n]);
  }

  /** Starting an instance when none runs keeps every history entry
      accounted for and leaves the last success alone. */
  lemma StartFacts(instances: seq<TaskInstance>, history: seq<HistoryEntry>, origin: seq<nat>, query: string)
    requires |instances| == 0 || instances[|instances| - 1].state != Running
    requires OnlyNewestRuns(instances) && RecordedBy(history, origin, instances)
    ensures var s := instances + [TaskInstance(query, Running)];
      && OnlyNewestRuns(s)
      && RecordedBy(history, origin, s)
      && LastSuccessful(s) == LastSuccessful(instances)
  {
    StartKeepsRecords(instances, history, origin, query);
    LastSuccessfulAfterUnfinished(instances, TaskInstance(query, Running));
  }

  lemma StartKeepsRecords(instances: seq<TaskInstance>, history: seq<HistoryEntry>, origin: seq<nat>, query: string)
    requires |instances| == 0 || instances[|instances| - 1].state != Running
    requires OnlyNewestRuns(instances) && RecordedBy(history, origin, instances)
    ensures var s := instances + [TaskInstance(query, Running)];
      OnlyNewestRuns(s) && RecordedBy(history, origin, s)
  {
    var s := instances + [TaskInstance(query, Running)];
    forall i | 0 <= i < |instances| ensures s[i] == instances[i] {
    }
  }

  /** The running newest instance finishing with query `q`: its history entry
      is accounted for by it, and its results become the last success. */
  lemma FinishFacts(instances: seq<TaskInstance>, history: seq<HistoryEntry>, origin: seq<nat>, now: int)
    requires |instances| > 0 && instances[|instances| - 1].state == Running
    requires OnlyNewestRuns(instances) && RecordedBy(history, origin, instances)
    ensures var n := |instances| - 1;
      var q := instances[n].query;
      var f := instances[n := TaskInstance(q, Finished)];
      && OnlyNewestRuns(f)
      && RecordedBy(history + [HistoryEntry(q, now, |MockSearch(q)|)], origin + [n], f)
      && LastSuccessful(f) == Some(MockSearch(q))
  {
    var n := |instances| - 1;
    var q := instances[n].query;
    var f := instances[n := TaskInstance(q, Finished)];
    assert f == instances[..n] + [TaskInstance(q, Finished)];
    LastSuccessfulAfterFinished(instances[..n], q);
    forall j | 0 <= j < |history| ensures origin[j] < n {
      assert instances[origin[j]].state == Finished;
    }
  }

  class GlobalSearchService {
    var searchHistory: seq<HistoryEntry>
    /** Every instance the task has started, oldest first. */
    var instances: seq<TaskInstance>
    /** For each history entry, the instance that appended it. */
    ghost var origin: seq<nat>

    /** At most one instance runs, and only the newest; every history entry
        was appended by a distinct instance that finished with that query. */
    ghost predicate Valid()
      reads this
    {
      OnlyNewestRuns(instances) && RecordedBy(searchHistory, origin, instances)
    }

    constructor ()
      ensures Valid()
      ensures searchHistory == [] && instances == []
    {
      searchHistory, instances, origin := [], [], [];
    }

    /** `searchTask.isRunning`. Under the invariant, the newest instance is
        the only one that can be running. */
    function IsSearching(): (b: bool)
      reads this
      ensures Valid() ==> (b <==> exists i :: 0 <= i < |instances| && instances[i].state == Running)
    {
      |instances| > 0 && instances[|instances| - 1].state == Running
    }

    /** The `results` getter: the last successful value, or no results. */
    function Results(): (r: seq<SearchResult>)
      reads this
      ensures (forall i :: 0 <= i < |instances| ==> instances[i].state != Finished) ==> r == []
      ensures (exists i :: 0 <= i < |instances| && instances[i].state == Finished) ==>
              r == LastSuccessful(instances).value
    {
      match LastSuccessful(instances)
      case None => []
      case Some(value) => value
    }

    /** The `lastQuery` getter: the query of the newest history entry, if any. */
    function LastQuery(): (r: Option<string>)
      reads this
      ensures r.None? <==> searchHistory == []
      ensures r.Some? ==> r.value == searchHistory[|searchHistory| - 1].query
    {
      if searchHistory == [] then None else Some(searchHistory[|searchHistory| - 1].query)
    }

    /** `searchTask.perform(query)`: being restartable, the task first cancels
        the instance still running, then starts a new one. The history is untouched. */
    method Perform(query: string) returns (handle: nat)
      requires Valid()
      modifies this
      ensures Valid()
      ensures handle == |instances| - 1 && instances[handle] == TaskInstance(query, Running)
      ensures old(IsSearching()) ==> instances == CancelNewest(old(instances)) + [TaskInstance(query, Running)]
      ensures !old(IsSearching()) ==> instances == old(instances) + [TaskInstance(query, Running)]
      ensures IsSearching()
      ensures searchHistory == old(searchHistory)
      ensures Results() == old(Results())
    {
      if IsSearching() {
        CancelNewestFacts(instances, searchHistory, origin);
        instances := CancelNewest(instances);
      }
      StartFacts(instances, searchHistory, origin, query);
      instances := instances + [TaskInstance(query, Running)];
      handle := |instances| - 1;
    }

    /** The running instance gets past both delays: it computes the mock
        results, appends one history entry stamped `now` with the result count,
        finishes, and its results become `results`. */
    method Complete(now: int) returns (results: seq<SearchResult>)
      requires Valid() && IsSearching()
      modifies this
      ensures Valid()
      ensures var q := old(instances)[|old(instances)| - 1].query;
        && results == MockSearch(q)
        && searchHistory == old(searchHistory) + [HistoryEntry(q, now, |results|)]
        && instances == old(instances)[|old(instances)| - 1 := TaskInstance(q, Finished)]
      ensures !IsSearching()
      ensures Results() == results
      ensures LastQuery() == Some(old(instances)[|old(instances)| - 1].query)
    {
      var n := |instances| - 1;
      var q := instances[n].query;
      FinishFacts(instances, searchHistory, origin, now);
      results := MockSearch(q);
      instances := instances[n := TaskInstance(q, Finished)];
      searchHistory := searchHistory + [HistoryEntry(q, now, |results|)];
      origin := origin + [n];
    }

    /** `cancelAllSearches`: the running instance, if any, is cancelled;
        nothing is searching afterwards and no history entry is added. */
    method CancelAllSearches()
      requires Valid()
      modifies this
      ensures Valid()
      ensures !IsSearching()
      ensures old(IsSearching()) ==> instances == CancelNewest(old(instances))
      ensures !old(IsSearching()) ==> instances == old(instances)
      ensures searchHistory == old(searchHistory)
      ensures Results() == old(Results())
    {
      if IsSearching() {
        CancelNewestFacts(instances, searchHistory, origin);
        instances := CancelNewest(instances);
      }
    }

    /** `clearHistory`: the history is emptied; the task is untouched. */
    method ClearHistory()
      requires Valid()
      modifies this
      ensures Valid()
      ensures searchHistory == [] && LastQuery() == None
      ensures instances == old(instances)
    {
      searchHistory := [];
      origin := [];
    }
  }

  /** Two searches awaited one after the other: each appends its own entry
      with two results, and the last query is the second one. */
  method HistoryScenario(t1: int, t2: int) returns (history: seq<HistoryEntry>, last: Option<string>)
    ensures |history| == 2
    ensures history[0] == HistoryEntry("first", t1, 2) && history[1] == HistoryEntry("second", t2, 2)
    ensures last == Some("second")
  {
    var service := new GlobalSearchService();
    WordQueryHasTwoResults("first");
    WordQueryHasTwoResults("second");
    var h := service.Perform("first");
    var r := service.Complete(t1);
    h := service.Perform("second");
    r := service.Complete(t2);
    history, last := service.searchHistory, service.LastQuery();
  }

  /** A second `perform` before the first finishes: the first instance is
      cancelled and only the second search reaches the history. */
  method RestartableScenario(now: int) returns (firstCancelled: bool, history: seq<HistoryEntry>)
    ensures firstCancelled
    ensures |history| == 1 && history[0].query == "second"
  {
    var service := new GlobalSearchService();
    var task1 := service.Perform("first");
    var task2 := service.Perform("second");
    firstCancelled := service.instances[task1].state == Cancelled;
    var r := service.Complete(now);
    history := service.searchHistory;
  }

  /** Cancelling a running search stops it; results stay empty. */
  method CancelScenario() returns (searchingBefore: bool, searching: bool, results: seq<SearchResult>)
    ensures searchingBefore && !searching && results == []
  {
    var service := new GlobalSearchService();
    var h := service.Perform("query");
    searchingBefore := service.IsSearching();
    service.CancelAllSearches();
    searching, results := service.IsSearching(), service.Results();
  }
}
