/** The session memory: the last target and library size used, the recent queries and a
    summary of their results, kept to the last ten queries. The JSON file behind it is not
    modelled: a stored memory is handed to the constructor, and every save records the memory
    in the ghost field `persisted` — unless the storage is not writable, in which case the
    failure is swallowed and the old snapshot stays. Timestamps and session identifiers, which
    the system takes from the clock, are parameters. */
module MemoryModule {
  import opened Wrappers
  import opened Records

  /** How many queries the history keeps. */
  const HistoryLimit: nat := 10

  /** `{timestamp, query}`. */
  datatype QueryEntry = QueryEntry(timestamp: string, query: Query)

  /** `{timestamp, target, best_score, num_hits}`. */
  datatype ResultSummary = ResultSummary(timestamp: string, target: Option<string>, bestScore: Option<int>, numHits: nat)

  /** What `update_context` reads from a non-empty results dictionary: `target_id`,
      `best_score` (either may be absent) and the number of `top_hits` (0 when absent). */
  datatype ResultsView = ResultsView(targetId: Option<string>, bestScore: Option<int>, numHits: nat)

  /** The memory dictionary. */
  datatype MemoryState = MemoryState(
    sessionId: string,
    lastTarget: Option<string>,
    lastLibrarySize: Option<nat>,
    queryHistory: seq<QueryEntry>,
    resultsHistory: seq<ResultSummary>)

  /** A new memory: nothing remembered, empty histories. */
  function Fresh(sessionId: string): (m: MemoryState)
    ensures m.lastTarget == None && m.lastLibrarySize == None
    ensures m.queryHistory == [] && m.resultsHistory == []
    ensures m.sessionId == sessionId
  {
    MemoryState(sessionId, None, None, [], [])
  }

  /** The last `min(n, |s|)` entries of `s`: Python's `s[-n:]` for `n > 0` (the histories use
      `n = 10`; Python's `s[-0:]` would be the whole list). */
  function LastN<T>(s: seq<T>, n: nat): (r: seq<T>)
    ensures |r| == if |s| < n then |s| else n
    ensures r == s[|s| - |r|..]
  {
    if |s| <= n then s else s[|s| - n..]
  }

  /** The history limits a memory keeps once it has been updated: at most ten queries, and no
      more result summaries than queries. */
  predicate Bounded(m: MemoryState) {
    |m.queryHistory| <= HistoryLimit && |m.resultsHistory| <= |m.queryHistory|
  }

  /** The summaries one update adds: one when the results dictionary is non-empty. */
  function NewSummaries(results: Option<ResultsView>, timestamp: string): (s: seq<ResultSummary>)
    ensures |s| == (if results.Some? then 1 else 0)
  {
    match results
    case Some(v) => [ResultSummary(timestamp, v.targetId, v.bestScore, v.numHits)]
    case None => []
  }

  /** The memory after `update_context(query, results)`. Both histories are cut to their last
      ten entries, but only when the query history has grown past ten. */
  function Updated(m: MemoryState, query: Query, results: Option<ResultsView>, queryTime: string, resultTime: string)
    : (r: MemoryState)
    ensures r.sessionId == m.sessionId
    ensures query.target.Some? ==> r.lastTarget == query.target
    ensures query.target.None? ==> r.lastTarget == m.lastTarget
    ensures query.librarySize.Some? ==> r.lastLibrarySize == query.librarySize
    ensures query.librarySize.None? ==> r.lastLibrarySize == m.lastLibrarySize
  {
    var lastTarget := if "target" in query.Keys() then query.target else m.lastTarget;
    var lastLibrarySize := if "library_size" in query.Keys() then query.librarySize else m.lastLibrarySize;
    var queries := m.queryHistory + [QueryEntry(queryTime, query)];
    var summaries := m.resultsHistory + NewSummaries(results, resultTime);
    if |queries| > HistoryLimit then
      MemoryState(m.sessionId, lastTarget, lastLibrarySize, LastN(queries, HistoryLimit), LastN(summaries, HistoryLimit))
    else
      MemoryState(m.sessionId, lastTarget, lastLibrarySize, queries, summaries)
  }

  /** Each update records its query as the newest history entry, keeps the entries before it
      in order, and lets the history grow by one up to the limit. */
  lemma UpdateRecordsQuery(m: MemoryState, query: Query, results: Option<ResultsView>, queryTime: string, resultTime: string)
    ensures var r := Updated(m, query, results, queryTime, resultTime);
            |r.queryHistory| == (if |m.queryHistory| < HistoryLimit then |m.queryHistory| + 1 else HistoryLimit)
            && r.queryHistory[|r.queryHistory| - 1] == QueryEntry(queryTime, query)
            && r.queryHistory[..|r.queryHistory| - 1]
               == m.queryHistory[|m.queryHistory| + 1 - |r.queryHistory|..]
  {
    var all := m.queryHistory + [QueryEntry(queryTime, query)];
    var r := Updated(m, query, results, queryTime, resultTime);
    assert r.queryHistory == LastN(all, HistoryLimit);
    assert r.queryHistory[..|r.queryHistory| - 1] == all[|all| - |r.queryHistory|..|all| - 1];
  }

  /** From a bounded memory, one update leaves the last ten queries and the last ten result
      summaries, the new ones included: the result summaries are a window of their own even
      though the code cuts them only when the query history overflows. */
  lemma UpdateKeepsWindows(m: MemoryState, query: Query, results: Option<ResultsView>, queryTime: string, resultTime: string)
    requires Bounded(m)
    ensures var r := Updated(m, query, results, queryTime, resultTime);
            r.queryHistory == LastN(m.queryHistory + [QueryEntry(queryTime, query)], HistoryLimit)
            && r.resultsHistory == LastN(m.resultsHistory + NewSummaries(results, resultTime), HistoryLimit)
  {
  }

  /** From a bounded memory, an update leaves a bounded memory. */
  lemma UpdatePreservesBounds(m: MemoryState, query: Query, results: Option<ResultsView>, queryTime: string, resultTime: string)
    requires Bounded(m)
    ensures Bounded(Updated(m, query, results, queryTime, resultTime))
  {
  }

  /** One call of `update_context`. */
  datatype Update = Update(query: Query, results: Option<ResultsView>, queryTime: string, resultTime: string)

  function Apply(m: MemoryState, u: Update): MemoryState {
    Updated(m, u.query, u.results, u.queryTime, u.resultTime)
  }

  /** The memory after a series of updates, first to last. */
  function ApplyAll(m: MemoryState, us: seq<Update>): MemoryState
    decreases |us|
  {
    if us == [] then m else ApplyAll(Apply(m, us[0]), us[1..])
  }

  /** Every query entry a series of updates records. */
  function QueryEntries(us: seq<Update>): (s: seq<QueryEntry>)
    ensures |s| == |us|
  {
    if us == [] then [] else [QueryEntry(us[0].queryTime, us[0].query)] + QueryEntries(us[1..])
  }

  /** Every result summary a series of updates records. */
  function ResultEntries(us: seq<Update>): (s: seq<ResultSummary>)
    ensures |s| <= |us|
  {
    if us == [] then [] else NewSummaries(us[0].results, us[0].resultTime) + ResultEntries(us[1..])
  }

  lemma LastNOfLastN<T>(s: seq<T>, t: seq<T>, n: nat)
    ensures LastN(LastN(s, n) + t, n) == LastN(s + t, n)
  {
    if |s| > n {
      var u := s[|s| - n..];
      assert (s + t)[|s| - n..] == u + t;
      if |u + t| > n {
        assert (u + t)[|u + t| - n..] == (s + t)[|s + t| - n..];
      }
    }
  }

  /** After any series of updates from a bounded memory, the histories hold exactly the last
      ten queries and the last ten result summaries ever recorded, in order. */
  lemma {:induction false} HistoriesAreLastTen(m: MemoryState, us: seq<Update>)
    requires Bounded(m)
    ensures Bounded(ApplyAll(m, us))
    ensures ApplyAll(m, us).queryHistory == LastN(m.queryHistory + QueryEntries(us), HistoryLimit)
    ensures ApplyAll(m, us).resultsHistory == LastN(m.resultsHistory + ResultEntries(us), HistoryLimit)
    decreases |us|
  {
    if us == [] {
      assert m.queryHistory + QueryEntries(us) == m.queryHistory;
      assert m.resultsHistory + ResultEntries(us) == m.resultsHistory;
    } else {
      var u, rest := us[0], us[1..];
      var m1 := Apply(m, u);
      UpdateKeepsWindows(m, u.query, u.results, u.queryTime, u.resultTime);
      UpdatePreservesBounds(m, u.query, u.results, u.queryTime, u.resultTime);
      HistoriesAreLastTen(m1, rest);
      assert ApplyAll(m, us) == ApplyAll(m1, rest);
      WindowStep(m.queryHistory, [QueryEntry(u.queryTime, u.query)], QueryEntries(rest), QueryEntries(us));
      WindowStep(m.resultsHistory, NewSummaries(u.results, u.resultTime), ResultEntries(rest), ResultEntries(us));
    }
  }

  /** Cutting to the window after each step or once at the end is the same. */
  lemma WindowStep<T>(prior: seq<T>, first: seq<T>, rest: seq<T>, all: seq<T>)
    requires all == first + rest
    ensures LastN(LastN(prior + first, HistoryLimit) + rest, HistoryLimit) == LastN(prior + all, HistoryLimit)
  {
    LastNOfLastN(prior + first, rest, HistoryLimit);
    assert prior + first + rest == prior + all;
  }

  /** What `get_context` reports. */
  datatype ContextView = ContextView(lastTarget: Option<string>, lastLibrarySize: Option<nat>, queriesCount: nat, sessionId: string)

  /** The reply of the memory agent's `execute`: `{context, status: "success"}`,
      `{message: "Memory cleared", status: "success"}` or `{error, status: "failed"}`. */
  datatype MemoryReply =
    | ContextReply(context: ContextView)
    | Cleared(message: string)
    | UnknownOperation(error: string)
  {
    function Status(): string {
      if UnknownOperation? then "failed" else "success"
    }
  }

  /** The memory agent. */
  class MemoryModule {
    var memory: MemoryState
    ghost var persisted: Option<MemoryState>

    /** `__init__`: the stored memory when there is one that can be read, else a new one. */
    constructor (stored: Option<MemoryState>, sessionId: string)
      ensures stored.Some? ==> memory == stored.value
      ensures stored.None? ==> memory == Fresh(sessionId)
      ensures persisted == stored
    {
      memory := if stored.Some? then stored.value else Fresh(sessionId);
      persisted := stored;
    }

    /** `save_memory`: the snapshot is the memory when the storage takes it; a failure leaves
        the last snapshot and raises nothing. */
    method SaveMemory(writable: bool)
      modifies this
      ensures memory == old(memory)
      ensures persisted == if writable then Some(memory) else old(persisted)
    {
      if writable {
        persisted := Some(memory);
      }
    }

    /** `update_context`, followed by a save. */
    method UpdateContext(query: Query, results: Option<ResultsView>, queryTime: string, resultTime: string, writable: bool)
      modifies this
      ensures memory == Updated(old(memory), query, results, queryTime, resultTime)
      ensures persisted == if writable then Some(memory) else old(persisted)
    {
      if "target" in query.Keys() {
        memory := memory.(lastTarget := query.target);
      }
      if "library_size" in query.Keys() {
        memory := memory.(lastLibrarySize := query.librarySize);
      }
      memory := memory.(queryHistory := memory.queryHistory + [QueryEntry(queryTime, query)]);
      if results.Some? {
        var summary := ResultSummary(resultTime, results.value.targetId, results.value.bestScore, results.value.numHits);
        memory := memory.(resultsHistory := memory.resultsHistory + [summary]);
      }
      if |memory.queryHistory| > HistoryLimit {
        memory := memory.(queryHistory := LastN(memory.queryHistory, HistoryLimit),
                          resultsHistory := LastN(memory.resultsHistory, HistoryLimit));
      }
      SaveMemory(writable);
    }

    /** `get_last_target`: the target of the latest query that had one, None when the memory is
        fresh or cleared. */
    function GetLastTarget(): (t: Option<string>)
      reads this
      ensures t == memory.lastTarget
    {
      memory.lastTarget
    }

    /** `get_last_library_size`: the size of the latest query that had one, None when the
        memory is fresh or cleared. */
    function GetLastLibrarySize(): (n: Option<nat>)
      reads this
      ensures n == memory.lastLibrarySize
    {
      memory.lastLibrarySize
    }

    /** `get_context`: a read that reports the remembered values and the number of queries. */
    function GetContext(): (c: ContextView)
      reads this
      ensures c.lastTarget == memory.lastTarget && c.lastLibrarySize == memory.lastLibrarySize
      ensures c.queriesCount == |memory.queryHistory| && c.sessionId == memory.sessionId
    {
      ContextView(memory.lastTarget, memory.lastLibrarySize, |memory.queryHistory|, memory.sessionId)
    }

    /** `clear_memory`: a new memory under a new session id, then a save. */
    method ClearMemory(sessionId: string, writable: bool)
      modifies this
      ensures memory == Fresh(sessionId)
      ensures persisted == if writable then Some(memory) else old(persisted)
    {
      memory := Fresh(sessionId);
      SaveMemory(writable);
    }

    /** `execute`: the operation defaults to `get_context`; only `clear` changes the memory. */
    method Execute(operation: Option<string>, sessionId: string, writable: bool) returns (r: MemoryReply)
      modifies this
      ensures operation.GetOr("get_context") == "get_context" ==>
                r == ContextReply(GetContext()) && memory == old(memory) && persisted == old(persisted)
      ensures operation.GetOr("get_context") == "clear" ==>
                r == Cleared("Memory cleared") && memory == Fresh(sessionId)
                && persisted == (if writable then Some(memory) else old(persisted))
      ensures operation.GetOr("get_context") !in {"get_context", "clear"} ==>
                r == UnknownOperation("Unknown operation: " + operation.value)
                && memory == old(memory) && persisted == old(persisted)
      ensures r.Status() == "success" <==> operation.GetOr("get_context") in {"get_context", "clear"}
    {
      var op := operation.GetOr("get_context");
      if op == "get_context" {
        r := ContextReply(GetContext());
      } else if op == "clear" {
        ClearMemory(sessionId, writable);
        r := Cleared("Memory cleared");
      } else {
        r := UnknownOperation("Unknown operation: " + op);
      }
    }
  }

  /** A new memory and a cleared one are bounded. */
  lemma FreshIsBounded(sessionId: string)
    ensures Bounded(Fresh(sessionId))
  {
  }
}
