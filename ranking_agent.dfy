/** The ranking agent: sorts the docking records by score (lower is better), writes each
    record's 1-based position into the record itself and keeps the first `top_n` as hits. */
module RankingAgent {
  import opened Wrappers
  import opened DockingAgent
  import BaseAgent

  /** Non-decreasing by docking score. */
  predicate SortedByScore(s: seq<DockingRecord>) {
    forall i, j :: 0 <= i < j < |s| ==> s[i].dockingScore <= s[j].dockingScore
  }

  /** The records of `s` whose score is `k`, in their order in `s`. Two lists that agree on
      this for every `k` hold the same records with equal scores in the same relative order. */
  function WithScore(s: seq<DockingRecord>, k: int): (r: seq<DockingRecord>)
    ensures |r| <= |s|
    ensures forall x :: x in r ==> x in s && x.dockingScore == k
  {
    if s == [] then []
    else (if s[0].dockingScore == k then [s[0]] else []) + WithScore(s[1..], k)
  }

  lemma {:induction false} WithScoreAppend(a: seq<DockingRecord>, b: seq<DockingRecord>, k: int)
    ensures WithScore(a + b, k) == WithScore(a, k) + WithScore(b, k)
  {
    if a == [] {
      assert a + b == b;
    } else {
      assert (a + b)[1..] == a[1..] + b;
      WithScoreAppend(a[1..], b, k);
    }
  }

  /** A record scoring below every element of a list has no peers there. */
  lemma {:induction false} WithScoreAbsent(s: seq<DockingRecord>, k: int)
    requires forall i :: 0 <= i < |s| ==> s[i].dockingScore > k
    ensures WithScore(s, k) == []
  {
    if s != [] {
      WithScoreAbsent(s[1..], k);
    }
  }

  /** Insert `x` after every leading record whose score is not greater than its own. */
  function Insert(x: DockingRecord, s: seq<DockingRecord>): (r: seq<DockingRecord>)
    ensures |r| == |s| + 1
    ensures multiset(r) == multiset(s) + multiset{x}
  {
    if s == [] then [x]
    else if x.dockingScore < s[0].dockingScore then [x] + s
    else
      assert s == [s[0]] + s[1..];
      [s[0]] + Insert(x, s[1..])
  }

  /** Inserting into a sorted list keeps it sorted. */
  lemma {:induction false} InsertSorted(x: DockingRecord, s: seq<DockingRecord>)
    requires SortedByScore(s)
    ensures SortedByScore(Insert(x, s))
    ensures forall i :: 0 <= i < |Insert(x, s)| ==> Insert(x, s)[i] == x || Insert(x, s)[i] in s
  {
    if s == [] {
    } else if x.dockingScore < s[0].dockingScore {
    } else {
      var t := Insert(x, s[1..]);
      InsertSorted(x, s[1..]);
      assert Insert(x, s) == [s[0]] + t;
      forall i | 0 <= i < |t| ensures s[0].dockingScore <= t[i].dockingScore {
        if t[i] != x {
          var j :| 0 <= j < |s[1..]| && s[1..][j] == t[i];
          assert s[1 + j] == t[i];
        }
      }
    }
  }

  /** Inserting `x` lets it join the end of its score group and leaves the other groups alone. */
  lemma {:induction false} InsertWithScore(x: DockingRecord, s: seq<DockingRecord>, k: int)
    requires SortedByScore(s)
    ensures WithScore(Insert(x, s), k) == WithScore(s, k) + (if x.dockingScore == k then [x] else [])
  {
    if s == [] {
    } else if x.dockingScore < s[0].dockingScore {
      if x.dockingScore == k {
        WithScoreAbsent(s, k);
      }
      assert ([x] + s)[1..] == s;
    } else {
      var t := s[1..];
      SortedTail(s);
      InsertWithScore(x, t, k);
      var u := Insert(x, t);
      assert Insert(x, s) == [s[0]] + u;
      assert ([s[0]] + u)[1..] == u;
    }
  }

  /** `sorted(docking_results, key=lambda x: x['docking_score'])`, as an insertion sort that
      takes the records in input order. */
  function SortByScore(s: seq<DockingRecord>): (r: seq<DockingRecord>)
    ensures |r| == |s|
    ensures multiset(r) == multiset(s)
  {
    if s == [] then []
    else
      assert s == s[..|s| - 1] + [s[|s| - 1]];
      Insert(s[|s| - 1], SortByScore(s[..|s| - 1]))
  }

  /** The result is ordered by score, lowest first. */
  lemma {:induction false} SortIsSorted(s: seq<DockingRecord>)
    ensures SortedByScore(SortByScore(s))
  {
    if s != [] {
      SortIsSorted(s[..|s| - 1]);
      InsertSorted(s[|s| - 1], SortByScore(s[..|s| - 1]));
    }
  }

  /** The sort is stable: within each score group the records keep their input order. */
  lemma {:induction false} SortIsStable(s: seq<DockingRecord>, k: int)
    ensures WithScore(SortByScore(s), k) == WithScore(s, k)
  {
    if s != [] {
      var init, last := s[..|s| - 1], s[|s| - 1];
      var tail := if last.dockingScore == k then [last] else [];
      SortIsSorted(init);
      calc {
        WithScore(SortByScore(s), k);
        WithScore(Insert(last, SortByScore(init)), k);
        { InsertWithScore(last, SortByScore(init), k); }
        WithScore(SortByScore(init), k) + tail;
        { SortIsStable(init, k); }
        WithScore(init, k) + tail;
        { assert [last][1..] == []; assert WithScore([last], k) == tail; }
        WithScore(init, k) + WithScore([last], k);
        { WithScoreAppend(init, [last], k); assert init + [last] == s; }
        WithScore(s, k);
      }
    }
  }

  /** A sorted list that groups like the input is that one list: Python's `sorted`, which is
      stable, returns exactly what `SortByScore` returns. */
  lemma {:induction false} StableSortIsUnique(a: seq<DockingRecord>, b: seq<DockingRecord>)
    requires SortedByScore(a) && SortedByScore(b)
    requires forall k :: WithScore(a, k) == WithScore(b, k)
    ensures a == b
  {
    if a == [] {
      if b != [] {
        GroupOfHead(b);
        assert false;
      }
    } else if b == [] {
      GroupOfHead(a);
      assert false;
    } else {
      var m, n := a[0].dockingScore, b[0].dockingScore;
      GroupOfHead(a);
      GroupOfHead(b);
      assert WithScore(b, m) == WithScore(a, m);
      assert a[0] in WithScore(b, m);
      HeadIsLowest(b, a[0]);
      assert WithScore(a, n) == WithScore(b, n);
      assert b[0] in WithScore(a, n);
      HeadIsLowest(a, b[0]);
      assert m == n;
      assert a[0] == b[0];
      forall k ensures WithScore(a[1..], k) == WithScore(b[1..], k) {
        var lead := if m == k then [a[0]] else [];
        assert WithScore(a, k) == lead + WithScore(a[1..], k);
        assert WithScore(b, k) == lead + WithScore(b[1..], k);
        assert WithScore(a[1..], k) == WithScore(a, k)[|lead|..];
        assert WithScore(b[1..], k) == WithScore(b, k)[|lead|..];
      }
      SortedTail(a);
      SortedTail(b);
      StableSortIsUnique(a[1..], b[1..]);
      assert a == [a[0]] + a[1..] && b == [b[0]] + b[1..];
    }
  }

  /** The first record of a list heads its own score group. */
  lemma GroupOfHead(s: seq<DockingRecord>)
    requires s != []
    ensures WithScore(s, s[0].dockingScore) == [s[0]] + WithScore(s[1..], s[0].dockingScore)
  {
  }

  /** In a sorted list the first record scores lowest. */
  lemma HeadIsLowest(s: seq<DockingRecord>, x: DockingRecord)
    requires s != [] && SortedByScore(s) && x in s
    ensures s[0].dockingScore <= x.dockingScore
  {
    var j :| 0 <= j < |s| && s[j] == x;
    if j > 0 {
      assert s[0].dockingScore <= s[j].dockingScore;
    }
  }

  lemma SortedTail(s: seq<DockingRecord>)
    requires s != [] && SortedByScore(s)
    ensures SortedByScore(s[1..])
  {
    forall i, j | 0 <= i < j < |s| - 1 ensures s[1..][i].dockingScore <= s[1..][j].dockingScore {
      assert s[1..][i] == s[i + 1] && s[1..][j] == s[j + 1];
    }
  }

  /** A list without repeats is one in which every record occurs at most once. */
  lemma {:induction false} DistinctByCount(s: seq<DockingRecord>)
    ensures Distinct(s) <==> forall x :: multiset(s)[x] <= 1
  {
    if s != [] {
      var t := s[1..];
      DistinctByCount(t);
      assert s == [s[0]] + t;
      assert multiset(s) == multiset{s[0]} + multiset(t);
      if Distinct(s) {
        forall i, j | 0 <= i < j < |t| ensures t[i] != t[j] {
          assert t[i] == s[i + 1] && t[j] == s[j + 1];
        }
      }
      if forall x :: multiset(s)[x] <= 1 {
        assert multiset(s)[s[0]] <= 1;
        assert multiset(t)[s[0]] == 0;
        forall x ensures multiset(t)[x] <= 1 {
          assert multiset(s)[x] <= 1;
        }
        assert Distinct(t);
        forall i, j | 0 <= i < j < |s| ensures s[i] != s[j] {
          assert s[j] == t[j - 1];
          if i > 0 {
            assert s[i] == t[i - 1];
          } else {
            assert t[j - 1] in multiset(t);
          }
        }
      }
    }
  }

  /** Sorting does not repeat a record that the input holds once. */
  lemma SortKeepsDistinct(s: seq<DockingRecord>)
    requires Distinct(s)
    ensures Distinct(SortByScore(s))
  {
    DistinctByCount(s);
    DistinctByCount(SortByScore(s));
  }

  /** Python's slice `s[:n]`, negative `n` counting from the end. */
  function PyPrefix(s: seq<DockingRecord>, n: int): (r: seq<DockingRecord>)
    ensures r <= s
    ensures |r| == if n >= 0 then (if n < |s| then n else |s|) else (if |s| + n > 0 then |s| + n else 0)
  {
    if n >= 0 then s[..if n < |s| then n else |s|]
    else s[..if |s| + n > 0 then |s| + n else 0]
  }

  /** The part of the ranking agent's input dictionary it reads. */
  datatype RankingInput = RankingInput(dockingResults: Option<seq<DockingRecord>>, topN: Option<int>) {
    function Keys(): (keys: set<string>)
      ensures "docking_results" in keys <==> dockingResults.Some?
    {
      (if dockingResults.Some? then {"docking_results"} else {}) + (if topN.Some? then {"top_n"} else {})
    }

    /** The records the agent may write ranks into. */
    function Records(): seq<DockingRecord> {
      if dockingResults.Some? then dockingResults.value else []
    }
  }

  /** `{ranked_results, top_hits, best_score, status: "success"}` or the status-less
      `{error: "Missing docking_results field"}`. */
  datatype RankingResult =
    | Ranked(rankedResults: seq<DockingRecord>, topHits: seq<DockingRecord>, bestScore: Option<int>)
    | MissingDockingResults(error: string)
  {
    function Status(): Option<string> {
      if Ranked? then Some("success") else None
    }
  }

  /** `best_score`: the first hit's score, None when there are no hits. */
  function BestScore(topHits: seq<DockingRecord>): (b: Option<int>)
    ensures b.None? <==> topHits == []
    ensures b.Some? ==> exists i :: 0 <= i < |topHits| && topHits[i].dockingScore == b.value
    ensures b.Some? && SortedByScore(topHits) ==> forall i :: 0 <= i < |topHits| ==> b.value <= topHits[i].dockingScore
  {
    if topHits != [] then Some(topHits[0].dockingScore) else None
  }

  /** The best score is no worse than any input score. */
  lemma BestScoreIsMinimal(s: seq<DockingRecord>, n: int, x: DockingRecord)
    requires x in s
    requires BestScore(PyPrefix(SortByScore(s), n)).Some?
    ensures BestScore(PyPrefix(SortByScore(s), n)).value <= x.dockingScore
  {
    var sorted := SortByScore(s);
    SortIsSorted(s);
    assert x in multiset(sorted);
    var j :| 0 <= j < |sorted| && sorted[j] == x;
    assert sorted[0].dockingScore <= sorted[j].dockingScore;
  }

  /** The hits kept are at least as good as every record left out. */
  lemma TopHitsAreBest(s: seq<DockingRecord>, n: nat, h: DockingRecord, d: DockingRecord)
    requires h in PyPrefix(SortByScore(s), n)
    requires d in s && d !in PyPrefix(SortByScore(s), n)
    ensures h.dockingScore <= d.dockingScore
  {
    var sorted := SortByScore(s);
    SortIsSorted(s);
    var top := PyPrefix(sorted, n);
    assert top == sorted[..|top|];
    assert d in multiset(sorted);
    var j :| 0 <= j < |sorted| && sorted[j] == d;
    var i :| 0 <= i < |top| && top[i] == h;
    assert forall k :: 0 <= k < |top| ==> top[k] != d;
    assert sorted[i] == h;
  }

  /** The rank-writing loop: the record at position `i` gets rank `i + 1`. When a record occurs
      twice the later write wins, so only a list without repeats is guaranteed to read back
      its positions. */
  method WriteRanks(ranked: seq<DockingRecord>)
    modifies ranked
    ensures Distinct(ranked) ==> forall i :: 0 <= i < |ranked| ==> ranked[i].rank == Some(i + 1)
    ensures forall d :: d in ranked ==> d.rank.Some?
  {
    for i := 0 to |ranked|
      invariant Distinct(ranked) ==> forall j :: 0 <= j < i ==> ranked[j].rank == Some(j + 1)
      invariant forall j :: 0 <= j < i ==> ranked[j].rank.Some?
    {
      ranked[i].rank := Some(i + 1);
    }
  }

  /** `RankingAgent.execute`. The loop writes the positions into the input's own records, so
      the caller's docking list carries the ranks afterwards. */
  method Execute(input: RankingInput) returns (r: RankingResult)
    modifies input.Records()
    ensures input.dockingResults.None? ==> r == MissingDockingResults("Missing docking_results field")
    ensures input.dockingResults.Some? ==>
              r.Ranked?
              && r.rankedResults == SortByScore(input.dockingResults.value)
              && r.topHits == PyPrefix(r.rankedResults, input.topN.GetOr(5))
              && r.bestScore == BestScore(r.topHits)
    ensures r.Ranked? && Distinct(r.rankedResults) ==>
              forall i :: 0 <= i < |r.rankedResults| ==> r.rankedResults[i].rank == Some(i + 1)
    ensures forall d :: d in input.Records() ==> d.rank.Some?
  {
    if !BaseAgent.ValidateInput(input.Keys(), ["docking_results"]) {
      return MissingDockingResults("Missing docking_results field");
    }
    var dockingResults := input.dockingResults.value;
    assert input.Records() == dockingResults;
    var rankedResults := SortByScore(dockingResults);
    SameRecords(dockingResults, rankedResults);
    WriteRanks(rankedResults);
    var topHits := PyPrefix(rankedResults, input.topN.GetOr(5));
    r := Ranked(rankedResults, topHits, BestScore(topHits));
  }

  /** A list and a reordering of it hold the same records. */
  lemma SameRecords(a: seq<DockingRecord>, b: seq<DockingRecord>)
    requires multiset(a) == multiset(b)
    ensures forall i :: 0 <= i < |b| ==> b[i] in a
    ensures forall d :: d in a ==> d in b
  {
    forall d | d in a ensures d in b { assert d in multiset(a); }
    forall i | 0 <= i < |b| ensures b[i] in a { assert b[i] in multiset(b); }
  }
}
