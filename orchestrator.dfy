/** The orchestrator: classifies a request, answers knowledge questions and memory operations
    directly, and runs the screening pipeline (parse the target, build or load a library,
    dock, rank, summarise) for everything else, remembering each request it completes. */
module Orchestrator {
  import opened Wrappers
  import opened PyStrings
  import opened Records
  import TargetParserAgent
  import LibraryGeneratorAgent
  import DockingAgent
  import RankingAgent
  import KnowledgeAgent
  import MemoryModule

  /** The four routes a request can take. */
  datatype QueryType = KnowledgeQuery | MemoryQuery | ScreeningQuery | UnknownQuery

  /** `_determine_query_type`, given what the memory holds as last target: the first test
      that succeeds decides. Only key presence counts, except for the remembered target,
      which must be truthy. */
  function DetermineQueryType(q: Query, lastTarget: Option<string>): (t: QueryType)
    ensures t == KnowledgeQuery <==> q.question.Some?
    ensures t == MemoryQuery <==> q.question.None? && q.memoryOperation.Some?
    ensures t == ScreeningQuery <==>
              q.question.None? && q.memoryOperation.None?
              && (q.target.Some? || q.smilesFile.Some? || (q.librarySize.Some? && TruthyString(lastTarget)))
  {
    var keys := q.Keys();
    if "question" in keys then KnowledgeQuery
    else if q.memoryOperation.Some? then MemoryQuery
    else if "target" in keys || "smiles_file" in keys then ScreeningQuery
    else if "library_size" in keys && TruthyString(lastTarget) then ScreeningQuery
    else UnknownQuery
  }

  /** The request after the memory fills in what it lacks: a missing `target` or
      `library_size` is taken from the memory when the remembered value is truthy. */
  function FillDefaults(q: Query, lastTarget: Option<string>, lastLibrarySize: Option<nat>): (r: Query)
    ensures r.target == (if q.target.None? && TruthyString(lastTarget) then lastTarget else q.target)
    ensures r.librarySize == (if q.librarySize.None? && TruthySize(lastLibrarySize) then lastLibrarySize else q.librarySize)
    ensures r.(target := q.target, librarySize := q.librarySize) == q
  {
    var withTarget := if q.target.None? && TruthyString(lastTarget) then q.(target := lastTarget) else q;
    if withTarget.librarySize.None? && TruthySize(lastLibrarySize) then withTarget.(librarySize := lastLibrarySize)
    else withTarget
  }

  /** The molecule a line of a SMILES file gives, numbered by its line: none for a blank line. */
  function LineMolecule(line: string, number: nat): seq<Molecule> {
    if Strip(line) != "" then [Molecule(LigandId(number), Strip(line))] else []
  }

  /** The molecules of a file's lines, the first line numbered 1. */
  function CustomMolecules(lines: seq<string>): (r: seq<Molecule>)
    ensures |r| <= |lines|
    ensures forall i :: 0 <= i < |r| ==> r[i].smiles != ""
    decreases |lines|
  {
    if lines == [] then []
    else CustomMolecules(lines[..|lines| - 1]) + LineMolecule(lines[|lines| - 1], |lines|)
  }

  /** The numbers, from 0, of the lines that are not blank once stripped. */
  function NonBlankLines(lines: seq<string>): (s: set<nat>)
    ensures forall i :: i in s ==> i < |lines|
    decreases |lines|
  {
    if lines == [] then {}
    else NonBlankLines(lines[..|lines| - 1]) + (if Strip(lines[|lines| - 1]) != "" then {|lines| - 1} else {})
  }

  /** The non-blank lines are exactly the lines whose strip is not empty. */
  lemma {:induction false} NonBlankLinesMembers(lines: seq<string>, i: nat)
    ensures i in NonBlankLines(lines) <==> i < |lines| && Strip(lines[i]) != ""
    decreases |lines|
  {
    if lines != [] && i < |lines| - 1 {
      var init := lines[..|lines| - 1];
      NonBlankLinesMembers(init, i);
      assert init[i] == lines[i];
    }
  }

  /** Line `i` of a file is not blank and gives molecule `m`. */
  predicate GivesMolecule(lines: seq<string>, i: int, m: Molecule) {
    0 <= i < |lines| && Strip(lines[i]) != "" && m == Molecule(LigandId(i + 1), Strip(lines[i]))
  }

  /** Each molecule of a file is some non-blank line, stripped, named after its line number
      (blank lines are counted), and each non-blank line gives one. */
  lemma {:induction false} CustomMoleculesAreTheNonBlankLines(lines: seq<string>, m: Molecule)
    ensures m in CustomMolecules(lines) <==> exists i :: GivesMolecule(lines, i, m)
    decreases |lines|
  {
    if lines != [] {
      var last := |lines| - 1;
      var init := lines[..last];
      var a := CustomMolecules(init);
      var b := LineMolecule(lines[last], |lines|);
      CustomMoleculesAreTheNonBlankLines(init, m);
      CustomMoleculesStep(lines);
      assert m in CustomMolecules(lines) <==> m in a || m in b;
      assert m in b <==> GivesMolecule(lines, last, m);
      if m in a {
        var i :| GivesMolecule(init, i, m);
        GivesMoleculeInPrefix(lines, i, m);
      }
      if i :| GivesMolecule(lines, i, m) {
        if i < last {
          GivesMoleculeInPrefix(lines, i, m);
        }
      }
    }
  }

  /** The last line adds its molecule, if any, at the end. */
  lemma CustomMoleculesStep(lines: seq<string>)
    requires lines != []
    ensures CustomMolecules(lines) == CustomMolecules(lines[..|lines| - 1]) + LineMolecule(lines[|lines| - 1], |lines|)
  {
  }

  /** A line before the last gives the same molecule in the file without its last line. */
  lemma GivesMoleculeInPrefix(lines: seq<string>, i: nat, m: Molecule)
    requires i < |lines| - 1
    ensures GivesMolecule(lines[..|lines| - 1], i, m) <==> GivesMolecule(lines, i, m)
  {
    assert lines[..|lines| - 1][i] == lines[i];
  }

  /** A file gives as many molecules as it has non-blank lines. */
  lemma {:induction false} CustomMoleculesCount(lines: seq<string>)
    ensures |CustomMolecules(lines)| == |NonBlankLines(lines)|
    decreases |lines|
  {
    if lines != [] {
      CustomMoleculesCount(lines[..|lines| - 1]);
      CountStep(lines);
    }
  }

  /** One line more adds one molecule exactly when it adds one non-blank line. */
  lemma CountStep(lines: seq<string>)
    requires lines != []
    requires |CustomMolecules(lines[..|lines| - 1])| == |NonBlankLines(lines[..|lines| - 1])|
    ensures |CustomMolecules(lines)| == |NonBlankLines(lines)|
  {
    var last := |lines| - 1;
    var a := CustomMolecules(lines[..last]);
    var b := LineMolecule(lines[last], |lines|);
    var sa := NonBlankLines(lines[..last]);
    var blank := Strip(lines[last]) == "";
    assert |b| == if blank then 0 else 1;
    CustomMoleculesStep(lines);
    assert CustomMolecules(lines) == a + b;
    assert NonBlankLines(lines) == sa + (if !blank then {last} else {});
    assert last !in sa;
  }

  /** `molecules` are the stripped lines, in order, numbered from L1. */
  predicate OnePerLine(lines: seq<string>, molecules: seq<Molecule>) {
    |molecules| == |lines|
    && forall i :: 0 <= i < |lines| ==> molecules[i] == Molecule(LigandId(i + 1), Strip(lines[i]))
  }

  /** A file without blank lines gives one molecule per line, in order, numbered from L1. */
  lemma {:induction false} FileWithoutBlankLines(lines: seq<string>)
    requires forall i :: 0 <= i < |lines| ==> Strip(lines[i]) != ""
    ensures OnePerLine(lines, CustomMolecules(lines))
    decreases |lines|
  {
    if lines != [] {
      var init := lines[..|lines| - 1];
      assert forall i :: 0 <= i < |init| ==> init[i] == lines[i];
      FileWithoutBlankLines(init);
      OnePerLineStep(lines);
    }
  }

  /** One more non-blank line adds its molecule at the end. */
  lemma OnePerLineStep(lines: seq<string>)
    requires lines != [] && Strip(lines[|lines| - 1]) != ""
    requires OnePerLine(lines[..|lines| - 1], CustomMolecules(lines[..|lines| - 1]))
    ensures OnePerLine(lines, CustomMolecules(lines))
  {
    var last := |lines| - 1;
    CustomMoleculesStep(lines);
    var mol := Molecule(LigandId(last + 1), Strip(lines[last]));
    assert LineMolecule(lines[last], |lines|) == [mol];
    OnePerLineAppend(lines, CustomMolecules(lines[..last]), mol);
  }

  /** Appending the last line's molecule to the molecules of the earlier lines gives one
      molecule per line. */
  lemma OnePerLineAppend(lines: seq<string>, a: seq<Molecule>, mol: Molecule)
    requires lines != [] && OnePerLine(lines[..|lines| - 1], a)
    requires mol == Molecule(LigandId(|lines|), Strip(lines[|lines| - 1]))
    ensures OnePerLine(lines, a + [mol])
  {
    var last := |lines| - 1;
    forall i | 0 <= i < |lines| ensures (a + [mol])[i] == Molecule(LigandId(i + 1), Strip(lines[i])) {
      if i < last {
        assert (a + [mol])[i] == a[i] && lines[..last][i] == lines[i];
      }
    }
  }

  /** The lines of the file a name denotes, or None when it cannot be read. */
  function FileLines(files: map<string, seq<string>>, name: string): Option<seq<string>> {
    if name in files then Some(files[name]) else None
  }

  /** `_load_custom_smiles`: one molecule per non-blank line; a file that cannot be read gives
      no molecules. */
  method LoadCustomSmiles(file: Option<seq<string>>) returns (molecules: seq<Molecule>)
    ensures file.None? ==> molecules == []
    ensures file.Some? ==> molecules == CustomMolecules(file.value)
  {
    molecules := [];
    if file.None? {
      return;
    }
    var lines := file.value;
    for i := 0 to |lines|
      invariant molecules == CustomMolecules(lines[..i])
    {
      assert lines[..i + 1][..i] == lines[..i] && lines[..i + 1][i] == lines[i];
      CustomMoleculesStep(lines[..i + 1]);
      var smiles := Strip(lines[i]);
      if smiles != "" {
        molecules := molecules + [Molecule(LigandId(i + 1), smiles)];
      }
    }
    assert lines[..|lines|] == lines;
  }

  /** What the summary agent answers: success with a summary text, or anything else. */
  datatype SummaryReply = SummaryOk(summary: string) | SummaryNotOk

  /** The screening `results` dictionary: the parsed target (absent when the request had none),
      the library, the docking records, the ranking and the optional summary. */
  datatype ScreeningResults = ScreeningResults(
    target: Option<TargetParserAgent.ResolvedTarget>,
    molecules: seq<Molecule>,
    librarySize: nat,
    dockingResults: seq<DockingAgent.DockingRecord>,
    rankedResults: seq<DockingAgent.DockingRecord>,
    topHits: seq<DockingAgent.DockingRecord>,
    bestScore: Option<int>,
    summary: Option<string>)

  /** The names of the files a successful screening reports. */
  const FilesGenerated: seq<string> := ["docking_results.csv", "top_hits.csv", "summary.md"]

  /** What `process_query` returns. A failed target parse is returned as the parser gave it. */
  datatype Response =
    | KnowledgeResponse(knowledge: KnowledgeAgent.KnowledgeResult)
    | MemoryResponse(memoryReply: MemoryModule.MemoryReply)
    | ParseFailure(parse: TargetParserAgent.ParseResult)
    | ScreeningSuccess(message: string, results: ScreeningResults, filesGenerated: seq<string>)
    | UnknownQueryType(error: string, hint: string)
  {
    /** `response.get('status')`. */
    function Status(): Option<string> {
      match this
      case KnowledgeResponse(k) => k.Status()
      case MemoryResponse(m) => Some(m.Status())
      case ParseFailure(p) => p.Status()
      case ScreeningSuccess(_, _, _) => Some("success")
      case UnknownQueryType(_, _) => None
    }
  }

  /** Everything the system takes from outside: the two clock readings of a memory update, the
      clock reading that names a cleared session, the readable files as lines, the docking
      hash, the summary agent, and whether the memory file can be written. */
  datatype Environment = Environment(
    queryTime: string,
    resultTime: string,
    sessionId: string,
    files: map<string, seq<string>>,
    hash: string -> nat,
    summarize: ScreeningResults -> SummaryReply,
    writable: bool)

  /** What a knowledge answer gives the memory: a non-empty dictionary without `target_id`,
      `best_score` or `top_hits`. */
  const KnowledgeView := MemoryModule.ResultsView(None, None, 0)

  /** The docking target: the parsed identifier, or the docking agent's default. */
  function DockingTarget(target: Option<TargetParserAgent.ResolvedTarget>): string {
    if target.Some? then target.value.targetId else "UNKNOWN"
  }

  /** What `update_context` reads from the screening results. */
  function ScreeningView(res: ScreeningResults): MemoryModule.ResultsView {
    MemoryModule.ResultsView(if res.target.Some? then Some(res.target.value.targetId) else None,
                             res.bestScore, |res.topHits|)
  }

  /** The library of a filled request: the molecules of the named SMILES file (none when it
      cannot be read), or else a generated library of the requested size. */
  predicate LibraryFor(q: Query, molecules: seq<Molecule>, files: map<string, seq<string>>) {
    (q.smilesFile.Some? ==> molecules == CustomMolecules(FileLines(files, q.smilesFile.value).GetOr([])))
    && (q.smilesFile.None? ==> LibraryGeneratorAgent.GeneratedLibrary(molecules, LibraryGeneratorAgent.RequestedSize(q)))
  }

  /** Docking and ranking of the library: one record per molecule in library order, docked
      against the target, then sorted stably by score with five hits kept. */
  predicate RankedFrom(res: ScreeningResults, hash: string -> nat) {
    |res.dockingResults| == |res.molecules|
    && (forall i :: 0 <= i < |res.dockingResults| ==>
          DockingAgent.DockedFrom(res.dockingResults[i], res.molecules[i], DockingTarget(res.target), hash))
    && res.rankedResults == RankingAgent.SortByScore(res.dockingResults)
    && res.topHits == RankingAgent.PyPrefix(res.rankedResults, 5)
    && res.bestScore == RankingAgent.BestScore(res.topHits)
  }

  /** The summary: present exactly when it was not skipped and the summary agent succeeded on
      the results gathered so far. */
  predicate SummaryFor(q: Query, res: ScreeningResults, summarize: ScreeningResults -> SummaryReply) {
    var reply := summarize(res.(summary := None));
    (res.summary.Some? <==> !TruthyFlag(q.skipSummary) && reply.SummaryOk?)
    && (res.summary.Some? ==> res.summary.value == reply.summary)
  }

  /** The outcome of the screening workflow on a request `q0` (before default filling) and a
      memory `m0`: the filled request `q`, the memory `m` afterwards and the response `r`. The
      ranks the ranking writes into the records are stated by the methods. */
  predicate ScreeningOutcome(q0: Query, m0: MemoryModule.MemoryState, q: Query, m: MemoryModule.MemoryState,
                             r: Response, env: Environment)
    ensures ScreeningOutcome(q0, m0, q, m, r, env) ==>
              r.ScreeningSuccess? || (r.ParseFailure? && m == m0)
  {
    q == FillDefaults(q0, m0.lastTarget, m0.lastLibrarySize)
    && var parse := TargetParserAgent.Execute(q);
    if q.target.Some? && !parse.Parsed? then
      r == ParseFailure(parse) && m == m0
    else
      r.ScreeningSuccess?
      && r.message == "Virtual screening completed successfully"
      && r.filesGenerated == FilesGenerated
      && var res := r.results;
      res.target == (if q.target.Some? then Some(parse.resolved) else None)
      && LibraryFor(q, res.molecules, env.files)
      && res.librarySize == |res.molecules|
      && RankedFrom(res, env.hash)
      && SummaryFor(q, res, env.summarize)
      && m == MemoryModule.Updated(m0, q, Some(ScreeningView(res)), env.queryTime, env.resultTime)
  }

  /** The stages of a completed run make up its outcome. */
  lemma CompletedOutcome(q0: Query, m0: MemoryModule.MemoryState, q: Query, res: ScreeningResults,
                         m: MemoryModule.MemoryState, env: Environment)
    requires q == FillDefaults(q0, m0.lastTarget, m0.lastLibrarySize)
    requires q.target.Some? ==> TargetParserAgent.Execute(q).Parsed?
    requires res.target == (if q.target.Some? then Some(TargetParserAgent.Execute(q).resolved) else None)
    requires LibraryFor(q, res.molecules, env.files) && res.librarySize == |res.molecules|
    requires RankedFrom(res, env.hash) && SummaryFor(q, res, env.summarize)
    requires m == MemoryModule.Updated(m0, q, Some(ScreeningView(res)), env.queryTime, env.resultTime)
    ensures ScreeningOutcome(q0, m0, q, m, ScreeningSuccess("Virtual screening completed successfully", res, FilesGenerated), env)
  {
  }

  /** A target that does not parse ends the run with the parser's answer and leaves the memory
      as it was. */
  lemma FailedOutcome(q0: Query, m0: MemoryModule.MemoryState, q: Query, env: Environment)
    requires q == FillDefaults(q0, m0.lastTarget, m0.lastLibrarySize)
    requires q.target.Some? && !TargetParserAgent.Execute(q).Parsed?
    ensures ScreeningOutcome(q0, m0, q, m0, ParseFailure(TargetParserAgent.Execute(q)), env)
  {
  }

  /** The ranking has written every record's rank, and each ranked record reads back its
      position from 1. */
  predicate RanksWritten(res: ScreeningResults)
    reads set d | d in res.dockingResults
    reads set d | d in res.rankedResults
  {
    DockingAgent.Distinct(res.rankedResults)
    && (forall i :: 0 <= i < |res.rankedResults| ==> res.rankedResults[i].rank == Some(i + 1))
    && (forall d :: d in res.dockingResults ==> d.rank.Some?)
  }

  /** A request whose own target parses completes the screening with that target; filling
      from the memory leaves its target, file and summary flag as they were. */
  lemma ParsedTargetCompletes(q0: Query, m0: MemoryModule.MemoryState, q: Query, m: MemoryModule.MemoryState,
                              r: Response, env: Environment)
    requires ScreeningOutcome(q0, m0, q, m, r, env)
    requires q0.target.Some? && TargetParserAgent.Execute(q0).Parsed?
    ensures q.target == q0.target && q.smilesFile == q0.smilesFile && q.skipSummary == q0.skipSummary
    ensures r.ScreeningSuccess? && r.results.target == Some(TargetParserAgent.Execute(q0).resolved)
  {
  }

  /** A follow-up request without a target, made when the memory remembers a truthy target,
      is screened against the remembered target, which the memory keeps. */
  lemma RememberedTargetIsUsed(q0: Query, m0: MemoryModule.MemoryState, q: Query, m: MemoryModule.MemoryState,
                               r: Response, env: Environment)
    requires ScreeningOutcome(q0, m0, q, m, r, env)
    requires q0.target.None? && TruthyString(m0.lastTarget)
    requires TargetParserAgent.Execute(TargetParserAgent.TargetQuery(m0.lastTarget.value)).Parsed?
    ensures q.target == m0.lastTarget
    ensures r.ScreeningSuccess?
    ensures r.results.target == Some(TargetParserAgent.Execute(TargetParserAgent.TargetQuery(m0.lastTarget.value)).resolved)
    ensures m.lastTarget == m0.lastTarget
  {
  }

  /** A completed screening remembers the target and the size it ran with and records one more
      query, up to the history limit. */
  lemma CompletedScreeningIsRemembered(q0: Query, m0: MemoryModule.MemoryState, q: Query, m: MemoryModule.MemoryState,
                                       r: Response, env: Environment)
    requires ScreeningOutcome(q0, m0, q, m, r, env) && r.ScreeningSuccess?
    ensures q.target.Some? ==> m.lastTarget == q.target
    ensures q.librarySize.Some? ==> m.lastLibrarySize == q.librarySize
    ensures |m.queryHistory| == if |m0.queryHistory| < MemoryModule.HistoryLimit then |m0.queryHistory| + 1
                                else MemoryModule.HistoryLimit
  {
    MemoryModule.UpdateRecordsQuery(m0, q, Some(ScreeningView(r.results)), env.queryTime, env.resultTime);
  }

  /** However many hits the request asks for with `top_n`, a completed screening keeps the
      five best, or the whole library when it is smaller. */
  lemma TopHitsIgnoreTopN(q0: Query, m0: MemoryModule.MemoryState, q: Query, m: MemoryModule.MemoryState,
                          r: Response, env: Environment)
    requires ScreeningOutcome(q0, m0, q, m, r, env) && r.ScreeningSuccess?
    ensures |r.results.topHits| == if r.results.librarySize < 5 then r.results.librarySize else 5
  {
  }

  /** A kept hit scores no worse than any docked molecule left out of the hits. */
  lemma TopHitsAreTheBest(q0: Query, m0: MemoryModule.MemoryState, q: Query, m: MemoryModule.MemoryState,
                          r: Response, env: Environment, h: DockingAgent.DockingRecord, d: DockingAgent.DockingRecord)
    requires ScreeningOutcome(q0, m0, q, m, r, env) && r.ScreeningSuccess?
    requires h in r.results.topHits
    requires d in r.results.dockingResults && d !in r.results.topHits
    ensures h.dockingScore <= d.dockingScore
  {
    RankingAgent.TopHitsAreBest(r.results.dockingResults, 5, h, d);
  }

  /** The best score of a completed screening with a non-empty library is the lowest score of
      all the docked molecules. */
  lemma BestScoreIsTheLowest(q0: Query, m0: MemoryModule.MemoryState, q: Query, m: MemoryModule.MemoryState,
                             r: Response, env: Environment)
    requires ScreeningOutcome(q0, m0, q, m, r, env) && r.ScreeningSuccess?
    requires r.results.molecules != []
    ensures r.results.bestScore.Some?
    ensures forall d :: d in r.results.dockingResults ==> r.results.bestScore.value <= d.dockingScore
    ensures exists d :: d in r.results.dockingResults && d.dockingScore == r.results.bestScore.value
  {
    var res := r.results;
    forall d | d in res.dockingResults ensures res.bestScore.value <= d.dockingScore {
      RankingAgent.BestScoreIsMinimal(res.dockingResults, 5, d);
    }
    assert res.rankedResults[0] in multiset(res.dockingResults);
  }

  /** A custom SMILES file gives one molecule per non-blank line; a file that cannot be read
      still completes the screening, with an empty library, no hits and no best score. */
  lemma CustomFileLibrary(q0: Query, m0: MemoryModule.MemoryState, q: Query, m: MemoryModule.MemoryState,
                          r: Response, env: Environment)
    requires ScreeningOutcome(q0, m0, q, m, r, env) && r.ScreeningSuccess? && q.smilesFile.Some?
    ensures q.smilesFile.value in env.files ==> r.results.librarySize == |NonBlankLines(env.files[q.smilesFile.value])|
    ensures q.smilesFile.value !in env.files ==>
              r.results.librarySize == 0 && r.results.topHits == [] && r.results.bestScore == None
  {
    if q.smilesFile.value in env.files {
      CustomMoleculesCount(env.files[q.smilesFile.value]);
    }
  }

  /** Step 5 of the workflow: the summary agent's text is added unless the request skips it
      or the agent does not succeed. */
  function WithSummary(q: Query, res: ScreeningResults, summarize: ScreeningResults -> SummaryReply): (r: ScreeningResults)
    requires res.summary == None
    ensures r.(summary := None) == res
    ensures SummaryFor(q, r, summarize)
  {
    if !TruthyFlag(q.skipSummary) && summarize(res).SummaryOk? then res.(summary := Some(summarize(res).summary))
    else res
  }

  /** Steps 2 to 5 of the workflow, for a request whose target, if any, has parsed. */
  method RunPipeline(query: Query, target: Option<TargetParserAgent.ResolvedTarget>, env: Environment)
    returns (res: ScreeningResults)
    ensures res.target == target
    ensures LibraryFor(query, res.molecules, env.files) && res.librarySize == |res.molecules|
    ensures RankedFrom(res, env.hash)
    ensures SummaryFor(query, res, env.summarize)
    ensures RanksWritten(res)
  {
    var molecules, librarySize := BuildLibrary(query, env.files);
    var ranked := DockAndRank(target, molecules, librarySize, env.hash);
    res := WithSummary(query, ranked, env.summarize);
    assert res.dockingResults == ranked.dockingResults && res.rankedResults == ranked.rankedResults;
  }

  /** Step 1 of the workflow: the target parser runs only when the request has a target, and
      its answer is passed back as the failure unless it parsed. */
  method ParseTarget(query: Query) returns (target: Option<TargetParserAgent.ResolvedTarget>,
                                            failure: Option<TargetParserAgent.ParseResult>)
    ensures var parse := TargetParserAgent.Execute(query);
            (failure.Some? <==> query.target.Some? && !parse.Parsed?)
            && (failure.Some? ==> failure.value == parse)
            && target == (if query.target.Some? && parse.Parsed? then Some(parse.resolved) else None)
  {
    target, failure := None, None;
    if "target" in query.Keys() {
      var parsed := TargetParserAgent.Execute(query);
      if parsed.Status() != Some("success") {
        failure := Some(parsed);
      } else {
        target := Some(parsed.resolved);
      }
    }
  }

  /** Step 2 of the workflow: the generator's library, or the custom file's molecules when the
      request names one (the generator then skips). The generator cannot fail without a file. */
  method BuildLibrary(query: Query, files: map<string, seq<string>>) returns (molecules: seq<Molecule>, librarySize: nat)
    ensures LibraryFor(query, molecules, files)
    ensures librarySize == |molecules|
  {
    if "smiles_file" !in query.Keys() {
      var library := LibraryGeneratorAgent.Execute(query);
      if library.Status() != "success" {
        assert false;
      }
      molecules, librarySize := library.molecules, library.librarySize;
    } else {
      molecules := LoadCustomSmiles(FileLines(files, query.smilesFile.value));
      librarySize := |molecules|;
    }
  }

  /** Steps 3 and 4: docking against the parsed identifier (or the default), then ranking of the
      docking agent's own answer, which has no `top_n`. Both agents get the field they need, so
      neither fails. The ranks end up in the docking records themselves. */
  method DockAndRank(target: Option<TargetParserAgent.ResolvedTarget>, molecules: seq<Molecule>, librarySize: nat,
                     hash: string -> nat) returns (res: ScreeningResults)
    ensures res.target == target && res.molecules == molecules && res.librarySize == librarySize
    ensures res.summary == None
    ensures RankedFrom(res, hash)
    ensures RanksWritten(res)
  {
    var docking := DockingAgent.Execute(
      DockingAgent.DockingInput(Some(molecules), if target.Some? then Some(target.value.targetId) else None), hash);
    if docking.Status() != Some("success") {
      assert false;
    }
    RankingAgent.SortKeepsDistinct(docking.dockingResults);
    var ranking := RankingAgent.Execute(RankingAgent.RankingInput(Some(docking.dockingResults), None));
    if ranking.Status() != Some("success") {
      assert false;
    }
    res := ScreeningResults(target, molecules, librarySize, docking.dockingResults,
                            ranking.rankedResults, ranking.topHits, ranking.bestScore, None);
  }

  /** The main agent. */
  class OrchestratorAgent {
    const memory: MemoryModule.MemoryModule

    /** `__init__`: the agents are stateless apart from the memory, which starts from what is
        stored, or afresh. */
    constructor (stored: Option<MemoryModule.MemoryState>, sessionId: string)
      ensures fresh(memory)
      ensures stored.Some? ==> memory.memory == stored.value
      ensures stored.None? ==> memory.memory == MemoryModule.Fresh(sessionId)
      ensures memory.persisted == stored
    {
      memory := new MemoryModule.MemoryModule(stored, sessionId);
    }

    /** `_handle_knowledge_query`: the agent's answer, returned as is, after one memory update. */
    method HandleKnowledgeQuery(query: Query, env: Environment) returns (r: Response)
      modifies memory
      ensures r == KnowledgeResponse(KnowledgeAgent.Execute(query))
      ensures memory.memory == MemoryModule.Updated(old(memory.memory), query, Some(KnowledgeView), env.queryTime, env.resultTime)
      ensures memory.persisted == if env.writable then Some(memory.memory) else old(memory.persisted)
    {
      var result := KnowledgeAgent.Execute(query);
      memory.UpdateContext(query, Some(KnowledgeView), env.queryTime, env.resultTime, env.writable);
      r := KnowledgeResponse(result);
    }

    /** `_handle_memory_operation`: the operation is the request's `memory_operation`, by
        default `get_context`; the memory is never updated with the request. */
    method HandleMemoryOperation(query: Query, env: Environment) returns (r: Response)
      modifies memory
      ensures var op := query.memoryOperation.GetOr("get_context");
              r.MemoryResponse?
              && (op == "clear" ==> r.memoryReply == MemoryModule.Cleared("Memory cleared")
                                    && memory.memory == MemoryModule.Fresh(env.sessionId)
                                    && memory.persisted == (if env.writable then Some(memory.memory)
                                                            else old(memory.persisted)))
              && (op == "get_context" ==> r.memoryReply == MemoryModule.ContextReply(memory.GetContext())
                                          && memory.memory == old(memory.memory)
                                          && memory.persisted == old(memory.persisted))
              && (op !in {"clear", "get_context"} ==>
                    r.memoryReply == MemoryModule.UnknownOperation("Unknown operation: " + op)
                    && memory.memory == old(memory.memory) && memory.persisted == old(memory.persisted))
    {
      var reply := memory.Execute(Some(query.memoryOperation.GetOr("get_context")), env.sessionId, env.writable);
      r := MemoryResponse(reply);
    }

    /** The first step of the workflow: a missing `target` or `library_size` is filled in
        place from what the memory remembers, when that is truthy. */
    method FillFromMemory(request: Request)
      modifies request
      ensures request.value == FillDefaults(old(request.value), memory.memory.lastTarget, memory.memory.lastLibrarySize)
    {
      if "target" !in request.value.Keys() && TruthyString(memory.GetLastTarget()) {
        request.value := request.value.(target := memory.GetLastTarget());
      }
      if "library_size" !in request.value.Keys() && TruthySize(memory.GetLastLibrarySize()) {
        request.value := request.value.(librarySize := memory.GetLastLibrarySize());
      }
    }

    /** `_handle_screening_workflow`. The request is filled in place from the memory; a failed
        target parse ends the run with the parser's answer; the other stages cannot fail here
        (the generator skips only when a SMILES file is given, the docking agent always gets
        `molecules`, the ranking agent always gets `docking_results`). The ranking agent gets
        the docking agent's answer, which has no `top_n`, so five hits are kept whatever the
        request asked for. */
    method HandleScreeningWorkflow(request: Request, env: Environment) returns (r: Response)
      modifies request, memory
      ensures ScreeningOutcome(old(request.value), old(memory.memory), request.value, memory.memory, r, env)
      ensures r.ScreeningSuccess? ==> RanksWritten(r.results)
      ensures memory.persisted == if r.ScreeningSuccess? && env.writable then Some(memory.memory)
                                  else old(memory.persisted)
    {
      ghost var q0, m0 := request.value, memory.memory;
      FillFromMemory(request);
      var query := request.value;

      // Step 1: the target, when there is one.
      var target, failure := ParseTarget(query);
      if failure.Some? {
        FailedOutcome(q0, m0, query, env);
        return ParseFailure(failure.value);
      }

      r := CompleteRun(q0, m0, query, target, env);
    }

    /** The rest of a run whose target parsed (or that had none): the library, docking, ranking
        and summary, then one memory update and the success answer. */
    method CompleteRun(ghost q0: Query, ghost m0: MemoryModule.MemoryState, query: Query,
                       target: Option<TargetParserAgent.ResolvedTarget>, env: Environment)
      returns (r: Response)
      requires query == FillDefaults(q0, m0.lastTarget, m0.lastLibrarySize) && memory.memory == m0
      requires query.target.Some? ==> TargetParserAgent.Execute(query).Parsed?
      requires target == (if query.target.Some? then Some(TargetParserAgent.Execute(query).resolved) else None)
      modifies memory
      ensures ScreeningOutcome(q0, m0, query, memory.memory, r, env)
      ensures r.ScreeningSuccess? && RanksWritten(r.results)
      ensures memory.persisted == if env.writable then Some(memory.memory) else old(memory.persisted)
    {
      // Steps 2 to 5: the library, docking, ranking and summary.
      var final := RunPipeline(query, target, env);
      memory.UpdateContext(query, Some(ScreeningView(final)), env.queryTime, env.resultTime, env.writable);
      // The memory update touches no docking record.
      assert RanksWritten(final);
      CompletedOutcome(q0, m0, query, final, memory.memory, env);
      r := ScreeningSuccess("Virtual screening completed successfully", final, FilesGenerated);
    }

    /** `process_query`: the route is decided on the request as given and the memory as it
        stands. Only the screening route changes the request, and an unknown request changes
        nothing. */
    method ProcessQuery(request: Request, env: Environment) returns (r: Response)
      modifies request, memory
      ensures var t := DetermineQueryType(old(request.value), old(memory.memory.lastTarget));
              (t == KnowledgeQuery ==>
                 r == KnowledgeResponse(KnowledgeAgent.Execute(old(request.value)))
                 && request.value == old(request.value)
                 && memory.memory == MemoryModule.Updated(old(memory.memory), old(request.value), Some(KnowledgeView),
                                                          env.queryTime, env.resultTime)
                 && memory.persisted == (if env.writable then Some(memory.memory) else old(memory.persisted)))
              && (t == MemoryQuery ==>
                    var op := old(request.value).memoryOperation.value;
                    r.MemoryResponse? && request.value == old(request.value)
                    && (op == "clear" ==> r.memoryReply == MemoryModule.Cleared("Memory cleared")
                                          && memory.memory == MemoryModule.Fresh(env.sessionId)
                                          && memory.persisted == (if env.writable then Some(memory.memory)
                                                                  else old(memory.persisted)))
                    && (op == "get_context" ==> r.memoryReply == MemoryModule.ContextReply(memory.GetContext())
                                                && memory.memory == old(memory.memory)
                                                && memory.persisted == old(memory.persisted))
                    && (op !in {"clear", "get_context"} ==>
                          r.memoryReply == MemoryModule.UnknownOperation("Unknown operation: " + op)
                          && memory.memory == old(memory.memory) && memory.persisted == old(memory.persisted)))
              && (t == ScreeningQuery ==>
                    ScreeningOutcome(old(request.value), old(memory.memory), request.value, memory.memory, r, env)
                    && (r.ScreeningSuccess? ==> RanksWritten(r.results))
                    && memory.persisted == (if r.ScreeningSuccess? && env.writable then Some(memory.memory)
                                            else old(memory.persisted)))
              && (t == UnknownQuery ==>
                    r == UnknownQueryType("Unknown query type", "Please specify a valid query type")
                    && request.value == old(request.value) && memory.memory == old(memory.memory)
                    && memory.persisted == old(memory.persisted))
    {
      var queryType := DetermineQueryType(request.value, memory.GetLastTarget());
      if queryType == KnowledgeQuery {
        r := HandleKnowledgeQuery(request.value, env);
      } else if queryType == ScreeningQuery {
        r := HandleScreeningWorkflow(request, env);
      } else if queryType == MemoryQuery {
        r := HandleMemoryOperation(request.value, env);
      } else {
        r := UnknownQueryType("Unknown query type", "Please specify a valid query type");
      }
    }
  }
}
