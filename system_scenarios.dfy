/** The demonstration runs of the system, each on a new orchestrator whose memory starts from
    whatever is stored: a screening with a target and a size, a follow-up request that relies
    on the remembered target, and a screening of a custom SMILES file without a summary. */
module SystemScenarios {
  import opened Wrappers
  import opened Records
  import PyStrings
  import TargetParserAgent
  import MemoryModule
  import Orchestrator

  /** One screening request handed to an orchestrator: the outcome of the screening branch. */
  method Screen(orchestrator: Orchestrator.OrchestratorAgent, query: Query, env: Orchestrator.Environment)
    returns (r: Orchestrator.Response, ghost filled: Query)
    requires query.question.None? && query.memoryOperation.None?
    requires query.target.Some? || query.smilesFile.Some?
             || (query.librarySize.Some? && TruthyString(orchestrator.memory.memory.lastTarget))
    modifies orchestrator.memory
    ensures Orchestrator.ScreeningOutcome(query, old(orchestrator.memory.memory), filled, orchestrator.memory.memory, r, env)
    ensures r.ScreeningSuccess? ==> Orchestrator.RanksWritten(r.results)
  {
    var request := new Request(query);
    r := orchestrator.ProcessQuery(request, env);
    filled := request.value;
  }

  /** `{"target": "EGFR", "library_size": 10}`: "EGFR" passes the PDB identifier test, so it
      is kept as the identifier and named "Unknown"; ten molecules are docked and five hits
      kept. */
  method ScreenEgfr(stored: Option<MemoryModule.MemoryState>, sessionId: string, env: Orchestrator.Environment)
    returns (r: Orchestrator.Response)
    ensures r.ScreeningSuccess?
    ensures r.results.target == Some(TargetParserAgent.ResolvedTarget("EGFR", "A", "Unknown"))
    ensures r.results.librarySize == 10 && |r.results.topHits| == 5
  {
    var orchestrator := new Orchestrator.OrchestratorAgent(stored, sessionId);
    ghost var m0 := orchestrator.memory.memory;
    ghost var filled;
    r, filled := Screen(orchestrator, EgfrQuery, env);
    EgfrParses();
    GeneratedRunOutcome(EgfrQuery, m0, filled, orchestrator.memory.memory, r, env);
  }

  /** The request of that run. */
  const EgfrQuery := EmptyQuery.(target := Some("EGFR"), librarySize := Some(10))

  /** Its target parses as the identifier EGFR. */
  lemma EgfrParses()
    ensures TargetParserAgent.Execute(EgfrQuery) == TargetParserAgent.Parsed(TargetParserAgent.ResolvedTarget("EGFR", "A", "Unknown"))
  {
    TargetParserAgent.UpperAlnumIsNormal("EGFR");
    TargetParserAgent.FourCharacterNamesAreIdentifiers("EGFR", 0);
  }

  /** A request with a target that parses and a size of at least five, without a SMILES file,
      completes with a generated library of that size (up to thirty) and five hits. */
  lemma GeneratedRunOutcome(q0: Query, m0: MemoryModule.MemoryState, q: Query, m: MemoryModule.MemoryState,
                            r: Orchestrator.Response, env: Orchestrator.Environment)
    requires q0.target.Some? && TargetParserAgent.Execute(q0).Parsed?
    requires q0.smilesFile.None? && q0.librarySize.Some? && 5 <= q0.librarySize.value <= 30
    requires Orchestrator.ScreeningOutcome(q0, m0, q, m, r, env)
    ensures r.ScreeningSuccess? && r.results.target == Some(TargetParserAgent.Execute(q0).resolved)
    ensures r.results.librarySize == q0.librarySize.value && |r.results.topHits| == 5
  {
    Orchestrator.ParsedTargetCompletes(q0, m0, q, m, r, env);
    Orchestrator.TopHitsIgnoreTopN(q0, m0, q, m, r, env);
  }

  /** `{"target": "BRAF", "library_size": 15}` and then `{"library_size": 25}`: the second
      request is a screening because the memory remembers BRAF, which it is given; the memory
      then holds BRAF and 25, and, when it started afresh, two queries. */
  method RememberedTarget(stored: Option<MemoryModule.MemoryState>, sessionId: string, env: Orchestrator.Environment)
    returns (r1: Orchestrator.Response, r2: Orchestrator.Response, context: MemoryModule.ContextView)
    ensures r1.ScreeningSuccess? && r2.ScreeningSuccess?
    ensures r2.results.target == Some(TargetParserAgent.ResolvedTarget("BRAF", "A", "Unknown"))
    ensures r2.results.librarySize == 25
    ensures context.lastTarget == Some("BRAF") && context.lastLibrarySize == Some(25)
    ensures stored.None? ==> context.queriesCount == 2
  {
    var orchestrator := new Orchestrator.OrchestratorAgent(stored, sessionId);
    ghost var m0 := orchestrator.memory.memory;
    ghost var filled;
    r1, filled := Screen(orchestrator, BrafQuery, env);
    BrafParses();
    FirstRunOutcome(BrafQuery, m0, filled, orchestrator.memory.memory, r1, env);
    ghost var m1 := orchestrator.memory.memory;
    r2, filled := Screen(orchestrator, FollowUpQuery, env);
    FollowUpOutcome(FollowUpQuery, m1, filled, orchestrator.memory.memory, r2, env);
    context := orchestrator.memory.GetContext();
  }

  /** The two requests of that run. */
  const BrafQuery := EmptyQuery.(target := Some("BRAF"), librarySize := Some(15))
  const FollowUpQuery := EmptyQuery.(librarySize := Some(25))

  /** The first request's target parses as the identifier BRAF. */
  lemma BrafParses()
    ensures TargetParserAgent.Execute(BrafQuery) == TargetParserAgent.Parsed(TargetParserAgent.ResolvedTarget("BRAF", "A", "Unknown"))
    ensures TargetParserAgent.Execute(TargetParserAgent.TargetQuery("BRAF")) == TargetParserAgent.Execute(BrafQuery)
  {
    TargetParserAgent.UpperAlnumIsNormal("BRAF");
    TargetParserAgent.FourCharacterNamesAreIdentifiers("BRAF", 2);
  }

  /** The first run completes and leaves its target and size in the memory. */
  lemma FirstRunOutcome(q0: Query, m0: MemoryModule.MemoryState, q: Query, m: MemoryModule.MemoryState,
                        r: Orchestrator.Response, env: Orchestrator.Environment)
    requires q0.target.Some? && TargetParserAgent.Execute(q0).Parsed? && q0.librarySize.Some?
    requires Orchestrator.ScreeningOutcome(q0, m0, q, m, r, env)
    ensures r.ScreeningSuccess?
    ensures m.lastTarget == q0.target && m.lastLibrarySize == q0.librarySize
    ensures |m.queryHistory| == if |m0.queryHistory| < 10 then |m0.queryHistory| + 1 else 10
  {
    Orchestrator.ParsedTargetCompletes(q0, m0, q, m, r, env);
    Orchestrator.CompletedScreeningIsRemembered(q0, m0, q, m, r, env);
  }

  /** The follow-up run: the remembered target, a generated library of the requested 25, and
      the memory updated with both. */
  lemma FollowUpOutcome(q0: Query, m0: MemoryModule.MemoryState, q: Query, m: MemoryModule.MemoryState,
                        r: Orchestrator.Response, env: Orchestrator.Environment)
    requires q0.target.None? && q0.smilesFile.None? && q0.librarySize == Some(25)
    requires TruthyString(m0.lastTarget)
    requires TargetParserAgent.Execute(TargetParserAgent.TargetQuery(m0.lastTarget.value)).Parsed?
    requires Orchestrator.ScreeningOutcome(q0, m0, q, m, r, env)
    ensures r.ScreeningSuccess?
    ensures r.results.target == Some(TargetParserAgent.Execute(TargetParserAgent.TargetQuery(m0.lastTarget.value)).resolved)
    ensures r.results.librarySize == 25
    ensures m.lastTarget == m0.lastTarget && m.lastLibrarySize == Some(25)
    ensures |m.queryHistory| == if |m0.queryHistory| < 10 then |m0.queryHistory| + 1 else 10
  {
    Orchestrator.RememberedTargetIsUsed(q0, m0, q, m, r, env);
    Orchestrator.CompletedScreeningIsRemembered(q0, m0, q, m, r, env);
  }

  /** The lines of the custom file the demonstration writes: five SMILES strings, each ended by
      a newline. */
  const CustomFileLines: seq<string> := ["CCO\n", "c1ccccc1\n", "CC(=O)O\n", "CC(C)O\n", "c1ccc(O)cc1\n"]

  /** `{"target": "ACE2", "smiles_file": "test_custom.smi", "skip_summary": True}` with that
      file readable: five molecules, L1 to L5, and no summary. */
  method CustomFileWithoutSummary(stored: Option<MemoryModule.MemoryState>, sessionId: string,
                                  env: Orchestrator.Environment)
    returns (r: Orchestrator.Response)
    requires "test_custom.smi" in env.files && env.files["test_custom.smi"] == CustomFileLines
    ensures r.ScreeningSuccess?
    ensures r.results.target == Some(TargetParserAgent.ResolvedTarget("ACE2", "A", "Unknown"))
    ensures r.results.librarySize == 5 && |r.results.molecules| == 5
    ensures forall i :: 0 <= i < 5 ==> r.results.molecules[i].ligandId == LigandId(i + 1)
    ensures r.results.summary == None
  {
    var orchestrator := new Orchestrator.OrchestratorAgent(stored, sessionId);
    ghost var m0 := orchestrator.memory.memory;
    ghost var filled;
    r, filled := Screen(orchestrator, CustomFileQuery, env);
    NoBlankLine();
    Ace2Parses();
    CustomFileOutcome(CustomFileQuery, CustomFileLines, m0, filled, orchestrator.memory.memory, r, env);
  }

  /** The request of the custom-file run. */
  const CustomFileQuery := EmptyQuery.(target := Some("ACE2"), smilesFile := Some("test_custom.smi"), skipSummary := Some(true))

  /** What the screening of a request for a parsed target, a file of five non-blank lines and
      no summary gives, whatever the memory held. */
  lemma CustomFileOutcome(q0: Query, lines: seq<string>, m0: MemoryModule.MemoryState, q: Query,
                          m: MemoryModule.MemoryState, r: Orchestrator.Response, env: Orchestrator.Environment)
    requires q0.target.Some? && TargetParserAgent.Execute(q0).Parsed?
    requires q0.smilesFile.Some? && q0.skipSummary == Some(true)
    requires q0.smilesFile.value in env.files && env.files[q0.smilesFile.value] == lines
    requires |lines| == 5 && forall i :: 0 <= i < |lines| ==> PyStrings.Strip(lines[i]) != ""
    requires Orchestrator.ScreeningOutcome(q0, m0, q, m, r, env)
    ensures r.ScreeningSuccess? && r.results.target == Some(TargetParserAgent.Execute(q0).resolved)
    ensures r.results.librarySize == 5 && |r.results.molecules| == 5
    ensures forall i :: 0 <= i < 5 ==> r.results.molecules[i].ligandId == LigandId(i + 1)
    ensures r.results.summary == None
  {
    Orchestrator.ParsedTargetCompletes(q0, m0, q, m, r, env);
    Orchestrator.FileWithoutBlankLines(lines);
  }

  /** The custom-file request's target parses as the identifier ACE2. */
  lemma Ace2Parses()
    ensures TargetParserAgent.Execute(CustomFileQuery) == TargetParserAgent.Parsed(TargetParserAgent.ResolvedTarget("ACE2", "A", "Unknown"))
  {
    TargetParserAgent.UpperAlnumIsNormal("ACE2");
    TargetParserAgent.FourCharacterNamesAreIdentifiers("ACE2", 1);
  }

  /** Every line of the custom file starts with a character that is not whitespace. */
  lemma NoBlankLine()
    ensures forall i :: 0 <= i < |CustomFileLines| ==> PyStrings.Strip(CustomFileLines[i]) != ""
  {
    forall i | 0 <= i < |CustomFileLines| ensures PyStrings.Strip(CustomFileLines[i]) != "" {
      assert !PyStrings.IsSpace(CustomFileLines[i][0]);
    }
  }
}
