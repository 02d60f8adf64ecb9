# Virtual screening agents, modelled in Dafny

This project models a multi-agent virtual screening system. An orchestrator receives a request dictionary and classifies it as one of four kinds:

- a knowledge question;
- a memory operation;
- a screening request;
- unknown.

It routes the request to the agent for its kind. The screening workflow has these steps:

- It fills a missing `target` and `library_size` into the caller's dictionary from the session memory.
- The target parser resolves the target to a PDB identifier.
- A molecule library is drawn from a built-in list of SMILES strings, or read from a SMILES file.
- The docking agent scores each molecule with a hash-based mock score.
- The ranking agent sorts the records stably by score and writes a rank into each record. It keeps five hits.
- An optional summary is added.
- The request is recorded in the session memory, which keeps the last ten queries.

The parts of the original that change state in place keep that form:

- The request dictionary that the workflow fills in.
- The memory agent's state and its saved snapshot.
- The docking records that the ranking agent numbers.
- The loops that build the docking list, the generated library and the list of file molecules.

The parser, the knowledge search, the sort and the memory update are functions. Each operation is tied to a partner:

- an independent characterisation, such as the non-blank lines of a file, a stable sort's score groups, or a window of the last ten entries;
- or an outcome predicate, `Orchestrator.ScreeningOutcome`, which states the whole observable result of a screening.

Lemmas connect each operation to its partner and derive the properties the system promises. The file `system_scenarios.dfy` replays the demonstration script's runs:
- a screening of EGFR;
- a follow-up request that relies on the remembered target;
- a custom SMILES file without a summary.

Things the model takes from outside:
- **Docking hash:** MD5 is not modelled. The hash is a parameter `hash: string -> nat`.
- **Sampling:** `random.sample` is a choice of distinct positions. Only that choice is promised.
- **Clock:** timestamps and session identifiers are strings the caller supplies.
- **Files:** a SMILES file is its lines, and an unreadable file is `None`. The memory file is an optional stored state, and each save updates a ghost snapshot unless the storage is not writable.
- **Summary agent:** a parameter that answers success with a text, or anything else.
- **Scores:** integers in hundredths.

## Model

| member | source | states |
|---|---|---|
| BaseAgent.ValidateInput | agents/base_agent.py:37-51 | true exactly when every required field is a key of the input; values are never looked at |
| BaseAgent.NothingRequiredAlwaysValid | agents/base_agent.py:47-51 | an empty list of required fields accepts every input |
| PyStrings.Strip | orchestrator.py:214 | the result is no longer than the input, starts and ends with non-whitespace, and is empty exactly when the input is all whitespace |
| PyStrings.StripKeepsInnerSlice | agents/target_parser_agent.py:43 | `strip()` returns the contiguous slice after the leading whitespace, and only whitespace surrounds it |
| PyStrings.StripIdempotent | agents/target_parser_agent.py:43 | stripping twice is stripping once |
| PyStrings.UpperCommutesWithStrip | agents/target_parser_agent.py:43 | upper-casing and stripping can be done in either order: `Strip(Upper(s)) == Upper(Strip(s))` |
| PyStrings.UpperCommutesWithRStrip | agents/target_parser_agent.py:43 | upper-casing and stripping the end can be done in either order |
| PyStrings.LowerOfUpper | agents/knowledge_agent.py:106 | lower-casing the upper-cased text gives the lower-cased text |
| PyStrings.ContainsIff | agents/knowledge_agent.py:142 | the `in` test holds exactly when the keyword occurs at some position of the question |
| PyStrings.NatToStringInjective | agents/library_generator_agent.py:102 | different numbers have different decimal spellings |
| Records.Query.Keys | orchestrator.py:74-84 | each of the seven recognised keys is in the dictionary exactly when its field is present, and no other key is |
| Records.LigandIdInjective | agents/library_generator_agent.py:102 | `L{i}` and `L{j}` are equal only when `i == j` |
| TargetParserAgent.AvailableTargets | agents/target_parser_agent.py:72 | the ten table names, in table order |
| TargetParserAgent.Normalize | agents/target_parser_agent.py:43 | no longer than the input, no whitespace at either end, empty exactly when the input is all whitespace, and no lower-case letter |
| TargetParserAgent.IsPdbId | agents/target_parser_agent.py:47 | a PDB identifier has four characters and no whitespace, so stripping leaves it unchanged |
| TargetParserAgent.LookupIn | agents/target_parser_agent.py:57-58 | None exactly when the name is no key of the table, else the identifier paired with it |
| TargetParserAgent.ReverseLookupIn | agents/target_parser_agent.py:75-80 | the name of the first entry with the identifier, "Unknown" when there is none |
| TargetParserAgent.ReverseLookup | agents/target_parser_agent.py:75-80 | "Unknown" exactly when no table entry has the identifier; otherwise a name whose forward lookup gives the identifier back |
| TargetParserAgent.ReverseLookupInverse | agents/target_parser_agent.py:75-80 | in any table without repeated names or the name "Unknown", the reverse lookup answers "Unknown" exactly when the identifier is absent, else a name that looks up to it |
| TargetParserAgent.Resolve | agents/target_parser_agent.py:46-73 | succeeds exactly when the normalised target passes the PDB test or is a table name, always with chain "A" |
| TargetParserAgent.Execute | agents/target_parser_agent.py:31-73 | a missing key gives the status-less error; otherwise the normalised target is resolved; the status is "success" exactly for a parsed target |
| TargetParserAgent.MappingIsInjective | agents/target_parser_agent.py:18-29 | the ten names are distinct and so are the ten identifiers |
| TargetParserAgent.ReverseLookupInverts | agents/target_parser_agent.py:75-80 | the reverse lookup of a table name's identifier is that name |
| TargetParserAgent.IdentifiersArePdbIds | agents/target_parser_agent.py:18-29 | every table identifier passes the PDB test |
| TargetParserAgent.PdbIdResolvesToItsName | agents/target_parser_agent.py:47-54 | any spelling of a table identifier resolves to it, named after its protein |
| TargetParserAgent.FourCharacterTargetSkipsTable | agents/target_parser_agent.py:47-54 | a four-character alphanumeric target that is no table identifier is kept as the identifier, named "Unknown" |
| TargetParserAgent.UpperAlnumIsNormal | agents/target_parser_agent.py:43 | a target of upper-case letters and digits is its own normal form and alphanumeric |
| TargetParserAgent.NamesAreNotIdentifiers | agents/target_parser_agent.py:18-29 | no table name is a table identifier |
| TargetParserAgent.FourCharacterNamesAreIdentifiers | agents/target_parser_agent.py:46-65 | EGFR, ACE2, BRAF, CDK2, BCL2, MTOR and PI3K resolve to themselves with name "Unknown", not through the table |
| TargetParserAgent.TableNamesThatAreNotPdbIds | agents/target_parser_agent.py:56-65 | a table name that fails the PDB test maps to its identifier, named by the normalised name |
| TargetParserAgent.UnrecognisedTargetFails | agents/target_parser_agent.py:67-73 | anything else fails with the normalised target in the message and the ten names as alternatives |
| TargetParserAgent.ExecuteSeesOnlyNormalForm | agents/target_parser_agent.py:43 | a target and its normal form get the same answer |
| DockingAgent.DockingRecord.constructor | agents/docking_agent.py:74-78 | a record holds the ligand id, SMILES and score it was given, with no rank |
| DockingAgent.Score | agents/docking_agent.py:68-77 | the score in hundredths lies between -10.99 and -4.00 |
| DockingAgent.ScoreParts | agents/docking_agent.py:49-50 | the whole units are `h % 7 + 4` (from 4 to 10) below zero and the hundredths are `h % 100` |
| DockingAgent.ScoreIgnoresLigandId | agents/docking_agent.py:66-67 | the score depends only on the SMILES and the target identifier |
| DockingAgent.PerformDocking | agents/docking_agent.py:46-80 | one new, unranked record per molecule, in order, with ligand id and SMILES copied and the score of the hash of SMILES followed by target |
| DockingAgent.Execute | agents/docking_agent.py:18-44 | missing `molecules` gives the status-less error; otherwise success, `target_id` defaulting to "UNKNOWN", and the docked records |
| RankingAgent.Insert | agents/ranking_agent.py:35 | one step of the sort: one more element, the same records plus the inserted one |
| RankingAgent.InsertSorted | agents/ranking_agent.py:35 | inserting into a sorted list keeps it sorted |
| RankingAgent.InsertWithScore | agents/ranking_agent.py:35 | the inserted record joins the end of its score group and no other group changes |
| RankingAgent.SortByScore | agents/ranking_agent.py:35 | the ranked list is a permutation of the input |
| RankingAgent.SortIsSorted | agents/ranking_agent.py:35 | the ranked list is ordered by score, lowest first |
| RankingAgent.SortIsStable | agents/ranking_agent.py:35 | within every score group the records keep their input order |
| RankingAgent.StableSortIsUnique | agents/ranking_agent.py:35 | two sorted lists with the same score groups are equal, so any stable sort gives this list |
| RankingAgent.SortKeepsDistinct | agents/ranking_agent.py:35-39 | sorting a list without repeated records gives one without repeats |
| RankingAgent.PyPrefix | agents/ranking_agent.py:42 | Python's `s[:n]`: a prefix of the list, of length `min(n, len)`, or `len + n` (at least zero) for a negative `n` |
| RankingAgent.BestScore | agents/ranking_agent.py:49 | None exactly when there are no hits; otherwise the score of some hit, and of a sorted list the lowest score |
| RankingAgent.BestScoreIsMinimal | agents/ranking_agent.py:49 | the best score is no greater than any input score |
| RankingAgent.TopHitsAreBest | agents/ranking_agent.py:35-42 | every kept hit scores no worse than every record left out |
| RankingAgent.WriteRanks | agents/ranking_agent.py:37-39 | every record gets a rank, and in a list without repeats record `i` reads back rank `i + 1` |
| RankingAgent.Execute | agents/ranking_agent.py:17-51 | missing `docking_results` gives the status-less error; otherwise success with the stable sort, the `top_n` prefix (5 by default), the first hit's score, and the input's own records ranked |
| LibraryGeneratorAgent.ActualSize | agents/library_generator_agent.py:94 | `min(size, 30)` |
| LibraryGeneratorAgent.DatabaseIsDistinct | agents/library_generator_agent.py:19-50 | the thirty built-in SMILES strings are pairwise different |
| LibraryGeneratorAgent.DrawPositions | agents/library_generator_agent.py:97 | some `k` distinct positions below `n` |
| LibraryGeneratorAgent.Sample | agents/library_generator_agent.py:97 | `k` members of the population at distinct positions |
| LibraryGeneratorAgent.GenerateMolecules | agents/library_generator_agent.py:84-106 | `min(size, 30)` pairwise distinct members of the list, numbered L1, L2, ... in order |
| LibraryGeneratorAgent.RequestedSize | agents/library_generator_agent.py:66-69 | the request's `library_size` when present, else 10 |
| LibraryGeneratorAgent.Execute | agents/library_generator_agent.py:52-82 | skipped with its message exactly when a SMILES file is named; otherwise a generated library for the requested size, whose `library_size` is its length |
| LibraryGeneratorAgent.LigandIdsAreDistinct | agents/library_generator_agent.py:99-104 | the ligand ids of a generated library are pairwise different |
| LibraryGeneratorAgent.OversizedRequestTakesWholeList | agents/library_generator_agent.py:94-97 | a size of 30 or more gives every built-in SMILES string exactly once |
| KnowledgeAgent.AnyOccurs | agents/knowledge_agent.py:142 | true exactly when some keyword occurs in the question |
| KnowledgeAgent.FindAnswerIn | agents/knowledge_agent.py:141-146 | the topic list exactly when no entry matches; otherwise the topic of a matching entry before which none matches |
| KnowledgeAgent.Execute | agents/knowledge_agent.py:94-116 | a missing question gives the status-less error; otherwise the question as given and the answer found for its lower-cased form |
| KnowledgeAgent.EveryTopicHasAnArticle | agents/knowledge_agent.py:128-143 | every topic of the keyword table has an article, so the article lookup cannot fail |
| KnowledgeAgent.AnswersAreArticles | agents/knowledge_agent.py:141-146 | every answer is an article or the topic list |
| KnowledgeAgent.AnswerIgnoresCase | agents/knowledge_agent.py:106-142 | a question and its upper-cased form get the same answer |
| KnowledgeAgent.AdmetComesBeforeDocking | agents/knowledge_agent.py:128-143 | a question with an ADMET keyword and no Lipinski keyword gets the ADMET article, whatever else it mentions |
| KnowledgeAgent.TargetKeywordCatchesAll | agents/knowledge_agent.py:137-143 | a question mentioning "target" that matched no earlier topic gets the drug target article |
| KnowledgeAgent.UnmatchedQuestionGetsTopicList | agents/knowledge_agent.py:145-160 | a question without any keyword gets the topic list |
| MemoryModule.Fresh | agents/memory_module.py:32-39 | no last target or size, empty histories, the given session id |
| MemoryModule.LastN | agents/memory_module.py:80-82 | the last `min(n, len)` entries, which is Python's `s[-n:]` for `n > 0` (the histories use `n = 10`) |
| MemoryModule.NewSummaries | agents/memory_module.py:69-77 | one summary exactly when the results dictionary is non-empty |
| MemoryModule.Updated | agents/memory_module.py:50-82 | the last target and size are set exactly when the query has those keys, whatever their values; the session id stays |
| MemoryModule.UpdateRecordsQuery | agents/memory_module.py:63-82 | each update appends the query as the newest entry, keeps older entries in order, and grows the history by one up to ten |
| MemoryModule.UpdateKeepsWindows | agents/memory_module.py:69-82 | from a bounded memory, both histories become the last ten of old entries plus new ones |
| MemoryModule.UpdatePreservesBounds | agents/memory_module.py:79-82 | at most ten queries, and no more summaries than queries, survive an update |
| MemoryModule.HistoriesAreLastTen | agents/memory_module.py:50-82 | after any series of updates the histories are exactly the last ten queries and summaries ever recorded |
| MemoryModule.FreshIsBounded | agents/memory_module.py:103-111 | a new or cleared memory is bounded |
| MemoryModule.MemoryModule.constructor | agents/memory_module.py:14-39 | the stored memory when there is one, else a fresh one |
| MemoryModule.MemoryModule.SaveMemory | agents/memory_module.py:41-48 | the snapshot becomes the memory when storage is writable; a failure is swallowed |
| MemoryModule.MemoryModule.UpdateContext | agents/memory_module.py:50-84 | the memory becomes the updated memory, then is saved |
| MemoryModule.MemoryModule.GetLastTarget | agents/memory_module.py:86-88 | the remembered target: the one of the latest query with a `target` key, None when fresh or cleared |
| MemoryModule.MemoryModule.GetLastLibrarySize | agents/memory_module.py:90-92 | the remembered library size: the one of the latest query with a `library_size` key, None when fresh or cleared |
| MemoryModule.MemoryModule.GetContext | agents/memory_module.py:94-101 | reports last target, last size, the number of queries and the session id, changing nothing |
| MemoryModule.MemoryModule.ClearMemory | agents/memory_module.py:103-113 | a fresh memory under the new session id, then saved |
| MemoryModule.MemoryModule.Execute | agents/memory_module.py:115-141 | `get_context` (the default) reports and changes nothing; `clear` clears; anything else fails naming the operation and changes nothing |
| Orchestrator.DetermineQueryType | orchestrator.py:65-84 | first match wins: `question`, then `memory_operation`, then `target` or `smiles_file`, then `library_size` with a truthy remembered target |
| Orchestrator.FillDefaults | orchestrator.py:128-135 | a missing target or size is taken from memory only when the remembered value is truthy; nothing else changes |
| Orchestrator.CustomMolecules | orchestrator.py:210-219 | at most one molecule per line, none with an empty SMILES string |
| Orchestrator.NonBlankLinesMembers | orchestrator.py:213-215 | a line counts as non-blank exactly when its strip is not empty |
| Orchestrator.CustomMoleculesAreTheNonBlankLines | orchestrator.py:210-219 | each file molecule is a stripped non-blank line named `L<line number>`, blank lines counted, and each such line gives one |
| Orchestrator.CustomMoleculesCount | orchestrator.py:210-219 | a file gives as many molecules as it has non-blank lines |
| Orchestrator.FileWithoutBlankLines | orchestrator.py:213-219 | a file without blank lines gives one molecule per line, in order, from L1 |
| Orchestrator.LoadCustomSmiles | orchestrator.py:201-223 | an unreadable file gives no molecules; a readable one gives the molecules of its lines |
| Orchestrator.ScreeningOutcome | orchestrator.py:117-199 | a screening either completes, or fails at the target parse with the parser's non-success answer and the memory unchanged |
| Orchestrator.FailedOutcome | orchestrator.py:137-145 | a target that does not parse returns the parser's answer and leaves the memory alone |
| Orchestrator.CompletedOutcome | orchestrator.py:180-199 | a completed run answers success with the fixed message and file names, and updates the memory once |
| Orchestrator.ParsedTargetCompletes | orchestrator.py:128-145 | a request whose own target parses completes with that target; filling leaves target, file and summary flag alone |
| Orchestrator.RememberedTargetIsUsed | orchestrator.py:128-131 | a follow-up without a target is screened against the remembered truthy target |
| Orchestrator.CompletedScreeningIsRemembered | orchestrator.py:191-192 | a completed run remembers the filled target and size and records one more query, up to ten |
| Orchestrator.TopHitsIgnoreTopN | orchestrator.py:171-178 | five hits, or the whole library when smaller, whatever `top_n` the request carried |
| Orchestrator.TopHitsAreTheBest | orchestrator.py:171-178 | every kept hit scores no worse than every docked molecule left out |
| Orchestrator.BestScoreIsTheLowest | orchestrator.py:171-178 | with a non-empty library, the best score is the lowest of all docking scores and is attained |
| Orchestrator.CustomFileLibrary | orchestrator.py:157-160 | with a SMILES file the library size is its number of non-blank lines; an unreadable file gives an empty run with no hits and no best score |
| Orchestrator.WithSummary | orchestrator.py:180-186 | the summary is added exactly when not skipped and the summary agent succeeds; nothing else changes |
| Orchestrator.ParseTarget | orchestrator.py:137-145 | the parser runs only with a target; its answer is the failure exactly when it did not parse |
| Orchestrator.BuildLibrary | orchestrator.py:147-160 | the generated library, or the file's molecules when a file is named; the size is the library's length |
| Orchestrator.DockAndRank | orchestrator.py:162-178 | one record per molecule docked against the parsed identifier or "UNKNOWN", stably sorted, five hits, and ranks written into the docking records |
| Orchestrator.RunPipeline | orchestrator.py:147-186 | library, docking, ranking and summary as the outcome predicate describes them, ranks written |
| Orchestrator.OrchestratorAgent.constructor | orchestrator.py:24-37 | a new memory agent, from the stored memory or afresh; the saved snapshot is what was stored |
| Orchestrator.OrchestratorAgent.HandleKnowledgeQuery | orchestrator.py:86-101 | the knowledge agent's answer unchanged, after exactly one memory update, which is saved when storage is writable |
| Orchestrator.OrchestratorAgent.HandleMemoryOperation | orchestrator.py:103-115 | the memory agent's reply for the operation (default `get_context`): the context report, "Memory cleared" with a fresh saved memory, or the unknown-operation error with nothing changed; the request is never recorded |
| Orchestrator.OrchestratorAgent.FillFromMemory | orchestrator.py:128-135 | the caller's request is filled in place from memory |
| Orchestrator.OrchestratorAgent.HandleScreeningWorkflow | orchestrator.py:117-199 | the whole screening outcome: filled request, parse failure or success, library, docking, ranking, summary, memory update and ranks in the records; only a completed run saves the memory |
| Orchestrator.OrchestratorAgent.CompleteRun | orchestrator.py:147-199 | a run past the target parse completes: the screening outcome with ranks written into the records, and the memory saved when storage is writable |
| Orchestrator.OrchestratorAgent.ProcessQuery | orchestrator.py:39-63 | each route's outcome, with the memory route's reply, the ranks a completed screening writes into its records, and every route's save of the memory; an unknown request returns the status-less error and changes nothing |
| SystemScenarios.Screen | orchestrator.py:39-56 | a request that classifies as screening has the screening outcome, and a completed run has ranks written into its records |
| SystemScenarios.ScreenEgfr | test_system.py:27-35 | `{target: EGFR, library_size: 10}` succeeds with identifier EGFR named "Unknown", ten molecules and five hits |
| SystemScenarios.EgfrParses | test_system.py:27-30 | "EGFR" parses as an identifier named "Unknown" |
| SystemScenarios.GeneratedRunOutcome | orchestrator.py:147-178 | a parsed target with a size from 5 to 30 and no file gives that many molecules and five hits |
| SystemScenarios.RememberedTarget | test_system.py:91-125 | BRAF then `{library_size: 25}`: both succeed; the second is screened against BRAF with 25 molecules; the context holds BRAF, 25 and, from a fresh start, two queries |
| SystemScenarios.BrafParses | test_system.py:92-95 | "BRAF" parses as an identifier named "Unknown" |
| SystemScenarios.FirstRunOutcome | test_system.py:91-101 | the first run succeeds and leaves its target and size in memory |
| SystemScenarios.FollowUpOutcome | test_system.py:104-116 | the follow-up uses the remembered target and size 25 and is recorded |
| SystemScenarios.CustomFileWithoutSummary | test_system.py:134-158 | ACE2 with the five-line file and `skip_summary`: success, five molecules L1 to L5, no summary |
| SystemScenarios.CustomFileOutcome | orchestrator.py:157-186 | a parsed target, a five-line file without blank lines and a skipped summary give molecules L1 to L5 and no summary |
| SystemScenarios.Ace2Parses | test_system.py:141-145 | "ACE2" parses as an identifier named "Unknown" |
| SystemScenarios.NoBlankLine | test_system.py:135-138 | no line of the demonstration file is blank |

Four behaviours of the code are easy to miss, and the model keeps each of them as the code has it:
- **Knowledge requests are recorded.** `_handle_knowledge_query` calls `update_context` (orchestrator.py:99). The request is appended to the query history. Its non-empty answer adds a result summary with no target, no best score and zero hits.
- **History trimming.** Both histories are cut to ten only when the query history passes ten (agents/memory_module.py:80-82). They are not trimmed independently. `MemoryModule.UpdateKeepsWindows` shows the two rules agree on every bounded memory. Memories that are not bounded arise only from a stored file.
- **EGFR.** EGFR and the other four-character names pass the PDB test (agents/target_parser_agent.py:47) before the table is consulted. So they come back as their own identifier, named "Unknown".
- **Failing stages.** Only the parse stage can fail in the screening workflow. The generator skips only when a SMILES file is named, and then it is not called. The docking and ranking agents always receive the key they require. Those failure branches are therefore proved unreachable rather than modelled.

## Left out

- User interface, plotting, the flow diagram, the command-line entry point, and the CSV and markdown writes of `_save_results`: these are presentation and file output that no result depends on.
- Logging: it is the agents' only other effect.
- The summary agent: its markdown and float formatting are not modelled. It is a parameter returning success with a text, or anything else.
- MD5 hashing: the model takes an arbitrary hash function.
- Random sampling: the model takes an arbitrary choice of distinct positions.
- Reading the clock: timestamps and session ids are caller-supplied strings.
- The JSON memory file: reading it is an optional stored state. A save is a ghost snapshot, with failure as a parameter.
- Reading a SMILES file: it is modelled as its lines, or as absent when it cannot be read. A file that fails part way through is not modelled.
- Floating-point scores: scores are exact integers in hundredths, so binary rounding of `round(score, 2)` is not modelled.
- Non-ASCII text: case mapping and `isalnum()` cover ASCII letters and digits only. The whitespace set of `strip()` is Python's.
- Values Python would reject are kept out by the types: a non-numeric or negative `library_size`, or a non-string target. Values the code accepts but never uses sensibly are also excluded: a key present with the value None, and non-boolean `skip_summary` values.
- MemoryModule.Updated: a query history entry holds a snapshot of the request. The original stores the request dictionary itself, so later in-place changes to that dictionary are not reflected.
- KnowledgeAgent.Execute: answers are the article's topic or the topic list, not the article texts themselves.
- KnowledgeAgent.FindAnswerIn: the demonstration script's three literal questions are not replayed. They fall under the general lemmas.
- The knowledge agent's keywords: the model does not prove they are all lower case.
- RankingAgent.WriteRanks: the readback of positions is stated only for lists without repeated records. Otherwise every record has some rank, but which one is not stated.
- RankingAgent.Execute: the same restriction on repeated records applies to the ranks it promises. The docking agent never produces such lists.
- LibraryGeneratorAgent.GenerateMolecules: which members are drawn and in what order is left to the sampler. Only distinct members numbered in order are promised.
