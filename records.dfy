/** The records that flow between the orchestrator and its agents: the request dictionary,
    the molecules of a library and the ligand identifiers they carry. */
module Records {
  import opened Wrappers
  import opened PyStrings

  /** A request dictionary. Each field stands for one recognised key; `Some` means the key is
      present. The value types are the ones the agents can work with: `target` and `question`
      are stripped or lower-cased as strings, and `library_size` is passed to `int()` and then
      used as a sample size, so it is a natural number. */
  datatype Query = Query(
    target: Option<string>,
    librarySize: Option<nat>,
    question: Option<string>,
    memoryOperation: Option<string>,
    smilesFile: Option<string>,
    skipSummary: Option<bool>,
    topN: Option<int>)
  {
    /** The keys present in the dictionary. */
    function Keys(): (keys: set<string>)
      ensures "target" in keys <==> target.Some?
      ensures "library_size" in keys <==> librarySize.Some?
      ensures "question" in keys <==> question.Some?
      ensures "memory_operation" in keys <==> memoryOperation.Some?
      ensures "smiles_file" in keys <==> smilesFile.Some?
      ensures "skip_summary" in keys <==> skipSummary.Some?
      ensures "top_n" in keys <==> topN.Some?
      ensures keys <= RecognisedKeys
    {
      set k | k in RecognisedKeys && HasKey(k)
    }

    /** Whether the recognised key `k` is present. */
    predicate HasKey(k: string) {
      match k
      case "target" => target.Some?
      case "library_size" => librarySize.Some?
      case "question" => question.Some?
      case "memory_operation" => memoryOperation.Some?
      case "smiles_file" => smilesFile.Some?
      case "skip_summary" => skipSummary.Some?
      case "top_n" => topN.Some?
      case _ => false
    }
  }

  /** The keys a request dictionary can carry. */
  const RecognisedKeys: set<string> :=
    {"target", "library_size", "question", "memory_operation", "smiles_file", "skip_summary", "top_n"}

  /** A request with no keys at all. */
  const EmptyQuery := Query(None, None, None, None, None, None, None)

  /** The caller's request dictionary, which the screening workflow fills in place. */
  class Request {
    var value: Query

    constructor (q: Query)
      ensures value == q
    {
      value := q;
    }
  }

  /** Python truthiness of an optional string (None and "" are false). */
  predicate TruthyString(v: Option<string>) {
    v.Some? && v.value != ""
  }

  /** Python truthiness of an optional number (None and 0 are false). */
  predicate TruthySize(v: Option<nat>) {
    v.Some? && v.value != 0
  }

  /** Python truthiness of an optional flag (None and False are false). */
  predicate TruthyFlag(v: Option<bool>) {
    v == Some(true)
  }

  /** A molecule of a library: `{ligand_id, smiles}`. */
  datatype Molecule = Molecule(ligandId: string, smiles: string)

  /** The identifier `f"L{i}"` given to the molecule numbered `i`. */
  function LigandId(i: nat): string {
    "L" + NatToString(i)
  }

  /** Molecules numbered differently get different identifiers. */
  lemma LigandIdInjective(i: nat, j: nat)
    requires LigandId(i) == LigandId(j)
    ensures i == j
  {
    assert LigandId(i)[1..] == NatToString(i);
    assert LigandId(j)[1..] == NatToString(j);
    NatToStringInjective(i, j);
  }
}
