/** The target parser: turns the request's `target` into a PDB identifier, a chain and a
    protein name, either because the target already looks like a PDB identifier or because it
    is one of the ten protein names of a fixed table. */
module TargetParserAgent {
  import opened Wrappers
  import opened PyStrings
  import opened Records
  import BaseAgent

  /** `protein_mapping`, in the dictionary's insertion order: (name, PDB identifier). */
  const ProteinMapping: seq<(string, string)> := [
    ("EGFR", "1A4G"), ("ACE2", "6M0J"), ("BRAF", "5VAM"), ("ALK", "3LCS"), ("CDK2", "1HCK"),
    ("VEGFR", "3V2A"), ("BCL2", "2W3L"), ("HSP90", "3T0Z"), ("MTOR", "4JT5"), ("PI3K", "5XGH")
  ]

  /** `list(protein_mapping.keys())`. */
  function AvailableTargets(): (names: seq<string>)
    ensures |names| == |ProteinMapping|
    ensures forall i :: 0 <= i < |names| ==> names[i] == ProteinMapping[i].0
  {
    seq(|ProteinMapping|, i requires 0 <= i < |ProteinMapping| => ProteinMapping[i].0)
  }

  /** What the parser looks at: the target stripped of surrounding whitespace and upper-cased. */
  function Normalize(target: string): (r: string)
    ensures |r| <= |target|
    ensures r == [] || (!IsSpace(r[0]) && !IsSpace(r[|r| - 1]))
    ensures r == [] <==> AllSpace(target)
    ensures forall i :: 0 <= i < |r| ==> !('a' <= r[i] <= 'z')
  {
    Upper(Strip(target))
  }

  /** The PDB identifier test: exactly four characters, all letters or digits. */
  predicate IsPdbId(t: string)
    ensures IsPdbId(t) ==> Strip(t) == t && forall i :: 0 <= i < |t| ==> !IsSpace(t[i])
  {
    if |t| == 4 && IsAlnum(t) then
      StripOfTrimmed(t);
      true
    else
      false
  }

  /** Dictionary lookup `table[name]`, or None when `name` is not a key. */
  function LookupIn(table: seq<(string, string)>, name: string): (r: Option<string>)
    ensures r.None? <==> forall i :: 0 <= i < |table| ==> table[i].0 != name
    ensures r.Some? ==> exists i :: 0 <= i < |table| && table[i] == (name, r.value)
  {
    if table == [] then None
    else if table[0].0 == name then Some(table[0].1)
    else LookupIn(table[1..], name)
  }

  /** `_reverse_lookup` over a table: the first name whose identifier is `id`, else "Unknown". */
  function ReverseLookupIn(table: seq<(string, string)>, id: string): (r: string)
    ensures (forall i :: 0 <= i < |table| ==> table[i].1 != id) ==> r == "Unknown"
    ensures forall i :: (0 <= i < |table| && table[i].1 == id && (forall j :: 0 <= j < i ==> table[j].1 != id))
                          ==> r == table[i].0
  {
    if table == [] then "Unknown"
    else if table[0].1 == id then table[0].0
    else ReverseLookupIn(table[1..], id)
  }

  /** `_reverse_lookup`: the table name whose identifier is `id`, else "Unknown"; it inverts the
      name lookup. */
  function ReverseLookup(id: string): (r: string)
    ensures r == "Unknown" <==> forall i :: 0 <= i < |ProteinMapping| ==> ProteinMapping[i].1 != id
    ensures r != "Unknown" ==> LookupIn(ProteinMapping, r) == Some(id)
  {
    MappingIsInjective();
    NoNameIsUnknown();
    ReverseLookupInverse(ProteinMapping, id);
    ReverseLookupIn(ProteinMapping, id)
  }

  /** No table name is the word "Unknown". */
  lemma NoNameIsUnknown()
    ensures forall i :: 0 <= i < |ProteinMapping| ==> ProteinMapping[i].0 != "Unknown"
  {
  }

  /** In a table without repeated names and without the name "Unknown", the reverse lookup
      answers "Unknown" exactly when the identifier is absent, and otherwise a name that looks
      up to the identifier. */
  lemma ReverseLookupInverse(table: seq<(string, string)>, id: string)
    requires forall i, j :: 0 <= i < j < |table| ==> table[i].0 != table[j].0
    requires forall i :: 0 <= i < |table| ==> table[i].0 != "Unknown"
    ensures ReverseLookupIn(table, id) == "Unknown" <==> forall i :: 0 <= i < |table| ==> table[i].1 != id
    ensures ReverseLookupIn(table, id) != "Unknown" ==> LookupIn(table, ReverseLookupIn(table, id)) == Some(id)
  {
    if exists i :: 0 <= i < |table| && table[i].1 == id {
      LookupOfReverse(table, id);
    }
  }

  /** In a table without repeated names, the name the reverse lookup finds for an identifier
      that occurs looks up to that identifier. */
  lemma {:induction false} LookupOfReverse(table: seq<(string, string)>, id: string)
    requires forall i, j :: 0 <= i < j < |table| ==> table[i].0 != table[j].0
    requires exists i :: 0 <= i < |table| && table[i].1 == id
    ensures exists i :: 0 <= i < |table| && table[i].1 == id && table[i].0 == ReverseLookupIn(table, id)
    ensures LookupIn(table, ReverseLookupIn(table, id)) == Some(id)
  {
    if table[0].1 != id {
      var t := table[1..];
      var k :| 0 <= k < |table| && table[k].1 == id;
      assert t[k - 1].1 == id;
      LookupOfReverse(t, id);
      var j :| 0 <= j < |t| && t[j].1 == id && t[j].0 == ReverseLookupIn(t, id);
      assert table[j + 1] == t[j];
    }
  }

  datatype ResolvedTarget = ResolvedTarget(targetId: string, chain: string, targetName: string)

  /** The parser's answer: `{target_id, chain, target_name, status: "success"}`, the status-less
      `{error: "Missing target field"}`, or `{error, status: "failed", available_targets}`. */
  datatype ParseResult =
    | Parsed(resolved: ResolvedTarget)
    | MissingTarget(error: string)
    | UnknownTarget(error: string, availableTargets: seq<string>)
  {
    /** `result.get('status')`. */
    function Status(): Option<string> {
      match this
      case Parsed(_) => Some("success")
      case MissingTarget(_) => None
      case UnknownTarget(_, _) => Some("failed")
    }
  }

  /** The decision on a normalised target: the PDB test first, then the name table. */
  function Resolve(target: string): (r: ParseResult)
    ensures !r.MissingTarget?
    ensures r.Parsed? <==> IsPdbId(target) || LookupIn(ProteinMapping, target).Some?
    ensures r.Parsed? ==> r.resolved.chain == "A"
  {
    if IsPdbId(target) then
      Parsed(ResolvedTarget(target, "A", ReverseLookup(target)))
    else match LookupIn(ProteinMapping, target)
      case Some(pdbId) => Parsed(ResolvedTarget(pdbId, "A", target))
      case None => UnknownTarget("Unknown target: " + target, AvailableTargets())
  }

  /** `TargetParserAgent.execute`: a missing key is reported without a status; otherwise the
      target is normalised before any test. */
  function Execute(input: Query): (r: ParseResult)
    ensures r.MissingTarget? <==> input.target.None?
    ensures r.Status() == Some("success") <==> r.Parsed?
    ensures input.target.Some? ==> r == Resolve(Normalize(input.target.value))
  {
    if !BaseAgent.ValidateInput(input.Keys(), ["target"]) then
      MissingTarget("Missing target field")
    else
      Resolve(Normalize(input.target.value))
  }

  /** A request carrying just this target. */
  function TargetQuery(t: string): Query {
    EmptyQuery.(target := Some(t))
  }

  /** The ten names are distinct and so are the ten identifiers. */
  lemma MappingIsInjective()
    ensures forall i, j :: 0 <= i < j < |ProteinMapping| ==> ProteinMapping[i].0 != ProteinMapping[j].0
    ensures forall i, j :: 0 <= i < j < |ProteinMapping| ==> ProteinMapping[i].1 != ProteinMapping[j].1
  {
  }

  /** Because the identifiers are distinct, looking up the name of the identifier of a table
      name gives back that name. */
  lemma ReverseLookupInverts(k: nat)
    requires k < |ProteinMapping|
    ensures ReverseLookup(ProteinMapping[k].1) == ProteinMapping[k].0
  {
    MappingIsInjective();
    assert forall j :: 0 <= j < k ==> ProteinMapping[j].1 != ProteinMapping[k].1;
  }

  /** Every identifier of the table passes the PDB test. */
  lemma IdentifiersArePdbIds()
    ensures forall i :: 0 <= i < |ProteinMapping| ==> IsPdbId(ProteinMapping[i].1)
  {
    forall i | 0 <= i < |ProteinMapping| ensures IsPdbId(ProteinMapping[i].1) {
      var id := ProteinMapping[i].1;
      assert id in ["1A4G", "6M0J", "5VAM", "3LCS", "1HCK", "3V2A", "2W3L", "3T0Z", "4JT5", "5XGH"];
    }
  }

  /** Any spelling of a table identifier (any case, surrounding whitespace) resolves to itself,
      named after its protein. */
  lemma PdbIdResolvesToItsName(k: nat, t: string)
    requires k < |ProteinMapping|
    requires Normalize(t) == ProteinMapping[k].1
    ensures Execute(TargetQuery(t)) == Parsed(ResolvedTarget(ProteinMapping[k].1, "A", ProteinMapping[k].0))
  {
    IdentifiersArePdbIds();
    ReverseLookupInverts(k);
  }

  /** The PDB test runs before the table, so a four-character alphanumeric target is taken as
      its own identifier, and if it is no table identifier its name is "Unknown". Seven of the
      ten table names (EGFR, ACE2, BRAF, CDK2, BCL2, MTOR, PI3K) are of this kind. */
  lemma FourCharacterTargetSkipsTable(t: string)
    requires IsPdbId(Normalize(t))
    requires forall i :: 0 <= i < |ProteinMapping| ==> ProteinMapping[i].1 != Normalize(t)
    ensures Execute(TargetQuery(t)) == Parsed(ResolvedTarget(Normalize(t), "A", "Unknown"))
  {
  }

  /** A target made of upper-case letters and digits is already in normal form. */
  lemma UpperAlnumIsNormal(t: string)
    requires t != []
    requires forall i :: 0 <= i < |t| ==> ('A' <= t[i] <= 'Z') || ('0' <= t[i] <= '9')
    ensures Normalize(t) == t && IsAlnum(t)
  {
    StripOfTrimmed(t);
    UpperOfUpperCase(t);
  }

  /** No table name is also a table identifier. */
  lemma NamesAreNotIdentifiers()
    ensures forall i, j :: 0 <= i < |ProteinMapping| && 0 <= j < |ProteinMapping| ==> ProteinMapping[i].0 != ProteinMapping[j].1
  {
  }

  /** The seven table names made of four letters and digits (EGFR, ACE2, BRAF, CDK2, BCL2, MTOR,
      PI3K) pass the PDB test first: they are kept as the identifier and named "Unknown",
      instead of being looked up in the table. */
  lemma FourCharacterNamesAreIdentifiers(t: string, k: nat)
    requires k < |ProteinMapping| && Normalize(t) == ProteinMapping[k].0
    requires IsPdbId(Normalize(t))
    ensures Execute(TargetQuery(t)) == Parsed(ResolvedTarget(ProteinMapping[k].0, "A", "Unknown"))
  {
    NamesAreNotIdentifiers();
    FourCharacterTargetSkipsTable(t);
  }

  /** Only names that fail the PDB test reach the table, and then the result is the table's
      identifier, named by the normalised target. Of the ten names that is ALK, VEGFR, HSP90. */
  lemma TableNamesThatAreNotPdbIds(t: string, k: nat)
    requires k < |ProteinMapping| && Normalize(t) == ProteinMapping[k].0
    requires !IsPdbId(Normalize(t))
    ensures Execute(TargetQuery(t)) == Parsed(ResolvedTarget(ProteinMapping[k].1, "A", ProteinMapping[k].0))
  {
    MappingIsInjective();
    assert forall j :: 0 <= j < k ==> ProteinMapping[j].0 != ProteinMapping[k].0;
  }

  /** A target that is neither fails, with the normalised target in the message and the ten
      names, in table order, as alternatives. */
  lemma UnrecognisedTargetFails(t: string)
    requires !IsPdbId(Normalize(t))
    requires forall i :: 0 <= i < |ProteinMapping| ==> ProteinMapping[i].0 != Normalize(t)
    ensures Execute(TargetQuery(t)) ==
              UnknownTarget("Unknown target: " + Normalize(t),
                            ["EGFR", "ACE2", "BRAF", "ALK", "CDK2", "VEGFR", "BCL2", "HSP90", "MTOR", "PI3K"])
  {
  }

  /** The parser sees the target only through its normalisation: a target and its normal form
      give the same answer. */
  lemma ExecuteSeesOnlyNormalForm(q: Query)
    requires q.target.Some?
    ensures Execute(q) == Execute(q.(target := Some(Normalize(q.target.value))))
  {
    var s := q.target.value;
    UpperCommutesWithStrip(Strip(s));
    StripIdempotent(s);
    UpperIdempotent(Strip(s));
    assert Normalize(Normalize(s)) == Normalize(s);
  }
}
