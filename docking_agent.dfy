/** The mock docking agent: one scored record per molecule, the score derived from a hash of
    the molecule's SMILES followed by the target identifier. MD5 is not modelled: the hash is
    a parameter `hash`, any function from strings to natural numbers. Scores are kept in
    hundredths, so `-4.25` is `-425`. */
module DockingAgent {
  import opened Wrappers
  import opened Records
  import BaseAgent

  /** A docking result dictionary. The three fields the docking agent writes never change; the
      `rank` key is absent (`None`) until the ranking agent writes it into this very
      dictionary, which is why it is a mutable field of an object. */
  class DockingRecord {
    const ligandId: string
    const smiles: string
    const dockingScore: int
    var rank: Option<nat>

    constructor (ligandId: string, smiles: string, dockingScore: int)
      ensures this.ligandId == ligandId && this.smiles == smiles && this.dockingScore == dockingScore
      ensures rank == None
    {
      this.ligandId := ligandId;
      this.smiles := smiles;
      this.dockingScore := dockingScore;
      rank := None;
    }
  }

  /** No dictionary appears twice in a list. */
  predicate Distinct(s: seq<DockingRecord>) {
    forall i, j :: 0 <= i < j < |s| ==> s[i] != s[j]
  }

  /** The score, in hundredths, for hash value `h`: `-(h % 7 + 4) - (h % 100) / 100`, rounded to
      two decimals. Between -10.99 and -4.00. */
  function Score(h: nat): (score: int)
    ensures -1099 <= score <= -400
  {
    -(100 * (h % 7 + 4) + h % 100)
  }

  /** The whole units of a score are `-(h % 7 + 4)`, a value from -10 to -4 as the agent's
      documentation says, and the hundredths are `h % 100`. */
  lemma ScoreParts(h: nat)
    ensures (-Score(h)) / 100 == h % 7 + 4 && (-Score(h)) % 100 == h % 100
    ensures 4 <= (-Score(h)) / 100 <= 10
  {
    var a, b := h % 7 + 4, h % 100;
    assert -Score(h) == 100 * a + b;
    assert 0 <= b < 100;
  }

  /** The score a molecule gets against a target. */
  function MoleculeScore(m: Molecule, targetId: string, hash: string -> nat): int {
    Score(hash(m.smiles + targetId))
  }

  /** Two molecules with the same SMILES get the same score against the same target, whatever
      their ligand identifiers. */
  lemma ScoreIgnoresLigandId(m1: Molecule, m2: Molecule, targetId: string, hash: string -> nat)
    requires m1.smiles == m2.smiles
    ensures MoleculeScore(m1, targetId, hash) == MoleculeScore(m2, targetId, hash)
  {
  }

  /** Record `d` is molecule `m` docked against `targetId`. */
  predicate DockedFrom(d: DockingRecord, m: Molecule, targetId: string, hash: string -> nat) {
    d.ligandId == m.ligandId && d.smiles == m.smiles && d.dockingScore == MoleculeScore(m, targetId, hash)
  }

  /** `_perform_docking`: one new record per molecule, in the molecules' order. */
  method PerformDocking(molecules: seq<Molecule>, targetId: string, hash: string -> nat)
    returns (results: seq<DockingRecord>)
    ensures |results| == |molecules|
    ensures forall i :: 0 <= i < |results| ==> DockedFrom(results[i], molecules[i], targetId, hash)
    ensures forall i :: 0 <= i < |results| ==> fresh(results[i]) && results[i].rank == None
    ensures Distinct(results)
  {
    results := [];
    for k := 0 to |molecules|
      invariant |results| == k
      invariant forall i :: 0 <= i < k ==> DockedFrom(results[i], molecules[i], targetId, hash)
      invariant forall i :: 0 <= i < k ==> fresh(results[i]) && results[i].rank == None
      invariant Distinct(results)
    {
      var mol := molecules[k];
      var record := new DockingRecord(mol.ligandId, mol.smiles, Score(hash(mol.smiles + targetId)));
      results := results + [record];
    }
  }

  /** The part of the docking agent's input dictionary it reads. */
  datatype DockingInput = DockingInput(molecules: Option<seq<Molecule>>, targetId: Option<string>) {
    function Keys(): (keys: set<string>)
      ensures "molecules" in keys <==> molecules.Some?
    {
      (if molecules.Some? then {"molecules"} else {}) + (if targetId.Some? then {"target_id"} else {})
    }
  }

  /** `{docking_results, target_id, status: "success"}` or the status-less
      `{error: "Missing molecules field"}`. */
  datatype DockingResult =
    | Docked(dockingResults: seq<DockingRecord>, targetId: string)
    | MissingMolecules(error: string)
  {
    function Status(): Option<string> {
      if Docked? then Some("success") else None
    }
  }

  /** `DockingAgent.execute`. */
  method Execute(input: DockingInput, hash: string -> nat) returns (r: DockingResult)
    ensures input.molecules.None? ==> r == MissingMolecules("Missing molecules field")
    ensures input.molecules.Some? ==> r.Docked? && r.targetId == input.targetId.GetOr("UNKNOWN")
    ensures r.Docked? ==> |r.dockingResults| == |input.molecules.value|
    ensures r.Docked? ==> forall i :: 0 <= i < |r.dockingResults| ==>
              DockedFrom(r.dockingResults[i], input.molecules.value[i], r.targetId, hash)
    ensures r.Docked? ==> forall i :: 0 <= i < |r.dockingResults| ==>
              fresh(r.dockingResults[i]) && r.dockingResults[i].rank == None
    ensures r.Docked? ==> Distinct(r.dockingResults)
  {
    if !BaseAgent.ValidateInput(input.Keys(), ["molecules"]) {
      return MissingMolecules("Missing molecules field");
    }
    var targetId := input.targetId.GetOr("UNKNOWN");
    var results := PerformDocking(input.molecules.value, targetId, hash);
    r := Docked(results, targetId);
  }
}
