/** The library generator: draws up to thirty distinct SMILES strings from a fixed list and
    numbers them `L1`, `L2`, ... in the order drawn. Which strings are drawn is up to the
    random generator, which the model leaves open: every draw of distinct positions is
    possible. */
module LibraryGeneratorAgent {
  import opened Wrappers
  import opened Records
  import BaseAgent

  /** The built-in list of SMILES strings, in source order. */
  const SmilesDatabase: seq<string> := [
    "CCO", "c1ccccc1", "CC(=O)O", "CC(C)O", "c1ccc(O)cc1",
    "CC(=O)Nc1ccccc1", "CC(C)(C)O", "c1ccc(cc1)C(=O)O", "CCN(CC)CC", "C1CCCCC1",
    "c1ccc(cc1)N", "CC(=O)OC", "c1ccc(cc1)Cl", "CCOC(=O)C", "c1ccc(cc1)[N+](=O)[O-]",
    "CC(C)CC", "c1ccc(cc1)C", "CC(=O)N", "c1ccc(cc1)O[CH3]", "CCCCC",
    "C1CCC(CC1)O", "c1ccc2c(c1)cccc2", "CC(C)C(=O)O", "c1ccc(cc1)F", "CCCCCO",
    "c1ccc(cc1)Br", "CC(C)C", "c1ccc(cc1)I", "CCOCC", "c1ccc(cc1)CC"
  ]

  /** The size used when the request has no `library_size`. */
  const DefaultLibrarySize: nat := 10

  /** `min(size, len(smiles_database))`. */
  function ActualSize(size: nat): (n: nat)
    ensures n <= size && n <= |SmilesDatabase|
    ensures n == size || n == |SmilesDatabase|
  {
    if size < |SmilesDatabase| then size else |SmilesDatabase|
  }

  /** No SMILES string is listed twice. */
  lemma DatabaseIsDistinct()
    ensures forall i, j :: 0 <= i < j < |SmilesDatabase| ==> SmilesDatabase[i] != SmilesDatabase[j]
  {
  }

  /** `k` pairwise different positions below `n`. */
  predicate IsDraw(positions: seq<nat>, n: nat, k: nat) {
    |positions| == k
    && (forall i :: 0 <= i < k ==> positions[i] < n)
    && (forall i, j :: 0 <= i < j < k ==> positions[i] != positions[j])
  }

  /** The choice `random.sample` makes: any `k` distinct positions of a population of `n`, in
      any order. The first `k` positions show that such a choice exists. */
  method DrawPositions(n: nat, k: nat) returns (positions: seq<nat>)
    requires k <= n
    ensures IsDraw(positions, n, k)
  {
    var first: seq<nat> := seq(k, i requires 0 <= i < k => i);
    assert IsDraw(first, n, k);
    positions :| IsDraw(positions, n, k);
  }

  /** `random.sample(population, k)`: the members at `k` distinct positions. */
  method Sample(population: seq<string>, k: nat) returns (chosen: seq<string>, ghost positions: seq<nat>)
    requires k <= |population|
    ensures IsDraw(positions, |population|, k)
    ensures |chosen| == k
    ensures forall i :: 0 <= i < k ==> chosen[i] == population[positions[i]]
  {
    var drawn := DrawPositions(|population|, k);
    chosen := seq(k, i requires 0 <= i < k => population[drawn[i]]);
    positions := drawn;
  }

  /** Molecule `i` (from 0) of a generated library is numbered `i + 1`. */
  predicate NumberedFrom(molecules: seq<Molecule>, smiles: seq<string>) {
    |molecules| == |smiles|
    && forall i :: 0 <= i < |molecules| ==> molecules[i] == Molecule(LigandId(i + 1), smiles[i])
  }

  /** The drawn SMILES strings are distinct members of the list. */
  predicate DistinctMembers(molecules: seq<Molecule>) {
    (forall i :: 0 <= i < |molecules| ==> molecules[i].smiles in SmilesDatabase)
    && (forall i, j :: 0 <= i < j < |molecules| ==> molecules[i].smiles != molecules[j].smiles)
  }

  /** A library generated for `size`: `min(size, 30)` distinct members of the list, numbered
      from L1 in order. */
  predicate GeneratedLibrary(molecules: seq<Molecule>, size: nat) {
    |molecules| == ActualSize(size)
    && (forall i :: 0 <= i < |molecules| ==> molecules[i].ligandId == LigandId(i + 1))
    && DistinctMembers(molecules)
  }

  /** `_generate_molecules`. */
  method GenerateMolecules(size: nat) returns (molecules: seq<Molecule>)
    ensures GeneratedLibrary(molecules, size)
  {
    var actualSize := ActualSize(size);
    var selected, positions := Sample(SmilesDatabase, actualSize);
    DatabaseIsDistinct();
    molecules := [];
    for i := 0 to |selected|
      invariant NumberedFrom(molecules, selected[..i])
    {
      molecules := molecules + [Molecule(LigandId(i + 1), selected[i])];
    }
    assert selected[..|selected|] == selected;
    forall i, j | 0 <= i < j < |molecules| ensures molecules[i].smiles != molecules[j].smiles {
      assert positions[i] != positions[j];
    }
  }

  /** The generator's answer: `{status: "skipped", message}` or
      `{molecules, library_size, status: "success"}`. */
  datatype LibraryResult =
    | Skipped(message: string)
    | Generated(molecules: seq<Molecule>, librarySize: nat)
  {
    function Status(): string {
      if Skipped? then "skipped" else "success"
    }
  }

  /** The size a request asks for: its `library_size` when the key is present, else 10. */
  function RequestedSize(input: Query): (size: nat)
    ensures input.librarySize.Some? ==> size == input.librarySize.value
    ensures input.librarySize.None? ==> size == DefaultLibrarySize
  {
    if !BaseAgent.ValidateInput(input.Keys(), ["library_size"]) then DefaultLibrarySize
    else input.librarySize.value
  }

  /** `LibraryGeneratorAgent.execute`. A custom SMILES file wins over any size. */
  method Execute(input: Query) returns (r: LibraryResult)
    ensures input.smilesFile.Some? <==> r.Skipped?
    ensures r.Skipped? ==> r.message == "Using custom SMILES file"
    ensures r.Generated? ==> GeneratedLibrary(r.molecules, RequestedSize(input)) && r.librarySize == |r.molecules|
  {
    if "smiles_file" in input.Keys() {
      return Skipped("Using custom SMILES file");
    }
    var librarySize := RequestedSize(input);
    var molecules := GenerateMolecules(librarySize);
    r := Generated(molecules, |molecules|);
  }

  /** The ids of a generated library are pairwise different. */
  lemma LigandIdsAreDistinct(molecules: seq<Molecule>)
    requires forall i :: 0 <= i < |molecules| ==> molecules[i].ligandId == LigandId(i + 1)
    ensures forall i, j :: 0 <= i < j < |molecules| ==> molecules[i].ligandId != molecules[j].ligandId
  {
    forall i, j | 0 <= i < j < |molecules| ensures molecules[i].ligandId != molecules[j].ligandId {
      if molecules[i].ligandId == molecules[j].ligandId {
        LigandIdInjective(i + 1, j + 1);
      }
    }
  }

  /** Asking for more molecules than the list holds gives all thirty, each exactly once. */
  lemma OversizedRequestTakesWholeList(size: nat, molecules: seq<Molecule>)
    requires size >= |SmilesDatabase|
    requires |molecules| == ActualSize(size) && DistinctMembers(molecules)
    ensures |molecules| == 30
    ensures forall s :: s in SmilesDatabase ==> exists i :: 0 <= i < |molecules| && molecules[i].smiles == s
  {
    var smiles := seq(|molecules|, i requires 0 <= i < |molecules| => molecules[i].smiles);
    DatabaseIsDistinct();
    FullDrawCoversAll(SmilesDatabase, smiles);
    forall s | s in SmilesDatabase
      ensures exists i :: 0 <= i < |molecules| && molecules[i].smiles == s
    {
      var i :| 0 <= i < |smiles| && smiles[i] == s;
      assert molecules[i].smiles == s;
    }
  }

  /** Among the members of a list without repeats, as many distinct ones as the list is long
      are all of them. */
  lemma FullDrawCoversAll(population: seq<string>, chosen: seq<string>)
    requires forall i, j :: 0 <= i < j < |population| ==> population[i] != population[j]
    requires forall i, j :: 0 <= i < j < |chosen| ==> chosen[i] != chosen[j]
    requires forall i :: 0 <= i < |chosen| ==> chosen[i] in population
    requires |chosen| == |population|
    ensures forall x :: x in population ==> x in chosen
  {
    var drawn := set x | x in chosen;
    var all := set x | x in population;
    DistinctCount(chosen);
    DistinctCount(population);
    assert drawn <= all;
    forall x | x in population ensures x in chosen {
      if x !in chosen {
        assert drawn <= all - {x};
        assert |all - {x}| == |all| - 1;
        SubsetCount(drawn, all - {x});
        assert false;
      }
    }
  }

  lemma SubsetCount(a: set<string>, b: set<string>)
    requires a <= b
    ensures |a| <= |b|
  {
    assert b == a + (b - a);
  }

  /** A list without repeats has as many distinct members as entries. */
  lemma {:induction false} DistinctCount(s: seq<string>)
    requires forall i, j :: 0 <= i < j < |s| ==> s[i] != s[j]
    ensures |set x | x in s| == |s|
  {
    if s != [] {
      var tail := s[1..];
      DistinctCount(tail);
      assert (set x | x in s) == (set x | x in tail) + {s[0]};
      assert s[0] !in tail;
    }
  }
}
