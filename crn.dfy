/** The container of biocrnpyler/chemical_reaction_network.py: a list of
    species kept free of duplicates and a list of reactions, both updated in
    place. */
module Networks {
  import opened Wrappers
  import opened Chemistry
  import opened Reactions

  /** What `add_species` and `add_reactions` accept: one object, which is
      wrapped into a list, or a list. */
  datatype Arg = Single(item: PyObj) | Many(items: seq<PyObj>)

  function Items(arg: Arg): (xs: seq<PyObj>)
    ensures arg.Single? ==> xs == [arg.item]
    ensures arg.Many? ==> xs == arg.items
  {
    match arg
    case Single(item) => [item]
    case Many(items) => items
  }

  predicate NoDuplicates(xs: seq<Species>) {
    forall i, j :: 0 <= i < j < |xs| ==> xs[i] != xs[j]
  }

  function Elems(xs: seq<Species>): set<Species> {
    set x | x in xs
  }

  // ---------------------------------------------------------------------
  // add_species as a function on lists

  /** `acc` with each species of `xs` appended, in order, unless it is
      already there. */
  function Extend(acc: seq<Species>, xs: seq<Species>): seq<Species>
    decreases |xs|
  {
    if xs == [] then acc
    else
      var a := Extend(acc, xs[..|xs| - 1]);
      if xs[|xs| - 1] in a then a else a + [xs[|xs| - 1]]
  }

  /** Adding never reorders or removes: the old list is a prefix of the new
      one, which holds exactly the old and the added species, and stays free
      of duplicates. */
  lemma {:induction false} ExtendFacts(acc: seq<Species>, xs: seq<Species>)
    ensures acc <= Extend(acc, xs)
    ensures Elems(Extend(acc, xs)) == Elems(acc) + Elems(xs)
    ensures NoDuplicates(acc) ==> NoDuplicates(Extend(acc, xs))
    decreases |xs|
  {
    if xs != [] {
      var init, x := xs[..|xs| - 1], xs[|xs| - 1];
      assert xs == init + [x];
      ExtendFacts(acc, init);
      assert Elems(xs) == Elems(init) + {x};
      var a := Extend(acc, init);
      if x in a {
        assert x in Elems(a);
      } else {
        assert Elems(a + [x]) == Elems(a) + {x};
      }
    }
  }

  /** One more species object extends the list by its species, unless listed. */
  lemma ExtendStep(acc: seq<Species>, items: seq<PyObj>, i: nat)
    requires i < |items| && forall j :: 0 <= j <= i ==> items[j].PySpecies?
    ensures var a := Extend(acc, SpeciesValues(items[..i]));
      Extend(acc, SpeciesValues(items[..i + 1]))
      == if items[i].species in a then a else a + [items[i].species]
  {
    var xs := SpeciesValues(items[..i + 1]);
    assert xs[..|xs| - 1] == SpeciesValues(items[..i]);
  }

  /** Species already present are skipped: adding them changes nothing. */
  lemma {:induction false} ExtendPresent(acc: seq<Species>, xs: seq<Species>)
    requires Elems(xs) <= Elems(acc)
    ensures Extend(acc, xs) == acc
    decreases |xs|
  {
    if xs != [] {
      var init := xs[..|xs| - 1];
      assert Elems(init) <= Elems(xs);
      assert xs[|xs| - 1] in Elems(xs);
      ExtendPresent(acc, init);
    }
  }

  /** Adding the same species a second time is a no-op. */
  lemma ExtendIdempotent(acc: seq<Species>, xs: seq<Species>)
    ensures Extend(Extend(acc, xs), xs) == Extend(acc, xs)
  {
    ExtendFacts(acc, xs);
    ExtendPresent(Extend(acc, xs), xs);
  }

  /** Starting from an empty list, species take their places in the order
      of their first occurrences. */
  lemma {:induction false} ExtendFirstOccurrence(xs: seq<Species>, i: nat, j: nat)
    requires i < j < |xs|
    requires forall k :: 0 <= k < i ==> xs[k] != xs[i]
    requires forall k :: 0 <= k < j ==> xs[k] != xs[j]
    ensures exists p, q :: 0 <= p < q < |Extend([], xs)| && Extend([], xs)[p] == xs[i] && Extend([], xs)[q] == xs[j]
    decreases |xs|
  {
    var init, x := xs[..|xs| - 1], xs[|xs| - 1];
    var e := Extend([], init);
    if j == |xs| - 1 {
      ExtendFacts([], init);
      assert xs[i] in Elems(init) by { assert init[i] == xs[i]; }
      assert x !in Elems(init) by {
        forall k | 0 <= k < |init| ensures init[k] != x {
          assert init[k] == xs[k];
        }
      }
      var p :| 0 <= p < |e| && e[p] == xs[i];
      assert Extend([], xs) == e + [x];
      assert Extend([], xs)[p] == xs[i] && Extend([], xs)[|e|] == x;
    } else {
      ExtendFirstOccurrence(init, i, j);
      var p, q :| 0 <= p < q < |e| && e[p] == xs[i] && e[q] == xs[j];
      assert Extend([], xs)[p] == xs[i] && Extend([], xs)[q] == xs[j];
    }
  }

  // ---------------------------------------------------------------------
  // The objects passed in

  /** Position of the first object that is not a Species, or the length. */
  function FirstNonSpecies(items: seq<PyObj>): (k: nat)
    ensures k <= |items|
    ensures forall i :: 0 <= i < k ==> items[i].PySpecies?
    ensures k < |items| ==> !items[k].PySpecies?
  {
    if items == [] || !items[0].PySpecies? then 0 else 1 + FirstNonSpecies(items[1..])
  }

  function FirstNonReaction(items: seq<PyObj>): (k: nat)
    ensures k <= |items|
    ensures forall i :: 0 <= i < k ==> items[i].PyReaction?
    ensures k < |items| ==> !items[k].PyReaction?
  {
    if items == [] || !items[0].PyReaction? then 0 else 1 + FirstNonReaction(items[1..])
  }

  function SpeciesValues(items: seq<PyObj>): (xs: seq<Species>)
    requires forall i :: 0 <= i < |items| ==> items[i].PySpecies?
    ensures |xs| == |items| && forall i :: 0 <= i < |items| ==> xs[i] == items[i].species
  {
    seq(|items|, i requires 0 <= i < |items| => items[i].species)
  }

  function ReactionValues(items: seq<PyObj>): (rs: seq<Reaction>)
    requires forall i :: 0 <= i < |items| ==> items[i].PyReaction?
    ensures |rs| == |items| && forall i :: 0 <= i < |items| ==> rs[i] == items[i].reaction
  {
    seq(|items|, i requires 0 <= i < |items| => items[i].reaction)
  }

  /** The input and output species of a reaction, `set([w.species for w in r.inputs + r.outputs])`. */
  function InOut(r: Reaction): set<Species> {
    SpeciesOf(r.inputs) + SpeciesOf(r.outputs)
  }

  /** The input and output species of all the reactions. */
  function AllInOut(rs: seq<Reaction>): set<Species> {
    set i, s | 0 <= i < |rs| && s in InOut(rs[i]) :: s
  }

  lemma AllInOutAppend(rs: seq<Reaction>, r: Reaction)
    ensures AllInOut(rs + [r]) == AllInOut(rs) + InOut(r)
  {
    var all := rs + [r];
    forall s | s in AllInOut(all) ensures s in AllInOut(rs) + InOut(r) {
      var i :| 0 <= i < |all| && s in InOut(all[i]);
      if i < |rs| {
        assert all[i] == rs[i];
      }
    }
    forall s | s in AllInOut(rs) + InOut(r) ensures s in AllInOut(all) {
      if s in InOut(r) {
        assert all[|rs|] == r;
      } else {
        var i :| 0 <= i < |rs| && s in InOut(rs[i]);
        assert all[i] == rs[i];
      }
    }
  }

  /** Every finite set of species can be listed without repetition. */
  lemma Enumerate(s: set<Species>) returns (xs: seq<Species>)
    ensures Elems(xs) == s && NoDuplicates(xs)
    decreases s
  {
    if s == {} {
      xs := [];
    } else {
      var x :| x in s;
      var rest := Enumerate(s - {x});
      xs := [x] + rest;
      assert Elems(xs) == {x} + Elems(rest);
      forall i, j | 0 <= i < j < |xs| ensures xs[i] != xs[j] {
        assert xs[j] == rest[j - 1] && rest[j - 1] in Elems(rest);
        if i > 0 {
          assert xs[i] == rest[i - 1];
        }
      }
    }
  }

  // ---------------------------------------------------------------------
  // check_crn_validity

  /** What `check_crn_validity` returns, with the two diagnostic sets it
      warns about. */
  datatype Validity = Validity(reactions: seq<Reaction>, species: seq<Species>,
                               withoutReactions: set<Species>, unlisted: set<Species>)

  /** Every species the reactions mention, propensity species included
      (`r.species` for each reaction, flattened). */
  function ReactionSpecies(rs: seq<Reaction>): set<Species> {
    set i, j | 0 <= i < |rs| && 0 <= j < |SpeciesList(rs[i])| :: SpeciesList(rs[i])[j]
  }

  /** `ChemicalReactionNetwork.check_crn_validity`: a ValueError when some
      reaction is not a Reaction or, after that, some species not a Species;
      otherwise both lists back unchanged, with the listed species that no
      reaction mentions and the mentioned species that are not listed. */
  function CheckCrnValidity(reactions: seq<PyObj>, species: seq<PyObj>): (r: Result<Validity>)
    ensures r.Success? <==> FirstNonReaction(reactions) == |reactions| && FirstNonSpecies(species) == |species|
    ensures r.Failure? ==> r.error == ValueError
    ensures r.Success? ==> r.value.reactions == ReactionValues(reactions) && r.value.species == SpeciesValues(species)
    ensures r.Success? ==> r.value.withoutReactions !! ReactionSpecies(r.value.reactions)
    ensures r.Success? ==> r.value.unlisted !! Elems(r.value.species)
    ensures r.Success? ==>
      (Elems(r.value.species) + ReactionSpecies(r.value.reactions)
       == r.value.withoutReactions + r.value.unlisted + (Elems(r.value.species) * ReactionSpecies(r.value.reactions)))
  {
    if FirstNonReaction(reactions) < |reactions| || FirstNonSpecies(species) < |species| then Failure(ValueError)
    else
      var rs, ss := ReactionValues(reactions), SpeciesValues(species);
      Success(Validity(rs, ss, Elems(ss) - ReactionSpecies(rs), ReactionSpecies(rs) - Elems(ss)))
  }

  /** Both diagnostic sets are empty exactly when the listed species are the
      species the reactions mention. */
  lemma ValidityConsistent(reactions: seq<PyObj>, species: seq<PyObj>)
    requires CheckCrnValidity(reactions, species).Success?
    ensures var v := CheckCrnValidity(reactions, species).value;
      v.withoutReactions == {} && v.unlisted == {} <==> Elems(v.species) == ReactionSpecies(v.reactions)
  {
    var v := CheckCrnValidity(reactions, species).value;
    if v.withoutReactions == {} && v.unlisted == {} {
      assert Elems(v.species) <= ReactionSpecies(v.reactions);
    }
  }

  /** The species a reaction's inputs and outputs do not cover come from its
      propensity. */
  lemma InOutCoversSpeciesList(r: Reaction, s: Species)
    requires s in SpeciesList(r) && s !in InOut(r)
    ensures s in PropensitySpecies(r.propensity)
  {
    ContainsAgreesWithSpeciesList(r, s);
  }

  /** Propensity species of all reactions. */
  function PropensityOnly(rs: seq<Reaction>): set<Species> {
    set i, j | 0 <= i < |rs| && 0 <= j < |PropensitySpecies(rs[i].propensity)| :: PropensitySpecies(rs[i].propensity)[j]
  }

  /** Once all input and output species are listed, the only species that
      can be reported as unlisted are propensity species (a Hill
      regulator, say), which `add_reactions` does not add. */
  lemma UnlistedArePropensitySpecies(rs: seq<Reaction>, species: seq<Species>)
    requires AllInOut(rs) <= Elems(species)
    ensures ReactionSpecies(rs) - Elems(species) <= PropensityOnly(rs)
  {
    forall s | s in ReactionSpecies(rs) - Elems(species) ensures s in PropensityOnly(rs) {
      var i, j :| 0 <= i < |rs| && 0 <= j < |SpeciesList(rs[i])| && SpeciesList(rs[i])[j] == s;
      InOutCoversSpeciesList(rs[i], s);
      var k :| 0 <= k < |PropensitySpecies(rs[i].propensity)| && PropensitySpecies(rs[i].propensity)[k] == s;
    }
  }

  // ---------------------------------------------------------------------
  // get_all_species_containing, as a function

  /** The species of `xs` that are `x` or contain it, in order. */
  function Containing(xs: seq<Species>, x: Species): seq<Species> {
    if xs == [] then []
    else if Mentions(xs[|xs| - 1], x) then Containing(xs[..|xs| - 1], x) + [xs[|xs| - 1]]
    else Containing(xs[..|xs| - 1], x)
  }

  /** `a` is `b` with some entries left out, order kept. */
  ghost predicate IsSubsequence(a: seq<Species>, b: seq<Species>) {
    exists f: seq<nat> :: |f| == |a|
      && (forall i :: 0 <= i < |f| ==> f[i] < |b| && a[i] == b[f[i]])
      && (forall i, j :: 0 <= i < j < |f| ==> f[i] < f[j])
  }

  /** The result keeps the order of the species list, holds only species
      containing `x`, and all of them. */
  lemma ContainingFacts(xs: seq<Species>, x: Species)
    ensures IsSubsequence(Containing(xs, x), xs)
    ensures forall s :: s in Containing(xs, x) <==> s in xs && Mentions(s, x)
  {
    ContainingOrdered(xs, x);
    ContainingMembers(xs, x);
  }

  lemma {:induction false} ContainingMembers(xs: seq<Species>, x: Species)
    ensures forall s :: s in Containing(xs, x) <==> s in xs && Mentions(s, x)
    decreases |xs|
  {
    if xs != [] {
      var init, last := xs[..|xs| - 1], xs[|xs| - 1];
      assert xs == init + [last];
      ContainingMembers(init, x);
    }
  }

  lemma {:induction false} ContainingOrdered(xs: seq<Species>, x: Species)
    ensures IsSubsequence(Containing(xs, x), xs)
    decreases |xs|
  {
    if xs != [] {
      var init, last := xs[..|xs| - 1], xs[|xs| - 1];
      assert xs == init + [last];
      ContainingOrdered(init, x);
      SubsequenceExtend(Containing(init, x), init, last);
    }
  }

  /** Appending one entry to `b` keeps `a` a subsequence of it, with or
      without the same entry appended to `a`. */
  lemma SubsequenceExtend(a: seq<Species>, b: seq<Species>, y: Species)
    requires IsSubsequence(a, b)
    ensures IsSubsequence(a, b + [y]) && IsSubsequence(a + [y], b + [y])
  {
    var f: seq<nat> :| |f| == |a| && (forall i :: 0 <= i < |f| ==> f[i] < |b| && a[i] == b[f[i]])
      && (forall i, j :: 0 <= i < j < |f| ==> f[i] < f[j]);
    var b' := b + [y];
    assert forall i :: 0 <= i < |f| ==> f[i] < |b'| && a[i] == b'[f[i]];
    var g := f + [|b|];
    assert forall i :: 0 <= i < |g| ==> g[i] < |b'| && (a + [y])[i] == b'[g[i]];
    assert forall i, j :: 0 <= i < j < |g| ==> g[i] < g[j];
  }

  // ---------------------------------------------------------------------
  // The network

  class ChemicalReactionNetwork {
    var species: seq<Species>
    var reactions: seq<Reaction>

    /** The species list holds no species twice. */
    ghost predicate Valid()
      reads this
    {
      NoDuplicates(species)
    }

    constructor Empty()
      ensures species == [] && reactions == [] && Valid()
    {
      species := [];
      reactions := [];
    }

    /** `add_species`: appends each species not yet listed, in order; at the
        first object that is not a Species, a ValueError, with the species
        before it already added. */
    method AddSpecies(arg: Arg) returns (err: Option<Error>)
      modifies this
      ensures reactions == old(reactions)
      ensures var items := Items(arg);
        var k := FirstNonSpecies(items);
        species == Extend(old(species), SpeciesValues(items[..k]))
        && (err.Some? <==> k < |items|) && (err.Some? ==> err.value == ValueError)
      ensures old(Valid()) ==> Valid()
    {
      var items := Items(arg);
      var k := FirstNonSpecies(items);
      ghost var start := species;
      var i := 0;
      while i < |items|
        invariant 0 <= i <= k
        invariant species == Extend(start, SpeciesValues(items[..i]))
        invariant reactions == old(reactions)
      {
        if !items[i].PySpecies? {
          ExtendFacts(start, SpeciesValues(items[..k]));
          return Some(ValueError);
        }
        var s := items[i].species;
        ExtendStep(start, items, i);
        if s !in species {
          species := species + [s];
        }
        i := i + 1;
      }
      assert items[..k] == items;
      ExtendFacts(start, SpeciesValues(items[..k]));
      err := None;
    }

    /** `add_reactions`: for each reaction, its input and output species are
        added (in some order, as `list(set(...))` gives them) and the
        reaction is appended, duplicates included; at the first object that
        is not a Reaction, a ValueError, with the reactions before it
        already added. */
    method AddReactions(arg: Arg) returns (err: Option<Error>)
      modifies this
      ensures var items := Items(arg);
        var k := FirstNonReaction(items);
        reactions == old(reactions) + ReactionValues(items[..k])
        && (err.Some? <==> k < |items|) && (err.Some? ==> err.value == ValueError)
      ensures var items := Items(arg);
        Elems(species) == Elems(old(species)) + AllInOut(ReactionValues(items[..FirstNonReaction(items)]))
      ensures old(species) <= species
      ensures old(Valid()) ==> Valid()
    {
      var items := Items(arg);
      var k := FirstNonReaction(items);
      ghost var start, startReactions := species, reactions;
      ghost var done: seq<Reaction> := [];
      var i := 0;
      while i < |items|
        invariant 0 <= i <= k
        invariant done == ReactionValues(items[..i])
        invariant reactions == startReactions + done
        invariant Elems(species) == Elems(start) + AllInOut(done)
        invariant start <= species
        invariant NoDuplicates(start) ==> NoDuplicates(species)
      {
        if !items[i].PyReaction? {
          return Some(ValueError);
        }
        var r := items[i].reaction;
        ghost var before := species;
        AddReactionSpecies(r);
        assert start <= species by { PrefixTransitive(start, before, species); }
        reactions := reactions + [r];
        CoverageStep(Elems(start), Elems(before), Elems(species), done, r);
        ReactionValuesSnoc(items, i);
        done := done + [r];
        i := i + 1;
      }
      assert items[..k] == items;
      err := None;
    }

    /** The species step of `add_reactions` for one reaction: the set of its
        input and output species, listed in some order, goes to
        `add_species`. */
    method AddReactionSpecies(r: Reaction)
      modifies this
      ensures reactions == old(reactions)
      ensures Elems(species) == Elems(old(species)) + InOut(r)
      ensures old(species) <= species
      ensures old(Valid()) ==> Valid()
    {
      ghost var listing := Enumerate(InOut(r));
      var reactionSpecies: seq<Species> :| Elems(reactionSpecies) == InOut(r) && NoDuplicates(reactionSpecies);
      var objs := AsObjects(reactionSpecies);
      AllSpeciesFirst(objs);
      assert objs[..|objs|] == objs;
      assert SpeciesValues(objs) == reactionSpecies;
      var added := AddSpecies(Many(objs));
      ExtendFacts(old(species), reactionSpecies);
    }

    /** `ChemicalReactionNetwork(species, reactions)`: the species are added,
        then the reactions with their species, then the result is checked. */
    static method Create(speciesArg: Arg, reactionsArg: Arg) returns (r: Result<ChemicalReactionNetwork>)
      ensures r.Success? <==> FirstNonSpecies(Items(speciesArg)) == |Items(speciesArg)|
                              && FirstNonReaction(Items(reactionsArg)) == |Items(reactionsArg)|
      ensures r.Failure? ==> r.error == ValueError
      ensures r.Success? ==> fresh(r.value) && r.value.Valid()
      ensures r.Success? ==> r.value.reactions == ReactionValues(Items(reactionsArg))
      ensures r.Success? ==> Extend([], SpeciesValues(Items(speciesArg))) <= r.value.species
      ensures r.Success? ==>
        (Elems(r.value.species) == Elems(SpeciesValues(Items(speciesArg))) + AllInOut(ReactionValues(Items(reactionsArg))))
      ensures r.Success? ==>
        (ReactionSpecies(r.value.reactions) - Elems(r.value.species) <= PropensityOnly(r.value.reactions))
    {
      var crn := new ChemicalReactionNetwork.Empty();
      var err := crn.AddSpecies(speciesArg);
      if err.Some? {
        return Failure(err.value);
      }
      ghost var given := SpeciesValues(Items(speciesArg));
      assert Items(speciesArg)[..|Items(speciesArg)|] == Items(speciesArg);
      assert crn.species == Extend([], given);
      ExtendFacts([], given);
      ghost var listed := crn.species;
      err := crn.AddReactions(reactionsArg);
      if err.Some? {
        return Failure(err.value);
      }
      assert Items(reactionsArg)[..|Items(reactionsArg)|] == Items(reactionsArg);
      assert crn.reactions == [] + ReactionValues(Items(reactionsArg)) == ReactionValues(Items(reactionsArg));
      assert Elems(crn.species) == Elems(listed) + AllInOut(crn.reactions);
      UnlistedArePropensitySpecies(crn.reactions, crn.species);
      var checked := CheckCrnValidity(AsReactionObjects(crn.reactions), AsObjects(crn.species));
      r := Success(crn);
    }

    /** `initial_condition_vector`: entry i is the initial value given for
        species i, or 0. */
    method InitialConditionVector(init: map<Species, real>) returns (x0: array<real>)
      ensures fresh(x0) && x0.Length == |species|
      ensures forall i :: 0 <= i < |species| ==> x0[i] == if species[i] in init then init[species[i]] else 0.0
    {
      x0 := new real[|species|](_ => 0.0);
      var idx := 0;
      while idx < |species|
        invariant 0 <= idx <= |species|
        invariant forall i :: 0 <= i < idx ==> x0[i] == if species[i] in init then init[species[i]] else 0.0
        invariant forall i :: idx <= i < |species| ==> x0[i] == 0.0
      {
        if species[idx] in init {
          x0[idx] := init[species[idx]];
        }
        idx := idx + 1;
      }
    }

    /** `get_all_species_containing`: a ValueError for a non-Species;
        otherwise the listed species that are or contain it, in order. */
    method GetAllSpeciesContaining(item: PyObj) returns (r: Result<seq<Species>>)
      ensures r.Failure? <==> !item.PySpecies?
      ensures r.Failure? ==> r.error == ValueError
      ensures r.Success? ==> r.value == Containing(species, item.species)
    {
      if !item.PySpecies? {
        return Failure(ValueError);
      }
      var x := item.species;
      var found := [];
      var i := 0;
      while i < |species|
        invariant 0 <= i <= |species|
        invariant found == Containing(species[..i], x)
      {
        assert species[..i + 1][..i] == species[..i];
        if Mentions(species[i], x) {
          found := found + [species[i]];
        }
        i := i + 1;
      }
      assert species[..i] == species;
      r := Success(found);
    }

    /** `replace_species`: a ValueError unless both arguments are Species;
        otherwise a new network built from the substituted species and the
        substituted reactions. This network is left as it is. */
    method ReplaceSpecies(a: PyObj, b: PyObj) returns (r: Result<ChemicalReactionNetwork>)
      ensures unchanged(this)
      ensures r.Failure? <==> !a.PySpecies? || !b.PySpecies?
      ensures r.Failure? ==> r.error == ValueError
      ensures r.Success? ==> fresh(r.value) && r.value.Valid()
      ensures r.Success? ==> |r.value.reactions| == |reactions|
      ensures r.Success? ==>
        (forall i :: 0 <= i < |reactions| ==>
           Success(r.value.reactions[i]) == Reactions.ReplaceSpecies(reactions[i], a, b))
      ensures r.Success? ==> Extend([], SubstituteAll(species, a.species, b.species)) <= r.value.species
      ensures r.Success? ==>
        Elems(r.value.species) == Elems(SubstituteAll(species, a.species, b.species)) + AllInOut(r.value.reactions)
    {
      if !a.PySpecies? || !b.PySpecies? {
        return Failure(ValueError);
      }
      var newSpecies := SubstituteEach(species, a.species, b.species);
      var newReactions := ReplaceInEach(reactions, a, b);
      AllSpeciesFirst(AsObjects(newSpecies));
      assert SpeciesValues(AsObjects(newSpecies)) == newSpecies;
      assert ReactionValues(AsReactionObjects(newReactions)) == newReactions;
      r := Create(Many(AsObjects(newSpecies)), Many(AsReactionObjects(newReactions)));
    }
  }

  function AsReactionObjects(rs: seq<Reaction>): (objs: seq<PyObj>)
    ensures |objs| == |rs| && forall i :: 0 <= i < |rs| ==> objs[i] == PyReaction(rs[i])
    ensures FirstNonReaction(objs) == |objs|
  {
    var objs := seq(|rs|, i requires 0 <= i < |rs| => PyReaction(rs[i]));
    AllReactionsFirst(objs);
    objs
  }

  lemma {:induction false} AllReactionsFirst(objs: seq<PyObj>)
    requires forall i :: 0 <= i < |objs| ==> objs[i].PyReaction?
    ensures FirstNonReaction(objs) == |objs|
  {
    if objs != [] {
      AllReactionsFirst(objs[1..]);
    }
  }

  lemma {:induction false} AllSpeciesFirst(objs: seq<PyObj>)
    requires forall i :: 0 <= i < |objs| ==> objs[i].PySpecies?
    ensures FirstNonSpecies(objs) == |objs|
  {
    if objs != [] {
      AllSpeciesFirst(objs[1..]);
    }
  }

  lemma {:induction false} SubstituteAllAppend(xs: seq<Species>, x: Species, a: Species, b: Species)
    ensures SubstituteAll(xs + [x], a, b) == SubstituteAll(xs, a, b) + [Substitute(x, a, b)]
  {
    if xs != [] {
      assert (xs + [x])[1..] == xs[1..] + [x];
      SubstituteAllAppend(xs[1..], x, a, b);
    }
  }

  /** The species loop of `replace_species`: each species with `a`
      replaced by `b`, in order. */
  method SubstituteEach(xs: seq<Species>, a: Species, b: Species) returns (ys: seq<Species>)
    ensures ys == SubstituteAll(xs, a, b)
  {
    ys := [];
    var i := 0;
    while i < |xs|
      invariant 0 <= i <= |xs|
      invariant ys == SubstituteAll(xs[..i], a, b)
    {
      SubstituteAllAppend(xs[..i], xs[i], a, b);
      assert xs[..i + 1] == xs[..i] + [xs[i]];
      ys := ys + [Substitute(xs[i], a, b)];
      i := i + 1;
    }
    assert xs[..i] == xs;
  }

  /** The reaction loop of `replace_species`: `r.replace_species(a, b)` for
      each reaction, in order. */
  method ReplaceInEach(rs: seq<Reaction>, a: PyObj, b: PyObj) returns (ys: seq<Reaction>)
    requires a.PySpecies? && b.PySpecies?
    ensures |ys| == |rs|
    ensures forall j :: 0 <= j < |rs| ==> Success(ys[j]) == Reactions.ReplaceSpecies(rs[j], a, b)
  {
    ys := [];
    var i := 0;
    while i < |rs|
      invariant 0 <= i <= |rs|
      invariant |ys| == i
      invariant forall j :: 0 <= j < i ==> ys[j] == Reactions.ReplaceSpecies(rs[j], a, b).value
    {
      var replaced := Reactions.ReplaceSpecies(rs[i], a, b);
      assert replaced.Success?;
      ys := ys + [replaced.value];
      i := i + 1;
    }
  }

  lemma ReactionValuesSnoc(items: seq<PyObj>, i: nat)
    requires i < |items| && forall j :: 0 <= j <= i ==> items[j].PyReaction?
    ensures ReactionValues(items[..i + 1]) == ReactionValues(items[..i]) + [items[i].reaction]
  {
  }

  lemma PrefixTransitive(a: seq<Species>, b: seq<Species>, c: seq<Species>)
    requires a <= b && b <= c
    ensures a <= c
  {
  }

  lemma CoverageStep(start: set<Species>, before: set<Species>, after: set<Species>, done: seq<Reaction>, r: Reaction)
    requires before == start + AllInOut(done)
    requires after == before + InOut(r)
    ensures after == start + AllInOut(done + [r])
  {
    AllInOutAppend(done, r);
  }
}
