/** Reactions: input and output lists normalised to distinct weighted species,
    a propensity, and the queries the core runs on them (biocrnpyler/reaction.py). */
module Reactions {
  import opened Wrappers
  import opened Chemistry

  datatype HillSign = Positive | Negative

  /** The propensity of a reaction. Its rate-law internals are not modelled;
      only its parameters and the species it mentions are kept. */
  datatype Propensity =
    | MassAction(kForward: real, kReverse: Option<real>)
    | ProportionalHill(sign: HillSign, k: real, K: real, n: real, regulator: Species, dna: Species)

  /** The species a propensity mentions (`propensity_type.species`). */
  function PropensitySpecies(p: Propensity): seq<Species> {
    match p
    case MassAction(_, _) => []
    case ProportionalHill(_, _, _, _, s1, d) => [s1, d]
  }

  function SubstitutePropensity(p: Propensity, a: Species, b: Species): Propensity {
    match p
    case MassAction(_, _) => p
    case ProportionalHill(sign, k, bigK, n, s1, d) =>
      ProportionalHill(sign, k, bigK, n, Substitute(s1, a, b), Substitute(d, a, b))
  }

  /** A reaction. `inputs` and `outputs` are the normalised lists that the
      property setters store (`_input_complexes`, `_output_complexes`). */
  datatype Reaction = Reaction(inputs: seq<Weighted>, outputs: seq<Weighted>, propensity: Propensity)

  /** A Python value, with the classes the core tests with `isinstance`;
      `PyOther` is `None` or a value of any other class. */
  datatype PyObj =
    | PySpecies(species: Species)
    | PyWeighted(weighted: Weighted)
    | PyReaction(reaction: Reaction)
    | PyOther

  // ---------------------------------------------------------------------
  // Weighted lists and what they add up to

  /** `[WeightedSpecies(species=s) for s in xs]`: every species with weight 1. */
  function Wrap(xs: seq<Species>): (ws: seq<Weighted>)
    ensures |ws| == |xs|
    ensures forall i :: 0 <= i < |xs| ==> ws[i] == Weighted(xs[i], 1)
  {
    seq(|xs|, i requires 0 <= i < |xs| => Weighted(xs[i], 1))
  }

  /** The species of a weighted list, in order. */
  function Unweighted(ws: seq<Weighted>): (xs: seq<Species>)
    ensures |xs| == |ws|
    ensures forall i :: 0 <= i < |ws| ==> xs[i] == ws[i].species
  {
    seq(|ws|, i requires 0 <= i < |ws| => ws[i].species)
  }

  function SpeciesOf(ws: seq<Weighted>): set<Species> {
    set i | 0 <= i < |ws| :: ws[i].species
  }

  function Elements(ws: seq<Weighted>): set<Weighted> {
    set w | w in ws
  }

  ghost predicate DistinctSpecies(ws: seq<Weighted>) {
    forall i, j :: 0 <= i < j < |ws| ==> ws[i].species != ws[j].species
  }

  /** The sum over the list of stoichiometry times `f` of the species. */
  function Load(ws: seq<Weighted>, f: Species -> nat): nat {
    if ws == [] then 0 else ws[0].stoichiometry * f(ws[0].species) + Load(ws[1..], f)
  }

  /** The total stoichiometry of `s` in the list. */
  function Amount(ws: seq<Weighted>, s: Species): nat {
    Load(ws, x => if x == s then 1 else 0)
  }

  /** The sum of all stoichiometries. */
  function Total(ws: seq<Weighted>): nat {
    Load(ws, _ => 1)
  }

  /** The multiset of species a weighted list stands for: each species as
      many times as its stoichiometry. */
  function Bag(ws: seq<Weighted>): multiset<Species> {
    if ws == [] then multiset{}
    else
      var rest := Bag(ws[1..]);
      rest[ws[0].species := rest[ws[0].species] + ws[0].stoichiometry]
  }

  lemma {:induction false} BagAmount(ws: seq<Weighted>, s: Species)
    ensures Bag(ws)[s] == Amount(ws, s)
  {
    if ws != [] {
      BagAmount(ws[1..], s);
    }
  }

  lemma {:induction false} LoadAppend(a: seq<Weighted>, w: Weighted, f: Species -> nat)
    ensures Load(a + [w], f) == Load(a, f) + w.stoichiometry * f(w.species)
  {
    if a == [] {
      assert a + [w] == [w];
    } else {
      assert (a + [w])[1..] == a[1..] + [w];
      LoadAppend(a[1..], w, f);
    }
  }

  // ---------------------------------------------------------------------
  // Normalisation: one entry per distinct species, weights added up

  /** Adds `w` to a list of distinct entries: its weight goes to the entry for
      the same species if there is one, otherwise it is appended. */
  function Merge(acc: seq<Weighted>, w: Weighted): seq<Weighted> {
    if acc == [] then [w]
    else if acc[0].species == w.species then
      [Weighted(w.species, acc[0].stoichiometry + w.stoichiometry)] + acc[1..]
    else [acc[0]] + Merge(acc[1..], w)
  }

  /** The distinct species of `ws` in first-occurrence order, each with its
      total stoichiometry (`WeightedSpecies._count_weighted_species` followed by
      the loop that rebuilds the list). */
  function Tally(ws: seq<Weighted>): seq<Weighted> {
    if ws == [] then [] else Merge(Tally(ws[..|ws| - 1]), ws[|ws| - 1])
  }

  lemma SpeciesOfCons(ws: seq<Weighted>)
    requires ws != []
    ensures SpeciesOf(ws) == {ws[0].species} + SpeciesOf(ws[1..])
  {
    var tail := ws[1..];
    forall x | x in SpeciesOf(ws) ensures x in {ws[0].species} + SpeciesOf(tail) {
      var i :| 0 <= i < |ws| && ws[i].species == x;
      if i > 0 { assert tail[i - 1].species == x; }
    }
    forall x | x in SpeciesOf(tail) ensures x in SpeciesOf(ws) {
      var i :| 0 <= i < |tail| && tail[i].species == x;
      assert ws[i + 1].species == x;
    }
  }

  /** In a list of distinct species, the head's species is not in the tail. */
  lemma DistinctHead(ws: seq<Weighted>)
    requires ws != [] && DistinctSpecies(ws)
    ensures ws[0].species !in SpeciesOf(ws[1..]) && DistinctSpecies(ws[1..])
  {
    forall i | 0 <= i < |ws[1..]| ensures ws[1..][i].species != ws[0].species {
      assert ws[1..][i] == ws[i + 1];
    }
  }

  lemma {:induction false} MergeLoad(acc: seq<Weighted>, w: Weighted, f: Species -> nat)
    ensures Load(Merge(acc, w), f) == Load(acc, f) + w.stoichiometry * f(w.species)
  {
    if acc == [] {
    } else if acc[0].species == w.species {
      var m := Merge(acc, w);
      assert m[1..] == acc[1..];
      assert (acc[0].stoichiometry + w.stoichiometry) * f(w.species)
          == acc[0].stoichiometry * f(w.species) + w.stoichiometry * f(w.species);
    } else {
      var m := Merge(acc, w);
      MergeLoad(acc[1..], w, f);
      assert m[1..] == Merge(acc[1..], w);
    }
  }

  lemma {:induction false} MergeSpecies(acc: seq<Weighted>, w: Weighted)
    ensures SpeciesOf(Merge(acc, w)) == SpeciesOf(acc) + {w.species}
  {
    if acc == [] {
      assert Merge(acc, w)[0].species == w.species;
    } else {
      var m := Merge(acc, w);
      SpeciesOfCons(acc);
      SpeciesOfCons(m);
      if acc[0].species == w.species {
        assert m[1..] == acc[1..];
      } else {
        assert m[1..] == Merge(acc[1..], w);
        MergeSpecies(acc[1..], w);
      }
    }
  }

  lemma {:induction false} MergeDistinct(acc: seq<Weighted>, w: Weighted)
    requires DistinctSpecies(acc)
    ensures DistinctSpecies(Merge(acc, w))
  {
    if acc != [] && acc[0].species != w.species {
      var m := Merge(acc, w);
      var tail := Merge(acc[1..], w);
      assert m[1..] == tail;
      DistinctHead(acc);
      MergeDistinct(acc[1..], w);
      MergeSpecies(acc[1..], w);
      forall i, j | 0 <= i < j < |m| ensures m[i].species != m[j].species {
        if i == 0 {
          assert m[j].species == tail[j - 1].species;
          assert m[j].species in SpeciesOf(tail);
        } else {
          assert m[i].species == tail[i - 1].species && m[j].species == tail[j - 1].species;
        }
      }
    }
  }

  lemma {:induction false} MergeFresh(acc: seq<Weighted>, w: Weighted)
    requires w.species !in SpeciesOf(acc)
    ensures Merge(acc, w) == acc + [w]
  {
    if acc != [] {
      SpeciesOfCons(acc);
      MergeFresh(acc[1..], w);
      assert acc == [acc[0]] + acc[1..];
    }
  }

  lemma {:induction false} SpeciesOfAppend(a: seq<Weighted>, w: Weighted)
    ensures SpeciesOf(a + [w]) == SpeciesOf(a) + {w.species}
  {
    var b := a + [w];
    forall x | x in SpeciesOf(b) ensures x in SpeciesOf(a) + {w.species} {
      var i :| 0 <= i < |b| && b[i].species == x;
      if i < |a| { assert a[i].species == x; }
    }
    forall x | x in SpeciesOf(a) ensures x in SpeciesOf(b) {
      var i :| 0 <= i < |a| && a[i].species == x;
      assert b[i].species == x;
    }
    assert b[|a|].species == w.species;
  }

  /** Normalisation keeps every weighted sum, keeps the set of species and
      leaves each species in exactly one entry. */
  lemma {:induction false} TallyFacts(ws: seq<Weighted>, f: Species -> nat)
    ensures Load(Tally(ws), f) == Load(ws, f)
    ensures SpeciesOf(Tally(ws)) == SpeciesOf(ws)
    ensures DistinctSpecies(Tally(ws))
    decreases |ws|
  {
    if ws != [] {
      var init, last := ws[..|ws| - 1], ws[|ws| - 1];
      assert ws == init + [last];
      TallyFacts(init, f);
      MergeLoad(Tally(init), last, f);
      MergeSpecies(Tally(init), last);
      MergeDistinct(Tally(init), last);
      LoadAppend(init, last, f);
      SpeciesOfAppend(init, last);
    }
  }

  lemma {:induction false} MergePositive(acc: seq<Weighted>, w: Weighted)
    requires Positive(acc) && w.stoichiometry > 0
    ensures Positive(Merge(acc, w))
  {
    if acc != [] && acc[0].species != w.species {
      MergePositive(acc[1..], w);
      assert Merge(acc, w) == [acc[0]] + Merge(acc[1..], w);
    }
  }

  /** Normalisation keeps stoichiometries positive. */
  lemma {:induction false} TallyPositive(ws: seq<Weighted>)
    requires Positive(ws)
    ensures Positive(Tally(ws))
    decreases |ws|
  {
    if ws != [] {
      TallyPositive(ws[..|ws| - 1]);
      MergePositive(Tally(ws[..|ws| - 1]), ws[|ws| - 1]);
    }
  }

  /** A list whose species are already distinct is left as it is. */
  lemma {:induction false} TallyOfDistinct(ws: seq<Weighted>)
    requires DistinctSpecies(ws)
    ensures Tally(ws) == ws
    decreases |ws|
  {
    if ws != [] {
      var init, last := ws[..|ws| - 1], ws[|ws| - 1];
      assert ws == init + [last];
      TallyOfDistinct(init);
      forall i | 0 <= i < |init| ensures init[i].species != last.species {
        assert init[i] == ws[i];
      }
      MergeFresh(init, last);
    }
  }

  /** In a list of distinct species, the amount of a listed species is its
      own entry's stoichiometry, and an unlisted species has none. */
  lemma {:induction false} AmountOfDistinct(ws: seq<Weighted>, s: Species)
    requires DistinctSpecies(ws)
    ensures s !in SpeciesOf(ws) ==> Amount(ws, s) == 0
    ensures forall i :: 0 <= i < |ws| && ws[i].species == s ==> Amount(ws, s) == ws[i].stoichiometry
  {
    if ws != [] {
      SpeciesOfCons(ws);
      DistinctHead(ws);
      AmountOfDistinct(ws[1..], s);
      forall i | 0 <= i < |ws| && ws[i].species == s ensures Amount(ws, s) == ws[i].stoichiometry {
        if i > 0 {
          assert ws[1..][i - 1].species == s;
        }
      }
    }
  }

  lemma {:induction false} DistinctCardinality(ws: seq<Weighted>)
    requires DistinctSpecies(ws)
    ensures |SpeciesOf(ws)| == |ws|
  {
    if ws != [] {
      SpeciesOfCons(ws);
      DistinctHead(ws);
      DistinctCardinality(ws[1..]);
    }
  }

  /** The normalised list is determined by amounts alone: it holds exactly one
      entry `(s, Amount(ws, s))` per species `s` of `ws`, and nothing else. */
  lemma TallyElements(ws: seq<Weighted>)
    ensures Elements(Tally(ws)) == set s | s in SpeciesOf(ws) :: Weighted(s, Amount(ws, s))
    ensures |Tally(ws)| == |SpeciesOf(ws)|
  {
    var t := Tally(ws);
    TallyFacts(ws, _ => 0);
    DistinctCardinality(t);
    forall s ensures Amount(t, s) == Amount(ws, s) {
      TallyFacts(ws, x => if x == s then 1 else 0);
    }
    forall e | e in Elements(t) ensures e == Weighted(e.species, Amount(ws, e.species)) && e.species in SpeciesOf(ws) {
      var i :| 0 <= i < |t| && t[i] == e;
      AmountOfDistinct(t, e.species);
    }
    forall s | s in SpeciesOf(ws) ensures Weighted(s, Amount(ws, s)) in Elements(t) {
      var i :| 0 <= i < |t| && t[i].species == s;
      AmountOfDistinct(t, s);
      assert t[i] in t;
    }
  }

  /** Plain species: the amount of `s` is its number of occurrences. */
  lemma {:induction false} WrapAmount(xs: seq<Species>, s: Species)
    ensures Amount(Wrap(xs), s) == multiset(xs)[s]
  {
    if xs != [] {
      assert Wrap(xs)[1..] == Wrap(xs[1..]);
      WrapAmount(xs[1..], s);
      assert xs == [xs[0]] + xs[1..];
      assert multiset(xs) == multiset{xs[0]} + multiset(xs[1..]);
    }
  }

  lemma {:induction false} WrapTotal(xs: seq<Species>)
    ensures Total(Wrap(xs)) == |xs|
  {
    if xs != [] {
      assert Wrap(xs)[1..] == Wrap(xs[1..]);
      WrapTotal(xs[1..]);
    }
  }

  lemma WrapSpecies(xs: seq<Species>)
    ensures SpeciesOf(Wrap(xs)) == set x | x in xs
  {
    forall x | x in xs ensures x in SpeciesOf(Wrap(xs)) {
      var i :| 0 <= i < |xs| && xs[i] == x;
      assert Wrap(xs)[i].species == x;
    }
  }

  // ---------------------------------------------------------------------
  // _check_and_convert_complex_list, new_interface, from_massaction

  predicate AllSpecies(xs: seq<PyObj>) {
    forall i :: 0 <= i < |xs| ==> xs[i].PySpecies?
  }

  predicate AllWeighted(xs: seq<PyObj>) {
    forall i :: 0 <= i < |xs| ==> xs[i].PyWeighted?
  }

  function AsObjects(xs: seq<Species>): (objs: seq<PyObj>)
    ensures |objs| == |xs| && AllSpecies(objs)
    ensures forall i :: 0 <= i < |xs| ==> objs[i] == PySpecies(xs[i])
  {
    seq(|xs|, i requires 0 <= i < |xs| => PySpecies(xs[i]))
  }

  function AsWeightedObjects(ws: seq<Weighted>): (objs: seq<PyObj>)
    ensures |objs| == |ws|
    ensures forall i :: 0 <= i < |ws| ==> objs[i] == PyWeighted(ws[i])
  {
    seq(|ws|, i requires 0 <= i < |ws| => PyWeighted(ws[i]))
  }

  /** The weighted list a convertible input list stands for: plain species
      are wrapped with weight 1, weighted species are taken as they are. */
  function AsWeighted(xs: seq<PyObj>): (ws: seq<Weighted>)
    requires AllSpecies(xs) || AllWeighted(xs)
    ensures |ws| == |xs|
  {
    if AllSpecies(xs) then Wrap(seq(|xs|, i requires 0 <= i < |xs| => xs[i].species))
    else seq(|xs|, i requires 0 <= i < |xs| => xs[i].weighted)
  }

  /** `_check_and_convert_complex_list`: a list of only Species or only
      WeightedSpecies becomes one entry per distinct species carrying its
      total stoichiometry; any other list is a TypeError. */
  function CheckAndConvert(xs: seq<PyObj>): (r: Result<seq<Weighted>>)
    ensures r.Success? <==> AllSpecies(xs) || AllWeighted(xs)
    ensures r.Failure? ==> r.error == TypeError
    ensures r.Success? ==> DistinctSpecies(r.value) && SpeciesOf(r.value) == SpeciesOf(AsWeighted(xs))
    ensures r.Success? ==> forall s :: Amount(r.value, s) == Amount(AsWeighted(xs), s)
    ensures r.Success? && (AllSpecies(xs) || Positive(AsWeighted(xs))) ==> Positive(r.value)
  {
    if !AllSpecies(xs) && !AllWeighted(xs) then Failure(TypeError)
    else
      var ws := AsWeighted(xs);
      TallyFacts(ws, _ => 0);
      assert (AllSpecies(xs) || Positive(ws)) ==> Positive(Tally(ws)) by {
        if AllSpecies(xs) || Positive(ws) {
          TallyPositive(ws);
        }
      }
      assert forall s :: Amount(Tally(ws), s) == Amount(ws, s) by {
        forall s ensures Amount(Tally(ws), s) == Amount(ws, s) {
          TallyFacts(ws, x => if x == s then 1 else 0);
        }
      }
      Success(Tally(ws))
  }

  /** The loop of `_check_and_convert_complex_list` (lines 135-140, with the
      counting of `_count_weighted_species` folded in), proved equal to the
      function above. */
  method ConvertComplexList(complexes: seq<PyObj>) returns (r: Result<seq<Weighted>>)
    ensures r == CheckAndConvert(complexes)
  {
    if !AllSpecies(complexes) && !AllWeighted(complexes) {
      return Failure(TypeError);
    }
    var ws := AsWeighted(complexes);
    var outList: seq<Weighted> := [];
    var i := 0;
    while i < |ws|
      invariant 0 <= i <= |ws|
      invariant outList == Tally(ws[..i])
    {
      assert ws[..i + 1][..i] == ws[..i];
      outList := Merge(outList, ws[i]);
      i := i + 1;
    }
    assert ws[..|ws|] == ws;
    return Success(outList);
  }

  ghost predicate WellFormed(r: Reaction) {
    DistinctSpecies(r.inputs) && DistinctSpecies(r.outputs)
  }

  /** `Reaction.new_interface`: both lists are converted, inputs first. The
      propensity validity check is not modelled: every `Propensity` value is
      a valid one. */
  function NewReaction(inputs: seq<PyObj>, outputs: seq<PyObj>, p: Propensity): (r: Result<Reaction>)
    ensures r.Success? <==> (AllSpecies(inputs) || AllWeighted(inputs)) && (AllSpecies(outputs) || AllWeighted(outputs))
    ensures r.Failure? ==> r.error == TypeError
    ensures r.Success? ==> WellFormed(r.value) && r.value.propensity == p
    ensures r.Success? ==> r.value.inputs == CheckAndConvert(inputs).value && r.value.outputs == CheckAndConvert(outputs).value
    ensures r.Success? ==> forall s :: Amount(r.value.inputs, s) == Amount(AsWeighted(inputs), s)
                                  && Amount(r.value.outputs, s) == Amount(AsWeighted(outputs), s)
    ensures r.Success? ==> Total(r.value.inputs) == Total(AsWeighted(inputs)) && Total(r.value.outputs) == Total(AsWeighted(outputs))
  {
    var ins :- CheckAndConvert(inputs);
    var outs :- CheckAndConvert(outputs);
    TallyFacts(AsWeighted(inputs), _ => 1);
    TallyFacts(AsWeighted(outputs), _ => 1);
    Success(Reaction(ins, outs, p))
  }

  /** `Reaction.from_massaction`: the constructor with a mass-action
      propensity, failing as it does. */
  function FromMassAction(inputs: seq<PyObj>, outputs: seq<PyObj>, kForward: real, kReverse: Option<real>): (r: Result<Reaction>)
    ensures r.Success? <==> (AllSpecies(inputs) || AllWeighted(inputs)) && (AllSpecies(outputs) || AllWeighted(outputs))
    ensures r.Failure? ==> r.error == TypeError
    ensures r.Success? ==> WellFormed(r.value) && r.value.propensity == MassAction(kForward, kReverse)
    ensures r.Success? ==> r.value.inputs == CheckAndConvert(inputs).value && r.value.outputs == CheckAndConvert(outputs).value
    ensures r.Success? ==> forall s :: Amount(r.value.inputs, s) == Amount(AsWeighted(inputs), s)
                                  && Amount(r.value.outputs, s) == Amount(AsWeighted(outputs), s)
    ensures r.Success? ==> Total(r.value.inputs) == Total(AsWeighted(inputs)) && Total(r.value.outputs) == Total(AsWeighted(outputs))
  {
    NewReaction(inputs, outputs, MassAction(kForward, kReverse))
  }

  /** Lists that give the same species the same total stoichiometry convert
      to the same entries, in whatever order and grouping they were given. */
  lemma ConvertBySpeciesAndAmounts(xs: seq<PyObj>, ys: seq<PyObj>)
    requires (AllSpecies(xs) || AllWeighted(xs)) && (AllSpecies(ys) || AllWeighted(ys))
    requires SpeciesOf(AsWeighted(xs)) == SpeciesOf(AsWeighted(ys)) && SameAmounts(AsWeighted(xs), AsWeighted(ys))
    ensures |CheckAndConvert(xs).value| == |CheckAndConvert(ys).value|
    ensures Elements(CheckAndConvert(xs).value) == Elements(CheckAndConvert(ys).value)
  {
    var a, b := AsWeighted(xs), AsWeighted(ys);
    assert CheckAndConvert(xs).value == Tally(a);
    assert CheckAndConvert(ys).value == Tally(b);
    TallyElements(a);
    TallyElements(b);
    assert (set s | s in SpeciesOf(a) :: Weighted(s, Amount(a, s)))
        == (set s | s in SpeciesOf(b) :: Weighted(s, Amount(b, s)));
  }

  /** Reactions constructed from input lists, and from output lists, that
      agree species by species on the total stoichiometry compare equal:
      `[2 A]` and `[A, A]`, or `[A, B]` and `[B, A]`. */
  lemma NewReactionByAmounts(in1: seq<PyObj>, in2: seq<PyObj>, out1: seq<PyObj>, out2: seq<PyObj>, p: Propensity)
    requires NewReaction(in1, out1, p).Success? && NewReaction(in2, out2, p).Success?
    requires SpeciesOf(AsWeighted(in1)) == SpeciesOf(AsWeighted(in2)) && SameAmounts(AsWeighted(in1), AsWeighted(in2))
    requires SpeciesOf(AsWeighted(out1)) == SpeciesOf(AsWeighted(out2)) && SameAmounts(AsWeighted(out1), AsWeighted(out2))
    ensures Equals(NewReaction(in1, out1, p).value, PyReaction(NewReaction(in2, out2, p).value)) == Success(true)
  {
    ConvertBySpeciesAndAmounts(in1, in2);
    ConvertBySpeciesAndAmounts(out1, out2);
  }

  /** The reaction the constructor builds from lists of plain species. */
  function ReactionOf(inputs: seq<Species>, outputs: seq<Species>, p: Propensity): Reaction {
    Reaction(Tally(Wrap(inputs)), Tally(Wrap(outputs)), p)
  }

  /** Lists of plain species always convert: the constructor succeeds, each
      species is listed once with its number of occurrences as stoichiometry,
      and the stoichiometries add up to the list length. */
  lemma FromSpeciesLists(inputs: seq<Species>, outputs: seq<Species>, p: Propensity)
    ensures NewReaction(AsObjects(inputs), AsObjects(outputs), p) == Success(ReactionOf(inputs, outputs, p))
    ensures forall s :: Amount(ReactionOf(inputs, outputs, p).inputs, s) == multiset(inputs)[s]
    ensures forall s :: Amount(ReactionOf(inputs, outputs, p).outputs, s) == multiset(outputs)[s]
    ensures Total(ReactionOf(inputs, outputs, p).inputs) == |inputs|
    ensures Total(ReactionOf(inputs, outputs, p).outputs) == |outputs|
    ensures SpeciesOf(ReactionOf(inputs, outputs, p).inputs) == set x | x in inputs
    ensures SpeciesOf(ReactionOf(inputs, outputs, p).outputs) == set x | x in outputs
    ensures Bag(ReactionOf(inputs, outputs, p).inputs) == multiset(inputs)
    ensures Bag(ReactionOf(inputs, outputs, p).outputs) == multiset(outputs)
  {
    assert AsWeighted(AsObjects(inputs)) == Wrap(inputs);
    assert AsWeighted(AsObjects(outputs)) == Wrap(outputs);
    forall s ensures Amount(ReactionOf(inputs, outputs, p).inputs, s) == multiset(inputs)[s]
      && Amount(ReactionOf(inputs, outputs, p).outputs, s) == multiset(outputs)[s]
    {
      TallyFacts(Wrap(inputs), x => if x == s then 1 else 0);
      TallyFacts(Wrap(outputs), x => if x == s then 1 else 0);
      WrapAmount(inputs, s);
      WrapAmount(outputs, s);
    }
    forall s ensures Bag(ReactionOf(inputs, outputs, p).inputs)[s] == multiset(inputs)[s]
      && Bag(ReactionOf(inputs, outputs, p).outputs)[s] == multiset(outputs)[s]
    {
      BagAmount(ReactionOf(inputs, outputs, p).inputs, s);
      BagAmount(ReactionOf(inputs, outputs, p).outputs, s);
    }
    TallyFacts(Wrap(inputs), _ => 1);
    TallyFacts(Wrap(outputs), _ => 1);
    WrapTotal(inputs);
    WrapTotal(outputs);
    WrapSpecies(inputs);
    WrapSpecies(outputs);
  }

  // ---------------------------------------------------------------------
  // __eq__

  /** The comparison of `__eq__` between two reactions: equal list lengths,
      equal sets of entries and equal propensities. */
  predicate SameReaction(a: Reaction, b: Reaction) {
    && |a.inputs| == |b.inputs| && |a.outputs| == |b.outputs|
    && Elements(a.inputs) == Elements(b.inputs) && Elements(a.outputs) == Elements(b.outputs)
    && a.propensity == b.propensity
  }

  /** `Reaction.__eq__`: a TypeError against anything but a Reaction. */
  function Equals(r: Reaction, other: PyObj): (res: Result<bool>)
    ensures res.Success? <==> other.PyReaction?
    ensures res.Failure? ==> res.error == TypeError
    ensures res.Success? ==>
      (res.value <==> |r.inputs| == |other.reaction.inputs| && |r.outputs| == |other.reaction.outputs|
                      && Elements(r.inputs) == Elements(other.reaction.inputs)
                      && Elements(r.outputs) == Elements(other.reaction.outputs)
                      && r.propensity == other.reaction.propensity)
  {
    match other
    case PyReaction(o) => Success(SameReaction(r, o))
    case _ => Failure(TypeError)
  }

  /** Every entry has a positive stoichiometry. */
  ghost predicate Positive(ws: seq<Weighted>) {
    forall i :: 0 <= i < |ws| ==> ws[i].stoichiometry > 0
  }

  /** The two lists give every species the same stoichiometry. */
  ghost predicate SameAmounts(xs: seq<Weighted>, ys: seq<Weighted>) {
    forall s :: Amount(xs, s) == Amount(ys, s)
  }

  /** Between normalised reactions with positive stoichiometries, `__eq__`
      holds exactly when every species has the same stoichiometry on each
      side and the propensities agree. */
  lemma EqualsComparesAmounts(a: Reaction, b: Reaction)
    requires WellFormed(a) && WellFormed(b)
    requires Positive(a.inputs) && Positive(a.outputs) && Positive(b.inputs) && Positive(b.outputs)
    ensures Equals(a, PyReaction(b))
            == Success(SameAmounts(a.inputs, b.inputs) && SameAmounts(a.outputs, b.outputs) && a.propensity == b.propensity)
  {
    ElementsByAmounts(a.inputs, b.inputs);
    ElementsByAmounts(a.outputs, b.outputs);
  }

  /** In a normalised list with positive stoichiometries a species is listed
      exactly when it has a positive amount. */
  lemma ListedByAmount(ws: seq<Weighted>, s: Species)
    requires DistinctSpecies(ws) && Positive(ws)
    ensures s in SpeciesOf(ws) <==> Amount(ws, s) > 0
  {
    AmountOfDistinct(ws, s);
    if s in SpeciesOf(ws) {
      var i :| 0 <= i < |ws| && ws[i].species == s;
    }
  }

  /** ... and an entry is present exactly when its species has its amount. */
  lemma EntryByAmount(ws: seq<Weighted>, e: Weighted)
    requires DistinctSpecies(ws) && Positive(ws) && e.stoichiometry > 0
    ensures e in Elements(ws) <==> Amount(ws, e.species) == e.stoichiometry
  {
    AmountOfDistinct(ws, e.species);
    if e in Elements(ws) {
      var i :| 0 <= i < |ws| && ws[i] == e;
    }
    if Amount(ws, e.species) == e.stoichiometry {
      ListedByAmount(ws, e.species);
      var i :| 0 <= i < |ws| && ws[i].species == e.species;
      assert ws[i] == e;
      assert ws[i] in ws;
    }
  }

  /** Normalised lists with positive stoichiometries have the same length
      and the same entries exactly when they give every species the same
      amount. */
  lemma ElementsByAmounts(xs: seq<Weighted>, ys: seq<Weighted>)
    requires DistinctSpecies(xs) && Positive(xs) && DistinctSpecies(ys) && Positive(ys)
    ensures (|xs| == |ys| && Elements(xs) == Elements(ys)) <==> SameAmounts(xs, ys)
  {
    if Elements(xs) == Elements(ys) {
      forall s ensures Amount(xs, s) == Amount(ys, s) {
        AmountOfDistinct(xs, s);
        AmountOfDistinct(ys, s);
        if i :| 0 <= i < |xs| && xs[i].species == s {
          assert xs[i] in Elements(ys);
          var j :| 0 <= j < |ys| && ys[j] == xs[i];
        } else {
          forall j | 0 <= j < |ys| ensures ys[j].species != s {
            assert ys[j] in Elements(xs);
          }
        }
      }
      assert SameAmounts(xs, ys);
    }
    if SameAmounts(xs, ys) {
      forall e | e in Elements(xs) ensures e in Elements(ys) {
        var i :| 0 <= i < |xs| && xs[i] == e;
        EntryByAmount(xs, e);
        EntryByAmount(ys, e);
      }
      forall e | e in Elements(ys) ensures e in Elements(xs) {
        var i :| 0 <= i < |ys| && ys[i] == e;
        EntryByAmount(xs, e);
        EntryByAmount(ys, e);
      }
      forall s ensures s in SpeciesOf(xs) <==> s in SpeciesOf(ys) {
        ListedByAmount(xs, s);
        ListedByAmount(ys, s);
      }
      assert Elements(xs) == Elements(ys);
      assert SpeciesOf(xs) == SpeciesOf(ys);
      DistinctCardinality(xs);
      DistinctCardinality(ys);
    }
  }

  lemma EqualsReflexiveSymmetric(a: Reaction, b: Reaction)
    ensures Equals(a, PyReaction(a)) == Success(true)
    ensures Equals(a, PyReaction(b)) == Equals(b, PyReaction(a))
  {
  }

  /** Reactions built from reordered lists compare equal: the comparison is
      insensitive to the order of inputs and of outputs. */
  lemma OrderInsensitive(in1: seq<Species>, in2: seq<Species>, out1: seq<Species>, out2: seq<Species>, p: Propensity)
    requires multiset(in1) == multiset(in2) && multiset(out1) == multiset(out2)
    ensures Equals(ReactionOf(in1, out1, p), PyReaction(ReactionOf(in2, out2, p))) == Success(true)
  {
    SameNormalForm(in1, in2);
    SameNormalForm(out1, out2);
  }

  lemma SameNormalForm(xs: seq<Species>, ys: seq<Species>)
    requires multiset(xs) == multiset(ys)
    ensures |Tally(Wrap(xs))| == |Tally(Wrap(ys))|
    ensures Elements(Tally(Wrap(xs))) == Elements(Tally(Wrap(ys)))
  {
    TallyElements(Wrap(xs));
    TallyElements(Wrap(ys));
    WrapSpecies(xs);
    WrapSpecies(ys);
    assert (set x | x in xs) == (set y | y in ys) by {
      forall x ensures x in xs <==> x in ys {
        assert x in xs <==> x in multiset(xs);
        assert x in ys <==> x in multiset(ys);
      }
    }
    forall s ensures Amount(Wrap(xs), s) == Amount(Wrap(ys), s) {
      WrapAmount(xs, s);
      WrapAmount(ys, s);
    }
  }

  // ---------------------------------------------------------------------
  // species, __contains__

  /** The `species` property: input species, then output species, then the
      species of the propensity. */
  function SpeciesList(r: Reaction): (xs: seq<Species>)
    ensures |xs| == |r.inputs| + |r.outputs| + |PropensitySpecies(r.propensity)|
    ensures forall i :: 0 <= i < |r.inputs| ==> xs[i] == r.inputs[i].species
    ensures forall i :: 0 <= i < |r.outputs| ==> xs[|r.inputs| + i] == r.outputs[i].species
    ensures xs[|r.inputs| + |r.outputs|..] == PropensitySpecies(r.propensity)
  {
    Unweighted(r.inputs) + Unweighted(r.outputs) + PropensitySpecies(r.propensity)
  }

  /** Every species any of the reactions mentions is among `species`. */
  ghost predicate Covers(species: seq<Species>, rxns: seq<Reaction>) {
    forall i, s :: 0 <= i < |rxns| && s in SpeciesList(rxns[i]) ==> s in species
  }

  /** `Reaction.__contains__`: a NotImplementedError for a non-Species. */
  function Contains(r: Reaction, item: PyObj): (res: Result<bool>)
    ensures res.Success? <==> item.PySpecies?
    ensures res.Failure? ==> res.error == NotImplementedError
  {
    match item
    case PySpecies(s) =>
      Success(s in SpeciesOf(r.inputs) || s in SpeciesOf(r.outputs) || s in PropensitySpecies(r.propensity))
    case _ => Failure(NotImplementedError)
  }

  lemma UnweightedMember(ws: seq<Weighted>, s: Species)
    ensures s in Unweighted(ws) <==> s in SpeciesOf(ws)
  {
    if s in Unweighted(ws) {
      var i :| 0 <= i < |ws| && Unweighted(ws)[i] == s;
    }
    if s in SpeciesOf(ws) {
      var i :| 0 <= i < |ws| && ws[i].species == s;
      assert Unweighted(ws)[i] == s;
    }
  }

  /** Membership agrees with the `species` property. */
  lemma ContainsAgreesWithSpeciesList(r: Reaction, s: Species)
    ensures Contains(r, PySpecies(s)) == Success(s in SpeciesList(r))
  {
    UnweightedMember(r.inputs, s);
    UnweightedMember(r.outputs, s);
    assert SpeciesList(r) == Unweighted(r.inputs) + Unweighted(r.outputs) + PropensitySpecies(r.propensity);
  }

  // ---------------------------------------------------------------------
  // replace_species

  function SubstituteWeighted(ws: seq<Weighted>, a: Species, b: Species): (r: seq<Weighted>)
    ensures |r| == |ws|
    ensures forall i :: 0 <= i < |ws| ==> r[i] == Weighted(Substitute(ws[i].species, a, b), ws[i].stoichiometry)
  {
    seq(|ws|, i requires 0 <= i < |ws| => Weighted(Substitute(ws[i].species, a, b), ws[i].stoichiometry))
  }

  /** `Reaction.replace_species`: a ValueError unless both arguments are
      Species; otherwise a new reaction built from the substituted weighted
      lists (normalised again) and the substituted propensity. */
  function ReplaceSpecies(r: Reaction, species: PyObj, newSpecies: PyObj): (res: Result<Reaction>)
    ensures res.Success? <==> species.PySpecies? && newSpecies.PySpecies?
    ensures res.Failure? ==> res.error == ValueError
    ensures res.Success? ==> WellFormed(res.value)
    ensures res.Success? ==> Total(res.value.inputs) == Total(r.inputs) && Total(res.value.outputs) == Total(r.outputs)
  {
    if !species.PySpecies? || !newSpecies.PySpecies? then Failure(ValueError)
    else
      var a, b := species.species, newSpecies.species;
      var ins, outs := SubstituteWeighted(r.inputs, a, b), SubstituteWeighted(r.outputs, a, b);
      ConvertSubstituted(r.inputs, a, b);
      ConvertSubstituted(r.outputs, a, b);
      NewReaction(AsWeightedObjects(ins), AsWeightedObjects(outs), SubstitutePropensity(r.propensity, a, b))
  }

  lemma ConvertSubstituted(ws: seq<Weighted>, a: Species, b: Species)
    ensures AllSpecies(AsWeightedObjects(SubstituteWeighted(ws, a, b))) || AllWeighted(AsWeightedObjects(SubstituteWeighted(ws, a, b)))
    ensures AsWeighted(AsWeightedObjects(SubstituteWeighted(ws, a, b))) == SubstituteWeighted(ws, a, b)
    ensures Total(SubstituteWeighted(ws, a, b)) == Total(ws)
  {
    var objs := AsWeightedObjects(SubstituteWeighted(ws, a, b));
    if ws == [] {
      assert objs == [];
    } else {
      assert !AllSpecies(objs) by { assert !objs[0].PySpecies?; }
    }
    SubstitutedTotal(ws, a, b);
  }

  lemma {:induction false} SubstitutedTotal(ws: seq<Weighted>, a: Species, b: Species)
    ensures Total(SubstituteWeighted(ws, a, b)) == Total(ws)
  {
    if ws != [] {
      assert SubstituteWeighted(ws, a, b)[1..] == SubstituteWeighted(ws[1..], a, b);
      SubstitutedTotal(ws[1..], a, b);
    }
  }

  /** Replacing a species by itself rebuilds the same reaction. */
  lemma ReplaceBySelf(r: Reaction, a: Species)
    requires WellFormed(r)
    ensures ReplaceSpecies(r, PySpecies(a), PySpecies(a)) == Success(r)
  {
    SubstituteWeightedSelf(r.inputs, a);
    SubstituteWeightedSelf(r.outputs, a);
    ConvertSubstituted(r.inputs, a, a);
    ConvertSubstituted(r.outputs, a, a);
    TallyOfDistinct(r.inputs);
    TallyOfDistinct(r.outputs);
    match r.propensity
    case MassAction(_, _) =>
    case ProportionalHill(_, _, _, _, s1, d) =>
      SubstituteSelf(s1, a);
      SubstituteSelf(d, a);
  }

  lemma SubstituteWeightedSelf(ws: seq<Weighted>, a: Species)
    ensures SubstituteWeighted(ws, a, a) == ws
  {
    forall i | 0 <= i < |ws| ensures SubstituteWeighted(ws, a, a)[i] == ws[i] {
      SubstituteSelf(ws[i].species, a);
    }
  }

  /** Replacing a basic species by one that does not mention it leaves no
      input or output species mentioning it. */
  lemma ReplaceRemoves(r: Reaction, a: Species, b: Species)
    requires a.Basic? && !Mentions(b, a)
    ensures ReplaceSpecies(r, PySpecies(a), PySpecies(b)).Success?
    ensures forall s :: s in SpeciesOf(ReplaceSpecies(r, PySpecies(a), PySpecies(b)).value.inputs) ==> !Mentions(s, a)
    ensures forall s :: s in SpeciesOf(ReplaceSpecies(r, PySpecies(a), PySpecies(b)).value.outputs) ==> !Mentions(s, a)
  {
    var ins, outs := SubstituteWeighted(r.inputs, a, b), SubstituteWeighted(r.outputs, a, b);
    ConvertSubstituted(r.inputs, a, b);
    ConvertSubstituted(r.outputs, a, b);
    forall s | s in SpeciesOf(ins) ensures !Mentions(s, a) {
      var i :| 0 <= i < |ins| && ins[i].species == s;
      SubstituteRemoves(r.inputs[i].species, a, b);
    }
    forall s | s in SpeciesOf(outs) ensures !Mentions(s, a) {
      var i :| 0 <= i < |outs| && outs[i].species == s;
      SubstituteRemoves(r.outputs[i].species, a, b);
    }
  }
}
