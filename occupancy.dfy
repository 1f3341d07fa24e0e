/** The multi-occupancy mechanisms `multi_tx` and `multi_tl` of
    biocrnpyler/mechanisms_txtl.py. Both build the same network, with a
    template (DNA or mRNA) that up to `max_occ` carriers (polymerases or
    ribosomes) sit on, and differ only in the roles' names and in the names
    of the parameters; so the network is built once, over `Roles`, and each
    mechanism supplies its roles and rates.

    For every n = 0 .. max_occ-1 there is an open state `Open(n)` with n+1
    carriers in the open configuration and a closed state `Closed(n)`. The
    code gives `Closed(0)` one carrier and `Closed(n)`, n >= 1, n carriers,
    which makes carriers appear and disappear; the states are documented
    as "n open and one closed carrier", i.e. n+1 carriers. `Layout` selects
    between the two: `AsWritten` is the code, `Corrected` the documented
    composition. */
module Occupancy {
  import opened Wrappers
  import opened Chemistry
  import opened Reactions
  import opened Parameters
  import opened Decimal

  /** template: the DNA or the mRNA; carrier: the polymerase or the ribosome;
      product: the transcript or the protein. */
  datatype Roles = Roles(template: Species, carrier: Species, product: Species)

  /** Binding, unbinding, isomerisation and release rates. */
  datatype Rates = Rates(bind: real, unbind: real, iso: real, release: real)

  datatype Layout = AsWritten | Corrected

  /** The arguments of one `Reaction.from_massaction` call. */
  datatype Transition = Transition(inputs: seq<Species>, outputs: seq<Species>, k: real)

  /** `range(1, max_occ + 1)` has this many elements. */
  function Clamp(m: int): (r: nat)
    ensures m >= 0 ==> r == m
    ensures m < 0 ==> r == 0
  {
    if m < 0 then 0 else m
  }

  // ---------------------------------------------------------------------
  // The complexes

  /** The name prefix shared by all complexes: carrier name, 'x', template name. */
  function Prefix(ro: Roles): string {
    ro.carrier.name + "x" + ro.template.name
  }

  function OpenName(ro: Roles, n: nat): string {
    Prefix(ro) + "_" + NatToString(n + 1)
  }

  function ClosedName(ro: Roles, n: nat): string {
    Prefix(ro) + "_closed_" + NatToString(n)
  }

  /** How many carriers the closed state `n` holds. */
  function Carriers(n: nat, layout: Layout): (c: nat)
    ensures c >= 1
    ensures layout == Corrected ==> c == n + 1
    ensures layout == AsWritten ==> c == if n == 0 then 1 else n
  {
    match layout
    case AsWritten => if n == 0 then 1 else n
    case Corrected => n + 1
  }

  /** The template with `c` carriers on it. */
  function Loaded(ro: Roles, c: nat, name: string): Species {
    Complex([ro.template] + Repeat(ro.carrier, c), name)
  }

  function Open(ro: Roles, n: nat): Species {
    Loaded(ro, n + 1, OpenName(ro, n))
  }

  function Closed(ro: Roles, n: nat, layout: Layout): Species {
    Loaded(ro, Carriers(n, layout), ClosedName(ro, n))
  }

  function OpenStates(ro: Roles, m: nat): (xs: seq<Species>)
    ensures |xs| == m && forall n :: 0 <= n < m ==> xs[n] == Open(ro, n)
  {
    seq(m, n requires 0 <= n => Open(ro, n))
  }

  function ClosedStates(ro: Roles, m: nat, layout: Layout): (xs: seq<Species>)
    ensures |xs| == m && forall n :: 0 <= n < m ==> xs[n] == Closed(ro, n, layout)
  {
    seq(m, n requires 0 <= n => Closed(ro, n, layout))
  }

  /** `update_species`: the open states, the closed states, then carrier,
      template and product. */
  function OccupancySpecies(ro: Roles, m: int, layout: Layout): (xs: seq<Species>)
    ensures |xs| == 2 * Clamp(m) + 3
    ensures forall n :: 0 <= n < Clamp(m) ==> xs[n] == Open(ro, n) && xs[Clamp(m) + n] == Closed(ro, n, layout)
    ensures xs[2 * Clamp(m)..] == [ro.carrier, ro.template, ro.product]
  {
    OpenStates(ro, Clamp(m)) + ClosedStates(ro, Clamp(m), layout) + [ro.carrier, ro.template, ro.product]
  }

  // ---------------------------------------------------------------------
  // The transitions

  /** A carrier binds the open state `n` and forms the closed state `n+1`. */
  function Binding(ro: Roles, rates: Rates, n: nat, layout: Layout): Transition {
    Transition([ro.carrier, Open(ro, n)], [Closed(ro, n + 1, layout)], rates.bind)
  }

  function Unbinding(ro: Roles, rates: Rates, n: nat, layout: Layout): Transition {
    Transition([Closed(ro, n + 1, layout)], [ro.carrier, Open(ro, n)], rates.unbind)
  }

  function Isomerisation(ro: Roles, rates: Rates, n: nat, layout: Layout): Transition {
    Transition([Closed(ro, n, layout)], [Open(ro, n)], rates.iso)
  }

  /** All n+1 carriers of the open state `n` leave, each with a product. */
  function ReleaseOpen(ro: Roles, rates: Rates, n: nat): Transition {
    Transition([Open(ro, n)], Repeat(ro.carrier, n + 1) + Repeat(ro.product, n + 1) + [ro.template], rates.release)
  }

  /** The n open carriers of the closed state `n` leave, each with a product,
      and the closed state `0` remains. */
  function ReleaseClosed(ro: Roles, rates: Rates, n: nat, layout: Layout): Transition {
    Transition([Closed(ro, n, layout)], Repeat(ro.carrier, n) + Repeat(ro.product, n) + [Closed(ro, 0, layout)], rates.release)
  }

  function Loading(ro: Roles, rates: Rates, layout: Layout): Transition {
    Transition([ro.template, ro.carrier], [Closed(ro, 0, layout)], rates.bind)
  }

  function Unloading(ro: Roles, rates: Rates, layout: Layout): Transition {
    Transition([Closed(ro, 0, layout)], [ro.template, ro.carrier], rates.unbind)
  }

  function Bindings(ro: Roles, rates: Rates, m: nat, layout: Layout): seq<Transition> {
    seq(Clamp(m - 1), n requires 0 <= n => Binding(ro, rates, n, layout))
  }

  function Unbindings(ro: Roles, rates: Rates, m: nat, layout: Layout): seq<Transition> {
    seq(Clamp(m - 1), n requires 0 <= n => Unbinding(ro, rates, n, layout))
  }

  function Isomerisations(ro: Roles, rates: Rates, m: nat, layout: Layout): seq<Transition> {
    seq(m, n requires 0 <= n => Isomerisation(ro, rates, n, layout))
  }

  function OpenReleases(ro: Roles, rates: Rates, m: nat): seq<Transition> {
    seq(m, n requires 0 <= n => ReleaseOpen(ro, rates, n))
  }

  /** Closed releases for n = 1 .. m-1. */
  function ClosedReleases(ro: Roles, rates: Rates, m: nat, layout: Layout): seq<Transition> {
    seq(Clamp(m - 1), j requires 0 <= j => ReleaseClosed(ro, rates, j + 1, layout))
  }

  /** The `from_massaction` calls of `update_reactions`, in order: the step
      at position `i` is `StepAt(i)`, and `BlocksAreSteps` shows that this is
      the concatenation of the five blocks and the loading pair. With no
      complexes (`max_occ <= 0`) the loading step indexes an empty list. */
  function Plan(ro: Roles, rates: Rates, m: int, layout: Layout): (r: Result<seq<Transition>>)
    ensures r.Failure? <==> m <= 0
    ensures r.Failure? ==> r.error == IndexError
    ensures r.Success? ==> |r.value| == 5 * m - 1
  {
    if m <= 0 then Failure(IndexError)
    else Success(Steps(ro, rates, m, layout, 0, 5 * m - 1))
  }

  /** The reaction `Reaction.from_massaction` builds for a transition. */
  function Realize(t: Transition): Reaction {
    ReactionOf(t.inputs, t.outputs, MassAction(t.k, None))
  }

  lemma RealizeIsFromMassAction(t: Transition)
    ensures FromMassAction(AsObjects(t.inputs), AsObjects(t.outputs), t.k, None) == Success(Realize(t))
  {
    FromSpeciesLists(t.inputs, t.outputs, MassAction(t.k, None));
  }

  function RealizeAll(ts: seq<Transition>): (rs: seq<Reaction>)
    ensures |rs| == |ts| && forall i :: 0 <= i < |ts| ==> rs[i] == Realize(ts[i])
  {
    seq(|ts|, i requires 0 <= i < |ts| => Realize(ts[i]))
  }

  lemma RealizeAllAppend(a: seq<Transition>, b: seq<Transition>)
    ensures RealizeAll(a + b) == RealizeAll(a) + RealizeAll(b)
  {
    assert forall i :: 0 <= i < |a| + |b| ==> RealizeAll(a + b)[i] == (RealizeAll(a) + RealizeAll(b))[i];
  }

  /** `update_reactions` of the multi-occupancy mechanisms. */
  function OccupancyReactions(ro: Roles, rates: Rates, m: int, layout: Layout): (r: Result<seq<Reaction>>)
    ensures r.Failure? <==> m <= 0
    ensures r.Failure? ==> r.error == IndexError
    ensures r.Success? ==> |r.value| == 5 * m - 1
  {
    var plan :- Plan(ro, rates, m, layout);
    Success(RealizeAll(plan))
  }

  // ---------------------------------------------------------------------
  // The loops of the source

  /** The loop over `range(1, max_occ + 1)` that builds `cp_open` and `cp_closed`. */
  method BuildStates(ro: Roles, m: int, layout: Layout) returns (open: seq<Species>, closed: seq<Species>)
    ensures open == OpenStates(ro, Clamp(m))
    ensures closed == ClosedStates(ro, Clamp(m), layout)
  {
    open, closed := [], [];
    var n := 1;
    while n <= m
      invariant 1 <= n <= Clamp(m) + 1
      invariant open == OpenStates(ro, n - 1)
      invariant closed == ClosedStates(ro, n - 1, layout)
    {
      open := open + [Complex([ro.template] + Repeat(ro.carrier, n), OpenName(ro, n - 1))];
      var carriers := if layout == Corrected then n else if n > 1 then n - 1 else 1;
      closed := closed + [Complex([ro.template] + Repeat(ro.carrier, carriers), ClosedName(ro, n - 1))];
      n := n + 1;
    }
  }

  method UpdateSpecies(ro: Roles, m: int, layout: Layout) returns (species: seq<Species>)
    ensures species == OccupancySpecies(ro, m, layout)
  {
    var open, closed := BuildStates(ro, m, layout);
    species := open + closed + [ro.carrier, ro.template, ro.product];
  }

  /** The release loop over the open states. */
  method ReleasesFromOpen(ro: Roles, rates: Rates, m: int, open: seq<Species>) returns (fromOpen: seq<Reaction>)
    requires open == OpenStates(ro, Clamp(m))
    ensures fromOpen == RealizeAll(OpenReleases(ro, rates, Clamp(m)))
  {
    fromOpen := [];
    var n := 0;
    while n < m
      invariant 0 <= n <= Clamp(m)
      invariant fromOpen == RealizeAll(OpenReleases(ro, rates, n))
    {
      var t := Transition([open[n]], Repeat(ro.carrier, n + 1) + Repeat(ro.product, n + 1) + [ro.template], rates.release);
      assert t == ReleaseOpen(ro, rates, n);
      assert OpenReleases(ro, rates, n + 1) == OpenReleases(ro, rates, n) + [t];
      RealizeAllAppend(OpenReleases(ro, rates, n), [t]);
      fromOpen := fromOpen + [Realize(t)];
      n := n + 1;
    }
  }

  /** The release loop over the closed states 1 .. max_occ-1. */
  method ReleasesFromClosed(ro: Roles, rates: Rates, m: int, layout: Layout, closed: seq<Species>)
    returns (fromClosed: seq<Reaction>)
    requires closed == ClosedStates(ro, Clamp(m), layout)
    ensures fromClosed == RealizeAll(ClosedReleases(ro, rates, Clamp(m), layout))
  {
    fromClosed := [];
    var n := 1;
    while n < m
      invariant 1 <= n <= Clamp(m) || (n == 1 && m <= 1)
      invariant fromClosed == RealizeAll(ClosedReleases(ro, rates, n, layout))
    {
      var t := Transition([closed[n]], Repeat(ro.carrier, n) + Repeat(ro.product, n) + [closed[0]], rates.release);
      assert t == ReleaseClosed(ro, rates, n, layout);
      assert ClosedReleases(ro, rates, n + 1, layout) == ClosedReleases(ro, rates, n, layout) + [t];
      RealizeAllAppend(ClosedReleases(ro, rates, n, layout), [t]);
      fromClosed := fromClosed + [Realize(t)];
      n := n + 1;
    }
    assert ClosedReleases(ro, rates, n, layout) == ClosedReleases(ro, rates, Clamp(m), layout);
  }

  /** The binding comprehension `rxn_open_pf`. */
  method BindingComprehension(ro: Roles, rates: Rates, m: int, layout: Layout, open: seq<Species>, closed: seq<Species>)
    returns (pf: seq<Reaction>)
    requires open == OpenStates(ro, Clamp(m)) && closed == ClosedStates(ro, Clamp(m), layout)
    ensures pf == RealizeAll(Bindings(ro, rates, Clamp(m), layout))
  {
    var k := Clamp(m - 1);
    pf := seq(k, n requires 0 <= n < k => Realize(Transition([ro.carrier, open[n]], [closed[n + 1]], rates.bind)));
    var bs := Bindings(ro, rates, Clamp(m), layout);
    assert |bs| == k;
    forall n | 0 <= n < k ensures pf[n] == RealizeAll(bs)[n] {
      assert Transition([ro.carrier, open[n]], [closed[n + 1]], rates.bind) == bs[n];
    }
  }

  /** The unbinding comprehension `rxn_open_pr`. */
  method UnbindingComprehension(ro: Roles, rates: Rates, m: int, layout: Layout, open: seq<Species>, closed: seq<Species>)
    returns (pr: seq<Reaction>)
    requires open == OpenStates(ro, Clamp(m)) && closed == ClosedStates(ro, Clamp(m), layout)
    ensures pr == RealizeAll(Unbindings(ro, rates, Clamp(m), layout))
  {
    var k := Clamp(m - 1);
    pr := seq(k, n requires 0 <= n < k => Realize(Transition([closed[n + 1]], [ro.carrier, open[n]], rates.unbind)));
    var us := Unbindings(ro, rates, Clamp(m), layout);
    assert |us| == k;
    forall n | 0 <= n < k ensures pr[n] == RealizeAll(us)[n] {
      assert Transition([closed[n + 1]], [ro.carrier, open[n]], rates.unbind) == us[n];
    }
  }

  /** The isomerisation comprehension `rxn_iso`. */
  method IsomerisationComprehension(ro: Roles, rates: Rates, m: int, layout: Layout, open: seq<Species>, closed: seq<Species>)
    returns (iso: seq<Reaction>)
    requires open == OpenStates(ro, Clamp(m)) && closed == ClosedStates(ro, Clamp(m), layout)
    ensures iso == RealizeAll(Isomerisations(ro, rates, Clamp(m), layout))
  {
    var k := Clamp(m);
    iso := seq(k, n requires 0 <= n < k => Realize(Transition([closed[n]], [open[n]], rates.iso)));
    var isos := Isomerisations(ro, rates, Clamp(m), layout);
    forall n | 0 <= n < k ensures iso[n] == RealizeAll(isos)[n] {
      assert Transition([closed[n]], [open[n]], rates.iso) == isos[n];
    }
  }

  /** The reactions in the five blocks and the final pair. */
  lemma RealizePlan(ro: Roles, rates: Rates, m: nat, layout: Layout)
    requires m >= 1
    ensures OccupancyReactions(ro, rates, m, layout).value
      == RealizeAll(Bindings(ro, rates, m, layout)) + RealizeAll(Unbindings(ro, rates, m, layout))
         + RealizeAll(Isomerisations(ro, rates, m, layout)) + RealizeAll(OpenReleases(ro, rates, m))
         + RealizeAll(ClosedReleases(ro, rates, m, layout))
         + [Realize(Loading(ro, rates, layout)), Realize(Unloading(ro, rates, layout))]
  {
    var b, u, i, o, c := Bindings(ro, rates, m, layout), Unbindings(ro, rates, m, layout),
      Isomerisations(ro, rates, m, layout), OpenReleases(ro, rates, m), ClosedReleases(ro, rates, m, layout);
    var last := [Loading(ro, rates, layout), Unloading(ro, rates, layout)];
    BlocksAreSteps(ro, rates, m, layout);
    RealizeAllAppend(b, u);
    RealizeAllAppend(b + u, i);
    RealizeAllAppend(b + u + i, o);
    RealizeAllAppend(b + u + i + o, c);
    RealizeAllAppend(b + u + i + o + c, last);
    assert RealizeAll(last) == [Realize(last[0]), Realize(last[1])];
  }

  method UpdateReactions(ro: Roles, rates: Rates, m: int, layout: Layout) returns (r: Result<seq<Reaction>>)
    ensures r == OccupancyReactions(ro, rates, m, layout)
  {
    var open, closed := BuildStates(ro, m, layout);
    var pf := BindingComprehension(ro, rates, m, layout, open, closed);
    var pr := UnbindingComprehension(ro, rates, m, layout, open, closed);
    var iso := IsomerisationComprehension(ro, rates, m, layout, open, closed);
    var fromOpen := ReleasesFromOpen(ro, rates, m, open);
    var fromClosed := ReleasesFromClosed(ro, rates, m, layout, closed);
    if |closed| == 0 {
      return Failure(IndexError);
    }
    var m1 := Realize(Transition([ro.template, ro.carrier], [closed[0]], rates.bind));
    var m2 := Realize(Transition([closed[0]], [ro.template, ro.carrier], rates.unbind));
    RealizePlan(ro, rates, m, layout);
    r := Success(pf + pr + iso + fromOpen + fromClosed + [m1, m2]);
  }

  // ---------------------------------------------------------------------
  // Where each step sits in the result

  /** The step at position `i` of `update_reactions`' result: binding,
      unbinding, isomerisation, release from open states, release from
      closed states, each block in increasing n, then loading and unloading. */
  function StepAt(ro: Roles, rates: Rates, m: nat, layout: Layout, i: nat): Transition
    requires 1 <= m && i < 5 * m - 1
  {
    if i < m - 1 then Binding(ro, rates, i, layout)
    else if i < 2 * m - 2 then Unbinding(ro, rates, i - (m - 1), layout)
    else if i < 3 * m - 2 then Isomerisation(ro, rates, i - (2 * m - 2), layout)
    else if i < 4 * m - 2 then ReleaseOpen(ro, rates, i - (3 * m - 2))
    else if i < 5 * m - 3 then ReleaseClosed(ro, rates, i - (4 * m - 3), layout)
    else if i == 5 * m - 3 then Loading(ro, rates, layout)
    else Unloading(ro, rates, layout)
  }

  /** Where each kind of step sits in `StepAt`. */
  lemma BindingAt(ro: Roles, rates: Rates, m: nat, layout: Layout, n: nat)
    requires 1 <= m && n < m - 1
    ensures StepAt(ro, rates, m, layout, n) == Binding(ro, rates, n, layout)
    ensures StepAt(ro, rates, m, layout, m - 1 + n) == Unbinding(ro, rates, n, layout)
  {
  }

  lemma IsomerisationAt(ro: Roles, rates: Rates, m: nat, layout: Layout, n: nat)
    requires 1 <= m && n < m
    ensures StepAt(ro, rates, m, layout, 2 * m - 2 + n) == Isomerisation(ro, rates, n, layout)
    ensures StepAt(ro, rates, m, layout, 3 * m - 2 + n) == ReleaseOpen(ro, rates, n)
  {
  }

  lemma ClosedReleaseAt(ro: Roles, rates: Rates, m: nat, layout: Layout, n: nat)
    requires 1 <= n < m
    ensures StepAt(ro, rates, m, layout, 4 * m - 3 + n) == ReleaseClosed(ro, rates, n, layout)
  {
  }

  /** The steps at positions `lo .. hi-1`. */
  function Steps(ro: Roles, rates: Rates, m: nat, layout: Layout, lo: nat, hi: nat): (ts: seq<Transition>)
    requires 1 <= m && lo <= hi <= 5 * m - 1
    ensures |ts| == hi - lo
  {
    seq(hi - lo, j requires 0 <= j < hi - lo => StepAt(ro, rates, m, layout, lo + j))
  }

  lemma StepsSplit(ro: Roles, rates: Rates, m: nat, layout: Layout, lo: nat, mid: nat, hi: nat)
    requires 1 <= m && lo <= mid <= hi <= 5 * m - 1
    ensures Steps(ro, rates, m, layout, lo, hi) == Steps(ro, rates, m, layout, lo, mid) + Steps(ro, rates, m, layout, mid, hi)
  {
  }

  lemma StepsExtend(ro: Roles, rates: Rates, m: nat, layout: Layout, lo: nat, mid: nat, hi: nat, xs: seq<Transition>, ys: seq<Transition>)
    requires 1 <= m && lo <= mid <= hi <= 5 * m - 1
    requires Steps(ro, rates, m, layout, lo, mid) == xs && Steps(ro, rates, m, layout, mid, hi) == ys
    ensures Steps(ro, rates, m, layout, lo, hi) == xs + ys
  {
    StepsSplit(ro, rates, m, layout, lo, mid, hi);
  }

  lemma PlanStepAt(ro: Roles, rates: Rates, m: nat, layout: Layout, i: nat)
    requires 1 <= m && i < 5 * m - 1
    ensures Plan(ro, rates, m, layout).value[i] == StepAt(ro, rates, m, layout, i)
  {
    assert Steps(ro, rates, m, layout, 0, 5 * m - 1)[i] == StepAt(ro, rates, m, layout, 0 + i);
  }

  /** Each block of `update_reactions` occupies its stretch of positions. */
  lemma BindingBlocks(ro: Roles, rates: Rates, m: nat, layout: Layout)
    requires 1 <= m
    ensures Bindings(ro, rates, m, layout) == Steps(ro, rates, m, layout, 0, m - 1)
    ensures Unbindings(ro, rates, m, layout) == Steps(ro, rates, m, layout, m - 1, 2 * m - 2)
  {
    forall n | 0 <= n < m - 1
      ensures Bindings(ro, rates, m, layout)[n] == Steps(ro, rates, m, layout, 0, m - 1)[n]
      ensures Unbindings(ro, rates, m, layout)[n] == Steps(ro, rates, m, layout, m - 1, 2 * m - 2)[n]
    {
      BindingAt(ro, rates, m, layout, n);
    }
  }

  lemma IsomerisationBlocks(ro: Roles, rates: Rates, m: nat, layout: Layout)
    requires 1 <= m
    ensures Isomerisations(ro, rates, m, layout) == Steps(ro, rates, m, layout, 2 * m - 2, 3 * m - 2)
    ensures OpenReleases(ro, rates, m) == Steps(ro, rates, m, layout, 3 * m - 2, 4 * m - 2)
  {
    forall n | 0 <= n < m
      ensures Isomerisations(ro, rates, m, layout)[n] == Steps(ro, rates, m, layout, 2 * m - 2, 3 * m - 2)[n]
      ensures OpenReleases(ro, rates, m)[n] == Steps(ro, rates, m, layout, 3 * m - 2, 4 * m - 2)[n]
    {
      IsomerisationAt(ro, rates, m, layout, n);
    }
  }

  lemma ClosedBlocks(ro: Roles, rates: Rates, m: nat, layout: Layout)
    requires 1 <= m
    ensures ClosedReleases(ro, rates, m, layout) == Steps(ro, rates, m, layout, 4 * m - 2, 5 * m - 3)
    ensures [Loading(ro, rates, layout), Unloading(ro, rates, layout)] == Steps(ro, rates, m, layout, 5 * m - 3, 5 * m - 1)
  {
    forall j | 0 <= j < m - 1
      ensures ClosedReleases(ro, rates, m, layout)[j] == Steps(ro, rates, m, layout, 4 * m - 2, 5 * m - 3)[j]
    {
      ClosedReleaseAt(ro, rates, m, layout, j + 1);
    }
    var last := Steps(ro, rates, m, layout, 5 * m - 3, 5 * m - 1);
    assert last[0] == StepAt(ro, rates, m, layout, 5 * m - 3);
    assert last[1] == StepAt(ro, rates, m, layout, 5 * m - 2);
  }

  /** The plan is the concatenation of the five blocks and the loading
      pair, as line 441 of the source writes it. */
  lemma BlocksAreSteps(ro: Roles, rates: Rates, m: nat, layout: Layout)
    requires 1 <= m
    ensures Plan(ro, rates, m, layout).value
      == Bindings(ro, rates, m, layout) + Unbindings(ro, rates, m, layout) + Isomerisations(ro, rates, m, layout)
         + OpenReleases(ro, rates, m) + ClosedReleases(ro, rates, m, layout)
         + [Loading(ro, rates, layout), Unloading(ro, rates, layout)]
  {
    var b, u, iso, o, c := Bindings(ro, rates, m, layout), Unbindings(ro, rates, m, layout),
      Isomerisations(ro, rates, m, layout), OpenReleases(ro, rates, m), ClosedReleases(ro, rates, m, layout);
    var last := [Loading(ro, rates, layout), Unloading(ro, rates, layout)];
    BindingBlocks(ro, rates, m, layout);
    IsomerisationBlocks(ro, rates, m, layout);
    ClosedBlocks(ro, rates, m, layout);
    StepsExtend(ro, rates, m, layout, 0, m - 1, 2 * m - 2, b, u);
    StepsExtend(ro, rates, m, layout, 0, 2 * m - 2, 3 * m - 2, b + u, iso);
    StepsExtend(ro, rates, m, layout, 0, 3 * m - 2, 4 * m - 2, b + u + iso, o);
    StepsExtend(ro, rates, m, layout, 0, 4 * m - 2, 5 * m - 3, b + u + iso + o, c);
    StepsExtend(ro, rates, m, layout, 0, 5 * m - 3, 5 * m - 1, b + u + iso + o + c, last);
  }

  /** The reaction at position `i` is the step `StepAt` gives, built. */
  lemma ReactionAt(ro: Roles, rates: Rates, m: nat, layout: Layout, i: nat)
    requires 1 <= m && i < 5 * m - 1
    ensures OccupancyReactions(ro, rates, m, layout).value[i] == Realize(StepAt(ro, rates, m, layout, i))
  {
    PlanStepAt(ro, rates, m, layout, i);
  }

  lemma ReactionIs(ro: Roles, rates: Rates, m: nat, layout: Layout, i: nat, t: Transition)
    requires 1 <= m && i < 5 * m - 1 && StepAt(ro, rates, m, layout, i) == t
    ensures OccupancyReactions(ro, rates, m, layout).value[i] == Realize(t)
  {
    PlanStepAt(ro, rates, m, layout, i);
  }

  /** `update_reactions` lists the steps in the order `StepAt` gives. */
  lemma PlanBlocks(ro: Roles, rates: Rates, m: nat, layout: Layout)
    requires m >= 1
    ensures forall i :: 0 <= i < 5 * m - 1 ==>
      OccupancyReactions(ro, rates, m, layout).value[i] == Realize(StepAt(ro, rates, m, layout, i))
  {
    forall i | 0 <= i < 5 * m - 1
      ensures OccupancyReactions(ro, rates, m, layout).value[i] == Realize(StepAt(ro, rates, m, layout, i))
    {
      ReactionAt(ro, rates, m, layout, i);
    }
  }

  /** Binding and unbinding, and loading and unloading, are each other's
      reverse, at the binding and unbinding rates. */
  lemma ReversePairs(ro: Roles, rates: Rates, m: nat, layout: Layout, n: nat)
    requires 1 <= m && n < m - 1
    ensures StepAt(ro, rates, m, layout, m - 1 + n).inputs == StepAt(ro, rates, m, layout, n).outputs
    ensures StepAt(ro, rates, m, layout, m - 1 + n).outputs == StepAt(ro, rates, m, layout, n).inputs
    ensures StepAt(ro, rates, m, layout, n).k == rates.bind && StepAt(ro, rates, m, layout, m - 1 + n).k == rates.unbind
    ensures StepAt(ro, rates, m, layout, 5 * m - 2).inputs == StepAt(ro, rates, m, layout, 5 * m - 3).outputs
    ensures StepAt(ro, rates, m, layout, 5 * m - 2).outputs == StepAt(ro, rates, m, layout, 5 * m - 3).inputs
    ensures StepAt(ro, rates, m, layout, 5 * m - 3).k == rates.bind && StepAt(ro, rates, m, layout, 5 * m - 2).k == rates.unbind
  {
  }

  // ---------------------------------------------------------------------
  // The complexes are distinct

  lemma {:induction false} NamesDistinct(ro: Roles, a: nat, b: nat)
    ensures OpenName(ro, a) == OpenName(ro, b) ==> a == b
    ensures ClosedName(ro, a) == ClosedName(ro, b) ==> a == b
    ensures OpenName(ro, a) != ClosedName(ro, b)
  {
    var q := Prefix(ro);
    var da, db := NatToString(a + 1), NatToString(b + 1);
    var ca, cb := NatToString(a), NatToString(b);
    if OpenName(ro, a) == OpenName(ro, b) {
      assert (q + "_" + da)[|q| + 1..] == da;
      assert (q + "_" + db)[|q| + 1..] == db;
      NatToStringInjective(a + 1, b + 1);
    }
    if ClosedName(ro, a) == ClosedName(ro, b) {
      assert (q + "_closed_" + ca)[|q| + 8..] == ca;
      assert (q + "_closed_" + cb)[|q| + 8..] == cb;
      NatToStringInjective(a, b);
    }
    assert OpenName(ro, a)[|q| + 1] == da[0];
    assert ClosedName(ro, b)[|q| + 1] == 'c';
  }

  /** The 2 * max_occ complexes of `update_species` are pairwise distinct
      (open state n-1 and closed state n even have the same parts in the
      code, and differ by name only), and none is the template or the
      carrier. */
  lemma StatesDistinct(ro: Roles, m: nat, layout: Layout)
    ensures var xs := OpenStates(ro, m) + ClosedStates(ro, m, layout);
      forall i, j :: 0 <= i < j < 2 * m ==> xs[i] != xs[j]
    ensures var xs := OpenStates(ro, m) + ClosedStates(ro, m, layout);
      forall i :: 0 <= i < 2 * m ==> xs[i] != ro.template && xs[i] != ro.carrier
  {
    var xs := OpenStates(ro, m) + ClosedStates(ro, m, layout);
    forall i, j | 0 <= i < j < 2 * m ensures xs[i] != xs[j] {
      if j < m {
        NamesDistinct(ro, i, j);
        assert xs[i].name == OpenName(ro, i) && xs[j].name == OpenName(ro, j);
      } else if i < m {
        NamesDistinct(ro, i, j - m);
        assert xs[i].name == OpenName(ro, i) && xs[j].name == ClosedName(ro, j - m);
      } else {
        NamesDistinct(ro, i - m, j - m);
        assert xs[i].name == ClosedName(ro, i - m) && xs[j].name == ClosedName(ro, j - m);
      }
    }
    forall i | 0 <= i < 2 * m ensures xs[i] != ro.template && xs[i] != ro.carrier {
      assert xs[i].parts[0] == ro.template && xs[i].parts[1] == ro.carrier;
    }
  }

  // ---------------------------------------------------------------------
  // Conservation of carriers and templates

  /** How many units of `x` a species holds, free or bound. */
  function Content(x: Species): Species -> nat {
    y => Occurrences(y, x)
  }

  /** The three roles are unrelated species: the template holds no carrier,
      the carrier no template, the product neither. */
  predicate Separate(ro: Roles) {
    Occurrences(ro.template, ro.carrier) == 0 && Occurrences(ro.carrier, ro.template) == 0
    && Occurrences(ro.product, ro.carrier) == 0 && Occurrences(ro.product, ro.template) == 0
  }

  lemma SumOne(a: Species, x: Species)
    ensures SumOccurrences([a], x) == Occurrences(a, x)
  {
    assert [a][1..] == [];
  }

  lemma SumTwo(a: Species, b: Species, x: Species)
    ensures SumOccurrences([a, b], x) == Occurrences(a, x) + Occurrences(b, x)
  {
    assert [a, b][1..] == [b];
    SumOne(b, x);
  }

  lemma SumRelease(c: Species, nc: nat, p: Species, np: nat, last: Species, x: Species)
    ensures SumOccurrences(Repeat(c, nc) + Repeat(p, np) + [last], x)
      == nc * Occurrences(c, x) + np * Occurrences(p, x) + Occurrences(last, x)
  {
    SumOccurrencesAppend(Repeat(c, nc) + Repeat(p, np), [last], x);
    SumOccurrencesAppend(Repeat(c, nc), Repeat(p, np), x);
    SumOccurrencesRepeat(c, nc, x);
    SumOccurrencesRepeat(p, np, x);
    SumOne(last, x);
  }

  /** The carrier units of a release's output list. */
  lemma ReleaseCarrierSum(c: Species, nc: nat, p: Species, np: nat, last: Species)
    requires Occurrences(p, c) == 0
    ensures SumOccurrences(Repeat(c, nc) + Repeat(p, np) + [last], c) == nc + Occurrences(last, c)
  {
    SumRelease(c, nc, p, np, last, c);
  }

  /** The units of `x` in a release's output list when neither released
      species holds any. */
  lemma ReleaseOtherSum(c: Species, nc: nat, p: Species, np: nat, last: Species, x: Species)
    requires Occurrences(c, x) == 0 && Occurrences(p, x) == 0
    ensures SumOccurrences(Repeat(c, nc) + Repeat(p, np) + [last], x) == Occurrences(last, x)
  {
    SumRelease(c, nc, p, np, last, x);
  }

  /** A template with `c >= 1` carriers holds the template's and `c` times
      the carrier's units. */
  lemma {:induction false} LoadedContent(ro: Roles, c: nat, name: string, x: Species)
    requires c >= 1 && (x == ro.template || x == ro.carrier)
    ensures Occurrences(Loaded(ro, c, name), x) == Occurrences(ro.template, x) + c * Occurrences(ro.carrier, x)
  {
    var s := Loaded(ro, c, name);
    assert s.parts[0] == ro.template && s.parts[1] == ro.carrier;
    assert s.parts == [ro.template] + Repeat(ro.carrier, c);
    SumOccurrencesAppend([ro.template], Repeat(ro.carrier, c), x);
    SumOccurrencesRepeat(ro.carrier, c, x);
    SumOne(ro.template, x);
  }

  /** Open state n holds n+1 carriers, closed state n `Carriers(n)`; each
      holds one template. */
  lemma StateContents(ro: Roles, n: nat, layout: Layout)
    requires Separate(ro)
    ensures Occurrences(Open(ro, n), ro.carrier) == n + 1
    ensures Occurrences(Closed(ro, n, layout), ro.carrier) == Carriers(n, layout)
    ensures Occurrences(Open(ro, n), ro.template) == 1
    ensures Occurrences(Closed(ro, n, layout), ro.template) == 1
  {
    LoadedContent(ro, n + 1, OpenName(ro, n), ro.carrier);
    LoadedContent(ro, n + 1, OpenName(ro, n), ro.template);
    LoadedContent(ro, Carriers(n, layout), ClosedName(ro, n), ro.carrier);
    LoadedContent(ro, Carriers(n, layout), ClosedName(ro, n), ro.template);
  }

  /** The number of carrier units on each side of each kind of step. */
  lemma CarrierCounts(ro: Roles, rates: Rates, n: nat, layout: Layout)
    requires Separate(ro)
    ensures SumOccurrences(Binding(ro, rates, n, layout).inputs, ro.carrier) == n + 2
    ensures SumOccurrences(Binding(ro, rates, n, layout).outputs, ro.carrier) == Carriers(n + 1, layout)
    ensures SumOccurrences(Unbinding(ro, rates, n, layout).inputs, ro.carrier) == Carriers(n + 1, layout)
    ensures SumOccurrences(Unbinding(ro, rates, n, layout).outputs, ro.carrier) == n + 2
    ensures SumOccurrences(Isomerisation(ro, rates, n, layout).inputs, ro.carrier) == Carriers(n, layout)
    ensures SumOccurrences(Isomerisation(ro, rates, n, layout).outputs, ro.carrier) == n + 1
    ensures SumOccurrences(ReleaseOpen(ro, rates, n).inputs, ro.carrier) == n + 1
    ensures SumOccurrences(ReleaseOpen(ro, rates, n).outputs, ro.carrier) == n + 1
    ensures SumOccurrences(ReleaseClosed(ro, rates, n, layout).inputs, ro.carrier) == Carriers(n, layout)
    ensures SumOccurrences(ReleaseClosed(ro, rates, n, layout).outputs, ro.carrier) == n + 1
    ensures SumOccurrences(Loading(ro, rates, layout).inputs, ro.carrier) == 1
    ensures SumOccurrences(Loading(ro, rates, layout).outputs, ro.carrier) == 1
  {
    BindingCarrierCounts(ro, rates, n, layout);
    ClosedCarrierCounts(ro, rates, n, layout);
    var c := ro.carrier;
    StateContents(ro, n, layout);
    StateContents(ro, 0, layout);
    SumTwo(ro.template, c, c);
    SumOne(Closed(ro, 0, layout), c);
    SumOne(Open(ro, n), c);
    ReleaseCarrierSum(c, n + 1, ro.product, n + 1, ro.template);
  }

  /** The carrier units of binding and unbinding open state `n`. */
  lemma BindingCarrierCounts(ro: Roles, rates: Rates, n: nat, layout: Layout)
    requires Separate(ro)
    ensures SumOccurrences(Binding(ro, rates, n, layout).inputs, ro.carrier) == n + 2
    ensures SumOccurrences(Binding(ro, rates, n, layout).outputs, ro.carrier) == Carriers(n + 1, layout)
    ensures SumOccurrences(Unbinding(ro, rates, n, layout).inputs, ro.carrier) == Carriers(n + 1, layout)
    ensures SumOccurrences(Unbinding(ro, rates, n, layout).outputs, ro.carrier) == n + 2
  {
    var c := ro.carrier;
    StateContents(ro, n, layout);
    StateContents(ro, n + 1, layout);
    SumTwo(c, Open(ro, n), c);
    SumOne(Closed(ro, n + 1, layout), c);
  }

  /** The carrier units of isomerising and releasing closed state `n`. */
  lemma ClosedCarrierCounts(ro: Roles, rates: Rates, n: nat, layout: Layout)
    requires Separate(ro)
    ensures SumOccurrences(Isomerisation(ro, rates, n, layout).inputs, ro.carrier) == Carriers(n, layout)
    ensures SumOccurrences(Isomerisation(ro, rates, n, layout).outputs, ro.carrier) == n + 1
    ensures SumOccurrences(ReleaseClosed(ro, rates, n, layout).inputs, ro.carrier) == Carriers(n, layout)
    ensures SumOccurrences(ReleaseClosed(ro, rates, n, layout).outputs, ro.carrier) == n + 1
  {
    var c := ro.carrier;
    StateContents(ro, n, layout);
    StateContents(ro, 0, layout);
    SumOne(Closed(ro, n, layout), c);
    SumOne(Closed(ro, 0, layout), c);
    SumOne(Open(ro, n), c);
    ReleaseCarrierSum(c, n, ro.product, n, Closed(ro, 0, layout));
  }

  /** Every kind of step consumes and produces one template unit. */
  lemma TemplateCounts(ro: Roles, rates: Rates, n: nat, layout: Layout)
    requires Separate(ro)
    ensures SumOccurrences(Binding(ro, rates, n, layout).inputs, ro.template) == 1
    ensures SumOccurrences(Binding(ro, rates, n, layout).outputs, ro.template) == 1
    ensures SumOccurrences(Isomerisation(ro, rates, n, layout).inputs, ro.template) == 1
    ensures SumOccurrences(Isomerisation(ro, rates, n, layout).outputs, ro.template) == 1
    ensures SumOccurrences(ReleaseOpen(ro, rates, n).inputs, ro.template) == 1
    ensures SumOccurrences(ReleaseOpen(ro, rates, n).outputs, ro.template) == 1
    ensures SumOccurrences(ReleaseClosed(ro, rates, n, layout).inputs, ro.template) == 1
    ensures SumOccurrences(ReleaseClosed(ro, rates, n, layout).outputs, ro.template) == 1
    ensures SumOccurrences(Loading(ro, rates, layout).inputs, ro.template) == 1
    ensures SumOccurrences(Loading(ro, rates, layout).outputs, ro.template) == 1
  {
    var t := ro.template;
    StateContents(ro, n, layout);
    StateContents(ro, n + 1, layout);
    StateContents(ro, 0, layout);
    SumTwo(ro.carrier, Open(ro, n), t);
    SumTwo(t, ro.carrier, t);
    SumOne(Closed(ro, n + 1, layout), t);
    SumOne(Closed(ro, n, layout), t);
    SumOne(Closed(ro, 0, layout), t);
    SumOne(Open(ro, n), t);
    ReleaseOtherSum(ro.carrier, n + 1, ro.product, n + 1, t, t);
    ReleaseOtherSum(ro.carrier, n, ro.product, n, Closed(ro, 0, layout), t);
  }

  lemma {:induction false} WrapContent(xs: seq<Species>, x: Species)
    ensures Load(Wrap(xs), Content(x)) == SumOccurrences(xs, x)
  {
    if xs != [] {
      assert Wrap(xs)[1..] == Wrap(xs[1..]);
      WrapContent(xs[1..], x);
    }
  }

  /** The units of `x` on each side of the built reaction are those of the
      lists passed to `from_massaction`. */
  lemma RealizeContent(t: Transition, x: Species)
    ensures Load(Realize(t).inputs, Content(x)) == SumOccurrences(t.inputs, x)
    ensures Load(Realize(t).outputs, Content(x)) == SumOccurrences(t.outputs, x)
  {
    TallyFacts(Wrap(t.inputs), Content(x));
    TallyFacts(Wrap(t.outputs), Content(x));
    WrapContent(t.inputs, x);
    WrapContent(t.outputs, x);
  }

  lemma TemplateBalanced(ro: Roles, rates: Rates, m: nat, layout: Layout, i: nat)
    requires Separate(ro) && 1 <= m && i < 5 * m - 1
    ensures SumOccurrences(StepAt(ro, rates, m, layout, i).inputs, ro.template)
         == SumOccurrences(StepAt(ro, rates, m, layout, i).outputs, ro.template)
  {
    if i < m - 1 {
      TemplateCounts(ro, rates, i, layout);
    } else if i < 2 * m - 2 {
      TemplateCounts(ro, rates, i - (m - 1), layout);
    } else if i < 3 * m - 2 {
      TemplateCounts(ro, rates, i - (2 * m - 2), layout);
    } else if i < 4 * m - 2 {
      TemplateCounts(ro, rates, i - (3 * m - 2), layout);
    } else if i < 5 * m - 3 {
      TemplateCounts(ro, rates, i - (4 * m - 3), layout);
    } else {
      TemplateCounts(ro, rates, 0, layout);
    }
  }

  lemma CarrierBalanced(ro: Roles, rates: Rates, m: nat, i: nat)
    requires Separate(ro) && 1 <= m && i < 5 * m - 1
    ensures SumOccurrences(StepAt(ro, rates, m, Corrected, i).inputs, ro.carrier)
         == SumOccurrences(StepAt(ro, rates, m, Corrected, i).outputs, ro.carrier)
  {
    if i < m - 1 {
      BindingCarrierCounts(ro, rates, i, Corrected);
    } else if i < 2 * m - 2 {
      BindingCarrierCounts(ro, rates, i - (m - 1), Corrected);
    } else if i < 3 * m - 2 {
      ClosedCarrierCounts(ro, rates, i - (2 * m - 2), Corrected);
    } else if i < 5 * m - 3 && 4 * m - 2 <= i {
      ClosedCarrierCounts(ro, rates, i - (4 * m - 3), Corrected);
    } else {
      CarrierCounts(ro, rates, if i < 4 * m - 2 then i - (3 * m - 2) else 0, Corrected);
    }
  }

  /** Every reaction consumes as many template units, free or bound, as it
      produces, in the code and in the documented layout alike. */
  lemma TemplateConserved(ro: Roles, rates: Rates, m: int, layout: Layout)
    requires Separate(ro) && m >= 1
    ensures forall i :: 0 <= i < 5 * m - 1 ==>
      Load(OccupancyReactions(ro, rates, m, layout).value[i].inputs, Content(ro.template))
      == Load(OccupancyReactions(ro, rates, m, layout).value[i].outputs, Content(ro.template))
  {
    forall i | 0 <= i < 5 * m - 1 ensures
      Load(OccupancyReactions(ro, rates, m, layout).value[i].inputs, Content(ro.template))
      == Load(OccupancyReactions(ro, rates, m, layout).value[i].outputs, Content(ro.template))
    {
      ReactionAt(ro, rates, m, layout, i);
      TemplateBalanced(ro, rates, m, layout, i);
      RealizeContent(StepAt(ro, rates, m, layout, i), ro.template);
    }
  }

  /** With the documented composition every reaction also conserves the
      carrier: the number of polymerases (ribosomes), free or bound, never
      changes. */
  lemma CarrierConserved(ro: Roles, rates: Rates, m: int)
    requires Separate(ro) && m >= 1
    ensures forall i :: 0 <= i < 5 * m - 1 ==>
      Load(OccupancyReactions(ro, rates, m, Corrected).value[i].inputs, Content(ro.carrier))
      == Load(OccupancyReactions(ro, rates, m, Corrected).value[i].outputs, Content(ro.carrier))
  {
    forall i | 0 <= i < 5 * m - 1 ensures
      Load(OccupancyReactions(ro, rates, m, Corrected).value[i].inputs, Content(ro.carrier))
      == Load(OccupancyReactions(ro, rates, m, Corrected).value[i].outputs, Content(ro.carrier))
    {
      ReactionAt(ro, rates, m, Corrected, i);
      CarrierBalanced(ro, rates, m, i);
      RealizeContent(StepAt(ro, rates, m, Corrected, i), ro.carrier);
    }
  }

  /** The carrier units on the two sides of the reaction at position `i`. */
  function CarrierIn(ro: Roles, rates: Rates, m: int, layout: Layout, i: nat): nat
    requires m >= 1 && i < 5 * m - 1
  {
    Load(OccupancyReactions(ro, rates, m, layout).value[i].inputs, Content(ro.carrier))
  }

  function CarrierOut(ro: Roles, rates: Rates, m: int, layout: Layout, i: nat): nat
    requires m >= 1 && i < 5 * m - 1
  {
    Load(OccupancyReactions(ro, rates, m, layout).value[i].outputs, Content(ro.carrier))
  }

  /** In the code as written, closed states 0 and 1 have the same parts,
      every binding step destroys one carrier, every unbinding step creates
      one, and so do isomerisation and release from closed states n >= 1. */
  lemma AsWrittenCarrierImbalance(ro: Roles, rates: Rates, m: int, k: nat, n: nat)
    requires Separate(ro) && k < m - 1 && 1 <= n < m
    ensures Closed(ro, 0, AsWritten).parts == Closed(ro, 1, AsWritten).parts
    ensures CarrierIn(ro, rates, m, AsWritten, k) == CarrierOut(ro, rates, m, AsWritten, k) + 1
    ensures CarrierIn(ro, rates, m, AsWritten, m - 1 + k) + 1 == CarrierOut(ro, rates, m, AsWritten, m - 1 + k)
    ensures CarrierIn(ro, rates, m, AsWritten, 2 * m - 2 + n) + 1 == CarrierOut(ro, rates, m, AsWritten, 2 * m - 2 + n)
    ensures CarrierIn(ro, rates, m, AsWritten, 4 * m - 3 + n) + 1 == CarrierOut(ro, rates, m, AsWritten, 4 * m - 3 + n)
  {
    AsWrittenBindingImbalance(ro, rates, m, k);
    AsWrittenClosedImbalance(ro, rates, m, n);
  }

  /** As written, binding open state `k` loses a carrier and the reverse
      unbinding creates one. */
  lemma AsWrittenBindingImbalance(ro: Roles, rates: Rates, m: int, k: nat)
    requires Separate(ro) && k < m - 1
    ensures CarrierIn(ro, rates, m, AsWritten, k) == CarrierOut(ro, rates, m, AsWritten, k) + 1
    ensures CarrierIn(ro, rates, m, AsWritten, m - 1 + k) + 1 == CarrierOut(ro, rates, m, AsWritten, m - 1 + k)
  {
    BindingCarriersAt(ro, rates, m, AsWritten, k);
    UnbindingCarriersAt(ro, rates, m, AsWritten, k);
  }

  /** As written, isomerisation and release of closed state `n` create a
      carrier. */
  lemma AsWrittenClosedImbalance(ro: Roles, rates: Rates, m: int, n: nat)
    requires Separate(ro) && 1 <= n < m
    ensures CarrierIn(ro, rates, m, AsWritten, 2 * m - 2 + n) + 1 == CarrierOut(ro, rates, m, AsWritten, 2 * m - 2 + n)
    ensures CarrierIn(ro, rates, m, AsWritten, 4 * m - 3 + n) + 1 == CarrierOut(ro, rates, m, AsWritten, 4 * m - 3 + n)
  {
    IsomerisationCarriersAt(ro, rates, m, AsWritten, n);
    ClosedReleaseCarriersAt(ro, rates, m, AsWritten, n);
  }

  /** The carrier units of binding open state `n` and of the reverse
      unbinding, at their positions in the result. */
  lemma BindingCarriersAt(ro: Roles, rates: Rates, m: int, layout: Layout, n: nat)
    requires Separate(ro) && n < m - 1
    ensures CarrierIn(ro, rates, m, layout, n) == n + 2
    ensures CarrierOut(ro, rates, m, layout, n) == Carriers(n + 1, layout)
  {
    var t := Binding(ro, rates, n, layout);
    BindingAt(ro, rates, m, layout, n);
    BindingCarrierCounts(ro, rates, n, layout);
    StepCarriers(ro, rates, m, layout, n, t, n + 2, Carriers(n + 1, layout));
  }

  lemma UnbindingCarriersAt(ro: Roles, rates: Rates, m: int, layout: Layout, n: nat)
    requires Separate(ro) && n < m - 1
    ensures CarrierIn(ro, rates, m, layout, m - 1 + n) == Carriers(n + 1, layout)
    ensures CarrierOut(ro, rates, m, layout, m - 1 + n) == n + 2
  {
    var i := m - 1 + n;
    var t := Unbinding(ro, rates, n, layout);
    BindingAt(ro, rates, m, layout, n);
    BindingCarrierCounts(ro, rates, n, layout);
    StepCarriers(ro, rates, m, layout, i, t, Carriers(n + 1, layout), n + 2);
  }

  /** The carrier units of the isomerisation of closed state `n`. */
  lemma IsomerisationCarriersAt(ro: Roles, rates: Rates, m: int, layout: Layout, n: nat)
    requires Separate(ro) && 1 <= m && n < m
    ensures CarrierIn(ro, rates, m, layout, 2 * m - 2 + n) == Carriers(n, layout)
    ensures CarrierOut(ro, rates, m, layout, 2 * m - 2 + n) == n + 1
  {
    var i := 2 * m - 2 + n;
    var t := Isomerisation(ro, rates, n, layout);
    IsomerisationAt(ro, rates, m, layout, n);
    ClosedCarrierCounts(ro, rates, n, layout);
    StepCarriers(ro, rates, m, layout, i, t, Carriers(n, layout), n + 1);
  }

  /** The carrier units of the release from closed state `n`. */
  lemma ClosedReleaseCarriersAt(ro: Roles, rates: Rates, m: int, layout: Layout, n: nat)
    requires Separate(ro) && 1 <= n < m
    ensures CarrierIn(ro, rates, m, layout, 4 * m - 3 + n) == Carriers(n, layout)
    ensures CarrierOut(ro, rates, m, layout, 4 * m - 3 + n) == n + 1
  {
    var i := 4 * m - 3 + n;
    var t := ReleaseClosed(ro, rates, n, layout);
    ClosedReleaseAt(ro, rates, m, layout, n);
    ClosedCarrierCounts(ro, rates, n, layout);
    StepCarriers(ro, rates, m, layout, i, t, Carriers(n, layout), n + 1);
  }

  /** The carrier units at position `i` are those of the step's lists. */
  lemma CarrierInAt(ro: Roles, rates: Rates, m: int, layout: Layout, i: nat, t: Transition)
    requires m >= 1 && i < 5 * m - 1 && StepAt(ro, rates, m, layout, i) == t
    ensures CarrierIn(ro, rates, m, layout, i) == SumOccurrences(t.inputs, ro.carrier)
  {
    ReactionIs(ro, rates, m, layout, i, t);
    RealizeContent(t, ro.carrier);
  }

  lemma CarrierOutAt(ro: Roles, rates: Rates, m: int, layout: Layout, i: nat, t: Transition)
    requires m >= 1 && i < 5 * m - 1 && StepAt(ro, rates, m, layout, i) == t
    ensures CarrierOut(ro, rates, m, layout, i) == SumOccurrences(t.outputs, ro.carrier)
  {
    ReactionIs(ro, rates, m, layout, i, t);
    RealizeContent(t, ro.carrier);
  }

  lemma StepCarriers(ro: Roles, rates: Rates, m: int, layout: Layout, i: nat, t: Transition, a: nat, b: nat)
    requires m >= 1 && i < 5 * m - 1 && StepAt(ro, rates, m, layout, i) == t
    requires SumOccurrences(t.inputs, ro.carrier) == a && SumOccurrences(t.outputs, ro.carrier) == b
    ensures CarrierIn(ro, rates, m, layout, i) == a && CarrierOut(ro, rates, m, layout, i) == b
  {
    CarrierInAt(ro, rates, m, layout, i, t);
    CarrierOutAt(ro, rates, m, layout, i, t);
  }

  // ---------------------------------------------------------------------
  // Declared species and stoichiometry

  /** The built reaction mentions only species of the lists passed in. */
  lemma RealizeSpecies(t: Transition, s: Species)
    requires s in SpeciesList(Realize(t))
    ensures s in t.inputs || s in t.outputs
  {
    ContainsAgreesWithSpeciesList(Realize(t), s);
    FromSpeciesLists(t.inputs, t.outputs, MassAction(t.k, None));
  }

  lemma InRepeat(x: Species, n: nat, s: Species)
    requires s in Repeat(x, n)
    ensures s == x
  {
  }

  /** `update_species` declares open and closed state `n` and the three roles. */
  lemma Declared(ro: Roles, m: nat, layout: Layout, n: nat)
    requires n < m
    ensures Open(ro, n) in OccupancySpecies(ro, m, layout) && Closed(ro, n, layout) in OccupancySpecies(ro, m, layout)
    ensures ro.carrier in OccupancySpecies(ro, m, layout) && ro.template in OccupancySpecies(ro, m, layout)
    ensures ro.product in OccupancySpecies(ro, m, layout)
  {
    var xs := OccupancySpecies(ro, m, layout);
    assert xs[n] == Open(ro, n) && xs[m + n] == Closed(ro, n, layout);
    assert xs[2 * m] == ro.carrier && xs[2 * m + 1] == ro.template && xs[2 * m + 2] == ro.product;
  }

  lemma StepSpeciesDeclared(ro: Roles, rates: Rates, m: nat, layout: Layout, i: nat, s: Species)
    requires 1 <= m && i < 5 * m - 1
    requires s in StepAt(ro, rates, m, layout, i).inputs || s in StepAt(ro, rates, m, layout, i).outputs
    ensures s in OccupancySpecies(ro, m, layout)
  {
    if i < 2 * m - 2 {
      BindingStepDeclared(ro, rates, m, layout, i, s);
    } else if i < 3 * m - 2 {
      var n := i - (2 * m - 2);
      IsomerisationAt(ro, rates, m, layout, n);
      TransitionDeclared(ro, m, layout, Isomerisation(ro, rates, n, layout), s, n);
    } else if i < 5 * m - 3 {
      ReleaseStepDeclared(ro, rates, m, layout, i, s);
    } else {
      TransitionDeclared(ro, m, layout, StepAt(ro, rates, m, layout, i), s, 0);
    }
  }

  lemma BindingStepDeclared(ro: Roles, rates: Rates, m: nat, layout: Layout, i: nat, s: Species)
    requires 1 <= m && i < 2 * m - 2
    requires s in StepAt(ro, rates, m, layout, i).inputs || s in StepAt(ro, rates, m, layout, i).outputs
    ensures s in OccupancySpecies(ro, m, layout)
  {
    if i < m - 1 {
      BindingAt(ro, rates, m, layout, i);
      TransitionDeclared(ro, m, layout, Binding(ro, rates, i, layout), s, i + 1);
    } else {
      var n := i - (m - 1);
      BindingAt(ro, rates, m, layout, n);
      TransitionDeclared(ro, m, layout, Unbinding(ro, rates, n, layout), s, n + 1);
    }
  }

  lemma ReleaseStepDeclared(ro: Roles, rates: Rates, m: nat, layout: Layout, i: nat, s: Species)
    requires 1 <= m && 3 * m - 2 <= i < 5 * m - 3
    requires s in StepAt(ro, rates, m, layout, i).inputs || s in StepAt(ro, rates, m, layout, i).outputs
    ensures s in OccupancySpecies(ro, m, layout)
  {
    if i < 4 * m - 2 {
      var n := i - (3 * m - 2);
      IsomerisationAt(ro, rates, m, layout, n);
      ReleaseDeclared(ro, m, layout, Open(ro, n), n + 1, ro.template, s);
      Declared(ro, m, layout, n);
    } else {
      var n := i - (4 * m - 3);
      ClosedReleaseAt(ro, rates, m, layout, n);
      ReleaseDeclared(ro, m, layout, Closed(ro, n, layout), n, Closed(ro, 0, layout), s);
      Declared(ro, m, layout, n);
    }
  }

  /** A binding, unbinding, isomerisation, loading or unloading step
      mentions only the carrier, the template and states `n - 1` and `n`. */
  lemma TransitionDeclared(ro: Roles, m: nat, layout: Layout, t: Transition, s: Species, n: nat)
    requires n < m && (s in t.inputs || s in t.outputs)
    requires forall x :: x in t.inputs || x in t.outputs ==>
      x == ro.carrier || x == ro.template || x == Closed(ro, n, layout) || x == Open(ro, n) || (n > 0 && x == Open(ro, n - 1))
    ensures s in OccupancySpecies(ro, m, layout)
  {
    Declared(ro, m, layout, n);
    if n > 0 {
      Declared(ro, m, layout, n - 1);
    }
  }

  /** A release mentions the released complex, the carrier, the product and
      what remains. */
  lemma ReleaseDeclared(ro: Roles, m: nat, layout: Layout, x: Species, k: nat, rest: Species, s: Species)
    requires m >= 1
    requires s in [x] || s in Repeat(ro.carrier, k) + Repeat(ro.product, k) + [rest]
    ensures s == x || s == rest || s in OccupancySpecies(ro, m, layout)
  {
    Declared(ro, m, layout, 0);
    ReleaseMember(ro.carrier, k, ro.product, k, rest, s);
  }

  /** A species of a release's output list is one of the three it repeats. */
  lemma ReleaseMember(c: Species, nc: nat, p: Species, np: nat, last: Species, s: Species)
    ensures s in Repeat(c, nc) + Repeat(p, np) + [last] ==> s == c || s == p || s == last
  {
    if s in Repeat(c, nc) {
      InRepeat(c, nc, s);
    } else if s in Repeat(p, np) {
      InRepeat(p, np, s);
    }
  }

  /** Every species of every reaction of `update_reactions` is among those
      `update_species` declares. */
  lemma OccupancyCovers(ro: Roles, rates: Rates, m: int, layout: Layout)
    requires m >= 1
    ensures Covers(OccupancySpecies(ro, m, layout), OccupancyReactions(ro, rates, m, layout).value)
  {
    var rs := OccupancyReactions(ro, rates, m, layout).value;
    forall i, s | 0 <= i < |rs| && s in SpeciesList(rs[i]) ensures s in OccupancySpecies(ro, m, layout) {
      ReactionAt(ro, rates, m, layout, i);
      RealizeSpecies(StepAt(ro, rates, m, layout, i), s);
      StepSpeciesDeclared(ro, rates, m, layout, i, s);
    }
  }

  lemma {:induction false} MultisetRepeat(x: Species, n: nat, s: Species)
    ensures multiset(Repeat(x, n))[s] == if s == x then n else 0
  {
    if n > 0 {
      assert Repeat(x, n) == Repeat(x, n - 1) + [x];
      MultisetRepeat(x, n - 1, s);
    }
  }

  /** Counts in a release's output list: `nc` copies of `c`, `np` of `p`
      and one `last`, all different. */
  lemma ReleaseCounts(c: Species, nc: nat, p: Species, np: nat, last: Species)
    requires c != p && c != last && p != last
    ensures multiset(Repeat(c, nc) + Repeat(p, np) + [last])[c] == nc
    ensures multiset(Repeat(c, nc) + Repeat(p, np) + [last])[p] == np
    ensures multiset(Repeat(c, nc) + Repeat(p, np) + [last])[last] == 1
    ensures |Repeat(c, nc) + Repeat(p, np) + [last]| == nc + np + 1
  {
    assert multiset(Repeat(c, nc) + Repeat(p, np) + [last])
      == multiset(Repeat(c, nc)) + multiset(Repeat(p, np)) + multiset{last};
    MultisetRepeat(c, nc, c);
    MultisetRepeat(c, nc, p);
    MultisetRepeat(c, nc, last);
    MultisetRepeat(p, np, c);
    MultisetRepeat(p, np, p);
    MultisetRepeat(p, np, last);
  }

  /** Separate roles are three different species, and none is a complex. */
  lemma SeparateDistinct(ro: Roles, layout: Layout)
    requires Separate(ro)
    ensures ro.carrier != ro.template && ro.carrier != ro.product && ro.template != ro.product
    ensures ro.carrier != Closed(ro, 0, layout) && ro.product != Closed(ro, 0, layout)
  {
    StateContents(ro, 0, layout);
  }

  /** A release built from one complex: it alone goes in, and `nc` copies
      of `c`, `np` of `p` and one `last` come out. */
  lemma RealizedRelease(x: Species, c: Species, nc: nat, p: Species, np: nat, last: Species, k: real)
    requires c != p && c != last && p != last
    ensures var r := Realize(Transition([x], Repeat(c, nc) + Repeat(p, np) + [last], k));
      Bag(r.inputs) == multiset{x} && Amount(r.outputs, c) == nc && Amount(r.outputs, p) == np
      && Amount(r.outputs, last) == 1 && Total(r.outputs) == nc + np + 1
  {
    FromSpeciesLists([x], Repeat(c, nc) + Repeat(p, np) + [last], MassAction(k, None));
    ReleaseCounts(c, nc, p, np, last);
  }

  /** Release from open state n: the complex alone goes in; n+1 carriers,
      n+1 products and the bare template come out. */
  lemma OpenReleaseStoichiometry(ro: Roles, rates: Rates, m: int, layout: Layout, n: nat)
    requires Separate(ro) && m >= 1 && n < m
    ensures Bag(OccupancyReactions(ro, rates, m, layout).value[3 * m - 2 + n].inputs) == multiset{Open(ro, n)}
    ensures Amount(OccupancyReactions(ro, rates, m, layout).value[3 * m - 2 + n].outputs, ro.carrier) == n + 1
    ensures Amount(OccupancyReactions(ro, rates, m, layout).value[3 * m - 2 + n].outputs, ro.product) == n + 1
    ensures Amount(OccupancyReactions(ro, rates, m, layout).value[3 * m - 2 + n].outputs, ro.template) == 1
    ensures Total(OccupancyReactions(ro, rates, m, layout).value[3 * m - 2 + n].outputs) == 2 * n + 3
  {
    var i := 3 * m - 2 + n;
    IsomerisationAt(ro, rates, m, layout, n);
    ReactionIs(ro, rates, m, layout, i, ReleaseOpen(ro, rates, n));
    OpenRelease(ro, rates, n);
  }

  lemma OpenRelease(ro: Roles, rates: Rates, n: nat)
    requires Separate(ro)
    ensures var r := Realize(ReleaseOpen(ro, rates, n));
      Bag(r.inputs) == multiset{Open(ro, n)} && Amount(r.outputs, ro.carrier) == n + 1
      && Amount(r.outputs, ro.product) == n + 1 && Amount(r.outputs, ro.template) == 1
      && Total(r.outputs) == 2 * n + 3
  {
    SeparateDistinct(ro, Corrected);
    RealizedRelease(Open(ro, n), ro.carrier, n + 1, ro.product, n + 1, ro.template, rates.release);
  }

  /** Release from closed state n >= 1: n carriers and n products come out
      and closed state 0 remains. */
  lemma ClosedReleaseStoichiometry(ro: Roles, rates: Rates, m: int, layout: Layout, n: nat)
    requires Separate(ro) && 1 <= n < m
    ensures Bag(OccupancyReactions(ro, rates, m, layout).value[4 * m - 3 + n].inputs) == multiset{Closed(ro, n, layout)}
    ensures Amount(OccupancyReactions(ro, rates, m, layout).value[4 * m - 3 + n].outputs, ro.carrier) == n
    ensures Amount(OccupancyReactions(ro, rates, m, layout).value[4 * m - 3 + n].outputs, ro.product) == n
    ensures Amount(OccupancyReactions(ro, rates, m, layout).value[4 * m - 3 + n].outputs, Closed(ro, 0, layout)) == 1
    ensures Total(OccupancyReactions(ro, rates, m, layout).value[4 * m - 3 + n].outputs) == 2 * n + 1
  {
    var i := 4 * m - 3 + n;
    ClosedReleaseAt(ro, rates, m, layout, n);
    ReactionIs(ro, rates, m, layout, i, ReleaseClosed(ro, rates, n, layout));
    ClosedRelease(ro, rates, n, layout);
  }

  lemma ClosedRelease(ro: Roles, rates: Rates, n: nat, layout: Layout)
    requires Separate(ro)
    ensures var r := Realize(ReleaseClosed(ro, rates, n, layout));
      Bag(r.inputs) == multiset{Closed(ro, n, layout)} && Amount(r.outputs, ro.carrier) == n
      && Amount(r.outputs, ro.product) == n && Amount(r.outputs, Closed(ro, 0, layout)) == 1
      && Total(r.outputs) == 2 * n + 1
  {
    SeparateDistinct(ro, layout);
    RealizedRelease(Closed(ro, n, layout), ro.carrier, n, ro.product, n, Closed(ro, 0, layout), rates.release);
  }

  // ---------------------------------------------------------------------
  // multi_tx and multi_tl

  /** `int(get_parameter("max_occ", ...))`. */
  function MaxOccupancy(component: Params): (r: Result<int>)
    ensures r.Success? <==> "max_occ" in component
    ensures r.Success? ==> r.value == Truncate(component["max_occ"])
  {
    var x :- GetParameter(component, "max_occ");
    Success(Truncate(x))
  }

  datatype MultiTx = MultiTx(pol: Species)
  datatype MultiTl = MultiTl(ribosome: Species)

  /** The constructor's check that `pol` is a Species. */
  function NewMultiTx(pol: PyObj): (r: Result<MultiTx>)
    ensures r.Success? <==> pol.PySpecies?
    ensures r.Success? ==> r.value.pol == pol.species
    ensures r.Failure? ==> r.error == ValueError
  {
    if pol.PySpecies? then Success(MultiTx(pol.species)) else Failure(ValueError)
  }

  function NewMultiTl(ribosome: PyObj): (r: Result<MultiTl>)
    ensures r.Success? <==> ribosome.PySpecies?
    ensures r.Success? ==> r.value.ribosome == ribosome.species
    ensures r.Failure? ==> r.error == ValueError
  {
    if ribosome.PySpecies? then Success(MultiTl(ribosome.species)) else Failure(ValueError)
  }

  /** In transcription the DNA carries polymerases and the transcript is made. */
  function TxRoles(mech: MultiTx, dna: Species, transcript: Species): Roles {
    Roles(dna, mech.pol, transcript)
  }

  /** In translation the transcript carries ribosomes and the protein is made. */
  function TlRoles(mech: MultiTl, transcript: Species, protein: Species): Roles {
    Roles(transcript, mech.ribosome, protein)
  }

  /** `multi_tx.update_species`: no complexes, only polymerase, DNA and
      transcript, when `max_occ` truncates to zero or less. */
  function MultiTxSpecies(mech: MultiTx, dna: Species, transcript: Species, component: Params, layout: Layout)
    : (r: Result<seq<Species>>)
    ensures r.Success? <==> "max_occ" in component
    ensures r.Failure? ==> r.error == MissingParameter("max_occ")
    ensures r.Success? ==> r.value == OccupancySpecies(TxRoles(mech, dna, transcript), Truncate(component["max_occ"]), layout)
  {
    var m :- MaxOccupancy(component);
    Success(OccupancySpecies(TxRoles(mech, dna, transcript), m, layout))
  }

  /** `multi_tx.update_reactions`: `k1`, `k2`, `k_iso`, `ktx_solo` and
      `max_occ` are fetched in that order, then the network is built with
      `k1` for binding and loading, `k2` for unbinding and unloading,
      `k_iso` for isomerisation and `ktx_solo` for every release. */
  function MultiTxReactions(mech: MultiTx, dna: Species, transcript: Species, component: Params, layout: Layout)
    : (r: Result<seq<Reaction>>)
    ensures "k1" !in component ==> r == Failure(MissingParameter("k1"))
    ensures r.Success? <==> "k1" in component && "k2" in component && "k_iso" in component && "ktx_solo" in component
                            && "max_occ" in component && Truncate(component["max_occ"]) >= 1
    ensures ("k1" in component && "k2" in component && "k_iso" in component && "ktx_solo" in component
             && "max_occ" in component) ==>
      r == OccupancyReactions(TxRoles(mech, dna, transcript),
                              Rates(component["k1"], component["k2"], component["k_iso"], component["ktx_solo"]),
                              Truncate(component["max_occ"]), layout)
    ensures r.Success? ==> |r.value| == 5 * Truncate(component["max_occ"]) - 1
  {
    var k1 :- GetParameter(component, "k1");
    var k2 :- GetParameter(component, "k2");
    var kIso :- GetParameter(component, "k_iso");
    var ktxSolo :- GetParameter(component, "ktx_solo");
    var m :- MaxOccupancy(component);
    OccupancyReactions(TxRoles(mech, dna, transcript), Rates(k1, k2, kIso, ktxSolo), m, layout)
  }

  /** `multi_tl.update_species`. */
  function MultiTlSpecies(mech: MultiTl, transcript: Species, protein: Species, component: Params, layout: Layout)
    : (r: Result<seq<Species>>)
    ensures r.Success? <==> "max_occ" in component
    ensures r.Failure? ==> r.error == MissingParameter("max_occ")
    ensures r.Success? ==> r.value == OccupancySpecies(TlRoles(mech, transcript, protein), Truncate(component["max_occ"]), layout)
  {
    var m :- MaxOccupancy(component);
    Success(OccupancySpecies(TlRoles(mech, transcript, protein), m, layout))
  }

  /** `multi_tl.update_reactions`: `kbr`, `kur`, `k_iso_r`, `ktl_solo`,
      `max_occ`, in that order, in the roles of `k1`, `k2`, `k_iso`,
      `ktx_solo`. */
  function MultiTlReactions(mech: MultiTl, transcript: Species, protein: Species, component: Params, layout: Layout)
    : (r: Result<seq<Reaction>>)
    ensures "kbr" !in component ==> r == Failure(MissingParameter("kbr"))
    ensures r.Success? <==> "kbr" in component && "kur" in component && "k_iso_r" in component && "ktl_solo" in component
                            && "max_occ" in component && Truncate(component["max_occ"]) >= 1
    ensures ("kbr" in component && "kur" in component && "k_iso_r" in component && "ktl_solo" in component
             && "max_occ" in component) ==>
      r == OccupancyReactions(TlRoles(mech, transcript, protein),
                              Rates(component["kbr"], component["kur"], component["k_iso_r"], component["ktl_solo"]),
                              Truncate(component["max_occ"]), layout)
    ensures r.Success? ==> |r.value| == 5 * Truncate(component["max_occ"]) - 1
  {
    var kbr :- GetParameter(component, "kbr");
    var kur :- GetParameter(component, "kur");
    var kIsoR :- GetParameter(component, "k_iso_r");
    var ktlSolo :- GetParameter(component, "ktl_solo");
    var m :- MaxOccupancy(component);
    OccupancyReactions(TlRoles(mech, transcript, protein), Rates(kbr, kur, kIsoR, ktlSolo), m, layout)
  }

  /** The rate wiring of `multi_tx`: each reaction's propensity is mass
      action at the parameter its block is documented with. */
  lemma MultiTxRates(mech: MultiTx, dna: Species, transcript: Species, component: Params, layout: Layout, i: nat)
    requires MultiTxReactions(mech, dna, transcript, component, layout).Success?
    requires i < |MultiTxReactions(mech, dna, transcript, component, layout).value|
    ensures var m := Truncate(component["max_occ"]);
      var r := MultiTxReactions(mech, dna, transcript, component, layout).value[i];
      r.propensity == MassAction(
        if i < m - 1 || i == 5 * m - 3 then component["k1"]
        else if i < 2 * m - 2 || i == 5 * m - 2 then component["k2"]
        else if i < 3 * m - 2 then component["k_iso"]
        else component["ktx_solo"], None)
  {
    PlanStepAt(TxRoles(mech, dna, transcript),
               Rates(component["k1"], component["k2"], component["k_iso"], component["ktx_solo"]),
               Truncate(component["max_occ"]), layout, i);
  }

  /** With the documented composition, `multi_tx` conserves polymerase and
      DNA and `multi_tl` conserves ribosome and mRNA in every reaction. */
  lemma MultiConserved(tx: MultiTx, dna: Species, transcript: Species, txc: Params,
                       tl: MultiTl, mrna: Species, protein: Species, tlc: Params, i: nat)
    requires Separate(TxRoles(tx, dna, transcript)) && Separate(TlRoles(tl, mrna, protein))
    ensures MultiTxReactions(tx, dna, transcript, txc, Corrected).Success?
            && i < |MultiTxReactions(tx, dna, transcript, txc, Corrected).value| ==>
      var r := MultiTxReactions(tx, dna, transcript, txc, Corrected).value[i];
      Load(r.inputs, Content(tx.pol)) == Load(r.outputs, Content(tx.pol))
      && Load(r.inputs, Content(dna)) == Load(r.outputs, Content(dna))
    ensures MultiTlReactions(tl, mrna, protein, tlc, Corrected).Success?
            && i < |MultiTlReactions(tl, mrna, protein, tlc, Corrected).value| ==>
      var r := MultiTlReactions(tl, mrna, protein, tlc, Corrected).value[i];
      Load(r.inputs, Content(tl.ribosome)) == Load(r.outputs, Content(tl.ribosome))
      && Load(r.inputs, Content(mrna)) == Load(r.outputs, Content(mrna))
  {
    if MultiTxReactions(tx, dna, transcript, txc, Corrected).Success? {
      var rates := Rates(txc["k1"], txc["k2"], txc["k_iso"], txc["ktx_solo"]);
      CarrierConserved(TxRoles(tx, dna, transcript), rates, Truncate(txc["max_occ"]));
      TemplateConserved(TxRoles(tx, dna, transcript), rates, Truncate(txc["max_occ"]), Corrected);
    }
    if MultiTlReactions(tl, mrna, protein, tlc, Corrected).Success? {
      var rates := Rates(tlc["kbr"], tlc["kur"], tlc["k_iso_r"], tlc["ktl_solo"]);
      CarrierConserved(TlRoles(tl, mrna, protein), rates, Truncate(tlc["max_occ"]));
      TemplateConserved(TlRoles(tl, mrna, protein), rates, Truncate(tlc["max_occ"]), Corrected);
    }
  }
}
