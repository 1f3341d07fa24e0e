/** Species, complexes and weighted species as values with structural equality.
    The library's Species class is not part of this model: only what the core
    relies on is kept (a name, a material type, and for a complex its parts). */
module Chemistry {

  /** A molecular species. `Complex` is a bound state built from an ordered
      list of parts and given an explicit name, as `Complex([dna, pol], name=...)`. */
  datatype Species =
    | Basic(name: string, material: string)
    | Complex(parts: seq<Species>, name: string)

  /** A species with a stoichiometric coefficient. */
  datatype Weighted = Weighted(species: Species, stoichiometry: nat)

  /** `n` copies of `s`, as the comprehension `[s for i in range(n)]`. */
  function Repeat(s: Species, n: nat): (r: seq<Species>)
    ensures |r| == n
    ensures forall i :: 0 <= i < n ==> r[i] == s
  {
    seq(n, _ => s)
  }

  /** How many times `x` occurs in `s`: `s` itself counts once when it is `x`,
      otherwise the occurrences in the parts of a complex are added up. */
  function Occurrences(s: Species, x: Species): nat
    decreases s, 1
  {
    if s == x then 1
    else match s
      case Basic(_, _) => 0
      case Complex(parts, _) => SumOccurrences(parts, x)
  }

  function SumOccurrences(ss: seq<Species>, x: Species): nat
    decreases ss, 0
  {
    if ss == [] then 0 else Occurrences(ss[0], x) + SumOccurrences(ss[1..], x)
  }

  lemma {:induction false} SumOccurrencesAppend(a: seq<Species>, b: seq<Species>, x: Species)
    ensures SumOccurrences(a + b, x) == SumOccurrences(a, x) + SumOccurrences(b, x)
  {
    if a == [] {
      assert a + b == b;
    } else {
      assert (a + b)[1..] == a[1..] + b;
      SumOccurrencesAppend(a[1..], b, x);
    }
  }

  lemma {:induction false} SumOccurrencesRepeat(s: Species, n: nat, x: Species)
    ensures SumOccurrences(Repeat(s, n), x) == n * Occurrences(s, x)
  {
    if n > 0 {
      assert Repeat(s, n)[1..] == Repeat(s, n - 1);
      SumOccurrencesRepeat(s, n - 1, x);
    }
  }

  /** `get_species(recursive=True)` membership: `x` is `s` or is nested in it. */
  predicate Mentions(s: Species, x: Species) {
    Occurrences(s, x) > 0
  }

  /** Replaces every occurrence of `a` by `b`, inside complexes too; a complex
      keeps its name. */
  function Substitute(s: Species, a: Species, b: Species): Species
    decreases s, 1
  {
    if s == a then b
    else match s
      case Basic(_, _) => s
      case Complex(parts, name) => Complex(SubstituteAll(parts, a, b), name)
  }

  function SubstituteAll(ss: seq<Species>, a: Species, b: Species): (r: seq<Species>)
    ensures |r| == |ss|
    decreases ss, 0
  {
    if ss == [] then [] else [Substitute(ss[0], a, b)] + SubstituteAll(ss[1..], a, b)
  }

  /** After replacing a basic species `a` by a species that does not mention
      it, `a` no longer occurs anywhere in the result. (For a complex `a` this
      fails: substituting inside a complex can rebuild `a` itself.) */
  lemma {:induction false} SubstituteRemoves(s: Species, a: Species, b: Species)
    requires a.Basic? && !Mentions(b, a)
    ensures !Mentions(Substitute(s, a, b), a)
    decreases s, 1
  {
    if s != a {
      match s
      case Basic(_, _) =>
      case Complex(parts, name) =>
        SubstituteAllRemoves(parts, a, b);
    }
  }

  lemma {:induction false} SubstituteAllRemoves(ss: seq<Species>, a: Species, b: Species)
    requires a.Basic? && !Mentions(b, a)
    ensures SumOccurrences(SubstituteAll(ss, a, b), a) == 0
    decreases ss, 0
  {
    if ss != [] {
      SubstituteRemoves(ss[0], a, b);
      SubstituteAllRemoves(ss[1..], a, b);
      assert SubstituteAll(ss, a, b)[1..] == SubstituteAll(ss[1..], a, b);
    }
  }

  /** Replacing a species by itself changes nothing. */
  lemma {:induction false} SubstituteSelf(s: Species, a: Species)
    ensures Substitute(s, a, a) == s
    decreases s, 1
  {
    if s != a {
      match s
      case Basic(_, _) =>
      case Complex(parts, name) =>
        SubstituteAllSelf(parts, a);
    }
  }

  lemma {:induction false} SubstituteAllSelf(ss: seq<Species>, a: Species)
    ensures SubstituteAll(ss, a, a) == ss
    decreases ss, 0
  {
    if ss != [] {
      SubstituteSelf(ss[0], a);
      SubstituteAllSelf(ss[1..], a);
    }
  }
}
