/**
 * Type filters over the lists of resource kinds a controller owns
 * (internal/controller/util/filter.go). A list of example objects is modelled
 * by the list of their kinds.
 */
module Filter {
  import opened Objects

  datatype Filterer = Only(only: Kind) | Exclude(excluded: Kind) | Include(included: Kind)

  function Occurrences(l: seq<Kind>, k: Kind): nat
  {
    if l == [] then 0 else (if l[0] == k then 1 else 0) + Occurrences(l[1..], k)
  }

  /** `r` is `l` with some items left out and the rest in their original order. */
  predicate SubsequenceOf(r: seq<Kind>, l: seq<Kind>)
    decreases |l|
  {
    if l == [] then r == []
    else (r != [] && r[0] == l[0] && SubsequenceOf(r[1..], l[1..])) || SubsequenceOf(r, l[1..])
  }

  /** `Only[T].Filter`: a fresh list of the items of kind `k`. */
  function OnlyFilter(k: Kind, l: seq<Kind>): (r: seq<Kind>)
    ensures forall i | 0 <= i < |r| :: r[i] == k
    ensures |r| == Occurrences(l, k)
  {
    if l == [] then []
    else if l[0] == k then [l[0]] + OnlyFilter(k, l[1..])
    else OnlyFilter(k, l[1..])
  }

  /** `Exclude[T].Filter`: a fresh list of the items not of kind `k`. */
  function ExcludeFilter(k: Kind, l: seq<Kind>): (r: seq<Kind>)
    ensures forall i | 0 <= i < |r| :: r[i] != k
    ensures forall x | x in l && x != k :: x in r
    ensures forall x | x in r :: x in l
  {
    if l == [] then []
    else if l[0] == k then ExcludeFilter(k, l[1..])
    else [l[0]] + ExcludeFilter(k, l[1..])
  }

  /** `Include[T].Filter`: the list itself when it holds a `k`, otherwise the list plus a zero `k`. */
  function IncludeFilter(k: Kind, l: seq<Kind>): (r: seq<Kind>)
    ensures k in l ==> r == l
    ensures k !in l ==> r == l + [k]
  {
    if k in l then l else l + [k]
  }

  function Apply(f: Filterer, l: seq<Kind>): seq<Kind>
  {
    match f
    case Only(k) => OnlyFilter(k, l)
    case Exclude(k) => ExcludeFilter(k, l)
    case Include(k) => IncludeFilter(k, l)
  }

  /** The loop of every `GetOwnedResourceTypes`: the filters applied left to right. */
  function ApplyAll(filters: seq<Filterer>, l: seq<Kind>): (r: seq<Kind>)
    ensures filters == [] ==> r == l
    decreases |filters|
  {
    if filters == [] then l else ApplyAll(filters[1..], Apply(filters[0], l))
  }

  /** Exclude keeps the surviving items in their original order. */
  lemma {:induction false} ExcludeKeepsOrder(k: Kind, l: seq<Kind>)
    ensures SubsequenceOf(ExcludeFilter(k, l), l)
  {
    if l != [] {
      ExcludeKeepsOrder(k, l[1..]);
      if l[0] != k {
        assert ([l[0]] + ExcludeFilter(k, l[1..]))[1..] == ExcludeFilter(k, l[1..]);
      }
    }
  }

  /** Every item goes to exactly one of Only and Exclude. */
  lemma {:induction false} OnlyExcludePartition(k: Kind, l: seq<Kind>)
    ensures |OnlyFilter(k, l)| + |ExcludeFilter(k, l)| == |l|
  {
    if l != [] { OnlyExcludePartition(k, l[1..]); }
  }

  lemma {:induction false} OnlyIdempotent(k: Kind, l: seq<Kind>)
    ensures OnlyFilter(k, OnlyFilter(k, l)) == OnlyFilter(k, l)
  {
    if l != [] {
      OnlyIdempotent(k, l[1..]);
      if l[0] == k {
        assert ([l[0]] + OnlyFilter(k, l[1..]))[1..] == OnlyFilter(k, l[1..]);
      }
    }
  }

  lemma {:induction false} ExcludeIdempotent(k: Kind, l: seq<Kind>)
    ensures ExcludeFilter(k, ExcludeFilter(k, l)) == ExcludeFilter(k, l)
  {
    if l != [] {
      ExcludeIdempotent(k, l[1..]);
      if l[0] != k {
        assert ([l[0]] + ExcludeFilter(k, l[1..]))[1..] == ExcludeFilter(k, l[1..]);
      }
    }
  }

  /** Applying any filter twice is the same as applying it once. */
  lemma FilterIdempotent(f: Filterer, l: seq<Kind>)
    ensures Apply(f, Apply(f, l)) == Apply(f, l)
  {
    match f
    case Only(k) => OnlyIdempotent(k, l);
    case Exclude(k) => ExcludeIdempotent(k, l);
    case Include(k) =>
  }

  /** `Only` finds nothing in a list without its kind. */
  lemma {:induction false} OnlyAbsent(k: Kind, l: seq<Kind>)
    requires k !in l
    ensures OnlyFilter(k, l) == []
  {
    if l != [] {
      OnlyAbsent(k, l[1..]);
    }
  }

  /** `Only` distributes over concatenation. */
  lemma {:induction false} OnlyAppend(k: Kind, a: seq<Kind>, b: seq<Kind>)
    ensures OnlyFilter(k, a + b) == OnlyFilter(k, a) + OnlyFilter(k, b)
  {
    if a == [] {
      assert a + b == b;
    } else {
      assert (a + b)[0] == a[0] && (a + b)[1..] == a[1..] + b;
      OnlyAppend(k, a[1..], b);
    }
  }

  /** `Only` on a list holding its kind exactly once yields that one item. */
  lemma OnlySingle(k: Kind, a: seq<Kind>, b: seq<Kind>)
    requires k !in a && k !in b
    ensures OnlyFilter(k, a + [k] + b) == [k]
  {
    OnlyAbsent(k, a);
    OnlyAbsent(k, b);
    OnlyAppend(k, a + [k], b);
    OnlyAppend(k, a, [k]);
    assert [k][1..] == [];
  }

  /** A single filter applies as itself. */
  lemma ApplyOne(f: Filterer, l: seq<Kind>)
    ensures ApplyAll([f], l) == Apply(f, l)
  {
    assert [f][1..] == [];
  }
}
