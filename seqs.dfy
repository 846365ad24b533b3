/** Generic facts about sequences built item by item. */
module Seqs {
  import opened Wrappers

  /** `[f(x) for x in xs]`. */
  function Map<T, U>(xs: seq<T>, f: T -> U): (ys: seq<U>)
    ensures |ys| == |xs| && forall k :: 0 <= k < |xs| ==> ys[k] == f(xs[k])
  {
    if xs == [] then [] else [f(xs[0])] + Map(xs[1..], f)
  }

  /** `f` applied to every element, or None as soon as one application fails. */
  function Traverse<T, U>(xs: seq<T>, f: T -> Option<U>): Option<seq<U>>
  {
    if xs == [] then Some([])
    else
      var head, tail := f(xs[0]), Traverse(xs[1..], f);
      if head.Some? && tail.Some? then Some([head.value] + tail.value) else None
  }

  /** Decoding the encodings of `ys` element by element gives `ys` back when each element round-trips. */
  lemma {:induction false} TraverseMap<T, U>(ys: seq<U>, encode: U -> T, decode: T -> Option<U>)
    requires forall k :: 0 <= k < |ys| ==> decode(encode(ys[k])) == Some(ys[k])
    ensures Traverse(Map(ys, encode), decode) == Some(ys)
  {
    if ys != [] {
      var xs := Map(ys, encode);
      assert xs[1..] == Map(ys[1..], encode);
      assert forall k :: 0 <= k < |ys[1..]| ==> ys[1..][k] == ys[k + 1];
      TraverseMap(ys[1..], encode, decode);
      assert [ys[0]] + ys[1..] == ys;
    }
  }
  /** The concatenation of `f(x)` over the elements `x` of `xs`, in order. */
  function FlatMap<T, U>(xs: seq<T>, f: T -> seq<U>): seq<U>
  {
    if xs == [] then [] else FlatMap(xs[..|xs| - 1], f) + f(xs[|xs| - 1])
  }

  lemma FlatMapSnoc<T, U>(xs: seq<T>, x: T, f: T -> seq<U>)
    ensures FlatMap(xs + [x], f) == FlatMap(xs, f) + f(x)
  {
    assert (xs + [x])[..|xs + [x]| - 1] == xs;
  }

  /** How `FlatMap` over a prefix grows by one element. */
  lemma FlatMapPrefix<T, U>(xs: seq<T>, j: int, f: T -> seq<U>)
    requires 0 <= j < |xs|
    ensures FlatMap(xs[..j + 1], f) == FlatMap(xs[..j], f) + f(xs[j])
  {
    assert xs[..j + 1][..j] == xs[..j];
  }

  lemma {:induction false} FlatMapConcat<T, U>(a: seq<T>, b: seq<T>, f: T -> seq<U>)
    ensures FlatMap(a + b, f) == FlatMap(a, f) + FlatMap(b, f)
    decreases |b|
  {
    if b == [] {
      assert a + b == a;
    } else {
      var b', last := b[..|b| - 1], b[|b| - 1];
      assert (a + b)[..|a + b| - 1] == a + b';
      assert (a + b)[|a + b| - 1] == last;
      FlatMapConcat(a, b', f);
    }
  }

  /** When `f` gives exactly one element for every `x`, the result is the elementwise image. */
  lemma {:induction false} FlatMapSingletons<T, U>(xs: seq<T>, f: T -> seq<U>, g: T -> U)
    requires forall k :: 0 <= k < |xs| ==> f(xs[k]) == [g(xs[k])]
    ensures |FlatMap(xs, f)| == |xs|
    ensures forall k :: 0 <= k < |xs| ==> FlatMap(xs, f)[k] == g(xs[k])
  {
    if xs != [] {
      var init := xs[..|xs| - 1];
      assert forall k :: 0 <= k < |init| ==> init[k] == xs[k];
      FlatMapSingletons(init, f, g);
    }
  }

  /** When `f` gives at most one element for every `x`, there are at most `|xs|` results. */
  lemma {:induction false} FlatMapAtMostOne<T, U>(xs: seq<T>, f: T -> seq<U>)
    requires forall k :: 0 <= k < |xs| ==> |f(xs[k])| <= 1
    ensures |FlatMap(xs, f)| <= |xs|
  {
    if xs != [] {
      var init := xs[..|xs| - 1];
      assert forall k :: 0 <= k < |init| ==> init[k] == xs[k];
      FlatMapAtMostOne(init, f);
    }
  }

  /** When `f` gives nothing for every `x`, there are no results. */
  lemma {:induction false} FlatMapNone<T, U>(xs: seq<T>, f: T -> seq<U>)
    requires forall k :: 0 <= k < |xs| ==> f(xs[k]) == []
    ensures FlatMap(xs, f) == []
  {
    if xs != [] {
      var init := xs[..|xs| - 1];
      assert forall k :: 0 <= k < |init| ==> init[k] == xs[k];
      FlatMapNone(init, f);
    }
  }

  /** `[x for x in xs if p(x)]`. */
  function Filter<T>(xs: seq<T>, p: T -> bool): seq<T>
  {
    if xs == [] then [] else Filter(xs[..|xs| - 1], p) + (if p(xs[|xs| - 1]) then [xs[|xs| - 1]] else [])
  }

  lemma {:induction false} FilterCounts<T>(xs: seq<T>, p: T -> bool)
    ensures forall x :: multiset(Filter(xs, p))[x] == if p(x) then multiset(xs)[x] else 0
  {
    if xs != [] {
      var init := xs[..|xs| - 1];
      FilterCounts(init, p);
      assert xs == init + [xs[|xs| - 1]];
    }
  }

  /** The filter keeps exactly the elements that satisfy `p`, each as often as it occurs. */
  lemma FilterMultiset<T>(xs: seq<T>, p: T -> bool)
    ensures forall x :: multiset(Filter(xs, p))[x] == if p(x) then multiset(xs)[x] else 0
    ensures forall x :: x in Filter(xs, p) <==> x in xs && p(x)
    ensures |Filter(xs, p)| <= |xs|
  {
    FilterCounts(xs, p);
    FilterLength(xs, p);
    forall x ensures x in Filter(xs, p) <==> x in xs && p(x) {
      assert x in Filter(xs, p) <==> x in multiset(Filter(xs, p));
      assert x in xs <==> x in multiset(xs);
    }
  }

  lemma {:induction false} FilterLength<T>(xs: seq<T>, p: T -> bool)
    ensures |Filter(xs, p)| <= |xs|
  {
    if xs != [] {
      FilterLength(xs[..|xs| - 1], p);
    }
  }

  /** Filtering preserves order: the filter of a concatenation is the concatenation of the filters. */
  lemma {:induction false} FilterConcat<T>(a: seq<T>, b: seq<T>, p: T -> bool)
    ensures Filter(a + b, p) == Filter(a, p) + Filter(b, p)
    decreases |b|
  {
    if b == [] {
      assert a + b == a;
    } else {
      var b' := b[..|b| - 1];
      assert (a + b)[..|a + b| - 1] == a + b';
      assert (a + b)[|a + b| - 1] == b[|b| - 1];
      FilterConcat(a, b', p);
    }
  }

  lemma FilterSnoc<T>(xs: seq<T>, x: T, p: T -> bool)
    ensures Filter(xs + [x], p) == Filter(xs, p) + (if p(x) then [x] else [])
  {
    assert (xs + [x])[..|xs|] == xs;
  }

  /** The number of elements equal to `x`. */
  function Count<T(==)>(xs: seq<T>, x: T): (n: nat)
    ensures n <= |xs|
  {
    if xs == [] then 0 else Count(xs[..|xs| - 1], x) + (if xs[|xs| - 1] == x then 1 else 0)
  }

  lemma {:induction false} CountIsMultiplicity<T>(xs: seq<T>, x: T)
    ensures Count(xs, x) == multiset(xs)[x]
  {
    if xs != [] {
      CountIsMultiplicity(xs[..|xs| - 1], x);
      assert xs == xs[..|xs| - 1] + [xs[|xs| - 1]];
    }
  }
}
