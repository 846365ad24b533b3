/**
 * Python's `list.sort(key=k, reverse=True)`: a stable sort into descending
 * key order. Elements with equal keys keep their original relative order.
 */
module Sorting {
  import opened Seqs

  predicate SortedDesc<T>(s: seq<T>, key: T -> real)
  {
    forall i, j :: 0 <= i < j < |s| ==> key(s[i]) >= key(s[j])
  }

  /** `x` placed into descending `s` before the first element whose key is not greater. */
  function Insert<T>(x: T, s: seq<T>, key: T -> real): seq<T>
  {
    if s == [] then [x]
    else if key(s[0]) <= key(x) then [x] + s
    else [s[0]] + Insert(x, s[1..], key)
  }

  /** Insertion sort; inserting from the back keeps equal keys in input order. */
  function SortDesc<T>(s: seq<T>, key: T -> real): seq<T>
  {
    if s == [] then [] else Insert(s[0], SortDesc(s[1..], key), key)
  }

  /** An upper bound on the keys of `x` and `s` bounds the keys of the insertion. */
  lemma {:induction false} InsertBounded<T>(x: T, s: seq<T>, key: T -> real, b: real)
    requires key(x) <= b
    requires forall k :: 0 <= k < |s| ==> key(s[k]) <= b
    ensures forall k :: 0 <= k < |Insert(x, s, key)| ==> key(Insert(x, s, key)[k]) <= b
  {
    if s != [] && key(s[0]) > key(x) {
      InsertBounded(x, s[1..], key, b);
    }
  }

  lemma {:induction false} InsertSorted<T>(x: T, s: seq<T>, key: T -> real)
    requires SortedDesc(s, key)
    ensures SortedDesc(Insert(x, s, key), key)
  {
    if s != [] && key(s[0]) > key(x) {
      InsertSorted(x, s[1..], key);
      InsertBounded(x, s[1..], key, key(s[0]));
    }
  }

  lemma {:induction false} InsertMultiset<T>(x: T, s: seq<T>, key: T -> real)
    ensures multiset(Insert(x, s, key)) == multiset(s) + multiset{x}
    ensures |Insert(x, s, key)| == |s| + 1
  {
    if s != [] {
      assert s == [s[0]] + s[1..];
      if key(s[0]) > key(x) {
        InsertMultiset(x, s[1..], key);
      }
    }
  }

  /** The result is in descending key order and is a permutation of the input. */
  lemma {:induction false} SortDescCorrect<T>(s: seq<T>, key: T -> real)
    ensures SortedDesc(SortDesc(s, key), key)
    ensures multiset(SortDesc(s, key)) == multiset(s)
    ensures |SortDesc(s, key)| == |s|
  {
    if s != [] {
      SortDescCorrect(s[1..], key);
      InsertSorted(s[0], SortDesc(s[1..], key), key);
      InsertMultiset(s[0], SortDesc(s[1..], key), key);
      assert s == [s[0]] + s[1..];
    }
  }

  /** The test "has key `v`" used to state stability. */
  function KeyIs<T>(key: T -> real, v: real): T -> bool
  {
    y => key(y) == v
  }

  lemma FilterCons<T>(a: T, t: seq<T>, p: T -> bool)
    ensures Filter([a] + t, p) == (if p(a) then [a] else []) + Filter(t, p)
  {
    FilterConcat([a], t, p);
    assert [a] == [] + [a];
    FilterSnoc([], a, p);
  }

  /** Inserting `x` adds it in front of the elements that share its key, and changes nothing for other keys. */
  lemma {:induction false} InsertStable<T>(x: T, s: seq<T>, key: T -> real, v: real)
    ensures Filter(Insert(x, s, key), KeyIs(key, v))
         == (if key(x) == v then [x] else []) + Filter(s, KeyIs(key, v))
  {
    var p := KeyIs(key, v);
    if s == [] {
      FilterCons(x, [], p);
      assert [x] + [] == [x];
    } else if key(s[0]) <= key(x) {
      FilterCons(x, s, p);
    } else {
      InsertStable(x, s[1..], key, v);
      InsertPastHead(x, s, key, v);
    }
  }

  /** The step of `InsertStable` where `x` goes past the head of `s`, whose key is larger. */
  lemma InsertPastHead<T>(x: T, s: seq<T>, key: T -> real, v: real)
    requires s != [] && key(s[0]) > key(x)
    requires Filter(Insert(x, s[1..], key), KeyIs(key, v))
         == (if key(x) == v then [x] else []) + Filter(s[1..], KeyIs(key, v))
    ensures Filter(Insert(x, s, key), KeyIs(key, v))
         == (if key(x) == v then [x] else []) + Filter(s, KeyIs(key, v))
  {
    var p := KeyIs(key, v);
    var rest := Insert(x, s[1..], key);
    var head: seq<T> := if p(s[0]) then [s[0]] else [];
    var mine: seq<T> := if key(x) == v then [x] else [];
    assert Insert(x, s, key) == [s[0]] + rest;
    FilterCons(s[0], rest, p);
    assert s == [s[0]] + s[1..];
    FilterCons(s[0], s[1..], p);
    var tail := Filter(s[1..], p);
    if mine == [] {
      assert mine + tail == tail;
      assert mine + (head + tail) == head + tail;
    } else {
      assert head == [];
      assert head + (mine + tail) == mine + tail;
      assert head + tail == tail;
    }
  }

  /** Stability: for every key, the elements with that key appear in the same order as in the input. */
  lemma {:induction false} SortDescStable<T>(s: seq<T>, key: T -> real, v: real)
    ensures Filter(SortDesc(s, key), KeyIs(key, v)) == Filter(s, KeyIs(key, v))
  {
    if s != [] {
      SortDescStable(s[1..], key, v);
      InsertStable(s[0], SortDesc(s[1..], key), key, v);
      FilterCons(s[0], s[1..], KeyIs(key, v));
      assert s == [s[0]] + s[1..];
    }
  }
}
