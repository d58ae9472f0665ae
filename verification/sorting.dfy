/**
 * A stable sort by an integer key: the behaviour `Array.prototype.sort` has had since ES2019
 * when its comparator is `(a, b) => key(a) - key(b)`. Modelled as insertion sort; the lemmas
 * show it is sorted, a permutation, stable, and the only sequence with those three properties.
 */
module Sorting {

  predicate SortedBy<T>(xs: seq<T>, key: T -> int) {
    forall i, j :: 0 <= i < j < |xs| ==> key(xs[i]) <= key(xs[j])
  }

  /** The elements of `xs` whose key is `k`, in their original order. */
  function WithKey<T>(xs: seq<T>, key: T -> int, k: int): seq<T> {
    if |xs| == 0 then []
    else (if key(xs[0]) == k then [xs[0]] else []) + WithKey(xs[1..], key, k)
  }

  /** Places `x` before the first element whose key is not smaller, so earlier equals stay first. */
  function Insert<T>(x: T, s: seq<T>, key: T -> int): (r: seq<T>)
    requires SortedBy(s, key)
    ensures SortedBy(r, key)
    ensures |r| == |s| + 1
    ensures multiset(r) == multiset(s) + multiset{x}
    ensures r[0] == x || (|s| > 0 && r[0] == s[0])
  {
    if |s| == 0 then [x]
    else if key(x) <= key(s[0]) then [x] + s
    else
      var rest := Insert(x, s[1..], key);
      assert s == [s[0]] + s[1..];
      assert key(s[0]) <= key(rest[0]);
      [s[0]] + rest
  }

  function SortBy<T>(xs: seq<T>, key: T -> int): (r: seq<T>)
    ensures SortedBy(r, key)
    ensures |r| == |xs|
    ensures multiset(r) == multiset(xs)
  {
    if |xs| == 0 then []
    else
      assert xs == [xs[0]] + xs[1..];
      Insert(xs[0], SortBy(xs[1..], key), key)
  }

  /** `WithKey` of a non-empty sequence, one step unfolded. */
  lemma WithKeyCons<T>(x: T, xs: seq<T>, key: T -> int, k: int)
    ensures WithKey([x] + xs, key, k) == (if key(x) == k then [x] else []) + WithKey(xs, key, k)
  {
    assert ([x] + xs)[1..] == xs;
  }

  lemma {:induction false} InsertStable<T>(x: T, s: seq<T>, key: T -> int, k: int)
    requires SortedBy(s, key)
    ensures WithKey(Insert(x, s, key), key, k) == (if key(x) == k then [x] else []) + WithKey(s, key, k)
  {
    if |s| == 0 {
    } else if key(x) <= key(s[0]) {
      WithKeyCons(x, s, key, k);
    } else {
      var tail := s[1..];
      assert SortedBy(tail, key);
      var rest := Insert(x, tail, key);
      assert Insert(x, s, key) == [s[0]] + rest;
      var px: seq<T> := if key(x) == k then [x] else [];
      var p0: seq<T> := if key(s[0]) == k then [s[0]] else [];
      WithKeyCons(s[0], rest, key, k);
      assert s == [s[0]] + tail;
      WithKeyCons(s[0], tail, key, k);
      InsertStable(x, tail, key, k);
      assert p0 == [] || px == [];
      assert WithKey(Insert(x, s, key), key, k) == p0 + (px + WithKey(tail, key, k));
      assert WithKey(s, key, k) == p0 + WithKey(tail, key, k);
    }
  }

  /** Stability: for every key, the elements with that key keep their relative order. */
  lemma {:induction false} SortByStableAt<T>(xs: seq<T>, key: T -> int, k: int)
    ensures WithKey(SortBy(xs, key), key, k) == WithKey(xs, key, k)
  {
    if |xs| > 0 {
      SortByStableAt(xs[1..], key, k);
      InsertStable(xs[0], SortBy(xs[1..], key), key, k);
    }
  }

  lemma SortByStable<T>(xs: seq<T>, key: T -> int)
    ensures forall k :: WithKey(SortBy(xs, key), key, k) == WithKey(xs, key, k)
  {
    forall k ensures WithKey(SortBy(xs, key), key, k) == WithKey(xs, key, k) {
      SortByStableAt(xs, key, k);
    }
  }

  /** An element with key `k` exists when `WithKey` finds one; `i` is its position. */
  lemma {:induction false} WithKeyNonEmpty<T>(xs: seq<T>, key: T -> int, k: int) returns (i: nat)
    requires WithKey(xs, key, k) != []
    ensures i < |xs| && key(xs[i]) == k
  {
    if key(xs[0]) == k {
      i := 0;
    } else {
      var j := WithKeyNonEmpty(xs[1..], key, k);
      i := j + 1;
    }
  }

  lemma NoKeysMeansEmpty<T>(xs: seq<T>, key: T -> int)
    requires forall k :: WithKey(xs, key, k) == []
    ensures xs == []
  {
    if |xs| > 0 {
      var first := WithKey(xs, key, key(xs[0]));
      assert false;
    }
  }

  /** Two sorted sequences with the same elements per key start with the same element. */
  lemma SameHead<T>(a: seq<T>, b: seq<T>, key: T -> int)
    requires |a| > 0 && SortedBy(a, key) && SortedBy(b, key)
    requires forall k :: WithKey(a, key, k) == WithKey(b, key, k)
    ensures |b| > 0 && a[0] == b[0]
  {
    assert WithKey(a, key, key(a[0])) == WithKey(b, key, key(a[0]));
    assert |b| > 0 ==> WithKey(a, key, key(b[0])) == WithKey(b, key, key(b[0]));
    SameHeadAt(a, b, key);
  }

  /** `SameHead` with the per-key agreement needed only at the two head keys. */
  lemma SameHeadAt<T>(a: seq<T>, b: seq<T>, key: T -> int)
    requires |a| > 0 && SortedBy(a, key) && SortedBy(b, key)
    requires WithKey(a, key, key(a[0])) == WithKey(b, key, key(a[0]))
    requires |b| > 0 ==> WithKey(a, key, key(b[0])) == WithKey(b, key, key(b[0]))
    ensures |b| > 0 && a[0] == b[0]
  {
    var ka := key(a[0]);
    assert a == [a[0]] + a[1..];
    WithKeyCons(a[0], a[1..], key, ka);
    assert WithKey(b, key, ka) != [];
    var i := WithKeyNonEmpty(b, key, ka);
    var kb := key(b[0]);
    assert b == [b[0]] + b[1..];
    WithKeyCons(b[0], b[1..], key, kb);
    assert WithKey(a, key, kb) != [];
    var j := WithKeyNonEmpty(a, key, kb);
    assert kb <= key(b[i]) == ka <= key(a[j]) == kb;
    assert WithKey(a, key, ka)[0] == a[0];
    assert WithKey(b, key, kb)[0] == b[0];
  }

  /** Removing the same first element keeps the per-key agreement. */
  lemma SameTails<T>(a: seq<T>, b: seq<T>, key: T -> int)
    requires |a| > 0 && |b| > 0 && a[0] == b[0]
    requires forall k :: WithKey(a, key, k) == WithKey(b, key, k)
    ensures forall k :: WithKey(a[1..], key, k) == WithKey(b[1..], key, k)
  {
    forall k ensures WithKey(a[1..], key, k) == WithKey(b[1..], key, k) {
      var p := if key(a[0]) == k then [a[0]] else [];
      assert a == [a[0]] + a[1..];
      assert b == [b[0]] + b[1..];
      WithKeyCons(a[0], a[1..], key, k);
      WithKeyCons(b[0], b[1..], key, k);
      assert WithKey(a[1..], key, k) == WithKey(a, key, k)[|p|..];
      assert WithKey(b[1..], key, k) == WithKey(b, key, k)[|p|..];
    }
  }

  /**
   * Any sorted sequence that keeps every key's elements in the order `b` has them is `b` itself:
   * a stable sort has exactly one possible result, so `SortBy` agrees with every stable sort.
   */
  lemma {:induction false} StableSortUnique<T>(a: seq<T>, b: seq<T>, key: T -> int)
    requires SortedBy(a, key) && SortedBy(b, key)
    requires forall k :: WithKey(a, key, k) == WithKey(b, key, k)
    ensures a == b
    decreases |a|
  {
    if |a| == 0 {
      NoKeysMeansEmpty(b, key);
    } else {
      SameHead(a, b, key);
      SameTails(a, b, key);
      assert SortedBy(a[1..], key) && SortedBy(b[1..], key);
      StableSortUnique(a[1..], b[1..], key);
      assert a == [a[0]] + a[1..];
      assert b == [b[0]] + b[1..];
    }
  }

  /** The result of any stable sort (sorted, and stable for every key) equals `SortBy`. */
  lemma SortByIsTheStableSort<T>(xs: seq<T>, r: seq<T>, key: T -> int)
    requires SortedBy(r, key)
    requires forall k :: WithKey(r, key, k) == WithKey(xs, key, k)
    ensures r == SortBy(xs, key)
  {
    SortByStable(xs, key);
    StableSortUnique(r, SortBy(xs, key), key);
  }
}
