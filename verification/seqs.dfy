/**
 * Generic sequence helpers: the first occurrence of a value, and the distinct values of a
 * sequence in first-occurrence order.
 */
module Seqs {
  predicate NoDuplicates<T(==)>(xs: seq<T>) {
    forall i, j :: 0 <= i < j < |xs| ==> xs[i] != xs[j]
  }

  /** The distinct values of `xs`, each at its first occurrence, as a JavaScript `Set` iterates them. */
  function Dedup<T(==, !new)>(xs: seq<T>): (d: seq<T>)
    ensures NoDuplicates(d)
    ensures forall x :: x in d <==> x in xs
  {
    if |xs| == 0 then []
    else
      var init := xs[..|xs| - 1];
      var x := xs[|xs| - 1];
      assert xs == init + [x];
      var d := Dedup(init);
      if x in d then d else d + [x]
  }

  /** The position of the first occurrence of `x`. */
  function IndexOf<T(==)>(xs: seq<T>, x: T): (i: nat)
    requires x in xs
    ensures i < |xs| && xs[i] == x
    ensures forall j :: 0 <= j < i ==> xs[j] != x
  {
    if xs[0] == x then 0 else IndexOf(xs[1..], x) + 1
  }

  /** Appending never moves an element's first occurrence. */
  lemma IndexOfAppend<T>(xs: seq<T>, x: T, y: T)
    requires y in xs
    ensures IndexOf(xs + [x], y) == IndexOf(xs, y)
  {
    var a := IndexOf(xs + [x], y);
    var b := IndexOf(xs, y);
    assert (xs + [x])[b] == y;
    assert a <= b;
    assert xs[a] == (xs + [x])[a];
  }

  /** The distinct values come in the order of their first occurrence. */
  lemma {:induction false} DedupOrder<T(!new)>(xs: seq<T>)
    ensures forall i, j :: 0 <= i < j < |Dedup(xs)| ==> IndexOf(xs, Dedup(xs)[i]) < IndexOf(xs, Dedup(xs)[j])
  {
    if |xs| > 0 {
      var init := xs[..|xs| - 1];
      var x := xs[|xs| - 1];
      assert xs == init + [x];
      DedupOrder(init);
      var d0 := Dedup(init);
      var d := Dedup(xs);
      assert d == if x in d0 then d0 else d0 + [x];
      forall i, j | 0 <= i < j < |d|
        ensures IndexOf(xs, d[i]) < IndexOf(xs, d[j])
      {
        assert d[i] == d0[i] && d0[i] in init;
        IndexOfAppend(init, x, d[i]);
        if j < |d0| {
          assert d[j] == d0[j] && d0[j] in init;
          IndexOfAppend(init, x, d[j]);
        } else {
          assert d[j] == x && x !in init;
          var k := IndexOf(xs, x);
          assert xs[|init|] == x;
          assert forall m :: 0 <= m < |init| ==> xs[m] == init[m] != x;
          assert k == |init|;
        }
      }
    }
  }
}
