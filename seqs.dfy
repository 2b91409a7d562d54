/** Positions in sequences, shared by the criterion parser and the phenotype de-duplication. */
module Seqs {

  /** Position of the first occurrence of `x`. */
  function FirstIndex<T(==)>(xs: seq<T>, x: T): (i: nat)
    requires x in xs
    ensures i < |xs| && xs[i] == x && x !in xs[..i]
  {
    if xs[0] == x then 0
    else
      var i := FirstIndex(xs[1..], x);
      assert xs[..i + 1] == [xs[0]] + xs[1..][..i];
      i + 1
  }

  /** The first occurrence of `x` in a prefix is its first occurrence in the whole sequence. */
  lemma FirstIndexOfPrefix<T>(xs: seq<T>, n: nat, x: T)
    requires n <= |xs| && x in xs[..n]
    ensures FirstIndex(xs[..n], x) == FirstIndex(xs, x)
  {
    var i, k := FirstIndex(xs[..n], x), FirstIndex(xs, x);
    assert xs[..n][..i] == xs[..i];
  }

  /** An element absent from `a` is first found right after `a`. */
  lemma FirstIndexAfter<T>(a: seq<T>, b: seq<T>, x: T)
    requires x !in a
    ensures x in a + [x] + b
    ensures FirstIndex(a + [x] + b, x) == |a|
  {
    var s := a + [x] + b;
    assert s[..|a| + 1] == a + [x];
    FirstIndexOfPrefix(s, |a| + 1, x);
    assert forall k :: 0 <= k < |a| ==> s[k] == a[k];
  }
}
