/**
 Order-preserving subsequences. The relation is defined by matching from the
 back, which is how the filters of this model build their results (appending).
 */
module Seqs {

  /** `a` can be obtained from `b` by deleting elements, keeping the order. */
  predicate IsSubsequence<T(==)>(a: seq<T>, b: seq<T>)
    decreases |b|
  {
    if a == [] then true
    else if b == [] then false
    else if a[|a| - 1] == b[|b| - 1] then IsSubsequence(a[..|a| - 1], b[..|b| - 1])
    else IsSubsequence(a, b[..|b| - 1])
  }

  lemma {:induction false} SubsequenceExtend<T>(a: seq<T>, b: seq<T>, x: T)
    requires IsSubsequence(a, b)
    ensures IsSubsequence(a, b + [x])
    decreases |b|, 1
  {
    var b2 := b + [x];
    assert b2[..|b2| - 1] == b;
    if a != [] && a[|a| - 1] == x {
      SubsequenceDropLast(a, b);
    }
  }

  lemma {:induction false} SubsequenceDropLast<T>(a: seq<T>, b: seq<T>)
    requires a != [] && IsSubsequence(a, b)
    ensures IsSubsequence(a[..|a| - 1], b)
    decreases |b|, 0
  {
    var a', b' := a[..|a| - 1], b[..|b| - 1];
    if a[|a| - 1] == b[|b| - 1] {
      SubsequenceExtend(a', b', b[|b| - 1]);
    } else {
      SubsequenceDropLast(a, b');
      SubsequenceExtend(a', b', b[|b| - 1]);
    }
    assert b' + [b[|b| - 1]] == b;
  }

  lemma {:induction false} SubsequenceAppendRight<T>(a: seq<T>, b: seq<T>, c: seq<T>)
    requires IsSubsequence(a, b)
    ensures IsSubsequence(a, b + c)
    decreases |c|
  {
    if c != [] {
      var c' := c[..|c| - 1];
      SubsequenceAppendRight(a, b, c');
      SubsequenceExtend(a, b + c', c[|c| - 1]);
      assert b + c' + [c[|c| - 1]] == b + c;
    } else {
      assert b + c == b;
    }
  }

  /** Subsequences of the two halves give a subsequence of the whole. */
  lemma {:induction false} SubsequenceConcat<T>(a1: seq<T>, b1: seq<T>, a2: seq<T>, b2: seq<T>)
    requires IsSubsequence(a1, b1) && IsSubsequence(a2, b2)
    ensures IsSubsequence(a1 + a2, b1 + b2)
    decreases |b2|
  {
    if b2 == [] {
      assert a2 == [];
      assert a1 + a2 == a1 && b1 + b2 == b1;
    } else if a2 == [] {
      SubsequenceAppendRight(a1, b1, b2);
      assert a1 + a2 == a1;
    } else {
      var a2', b2' := a2[..|a2| - 1], b2[..|b2| - 1];
      var a, b := a1 + a2, b1 + b2;
      assert a[..|a| - 1] == a1 + a2' && a[|a| - 1] == a2[|a2| - 1];
      assert b[..|b| - 1] == b1 + b2' && b[|b| - 1] == b2[|b2| - 1];
      if a2[|a2| - 1] == b2[|b2| - 1] {
        SubsequenceConcat(a1, b1, a2', b2');
      } else {
        SubsequenceConcat(a1, b1, a2, b2');
      }
    }
  }
}
