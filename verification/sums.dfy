/** Sums of integer-valued functions over sequences, taken from the back so that a
    left-to-right loop that adds one element per step matches the definition directly. */
module Sums {
  import opened Seqs

  function Sum<T>(s: seq<T>, f: T -> int): int
  {
    if |s| == 0 then 0 else Sum(s[..|s| - 1], f) + f(s[|s| - 1])
  }

  lemma {:induction false} SumAppend<T>(s: seq<T>, t: seq<T>, f: T -> int)
    ensures Sum(s + t, f) == Sum(s, f) + Sum(t, f)
    decreases |t|
  {
    if |t| == 0 {
      assert s + t == s;
    } else {
      assert (s + t)[..|s + t| - 1] == s + t[..|t| - 1];
      SumAppend(s, t[..|t| - 1], f);
    }
  }

  lemma SumCons<T>(x: T, s: seq<T>, f: T -> int)
    ensures Sum([x] + s, f) == f(x) + Sum(s, f)
  {
    SumAppend([x], s, f);
    assert [x][..0] == [];
  }

  /** Taking one element out of a sequence takes its summand out of the sum. */
  lemma SumRemove<T>(b: seq<T>, j: int, f: T -> int)
    requires 0 <= j < |b|
    ensures Sum(b, f) == Sum(b[..j] + b[j + 1..], f) + f(b[j])
  {
    var p, q := b[..j], b[j + 1..];
    SplitAt(b, j);
    Assoc(p, [b[j]], q);
    SumAppend(p, [b[j]] + q, f);
    SumCons(b[j], q, f);
    SumAppend(p, q, f);
  }

  lemma MultisetRemove<T>(b: seq<T>, j: int)
    requires 0 <= j < |b|
    ensures multiset(b[..j] + b[j + 1..]) == multiset(b) - multiset{b[j]}
  {
    assert b == b[..j] + [b[j]] + b[j + 1..];
    assert multiset(b) == multiset(b[..j]) + multiset{b[j]} + multiset(b[j + 1..]);
  }

  /** A sum depends only on the multiset of its elements: reordering never changes it. */
  lemma {:induction false} SumPermutation<T>(a: seq<T>, b: seq<T>, f: T -> int)
    requires multiset(a) == multiset(b)
    ensures Sum(a, f) == Sum(b, f)
    decreases |a|
  {
    if |a| == 0 {
      assert |b| == |multiset(b)| == 0;
    } else {
      var n := |a| - 1;
      var x := a[n];
      MultisetRemove(a, n);
      SliceAll(a);
      assert x in multiset(b);
      var j :| 0 <= j < |b| && b[j] == x;
      MultisetRemove(b, j);
      SumPermutation(a[..n], b[..j] + b[j + 1..], f);
      SumRemove(b, j, f);
    }
  }

  /** Pointwise equal summands give equal sums. */
  lemma {:induction false} SumCongruent<T>(s: seq<T>, f: T -> int, g: T -> int)
    requires forall i :: 0 <= i < |s| ==> f(s[i]) == g(s[i])
    ensures Sum(s, f) == Sum(s, g)
    decreases |s|
  {
    if |s| > 0 {
      SumCongruent(s[..|s| - 1], f, g);
    }
  }

  /** Summing a pointwise difference is the difference of the sums. */
  lemma {:induction false} SumDifference<T>(s: seq<T>, f: T -> int, g: T -> int, h: T -> int)
    requires forall i :: 0 <= i < |s| ==> h(s[i]) == f(s[i]) - g(s[i])
    ensures Sum(s, h) == Sum(s, f) - Sum(s, g)
    decreases |s|
  {
    if |s| > 0 {
      SumDifference(s[..|s| - 1], f, g, h);
    }
  }

  /** Summing a pointwise sum is the sum of the sums. */
  lemma {:induction false} SumAdd<T>(s: seq<T>, f: T -> int, g: T -> int, h: T -> int)
    requires forall i :: 0 <= i < |s| ==> h(s[i]) == f(s[i]) + g(s[i])
    ensures Sum(s, h) == Sum(s, f) + Sum(s, g)
    decreases |s|
  {
    if |s| > 0 {
      SumAdd(s[..|s| - 1], f, g, h);
    }
  }
}
