/** Facts about slicing and concatenating sequences, stated once for any element type so that
    proofs about strings can cite the one step they need. */
module Seqs {

  lemma SplitAt<T>(s: seq<T>, k: nat)
    requires k < |s|
    ensures s == s[..k] + [s[k]] + s[k + 1..]
    ensures s[k..] == [s[k]] + s[k + 1..]
  {
  }

  lemma SplitOff<T>(s: seq<T>, k: nat)
    requires k <= |s|
    ensures s == s[..k] + s[k..]
  {
  }

  lemma SliceAll<T>(s: seq<T>)
    ensures s[..|s|] == s && s[|s|..] == []
  {
  }

  lemma SliceOfSlice<T>(s: seq<T>, i: nat, n: nat)
    requires i + n <= |s|
    ensures s[i..][..n] == s[i..i + n]
  {
  }

  lemma AppendEmpty<T>(s: seq<T>)
    ensures s + [] == s && [] + s == s
  {
  }

  lemma Assoc<T>(a: seq<T>, b: seq<T>, c: seq<T>)
    ensures a + (b + c) == a + b + c
  {
  }

  lemma ConsTail<T>(x: T, rest: seq<T>)
    ensures ([x] + rest)[1..] == rest
    ensures ([x] + rest)[0] == x
  {
  }

  /** The pieces of `a + [x] + b` read back by position. */
  lemma AroundOne<T>(a: seq<T>, x: T, b: seq<T>)
    ensures var s := a + [x] + b;
      s[..|a|] == a && s[|a|] == x && s[|a| + 1..] == b
  {
  }

  /** A value absent from the first `k` positions is absent from the prefix of length `k`. */
  lemma PrefixAvoids<T>(s: seq<T>, k: nat, x: T)
    requires k <= |s|
    requires forall i :: 0 <= i < k ==> s[i] != x
    ensures x !in s[..k]
  {
  }

  /** A sequence one longer than `t` that starts with `t` is `t` plus its last element. */
  lemma Snoc<T>(s: seq<T>, t: seq<T>)
    requires |s| == |t| + 1 && s[..|t|] == t
    ensures s == t + [s[|t|]]
  {
  }

  lemma HeadTail<T>(s: seq<T>)
    requires |s| > 0
    ensures s == [s[0]] + s[1..]
  {
  }

  lemma TailOfPrefix<T>(s: seq<T>, i: nat)
    requires 0 < i <= |s|
    ensures s[..i][0] == s[0] && s[..i][1..] == s[1..][..i - 1]
  {
  }

  lemma HeadOfAppend<T>(a: seq<T>, b: seq<T>)
    requires |a| > 0
    ensures (a + b)[0] == a[0] && (a + b)[1..] == a[1..] + b
  {
  }

  /** No element occurs twice. */
  predicate Distinct<T(==)>(s: seq<T>)
  {
    forall i, j :: 0 <= i < j < |s| ==> s[i] != s[j]
  }

  lemma DistinctTail<T>(s: seq<T>)
    requires Distinct(s) && |s| > 0
    ensures Distinct(s[1..]) && s[0] !in s[1..]
  {
    assert forall j :: 0 <= j < |s| - 1 ==> s[1..][j] == s[j + 1];
  }

  lemma DistinctCons<T>(x: T, s: seq<T>)
    requires Distinct(s) && x !in s
    ensures Distinct([x] + s)
  {
    assert forall j :: 0 <= j < |s| ==> ([x] + s)[j + 1] == s[j];
  }

  /** A sequence without repeats has as many elements as its set. */
  lemma {:induction false} DistinctCard<T>(s: seq<T>)
    requires Distinct(s)
    ensures |set x | x in s| == |s|
    decreases |s|
  {
    if |s| > 0 {
      DistinctTail(s);
      DistinctCard(s[1..]);
      SetOfCons(s);
    }
  }

  lemma SetOfCons<T>(s: seq<T>)
    requires |s| > 0
    ensures (set x | x in s) == (set x | x in s[1..]) + {s[0]}
  {
    HeadTail(s);
    assert forall x :: x in s <==> x == s[0] || x in s[1..];
  }

  lemma DistinctPrefix<T>(s: seq<T>, n: nat)
    requires Distinct(s) && n <= |s|
    ensures Distinct(s[..n])
    ensures forall x :: x in s[..n] ==> x in s
  {
    assert forall i :: 0 <= i < n ==> s[..n][i] == s[i];
  }
}
