/** Exact integer sums and extremes of a numeric projection over a series. These are the
    reference definitions the aggregators' running totals are proved against. */
module Sums {

  /** Sum of `f` over `s`. */
  function Sum<T>(s: seq<T>, f: T -> int): int
  {
    if s == [] then 0 else f(s[0]) + Sum(s[1..], f)
  }

  lemma {:induction false} SumAppend<T>(a: seq<T>, b: seq<T>, f: T -> int)
    ensures Sum(a + b, f) == Sum(a, f) + Sum(b, f)
  {
    if a == [] {
      assert a + b == b;
    } else {
      assert (a + b)[1..] == a[1..] + b;
      SumAppend(a[1..], b, f);
    }
  }

  /** Summing from the front equals summing from the back, the order `reduce` uses. */
  lemma SumLast<T>(s: seq<T>, f: T -> int)
    requires s != []
    ensures Sum(s, f) == Sum(s[..|s| - 1], f) + f(s[|s| - 1])
  {
    var n := |s| - 1;
    assert s == s[..n] + [s[n]];
    SumAppend(s[..n], [s[n]], f);
  }

  /** A sum does not depend on the order of the records summed. */
  lemma {:induction false} SumPermutation<T>(a: seq<T>, b: seq<T>, f: T -> int)
    requires multiset(a) == multiset(b)
    ensures Sum(a, f) == Sum(b, f)
    decreases |a|
  {
    if a == [] {
      assert |b| == |multiset(b)| == 0;
    } else {
      var x := a[0];
      assert x in multiset(b);
      var j :| 0 <= j < |b| && b[j] == x;
      var rest := b[..j] + b[j + 1..];
      assert b == b[..j] + [x] + b[j + 1..];
      assert a == [x] + a[1..];
      assert multiset(rest) == multiset(b) - multiset{x};
      assert multiset(a[1..]) == multiset(a) - multiset{x};
      SumPermutation(a[1..], rest, f);
      SumAppend(b[..j] + [x], b[j + 1..], f);
      SumAppend(b[..j], [x], f);
      SumAppend(b[..j], b[j + 1..], f);
    }
  }

  /** If every value lies in [lo, hi], the sum lies in [|s| * lo, |s| * hi]. */
  lemma {:induction false} SumBounds<T>(s: seq<T>, f: T -> int, lo: int, hi: int)
    requires forall i :: 0 <= i < |s| ==> lo <= f(s[i]) <= hi
    ensures |s| * lo <= Sum(s, f) <= |s| * hi
  {
    if s != [] {
      assert forall i :: 0 <= i < |s| - 1 ==> s[1..][i] == s[i + 1];
      SumBounds(s[1..], f, lo, hi);
      assert |s| * lo == (|s| - 1) * lo + lo;
      assert |s| * hi == (|s| - 1) * hi + hi;
    }
  }

  /** The smallest value of `f` over a non-empty series. */
  function MinOf<T>(s: seq<T>, f: T -> int): (m: int)
    requires s != []
    ensures forall i :: 0 <= i < |s| ==> m <= f(s[i])
    ensures exists i :: 0 <= i < |s| && f(s[i]) == m
  {
    if |s| == 1 then f(s[0])
    else
      var rest := MinOf(s[1..], f);
      assert forall i :: 1 <= i < |s| ==> s[i] == s[1..][i - 1];
      if f(s[0]) <= rest then f(s[0]) else rest
  }

  /** The largest value of `f` over a non-empty series. */
  function MaxOf<T>(s: seq<T>, f: T -> int): (m: int)
    requires s != []
    ensures forall i :: 0 <= i < |s| ==> f(s[i]) <= m
    ensures exists i :: 0 <= i < |s| && f(s[i]) == m
  {
    if |s| == 1 then f(s[0])
    else
      var rest := MaxOf(s[1..], f);
      assert forall i :: 1 <= i < |s| ==> s[i] == s[1..][i - 1];
      if f(s[0]) >= rest then f(s[0]) else rest
  }
}
