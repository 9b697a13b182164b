/**
 * Summation over sequences, as Kotlin's `sumOf { ... }` and `sum()` compute it:
 * a left fold that starts at 0 and adds one element at a time.
 */
module Sums {

  /** Sum of `f` over `s`, accumulated from the first element to the last. */
  function SumOf<T>(s: seq<T>, f: T -> real): real
    decreases |s|
  {
    if s == [] then 0.0 else SumOf(s[..|s| - 1], f) + f(s[|s| - 1])
  }

  function Id(x: real): real { x }

  /** `xs.sum()` on a list of numbers. */
  function Sum(xs: seq<real>): real
  {
    SumOf(xs, Id)
  }

  lemma {:induction false} SumOfAppend<T>(a: seq<T>, b: seq<T>, f: T -> real)
    ensures SumOf(a + b, f) == SumOf(a, f) + SumOf(b, f)
    decreases |b|
  {
    if b == [] {
      assert a + b == a;
    } else {
      var b' := b[..|b| - 1];
      assert (a + b)[..|a + b| - 1] == a + b';
      SumOfAppend(a, b', f);
    }
  }

  /** The sum does not depend on the order of the elements. */
  lemma {:induction false} SumOfPermutation<T>(a: seq<T>, b: seq<T>, f: T -> real)
    requires multiset(a) == multiset(b)
    ensures SumOf(a, f) == SumOf(b, f)
    decreases |a|
  {
    if a == [] {
      assert |b| == |multiset(b)| == 0;
    } else {
      var x := a[|a| - 1];
      var a' := a[..|a| - 1];
      assert a == a' + [x];
      assert x in multiset(b);
      var k :| 0 <= k < |b| && b[k] == x;
      var b' := b[..k] + b[k + 1..];
      RemoveOne(a', b, k);
      SumOfPermutation(a', b', f);
      SumOfRemove(b, k, f);
    }
  }

  /** Taking one copy of `b[k]` off both sides of a multiset equality. */
  lemma RemoveOne<T>(a': seq<T>, b: seq<T>, k: int)
    requires 0 <= k < |b| && multiset(a' + [b[k]]) == multiset(b)
    ensures multiset(a') == multiset(b[..k] + b[k + 1..])
  {
    var x := b[k];
    var b' := b[..k] + b[k + 1..];
    assert b == b[..k] + [x] + b[k + 1..];
    assert multiset(b) == multiset(b[..k]) + multiset{x} + multiset(b[k + 1..]);
    assert multiset(a' + [x]) == multiset(a') + multiset{x};
    assert multiset(b') == multiset(b[..k]) + multiset(b[k + 1..]);
    forall y ensures multiset(a')[y] == multiset(b')[y] {
      assert multiset(a' + [x])[y] == multiset(a')[y] + multiset{x}[y];
      assert multiset(b)[y] == multiset(b[..k])[y] + multiset{x}[y] + multiset(b[k + 1..])[y];
    }
  }

  /** The sum is the sum without element `k`, plus that element. */
  lemma SumOfRemove<T>(b: seq<T>, k: int, f: T -> real)
    requires 0 <= k < |b|
    ensures SumOf(b, f) == SumOf(b[..k] + b[k + 1..], f) + f(b[k])
  {
    var left, x, right := b[..k], b[k], b[k + 1..];
    assert b == (left + [x]) + right;
    SumOfAppend(left + [x], right, f);
    SumOfSnoc(left, x, f);
    SumOfAppend(left, right, f);
  }

  /** Appending one element adds its term. */
  lemma SumOfSnoc<T>(a: seq<T>, x: T, f: T -> real)
    ensures SumOf(a + [x], f) == SumOf(a, f) + f(x)
  {
    assert (a + [x])[..|a|] == a;
  }

  /** Multiplying every term by `c` multiplies the sum by `c`. */
  lemma {:induction false} SumOfScaled<T>(s: seq<T>, f: T -> real, t: seq<real>, c: real)
    requires |t| == |s|
    requires forall i :: 0 <= i < |s| ==> t[i] == f(s[i]) * c
    ensures Sum(t) == SumOf(s, f) * c
    decreases |s|
  {
    if s != [] {
      var n := |s| - 1;
      SumOfScaled(s[..n], f, t[..n], c);
      assert SumOf(t, Id) == SumOf(t[..n], Id) + t[n];
    }
  }

  /** With no negative term, every term lies between 0 and the sum. */
  lemma {:induction false} TermAtMostSum<T>(s: seq<T>, f: T -> real, i: int)
    requires 0 <= i < |s|
    requires forall x :: x in s ==> f(x) >= 0.0
    ensures 0.0 <= f(s[i]) <= SumOf(s, f)
    decreases |s|
  {
    var n := |s| - 1;
    SumOfNonNegative(s[..n], f);
    if i < n {
      TermAtMostSum(s[..n], f, i);
    }
  }

  lemma {:induction false} SumOfNonNegative<T>(s: seq<T>, f: T -> real)
    requires forall x :: x in s ==> f(x) >= 0.0
    ensures SumOf(s, f) >= 0.0
    decreases |s|
  {
    if s != [] {
      SumOfNonNegative(s[..|s| - 1], f);
    }
  }
}
