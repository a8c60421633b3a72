/**
 * The arithmetic the dashboard performs on non-negative scores: sums taken
 * with `reduce`, and `Math.round(sum / n)`, which for a non-negative sum and a
 * positive count rounds half up and so equals `(2 * sum + n) / (2 * n)` in
 * integer division.
 */
module Numeric {

  /** `Math.round(sum / n)` for `sum >= 0`, `n > 0`: the integer nearest to sum/n, halves rounded up. */
  function RoundDiv(sum: nat, n: nat): (r: nat)
    requires n > 0
    ensures 2 * n * r <= 2 * sum + n < 2 * n * (r + 1)
  {
    var q := (2 * sum + n) / (2 * n);
    DivBounds(2 * sum + n, 2 * n);
    q
  }

  lemma DivBounds(a: nat, d: nat)
    requires d > 0
    ensures d * (a / d) <= a < d * (a / d + 1)
  {
  }

  /** `xs.reduce((sum, x) => sum + f(x), 0)`. */
  function Sum<T>(s: seq<T>, f: T -> nat): nat {
    if s == [] then 0 else f(s[0]) + Sum(s[1..], f)
  }

  /** Smallest `f`-value of a non-empty list. */
  function MinOf<T>(s: seq<T>, f: T -> nat): (m: nat)
    requires s != []
    ensures forall x :: x in s ==> m <= f(x)
    ensures exists x :: x in s && f(x) == m
  {
    if |s| == 1 then f(s[0])
    else
      var rest := MinOf(s[1..], f);
      assert forall x :: x in s ==> x == s[0] || x in s[1..];
      if f(s[0]) <= rest then f(s[0]) else rest
  }

  /** Largest `f`-value of a non-empty list. */
  function MaxOf<T>(s: seq<T>, f: T -> nat): (m: nat)
    requires s != []
    ensures forall x :: x in s ==> f(x) <= m
    ensures exists x :: x in s && f(x) == m
  {
    if |s| == 1 then f(s[0])
    else
      var rest := MaxOf(s[1..], f);
      assert forall x :: x in s ==> x == s[0] || x in s[1..];
      if f(s[0]) >= rest then f(s[0]) else rest
  }

  /** A sum of `|s|` values, each within `[lo, hi]`, lies within `[|s| * lo, |s| * hi]`. */
  lemma {:induction false} SumBounds<T>(s: seq<T>, f: T -> nat, lo: nat, hi: nat)
    requires forall x :: x in s ==> lo <= f(x) <= hi
    ensures |s| * lo <= Sum(s, f) <= |s| * hi
  {
    if s != [] {
      SumBounds(s[1..], f, lo, hi);
      assert |s| * lo == lo + |s[1..]| * lo;
      assert |s| * hi == hi + |s[1..]| * hi;
    }
  }

  /** The rounded mean of values within `[lo, hi]` is itself within `[lo, hi]`. */
  lemma RoundDivWithin(sum: nat, n: nat, lo: nat, hi: nat)
    requires n > 0 && n * lo <= sum <= n * hi
    ensures lo <= RoundDiv(sum, n) <= hi
  {
    var r := RoundDiv(sum, n);
    assert (2 * n) * lo < (2 * n) * (r + 1);
    MulCancel(2 * n, lo, r + 1);
    assert (2 * n) * r < (2 * n) * (hi + 1);
    MulCancel(2 * n, r, hi + 1);
  }

  lemma MulCancel(k: nat, a: nat, b: nat)
    requires k > 0 && k * a < k * b
    ensures a < b
  {
  }

  /** The rounded mean of a non-empty list lies between its minimum and its maximum. */
  lemma RoundedMeanBetween<T>(s: seq<T>, f: T -> nat)
    requires s != []
    ensures MinOf(s, f) <= RoundDiv(Sum(s, f), |s|) <= MaxOf(s, f)
  {
    SumBounds(s, f, MinOf(s, f), MaxOf(s, f));
    RoundDivWithin(Sum(s, f), |s|, MinOf(s, f), MaxOf(s, f));
  }

  /** `Math.round` of the mean `f`-value of a non-empty list. */
  function RoundedMean<T>(s: seq<T>, f: T -> nat): (m: nat)
    requires s != []
    ensures MinOf(s, f) <= m <= MaxOf(s, f)
    ensures 2 * |s| * m <= 2 * Sum(s, f) + |s| < 2 * |s| * (m + 1)
  {
    RoundedMeanBetween(s, f);
    RoundDiv(Sum(s, f), |s|)
  }
}
