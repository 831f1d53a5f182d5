/**
 * Arithmetic behind the averages the scripts report: a mean of values within
 * bounds stays within the bounds.  Sums are accumulated as repeated addition
 * so that the proofs about them stay linear.
 */
module Means {
  /** x added up n times. */
  function Times(n: nat, x: real): real
  {
    if n == 0 then 0.0 else Times(n - 1, x) + x
  }

  lemma {:induction false} TimesIsProduct(n: nat, x: real)
    ensures Times(n, x) == (n as real) * x
  {
    if n > 0 {
      TimesIsProduct(n - 1, x);
      assert (n as real) * x == ((n - 1) as real) * x + x;
    }
  }

  /** A sum of n values within the bounds, divided by n, stays within the bounds. */
  lemma DivWithin(n: real, s: real, lo: real, hi: real)
    requires n > 0.0 && n * lo <= s <= n * hi
    ensures lo <= s / n <= hi
  {
    assert (s / n) * n == s;
  }

  /** The same, for a sum accumulated one value at a time. */
  lemma AverageWithin(n: nat, s: real, lo: real, hi: real)
    requires n > 0 && Times(n, lo) <= s <= Times(n, hi)
    ensures lo <= s / (n as real) <= hi
  {
    TimesIsProduct(n, lo);
    TimesIsProduct(n, hi);
    DivWithin(n as real, s, lo, hi);
  }
}
