/** `Math.round` of an average, on exact reals. */
module Rounding {

  /** JavaScript's `Math.round`: the nearest integer, halves rounded towards +infinity. */
  function MathRound(x: real): (r: int)
    ensures x - 0.5 < r as real <= x + 0.5
  {
    (x + 0.5).Floor
  }

  /** `Math.round(sum / n)`, which is `(2 * sum + n) / (2 * n)` in integer division. */
  function RoundedMean(sum: int, n: int): (r: int)
    requires n > 0
    ensures r == (2 * sum + n) / (2 * n)
  {
    RoundedMeanIsIntegerDivision(sum, n);
    MathRound(sum as real / n as real)
  }

  lemma RoundedMeanIsIntegerDivision(sum: int, n: int)
    requires n > 0
    ensures MathRound(sum as real / n as real) == (2 * sum + n) / (2 * n)
  {
    var m := 2 * n;
    var q := (2 * sum + n) / m;
    var rem := (2 * sum + n) % m;
    assert 2 * sum + n == q * m + rem && 0 <= rem < m;
    var x := sum as real / n as real;
    assert x * n as real == sum as real;
    var y := x + 0.5;
    assert y * m as real == (2 * sum + n) as real;
    assert (q * m) as real == q as real * m as real;
    assert q as real * m as real <= y * m as real < (q + 1) as real * m as real;
    CancelPositive(q as real, y, m as real);
    CancelPositive((q + 1) as real, y, m as real);
  }

  /** A mean of values that all lie in [lo, hi] rounds to a value in [lo, hi]. */
  lemma MeanWithin(sum: int, n: int, lo: int, hi: int)
    requires n > 0 && n * lo <= sum <= n * hi
    ensures lo <= RoundedMean(sum, n) <= hi
  {
    var x := sum as real / n as real;
    assert lo as real <= x <= hi as real;
    assert RoundedMean(sum, n) == MathRound(x);
  }

  /** Multiplying both sides by a positive factor keeps the order. */
  lemma CancelPositive(a: real, b: real, c: real)
    requires c > 0.0
    ensures a * c <= b * c <==> a <= b
    ensures a * c < b * c <==> a < b
  {
  }
}
