/** The arithmetic every generated field shares: a uniform draw scaled into an envelope,
    multiplied by a damping factor and floored. */
module Sampling {
  import opened Calendar

  /** One value of `Math.random()`: a real in [0, 1). The generators take their draws
      as a sequence of these instead of calling an unseeded random source. */
  type Unit = r: real | 0.0 <= r < 1.0

  /** `Math.floor((min + r * range) * factor)`, computed on exact reals. */
  function Field(min: int, range: int, factor: real, r: Unit): int
  {
    ((min as real + r * range as real) * factor).Floor
  }

  /** The factor a generator applies on day `d`: 1 on weekdays, `weekend` on Saturday and Sunday. */
  function Damping(d: Day, weekend: real): real
  {
    if IsWeekend(d) then weekend else 1.0
  }

  /** Damping by a factor in [0, 1] never raises a non-negative field: for the same draw,
      the weekend value is at most the weekday value. */
  lemma DampingNeverRaises(min: int, range: int, factor: real, r: Unit)
    requires 0 <= min && 0 <= range
    requires 0.0 <= factor <= 1.0
    ensures 0 <= Field(min, range, factor, r) <= Field(min, range, 1.0, r)
  {
    var base := min as real + r * range as real;
    ProductNonNegative(r, range as real);
    ProductNonNegative(base, factor);
    ProductNonNegative(base, 1.0 - factor);
    assert base * factor <= base * 1.0 by {
      assert base * 1.0 - base * factor == base * (1.0 - factor);
    }
  }

  lemma ProductNonNegative(a: real, b: real)
    requires 0.0 <= a && 0.0 <= b
    ensures 0.0 <= a * b
  {
  }
}
