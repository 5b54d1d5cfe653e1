/**
 * Decimal rounding with ROUND_HALF_UP, which rounds a tie away from zero:
 * `quantize(Decimal('1'))` for free-goods buckets and
 * `quantize(Decimal('0.01'))` for the final unit price.
 */
module Rounding {

  /** Round to the nearest integer; a tie goes away from zero. */
  function RoundHalfUp(x: real): (r: int)
    ensures x >= 0.0 ==> x - 0.5 < r as real <= x + 0.5
    ensures x < 0.0 ==> x - 0.5 <= r as real < x + 0.5
    ensures x >= 0.0 ==> r >= 0
  {
    if x >= 0.0 then (x + 0.5).Floor else -((-x + 0.5).Floor)
  }

  /** An integer multiple of one cent. */
  ghost predicate WholeCents(x: real) {
    (x * 100.0).Floor as real == x * 100.0
  }

  /** Round to two decimal places, half up. */
  function RoundCents(x: real): (r: real)
    ensures WholeCents(r)
    ensures x >= 0.0 ==> r >= 0.0 && x - 0.005 < r <= x + 0.005
  {
    var k := RoundHalfUp(x * 100.0);
    assert x >= 0.0 ==> x * 100.0 - 0.5 < k as real <= x * 100.0 + 0.5;
    assert (k as real / 100.0) * 100.0 == k as real;
    k as real / 100.0
  }

  /** On non-negative values the rounded value is the only multiple of a cent
      in the half-open window (x - 0.005, x + 0.005]. */
  lemma RoundCentsUnique(x: real, k: int)
    requires x >= 0.0
    requires x - 0.005 < k as real / 100.0 <= x + 0.005
    ensures RoundCents(x) == k as real / 100.0
  {
    var j := RoundHalfUp(x * 100.0);
    assert x * 100.0 - 0.5 < j as real <= x * 100.0 + 0.5;
    assert x * 100.0 - 0.5 < k as real <= x * 100.0 + 0.5;
    assert j == k;
  }

  /** Rounding half up is monotone. */
  lemma RoundHalfUpMonotone(x: real, y: real)
    requires x <= y
    ensures RoundHalfUp(x) <= RoundHalfUp(y)
  {
  }

  lemma RoundCentsMonotone(x: real, y: real)
    requires x <= y
    ensures RoundCents(x) <= RoundCents(y)
  {
    RoundHalfUpMonotone(x * 100.0, y * 100.0);
  }

  /** A value already in whole cents is left as it is. */
  lemma RoundCentsIdempotent(k: int)
    ensures RoundCents(k as real / 100.0) == k as real / 100.0
  {
    var x := k as real / 100.0;
    assert x * 100.0 == k as real;
    if k >= 0 {
      assert (k as real + 0.5).Floor == k;
    } else {
      assert (-k as real + 0.5).Floor == -k;
    }
  }
}
