/**
 * Rounding to the cent, as the calculator does it: `Math.round(x * 100) / 100`,
 * where JavaScript's `Math.round(y)` is `floor(y + 1/2)` (halves round up).
 */
module Cents {

  /** `x` is a whole number of cents. */
  predicate IsCents(x: real) {
    (x * 100.0).Floor as real == x * 100.0
  }

  /**
   * `Math.round(x * 100) / 100`. The result is a whole number of cents lying in
   * the half-open window (x - 1/200, x + 1/200]; exactly one multiple of 1/100
   * lies there, so the window pins the result down (see `RoundCentsUnique`).
   */
  function RoundCents(x: real): (r: real)
    ensures IsCents(r)
    ensures x - 0.005 < r <= x + 0.005
  {
    var n := (x * 100.0 + 0.5).Floor;
    assert (n as real / 100.0) * 100.0 == n as real;
    n as real / 100.0
  }

  /** Any whole number of cents within the rounding window is the rounded value. */
  lemma RoundCentsUnique(x: real, y: real)
    requires IsCents(y)
    requires x - 0.005 < y <= x + 0.005
    ensures RoundCents(x) == y
  {
    var r := RoundCents(x);
    var m := (y * 100.0).Floor;
    var n := (r * 100.0).Floor;
    assert m as real == y * 100.0;
    assert n as real == r * 100.0;
    // Both m and n lie in (100x - 1/2, 100x + 1/2], an interval of width one.
    assert -1.0 < (m - n) as real < 1.0;
    assert m == n;
  }

  /** Rounding a value that is already a whole number of cents changes nothing. */
  lemma RoundCentsIdempotent(x: real)
    ensures IsCents(x) ==> RoundCents(x) == x
    ensures RoundCents(RoundCents(x)) == RoundCents(x)
  {
    if IsCents(x) {
      RoundCentsUnique(x, x);
    }
    RoundCentsUnique(RoundCents(x), RoundCents(x));
  }

  /** Rounding preserves order (not strictly): x <= y implies round(x) <= round(y). */
  lemma RoundCentsMonotone(x: real, y: real)
    requires x <= y
    ensures RoundCents(x) <= RoundCents(y)
  {
    var a := x * 100.0 + 0.5;
    var b := y * 100.0 + 0.5;
    assert a <= b;
    assert a.Floor <= b.Floor;
  }

  /** A non-negative amount rounds to a non-negative amount of cents. */
  lemma RoundCentsNonNegative(x: real)
    requires 0.0 <= x
    ensures 0.0 <= RoundCents(x)
  {
    RoundCentsMonotone(0.0, x);
    RoundCentsUnique(0.0, 0.0);
  }
}
