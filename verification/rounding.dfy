/**
 * The two numeric helpers the combination step leans on: `np.round`, which
 * rounds halves to the nearest even integer, and `np.isclose` with its
 * default tolerances.
 */
module Rounding {

  function Abs(x: real): (a: real) { if x < 0.0 then -x else x }

  /** `np.round(x)` with zero decimals: nearest integer, ties to even. */
  function RoundHalfEven(x: real): (r: int)
    ensures x - 0.5 <= r as real <= x + 0.5
    ensures (r as real - x == 0.5 || x - r as real == 0.5) ==> r % 2 == 0
  {
    var f := x.Floor;
    var d := x - f as real;
    if d < 0.5 then f
    else if d > 0.5 then f + 1
    else if f % 2 == 0 then f else f + 1
  }

  /** An integer strictly closer than one half to `x` is the rounding of `x`. */
  lemma {:induction false} RoundUnique(x: real, n: int)
    requires Abs(n as real - x) < 0.5
    ensures RoundHalfEven(x) == n
  {
    var r := RoundHalfEven(x);
    assert Abs(r as real - n as real) < 1.0;
  }

  /** A value within a quarter of the integer range `[lo, hi]` rounds into it. */
  lemma {:induction false} RoundWithin(t: real, lo: int, hi: int)
    requires lo as real - 0.25 <= t <= hi as real + 0.25
    ensures lo <= RoundHalfEven(t) <= hi
  {
  }

  /** Rounding never reverses the order of two values. */
  lemma {:induction false} RoundMonotone(x: real, y: real)
    requires x <= y
    ensures RoundHalfEven(x) <= RoundHalfEven(y)
  {
  }

  /**
   * `np.isclose(a, b)` with the default `rtol = 1e-05` and `atol = 1e-08`:
   * `|a - b| <= atol + rtol * |b|`.
   */
  predicate IsClose(a: real, b: real)
  {
    Abs(a - b) <= 0.00000001 + 0.00001 * Abs(b)
  }

  /** A weight total accepted as "close to 1" is within 1.001e-5 of 1. */
  lemma {:induction false} IsCloseToOne(s: real)
    ensures IsClose(s, 1.0) <==> 1.0 - 0.00001001 <= s <= 1.0 + 0.00001001
  {
  }
}
