/**
 * Rainfall classifiers.  Rainfall risk grows with the value: at or above
 * the upper threshold is High (3).  Every script first clamps negative
 * rainfall to zero; the variants differ in thresholds and in whether light
 * rain is Low (1) or "No Risk" (0).
 */
module Rainfall {
  import opened Cells
  import opened Masks

  /** The rainfall a script classifies once negatives are clamped. */
  function Clamped(x: real): (y: real) { if x < 0.0 then 0.0 else x }

  /**
   * `classify_rainfall(rainfall_data, low, high)`: zeros, `>= high` to 3,
   * `[low, high)` to 2, `< low` to 1, NaN to 4.  The `< low` write comes
   * after the others, so for crossed thresholds it wins.
   */
  function ClassifyThreeBand(v: Cell, low: real, high: real): (r: int)
    ensures v.NaN? ==> r == 4
    ensures v.Num? && v.x < low ==> r == 1
    ensures v.Num? && low <= v.x < high ==> r == 2
    ensures v.Num? && v.x >= high && v.x >= low ==> r == 3
    ensures low <= high && v.Num? ==> (r == 3 <==> v.x >= high) && (r == 2 <==> low <= v.x < high) && (r == 1 <==> v.x < low)
  {
    Overwrite([
      Write(Ge(v, high), 3),
      Write(Ge(v, low) && Lt(v, high), 2),
      Write(Lt(v, low), 1),
      Write(IsNaN(v), 4)], 0)
  }

  /**
   * The script's rainfall step: `rainfall_data[rainfall_data < 0] = 0`, then
   * `classify_rainfall`.  A negative value is classified as zero rainfall.
   */
  function ClassifyClamped(v: Cell, low: real, high: real): (r: int)
    ensures v.NaN? ==> r == 4
    ensures low <= high && v.Num? ==>
      (r == 3 <==> Clamped(v.x) >= high) && (r == 2 <==> low <= Clamped(v.x) < high) && (r == 1 <==> Clamped(v.x) < low)
    ensures Lt(v, 0.0) ==> r == ClassifyThreeBand(Num(0.0), low, high)
  {
    ClassifyThreeBand(ClampNegative(v), low, high)
  }

  /** More rain never lowers the risk code. */
  lemma {:induction false} ClampedNonDecreasing(x: real, y: real, low: real, high: real)
    requires low <= high && x <= y
    ensures ClassifyClamped(Num(x), low, high) <= ClassifyClamped(Num(y), low, high)
  {
  }

  /** The fixed-threshold `classify_rainfall` with 20 and 40, after clamping. */
  function ClassifyTwentyForty(v: Cell): (r: int)
    ensures v.NaN? ==> r == 4
    ensures v.Num? ==> (r == 3 <==> v.x >= 40.0) && (r == 2 <==> 20.0 <= v.x < 40.0) && (r == 1 <==> v.x < 20.0)
  {
    ClassifyClamped(v, 20.0, 40.0)
  }

  /** The inline rainfall classification with 22 and 26, after clamping. */
  function ClassifyTwentyTwoTwentySix(v: Cell): (r: int)
    ensures v.NaN? ==> r == 4
    ensures v.Num? ==> (r == 3 <==> v.x >= 26.0) && (r == 2 <==> 22.0 <= v.x < 26.0) && (r == 1 <==> v.x < 22.0)
  {
    ClassifyClamped(v, 22.0, 26.0)
  }

  /**
   * Four-band rainfall risk: zeros ("No Risk"), `>= high` to 3,
   * `[medium, high)` to 2, `[low, medium)` to 1, NaN to 4.  Below `low`
   * nothing fires and the zero fill stays.
   */
  function ClassifyFourBand(v: Cell, low: real, medium: real, high: real): (r: int)
    ensures 0 <= r <= 4
    ensures v.NaN? <==> r == 4
    ensures v.Num? && low <= v.x < medium ==> r == 1
    ensures low <= medium <= high && v.Num? ==>
      (r == 3 <==> v.x >= high) && (r == 2 <==> medium <= v.x < high) &&
      (r == 1 <==> low <= v.x < medium) && (r == 0 <==> v.x < low)
  {
    Overwrite([
      Write(Ge(v, high), 3),
      Write(Ge(v, medium) && Lt(v, high), 2),
      Write(Ge(v, low) && Lt(v, medium), 1),
      Write(IsNaN(v), 4)], 0)
  }

  /**
   * `predict_flood_risk_with_nan`'s classification: clamp negatives to zero,
   * then the four bands.  With ordered thresholds the code never falls as
   * rainfall rises, and every value gets exactly one code.
   */
  function PredictWithNaN(v: Cell, low: real, medium: real, high: real): (r: int)
    ensures v.NaN? <==> r == 4
    ensures low <= medium <= high && v.Num? ==>
      (r == 3 <==> Clamped(v.x) >= high) && (r == 2 <==> medium <= Clamped(v.x) < high) &&
      (r == 1 <==> low <= Clamped(v.x) < medium) && (r == 0 <==> Clamped(v.x) < low)
  {
    ClassifyFourBand(ClampNegative(v), low, medium, high)
  }

  lemma {:induction false} PredictNonDecreasing(x: real, y: real, low: real, medium: real, high: real)
    requires low <= medium <= high && x <= y
    ensures PredictWithNaN(Num(x), low, medium, high) <= PredictWithNaN(Num(y), low, medium, high)
  {
  }

  /** The thresholds of the script's own example call. */
  const ExampleLow := 10.0
  const ExampleMedium := 20.0
  const ExampleHigh := 24.0

  /**
   * The inline four-band rainfall classification with 10, 20 and 24 (the
   * example thresholds): below 10 is "No Risk" 0, so codes range over 0..4.
   */
  function ClassifyTenTwentyFour(v: Cell): (r: int)
    ensures r in {0, 1, 2, 3, 4}
    ensures v.NaN? <==> r == 4
    ensures v.Num? ==>
      (r == 3 <==> v.x >= 24.0) && (r == 2 <==> 20.0 <= v.x < 24.0) &&
      (r == 1 <==> 10.0 <= v.x < 20.0) && (r == 0 <==> v.x < 10.0)
  {
    PredictWithNaN(v, ExampleLow, ExampleMedium, ExampleHigh)
  }
}
