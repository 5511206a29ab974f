/**
 * Slope classifiers.  Flat ground floods: a slope below the lower threshold
 * is High risk (3), the closed middle band `[low, high]` is Moderate (2)
 * and anything steeper is Low (1).  The variants differ in thresholds and
 * in what a NaN slope becomes.
 */
module Slope {
  import opened Cells
  import opened Masks

  /** The three band writes shared by every slope classifier. */
  function BandWrites(v: Cell, low: real, high: real): (ws: seq<Write<int>>)
  {
    [Write(Lt(v, low), 3), Write(Ge(v, low) && Le(v, high), 2), Write(Gt(v, high), 1)]
  }

  /**
   * `classify_slope(slope_data, low, high)` with user thresholds: zeros, the
   * three bands, then NaN to 4.  Stated for every pair of thresholds: a
   * value above `high` always ends as 1 because that write comes last.
   */
  function Classify(v: Cell, low: real, high: real): (r: int)
    ensures v.NaN? ==> r == 4
    ensures v.Num? && v.x > high ==> r == 1
    ensures v.Num? && low <= v.x <= high ==> r == 2
    ensures v.Num? && v.x < low && v.x <= high ==> r == 3
    ensures low <= high && v.Num? ==> (r == 3 <==> v.x < low) && (r == 2 <==> low <= v.x <= high) && (r == 1 <==> v.x > high)
  {
    Overwrite(BandWrites(v, low, high) + [Write(IsNaN(v), 4)], 0)
  }

  /** A higher slope never gets a higher risk code. */
  lemma {:induction false} ClassifyNonIncreasing(x: real, y: real, low: real, high: real)
    requires low <= high && x <= y
    ensures Classify(Num(y), low, high) <= Classify(Num(x), low, high)
  {
  }

  /** The fixed-threshold `classify_slope(slope_data)` with 20 and 40. */
  function ClassifyTwentyForty(v: Cell): (r: int)
    ensures v.NaN? ==> r == 4
    ensures v.Num? ==> (r == 3 <==> v.x < 20.0) && (r == 2 <==> 20.0 <= v.x <= 40.0) && (r == 1 <==> v.x > 40.0)
  {
    Classify(v, 20.0, 40.0)
  }

  /** The fixed-threshold `classify_slope(slope_data)` with 30 and 50. */
  function ClassifyThirtyFifty(v: Cell): (r: int)
    ensures v.NaN? ==> r == 4
    ensures v.Num? ==> (r == 3 <==> v.x < 30.0) && (r == 2 <==> 30.0 <= v.x <= 50.0) && (r == 1 <==> v.x > 50.0)
  {
    Classify(v, 30.0, 50.0)
  }

  /**
   * `classify_slope` with thresholds 5 and 15 and no NaN statement: a NaN
   * slope fails all three masks and keeps the zero fill.
   */
  function ClassifyFiveFifteen(v: Cell): (r: int)
    ensures v.NaN? ==> r == 0
    ensures v.Num? ==> (r == 3 <==> v.x < 5.0) && (r == 2 <==> 5.0 <= v.x <= 15.0) && (r == 1 <==> v.x > 15.0)
  {
    Overwrite(BandWrites(v, 5.0, 15.0), 0)
  }

  lemma {:induction false} FiveFifteenNonIncreasing(x: real, y: real)
    requires x <= y
    ensures ClassifyFiveFifteen(Num(y)) <= ClassifyFiveFifteen(Num(x))
  {
  }

  /**
   * `classify_slope` that starts from a NaN array and guards every mask
   * with `~np.isnan`: NaN slopes stay NaN, the rest get 3, 2 or 1 for the
   * thresholds 30 and 50.
   */
  function ClassifyKeepNaN(v: Cell): (r: Cell)
    ensures v.NaN? <==> r.NaN?
    ensures v.Num? ==> (r == Code(3) <==> v.x < 30.0) && (r == Code(2) <==> 30.0 <= v.x <= 50.0) && (r == Code(1) <==> v.x > 50.0)
  {
    Overwrite([
      Write(!IsNaN(v) && Lt(v, 30.0), Code(3)),
      Write(!IsNaN(v) && Ge(v, 30.0) && Le(v, 50.0), Code(2)),
      Write(!IsNaN(v) && Gt(v, 50.0), Code(1))], NaN)
  }

  lemma {:induction false} KeepNaNNonIncreasing(x: real, y: real)
    requires x <= y
    ensures ClassifyKeepNaN(Num(y)).x <= ClassifyKeepNaN(Num(x)).x
  {
  }
}
