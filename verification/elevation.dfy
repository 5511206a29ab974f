/**
 * Elevation classifiers.  Low ground floods: below the lower threshold is
 * High risk (3), the half-open middle band `[low, high)` is Moderate (2),
 * and at or above `high` is Low (1).  Unlike slope, the middle band is open
 * at the top, and the High band has a floor at zero whose strictness
 * differs between scripts.
 */
module Elevation {
  import opened Cells
  import opened Masks

  /**
   * `classify_elevation(elevation_data, low, high)` with user thresholds:
   * the High band is `0 <= v < low`, so a negative value below `low` is
   * written by nothing and stays 0.
   */
  function ClassifyFrom(v: Cell, low: real, high: real): (r: int)
    ensures v.NaN? ==> r == 4
    ensures v.Num? && v.x >= high ==> r == 1
    ensures v.Num? && low <= v.x < high ==> r == 2
    ensures v.Num? && 0.0 <= v.x < low && v.x < high ==> r == 3
    ensures v.Num? && v.x < 0.0 && v.x < low && v.x < high ==> r == 0
    ensures 0.0 <= low <= high && v.Num? ==>
      (r == 3 <==> 0.0 <= v.x < low) && (r == 2 <==> low <= v.x < high) &&
      (r == 1 <==> v.x >= high) && (r == 0 <==> v.x < 0.0)
  {
    Overwrite([
      Write(Lt(v, low) && Ge(v, 0.0), 3),
      Write(Ge(v, low) && Lt(v, high), 2),
      Write(Ge(v, high), 1),
      Write(IsNaN(v), 4)], 0)
  }

  /**
   * The fixed-threshold `classify_elevation(elevation_data)`: High needs
   * `0 < v < 570`, Moderate `[570, 700)`, Low `>= 700`, NaN is 4, and zero
   * or negative elevations stay 0.
   */
  function ClassifyPositive(v: Cell): (r: int)
    ensures v.NaN? <==> r == 4
    ensures v.Num? ==>
      (r == 3 <==> 0.0 < v.x < 570.0) && (r == 2 <==> 570.0 <= v.x < 700.0) &&
      (r == 1 <==> v.x >= 700.0) && (r == 0 <==> v.x <= 0.0)
  {
    Overwrite([
      Write(Lt(v, 570.0) && Gt(v, 0.0), 3),
      Write(Ge(v, 570.0) && Lt(v, 700.0), 2),
      Write(Ge(v, 700.0), 1),
      Write(IsNaN(v), 4)], 0)
  }

  /** Sea level itself: High risk with the user-threshold rule, 0 with the fixed one. */
  lemma {:induction false} ZeroElevationSplitsVariants()
    ensures ClassifyFrom(Num(0.0), 570.0, 700.0) == 3
    ensures ClassifyPositive(Num(0.0)) == 0
  {
  }

  /** The two named thresholds of the zone scripts. */
  const ModerateRiskThreshold := 570.0
  const LowRiskThreshold := 700.0

  /** `dem_data[dem_data < 0] = np.nan`. */
  function MaskNegative(dem: Cell): (r: Cell)
    ensures r.NaN? <==> dem.NaN? || Lt(dem, 0.0)
    ensures r.Num? ==> r == dem
  {
    if Lt(dem, 0.0) then NaN else dem
  }

  /**
   * Elevation zones of a raw DEM cell: negatives are masked to NaN, a float
   * zero fill receives 3 for `0 < v < 570`, 2 for `[570, 700)` and 1 for
   * `>= 700`, and finally every originally negative cell is set to NaN.
   * A zero or missing elevation keeps the 0 fill.
   */
  function Zone(dem: Cell): (r: Cell)
    ensures r.NaN? <==> Lt(dem, 0.0)
    ensures dem.NaN? ==> r == Code(0)
    ensures dem.Num? && dem.x == 0.0 ==> r == Code(0)
    ensures dem.Num? && 0.0 < dem.x < 570.0 ==> r == Code(3)
    ensures dem.Num? && 570.0 <= dem.x < 700.0 ==> r == Code(2)
    ensures dem.Num? && dem.x >= 700.0 ==> r == Code(1)
  {
    var m := MaskNegative(dem);
    Overwrite([
      Write(Lt(m, ModerateRiskThreshold) && Gt(m, 0.0), Code(3)),
      Write(Ge(m, ModerateRiskThreshold) && Lt(m, LowRiskThreshold), Code(2)),
      Write(Ge(m, LowRiskThreshold), Code(1)),
      Write(Lt(dem, 0.0), NaN)], Code(0))
  }

  /** Over positive elevations, higher ground never gets a higher zone code. */
  lemma {:induction false} ZoneNonIncreasing(x: real, y: real)
    requires 0.0 < x <= y
    ensures Zone(Num(y)).x <= Zone(Num(x)).x
  {
  }
}
