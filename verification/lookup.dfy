/**
 * Table-driven risk maps.  The joint elevation/rainfall map crosses three
 * elevation bands with four rainfall bands; the land-use map looks a
 * category code up in a fixed dictionary.
 */
module Lookup {
  import opened Cells
  import opened Masks
  import Elevation
  import opened Rainfall

  /** Elevation band: 0 below 570, 1 in `[570, 700)`, 2 from 700 on. */
  function ElevationBand(e: real): (b: nat)
    ensures b < 3
  {
    if e < 570.0 then 0 else if e < 700.0 then 1 else 2
  }

  /** Rainfall band: 0 below 10, 1 in `[10, 20)`, 2 in `[20, 24)`, 3 from 24 on. */
  function RainfallBand(r: real): (b: nat)
    ensures b < 4
  {
    if r < 10.0 then 0 else if r < 20.0 then 1 else if r < 24.0 then 2 else 3
  }

  /** The risk matrix, rows by elevation band, columns by rainfall band. */
  const RiskTable: seq<seq<int>> := [[0, 1, 2, 3], [0, 1, 2, 3], [0, 1, 1, 2]]

  /** Every entry of the table is a risk level 0 to 3. */
  lemma {:induction false} RiskTableInRange(b: nat, c: nat)
    requires b < 3 && c < 4
    ensures 0 <= RiskTable[b][c] <= 3
  {
  }

  /** The four writes of one elevation row, guarded by the row's band mask `m`. */
  function RowWrites(m: bool, p: Cell, codes: seq<int>): (ws: seq<Write<Cell>>)
    requires |codes| == 4
  {
    [Write(m && Lt(p, 10.0), Code(codes[0])),
     Write(m && Ge(p, 10.0) && Lt(p, 20.0), Code(codes[1])),
     Write(m && Ge(p, 20.0) && Lt(p, 24.0), Code(codes[2])),
     Write(m && Ge(p, 24.0), Code(codes[3]))]
  }

  /**
   * The cell after one row's writes: inside the row's band a rainfall
   * number picks its column, elsewhere the cell keeps `prev`.
   */
  function Row(prev: Cell, m: bool, p: Cell, codes: seq<int>): (r: Cell)
    requires |codes| == 4
    ensures m && p.Num? && p.x >= 0.0 ==> r == Code(codes[RainfallBand(p.x)])
    ensures !m || p.NaN? ==> r == prev
  {
    Overwrite(RowWrites(m, p, codes), prev)
  }

  /**
   * `classify_flood_risk`: negative rainfall is set to 0, a NaN float32
   * fill receives the twelve writes of the matrix in row order, and the
   * last write sets NaN where the elevation is NaN or the rainfall is
   * negative.  `elev` is the smoothed elevation cell.
   */
  function JointRisk(elev: Cell, rain: Cell): (r: Cell)
    ensures r.NaN? <==> elev.NaN? || rain.NaN?
    ensures r.Num? ==> r == Code(RiskTable[ElevationBand(elev.x)][RainfallBand(Clamped(rain.x))])
  {
    var p := ClampNegative(rain);
    var afterRows :=
      Row(Row(Row(NaN, Lt(elev, 570.0), p, RiskTable[0]),
              Ge(elev, 570.0) && Lt(elev, 700.0), p, RiskTable[1]),
          Ge(elev, 700.0), p, RiskTable[2]);
    Overwrite([Write(IsNaN(elev) || Lt(p, 0.0), NaN)], afterRows)
  }

  /** The same cell as the source's flat list of thirteen masked writes on a NaN fill. */
  lemma {:induction false} JointRiskIsSourceOrder(elev: Cell, rain: Cell)
    ensures var p := ClampNegative(rain);
      JointRisk(elev, rain) == Overwrite(
        RowWrites(Lt(elev, 570.0), p, RiskTable[0]) +
        RowWrites(Ge(elev, 570.0) && Lt(elev, 700.0), p, RiskTable[1]) +
        RowWrites(Ge(elev, 700.0), p, RiskTable[2]) +
        [Write(IsNaN(elev) || Lt(p, 0.0), NaN)], NaN)
  {
    var p := ClampNegative(rain);
    var low := RowWrites(Lt(elev, 570.0), p, RiskTable[0]);
    var medium := RowWrites(Ge(elev, 570.0) && Lt(elev, 700.0), p, RiskTable[1]);
    var high := RowWrites(Ge(elev, 700.0), p, RiskTable[2]);
    var invalid := [Write(IsNaN(elev) || Lt(p, 0.0), NaN)];
    OverwriteAppend(low, medium, NaN);
    OverwriteAppend(low + medium, high, NaN);
    OverwriteAppend(low + medium + high, invalid, NaN);
  }

  /** More rainfall never lowers the joint risk. */
  lemma {:induction false} JointRiskMonotoneInRain(e: real, x: real, y: real)
    requires x <= y
    ensures JointRisk(Num(e), Num(x)).x <= JointRisk(Num(e), Num(y)).x
  {
  }

  /** Higher ground never raises the joint risk. */
  lemma {:induction false} JointRiskAntitoneInElevation(d: real, e: real, x: real)
    requires d <= e
    ensures JointRisk(Num(e), Num(x)).x <= JointRisk(Num(d), Num(x)).x
  {
  }

  /** Every defined joint risk is a level 0 to 3. */
  lemma {:induction false} JointRiskInRange(elev: Cell, rain: Cell)
    requires elev.Num? && rain.Num?
    ensures JointRisk(elev, rain).Num? && 0.0 <= JointRisk(elev, rain).x <= 3.0
  {
    RiskTableInRange(ElevationBand(elev.x), RainfallBand(Clamped(rain.x)));
  }

  /**
   * Negative rainfall is clamped before the last write, so its negative
   * disjunct never fires: negative rain is rated as no rain at all.
   */
  lemma {:induction false} NegativeRainIsDry(elev: Cell, x: real)
    requires x < 0.0
    ensures JointRisk(elev, Num(x)) == JointRisk(elev, Num(0.0))
  {
  }

  /** A negative DEM cell, masked to NaN before smoothing, rates as no data. */
  lemma {:induction false} NegativeDemIsNoData(dem: Cell, rain: Cell)
    requires Lt(dem, 0.0)
    ensures JointRisk(Elevation.MaskNegative(dem), rain).NaN?
  {
  }

  /** `lulc_risk_mapping`: land-use category to flood risk level. */
  const LulcRiskMapping: map<int, int> := map[1 := 1, 2 := 3, 3 := 2, 4 := 1, 5 := 2]

  /** The nodata category of the land-use raster. */
  const LulcNoData := -1

  /**
   * The land-use risk map: a zero fill, one write per dictionary entry in
   * insertion order, then the nodata category to 4.
   */
  function LulcRisk(c: int): (r: int)
    ensures c in LulcRiskMapping ==> r == LulcRiskMapping[c]
    ensures c == LulcNoData ==> r == 4
    ensures c !in LulcRiskMapping && c != LulcNoData ==> r == 0
  {
    var entries := [Write(c == 1, 1), Write(c == 2, 3), Write(c == 3, 2), Write(c == 4, 1), Write(c == 5, 2)];
    var nodata := [Write(c == LulcNoData, 4)];
    OverwriteAppend(entries[..3], entries[3..], 0);
    assert entries[..3] + entries[3..] == entries;
    OverwriteAppend(entries, nodata, 0);
    Overwrite(entries + nodata, 0)
  }

  /** The land-use risk is a level 0 to 4, and 0 exactly for unknown categories. */
  lemma {:induction false} LulcRiskRange(c: int)
    ensures 0 <= LulcRisk(c) <= 4
    ensures LulcRisk(c) == 0 <==> c !in LulcRiskMapping && c != LulcNoData
  {
  }

  /** Urban land (2) is the only High-risk (3) category. */
  lemma {:induction false} LulcHighRiskIsUrban(c: int)
    ensures LulcRisk(c) == 3 <==> c == 2
  {
  }
}
