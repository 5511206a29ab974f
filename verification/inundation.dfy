/**
 * The binary inundation mask: a cell is flooded when its elevation is at or
 * below the water level.
 */
module Inundation {
  import opened Cells
  import opened Grids

  /** The default water level, in metres. */
  const DefaultWaterLevel := 2.0

  /** `(dem <= water_level).astype(uint8)` at one cell; NaN is never flooded. */
  function Flooded(v: Cell, level: real): (r: int)
    ensures r == 0 || r == 1
    ensures r == 1 <==> (v.Num? && v.x <= level)
  {
    if Le(v, level) then 1 else 0
  }

  /** The inundation mask of a whole DEM. */
  function InundationMap(dem: Grid<Cell>, level: real): (r: Grid<int>)
    requires dem.Valid()
    ensures r.Valid() && SameShape(r, dem)
    ensures forall i, j :: 0 <= i < dem.height && 0 <= j < dem.width ==>
      (r.At(i, j) == 1 <==> Le(dem.At(i, j), level)) && (r.At(i, j) == 0 <==> !Le(dem.At(i, j), level))
  {
    Map(dem, v => Flooded(v, level))
  }

  /** Raising the water level never dries a flooded cell. */
  lemma {:induction false} InundationMonotone(dem: Grid<Cell>, low: real, high: real, i: nat, j: nat)
    requires dem.Valid() && low <= high && i < dem.height && j < dem.width
    requires InundationMap(dem, low).At(i, j) == 1
    ensures InundationMap(dem, high).At(i, j) == 1
  {
  }
}
