/**
 * Proximity-to-water classification.  The raw proximity grid is first
 * brought into `[0, 1]`: when its NaN-ignoring maximum exceeds 1 or its
 * minimum is below 0 every value is min-max rescaled, and when the grid
 * (then) has a single value it is replaced by NaN throughout.  Close to
 * water is High risk (3).
 */
module Proximity {
  import opened Wrappers
  import opened Cells
  import opened Masks
  import opened Grids

  /** `np.nanmax`: the largest non-NaN value, NaN when there is none. */
  function NanMax(s: seq<Cell>): (r: Cell)
    ensures r.NaN? <==> forall k :: 0 <= k < |s| ==> s[k].NaN?
    ensures r.Num? ==> r in s && forall k :: 0 <= k < |s| && s[k].Num? ==> s[k].x <= r.x
  {
    if |s| == 0 then NaN
    else
      var m := NanMax(s[..|s| - 1]);
      var c := s[|s| - 1];
      if c.NaN? then m else if m.NaN? || c.x > m.x then c else m
  }

  /** `np.nanmin`: the smallest non-NaN value, NaN when there is none. */
  function NanMin(s: seq<Cell>): (r: Cell)
    ensures r.NaN? <==> forall k :: 0 <= k < |s| ==> s[k].NaN?
    ensures r.Num? ==> r in s && forall k :: 0 <= k < |s| && s[k].Num? ==> r.x <= s[k].x
  {
    if |s| == 0 then NaN
    else
      var m := NanMin(s[..|s| - 1]);
      var c := s[|s| - 1];
      if c.NaN? then m else if m.NaN? || c.x < m.x then c else m
  }

  /**
   * `(v - lo) / (hi - lo)` for a cell lying between the grid's extremes
   * `lo` and `hi`: NaN stays NaN, and when `hi == lo` the cell equals `lo`
   * and the float division `0 / 0` gives NaN.
   */
  function Rescale(v: Cell, lo: real, hi: real): (r: Cell)
  {
    if v.NaN? || hi == lo then NaN else Num((v.x - lo) / (hi - lo))
  }

  /** The min-max rescaling of every cell. */
  function RescaleGrid(g: Grid<Cell>, lo: real, hi: real): (r: Grid<Cell>)
    requires g.Valid()
    ensures r.Valid() && SameShape(r, g)
    ensures forall i, j :: 0 <= i < g.height && 0 <= j < g.width ==> r.rows[i][j] == Rescale(g.rows[i][j], lo, hi)
  {
    Map(g, v => Rescale(v, lo, hi))
  }

  datatype ProximityError = EmptyReduction  // nanmax of a zero-size array raises

  /** `if np.nanmax(p) > 1 or np.nanmin(p) < 0: p = (p - nanmin) / (nanmax - nanmin)`. */
  function RescaleIfOutOfUnit(g: Grid<Cell>): (r: Grid<Cell>)
    requires g.Valid()
    ensures r.Valid() && SameShape(r, g)
  {
    var mx, mn := NanMax(Flatten(g.rows)), NanMin(Flatten(g.rows));
    if Gt(mx, 1.0) || Lt(mn, 0.0) then RescaleGrid(g, mn.x, mx.x) else g
  }

  /** `if np.nanmax(p) == np.nanmin(p): p[:] = np.nan`. */
  function BlankIfUniform(g: Grid<Cell>): (r: Grid<Cell>)
    requires g.Valid()
    ensures r.Valid() && SameShape(r, g)
  {
    if FloatEq(NanMax(Flatten(g.rows)), NanMin(Flatten(g.rows))) then Map(g, v => NaN) else g
  }

  /**
   * The proximity preparation: rescale when out of `[0, 1]`, then blank a
   * uniform grid.  The reductions raise on a zero-size array.
   */
  function Normalise(g: Grid<Cell>): (r: Result<Grid<Cell>, ProximityError>)
    requires g.Valid()
    ensures r.Failure? <==> g.height == 0 || g.width == 0
    ensures r.Success? ==> r.value.Valid() && SameShape(r.value, g)
  {
    FlattenEmpty(g);
    if |Flatten(g.rows)| == 0 then Failure(EmptyReduction)
    else Success(BlankIfUniform(RescaleIfOutOfUnit(g)))
  }

  /** Some cell lies outside `[0, 1]`: the condition that triggers rescaling. */
  ghost predicate OutOfUnit(g: Grid<Cell>)
    requires g.Valid()
  {
    exists i, j :: 0 <= i < g.height && 0 <= j < g.width && (Gt(g.rows[i][j], 1.0) || Lt(g.rows[i][j], 0.0))
  }

  /** All non-NaN cells hold one and the same value (an all-NaN grid included). */
  ghost predicate Uniform(g: Grid<Cell>)
    requires g.Valid()
  {
    forall i, j, k, l ::
      (0 <= i < g.height && 0 <= j < g.width && 0 <= k < g.height && 0 <= l < g.width &&
       g.rows[i][j].Num? && g.rows[k][l].Num?) ==> g.rows[i][j].x == g.rows[k][l].x
  }

  /** The extremes of the flattened grid bound every cell. */
  lemma {:induction false} ExtremesBoundCell(g: Grid<Cell>, i: nat, j: nat)
    requires g.Valid() && i < g.height && j < g.width && g.rows[i][j].Num?
    ensures NanMin(Flatten(g.rows)).Num? && NanMax(Flatten(g.rows)).Num?
    ensures NanMin(Flatten(g.rows)).x <= g.rows[i][j].x <= NanMax(Flatten(g.rows)).x
  {
    var s := Flatten(g.rows);
    CellInFlatten(g.rows, i, j);
    var k :| 0 <= k < |s| && s[k] == g.rows[i][j];
  }

  /** A non-NaN extreme of the flattened grid is one of its cells. */
  lemma {:induction false} ExtremeIsCell(g: Grid<Cell>, e: Cell)
    requires g.Valid() && e.Num? && (e == NanMax(Flatten(g.rows)) || e == NanMin(Flatten(g.rows)))
    ensures exists i, j :: 0 <= i < g.height && 0 <= j < g.width && g.rows[i][j] == e
  {
    FlattenHasOnlyCells(g.rows, e);
  }

  /** A cell value `x` inside `[lo, hi]` with `lo < hi` rescales into `[0, 1]`. */
  lemma {:induction false} RescaleInUnit(x: real, lo: real, hi: real)
    requires lo <= x <= hi && lo < hi
    ensures 0.0 <= (x - lo) / (hi - lo) <= 1.0
  {
    var d := hi - lo;
    var q := (x - lo) / d;
    assert q * d == x - lo;
    if q > 1.0 {
      assert q * d > 1.0 * d;
    }
  }

  /** Some cell holds a number. */
  ghost predicate HasNum(g: Grid<Cell>)
    requires g.Valid()
  {
    exists i, j :: 0 <= i < g.height && 0 <= j < g.width && g.rows[i][j].Num?
  }

  /** The rescaling test on the extremes is the same as a cell lying outside `[0, 1]`. */
  lemma {:induction false} OutOfUnitIff(g: Grid<Cell>)
    requires g.Valid()
    ensures Gt(NanMax(Flatten(g.rows)), 1.0) || Lt(NanMin(Flatten(g.rows)), 0.0) <==> OutOfUnit(g)
  {
    var mx, mn := NanMax(Flatten(g.rows)), NanMin(Flatten(g.rows));
    if Gt(mx, 1.0) {
      ExtremeIsCell(g, mx);
    } else if Lt(mn, 0.0) {
      ExtremeIsCell(g, mn);
    }
    if OutOfUnit(g) {
      var i, j :| 0 <= i < g.height && 0 <= j < g.width && (Gt(g.rows[i][j], 1.0) || Lt(g.rows[i][j], 0.0));
      ExtremesBoundCell(g, i, j);
    }
  }

  /** The extremes compare equal as floats exactly when the grid is uniform and not all NaN. */
  lemma {:induction false} UniformIff(g: Grid<Cell>)
    requires g.Valid()
    ensures FloatEq(NanMax(Flatten(g.rows)), NanMin(Flatten(g.rows))) <==> Uniform(g) && HasNum(g)
  {
    var mx, mn := NanMax(Flatten(g.rows)), NanMin(Flatten(g.rows));
    if Uniform(g) && HasNum(g) {
      var i, j :| 0 <= i < g.height && 0 <= j < g.width && g.rows[i][j].Num?;
      ExtremesBoundCell(g, i, j);
      ExtremeIsCell(g, mx);
      ExtremeIsCell(g, mn);
    }
    if FloatEq(mx, mn) {
      ExtremeIsCell(g, mx);
      forall i, j, k, l | 0 <= i < g.height && 0 <= j < g.width && 0 <= k < g.height && 0 <= l < g.width &&
        g.rows[i][j].Num? && g.rows[k][l].Num?
        ensures g.rows[i][j].x == g.rows[k][l].x
      {
        ExtremesBoundCell(g, i, j);
        ExtremesBoundCell(g, k, l);
      }
    }
  }

  /** One cell of the (possibly) rescaled grid is NaN or lies in `[0, 1]`. */
  lemma {:induction false} RescaledCellInUnit(g: Grid<Cell>, i: nat, j: nat)
    requires g.Valid() && i < g.height && j < g.width
    ensures var c := RescaleIfOutOfUnit(g).rows[i][j]; c.NaN? || 0.0 <= c.x <= 1.0
  {
    var mx, mn := NanMax(Flatten(g.rows)), NanMin(Flatten(g.rows));
    var c := g.rows[i][j];
    if c.Num? {
      ExtremesBoundCell(g, i, j);
    }
    if Gt(mx, 1.0) || Lt(mn, 0.0) {
      RescaleCellInUnit(c, mn.x, mx.x);
    }
  }

  /** Rescaling a cell that lies between the bounds gives NaN or a value in `[0, 1]`. */
  lemma {:induction false} RescaleCellInUnit(c: Cell, lo: real, hi: real)
    requires c.Num? ==> lo <= c.x <= hi
    ensures Rescale(c, lo, hi).NaN? || 0.0 <= Rescale(c, lo, hi).x <= 1.0
  {
    if c.Num? && lo != hi {
      RescaleInUnit(c.x, lo, hi);
    }
  }

  /** After normalisation every cell is NaN or lies in `[0, 1]`. */
  lemma {:induction false} NormalisedInUnitRange(g: Grid<Cell>)
    requires g.Valid() && Normalise(g).Success?
    ensures var r := Normalise(g).value;
      forall i, j :: 0 <= i < r.height && 0 <= j < r.width ==> r.rows[i][j].NaN? || 0.0 <= r.rows[i][j].x <= 1.0
  {
    var g1 := RescaleIfOutOfUnit(g);
    forall i, j | 0 <= i < g.height && 0 <= j < g.width
      ensures g1.rows[i][j].NaN? || 0.0 <= g1.rows[i][j].x <= 1.0
    {
      RescaledCellInUnit(g, i, j);
    }
    assert Normalise(g).value == BlankIfUniform(g1);
  }

  /** A uniform grid (all cells one value, or all NaN) becomes NaN throughout. */
  lemma {:induction false} UniformBecomesNaN(g: Grid<Cell>)
    requires g.Valid() && Normalise(g).Success? && Uniform(g)
    ensures var r := Normalise(g).value;
      forall i, j :: 0 <= i < r.height && 0 <= j < r.width ==> r.rows[i][j].NaN?
  {
    var mx, mn := NanMax(Flatten(g.rows)), NanMin(Flatten(g.rows));
    var g1 := RescaleIfOutOfUnit(g);
    UniformIff(g);
    if HasNum(g) {
      if Gt(mx, 1.0) || Lt(mn, 0.0) {
        assert forall i, j :: 0 <= i < g1.height && 0 <= j < g1.width ==> g1.rows[i][j].NaN?;
      }
    } else {
      assert forall i, j :: 0 <= i < g1.height && 0 <= j < g1.width ==> g1.rows[i][j].NaN?;
    }
  }

  /** The extremes of a non-uniform grid are two distinct numbers. */
  lemma {:induction false} NonUniformExtremes(g: Grid<Cell>)
    requires g.Valid() && !Uniform(g)
    ensures NanMin(Flatten(g.rows)).Num? && NanMax(Flatten(g.rows)).Num?
    ensures NanMin(Flatten(g.rows)).x < NanMax(Flatten(g.rows)).x
  {
    var i, j, k, l :| 0 <= i < g.height && 0 <= j < g.width && 0 <= k < g.height && 0 <= l < g.width &&
      g.rows[i][j].Num? && g.rows[k][l].Num? && g.rows[i][j].x != g.rows[k][l].x;
    ExtremesBoundCell(g, i, j);
    ExtremesBoundCell(g, k, l);
  }

  /** Two cells with different numbers make a grid non-uniform. */
  lemma {:induction false} NotUniformWitness(g: Grid<Cell>, i: nat, j: nat, k: nat, l: nat)
    requires g.Valid() && i < g.height && j < g.width && k < g.height && l < g.width
    requires g.rows[i][j].Num? && g.rows[k][l].Num? && g.rows[i][j].x != g.rows[k][l].x
    ensures !Uniform(g)
  {
  }

  /** Rescaling maps the two extremes to 0 and 1, so the rescaled grid is not uniform. */
  lemma {:induction false} RescaledNotUniform(g: Grid<Cell>)
    requires g.Valid() && !Uniform(g)
    ensures NanMin(Flatten(g.rows)).Num? && NanMax(Flatten(g.rows)).Num?
    ensures !Uniform(RescaleGrid(g, NanMin(Flatten(g.rows)).x, NanMax(Flatten(g.rows)).x))
  {
    var mx, mn := NanMax(Flatten(g.rows)), NanMin(Flatten(g.rows));
    NonUniformExtremes(g);
    var g1 := RescaleGrid(g, mn.x, mx.x);
    ExtremeIsCell(g, mx);
    ExtremeIsCell(g, mn);
    var a, b :| 0 <= a < g.height && 0 <= b < g.width && g.rows[a][b] == mx;
    var c, d :| 0 <= c < g.height && 0 <= d < g.width && g.rows[c][d] == mn;
    RescaleEndpoints(mn.x, mx.x);
    NotUniformWitness(g1, a, b, c, d);
  }

  /** The minimum rescales to 0 and the maximum to 1. */
  lemma {:induction false} RescaleEndpoints(lo: real, hi: real)
    requires lo < hi
    ensures Rescale(Num(lo), lo, hi) == Num(0.0) && Rescale(Num(hi), lo, hi) == Num(1.0)
  {
    var d := hi - lo;
    assert d > 0.0;
    assert (hi - lo) / d == 1.0;
  }

  /** A non-uniform grid with a cell outside `[0, 1]` normalises to its min-max rescaling. */
  lemma {:induction false} NormaliseRescales(g: Grid<Cell>)
    requires g.Valid() && Normalise(g).Success? && OutOfUnit(g) && !Uniform(g)
    ensures NanMin(Flatten(g.rows)).Num? && NanMax(Flatten(g.rows)).Num?
    ensures Normalise(g).value == RescaleGrid(g, NanMin(Flatten(g.rows)).x, NanMax(Flatten(g.rows)).x)
  {
    var mx, mn := NanMax(Flatten(g.rows)), NanMin(Flatten(g.rows));
    OutOfUnitIff(g);
    NonUniformExtremes(g);
    var g1 := RescaleIfOutOfUnit(g);
    assert g1 == RescaleGrid(g, mn.x, mx.x);
    RescaledNotUniform(g);
    UniformIff(g1);
  }

  /**
   * A grid with a cell outside `[0, 1]` and at least two distinct values is
   * min-max rescaled cell by cell: its minimum maps to 0 and its maximum to 1.
   */
  lemma {:induction false} OutOfUnitIsRescaled(g: Grid<Cell>)
    requires g.Valid() && Normalise(g).Success? && OutOfUnit(g) && !Uniform(g)
    ensures var r := Normalise(g).value;
      var lo, hi := NanMin(Flatten(g.rows)), NanMax(Flatten(g.rows));
      && lo.Num? && hi.Num? && lo.x < hi.x
      && (forall i, j :: 0 <= i < r.height && 0 <= j < r.width ==> r.rows[i][j] == Rescale(g.rows[i][j], lo.x, hi.x))
      && (forall i, j :: 0 <= i < r.height && 0 <= j < r.width && g.rows[i][j] == lo ==> r.rows[i][j] == Num(0.0))
      && (forall i, j :: 0 <= i < r.height && 0 <= j < r.width && g.rows[i][j] == hi ==> r.rows[i][j] == Num(1.0))
  {
    var lo, hi := NanMin(Flatten(g.rows)), NanMax(Flatten(g.rows));
    NonUniformExtremes(g);
    NormaliseRescales(g);
    RescaleEndpoints(lo.x, hi.x);
  }

  /** A grid already inside `[0, 1]` with two distinct values passes through unchanged. */
  lemma {:induction false} InUnitUnchanged(g: Grid<Cell>)
    requires g.Valid() && Normalise(g).Success? && !OutOfUnit(g) && !Uniform(g)
    ensures Normalise(g).value == g
  {
    OutOfUnitIff(g);
    UniformIff(g);
  }

  /**
   * `classify_proximity(proximity_data, low, high)`: zeros, then `< low` to
   * 3, `[low, high)` to 2, `>= high` to 1 and NaN to 4.
   */
  function Classify(v: Cell, low: real, high: real): (r: int)
    ensures v.NaN? <==> r == 4
    ensures v.Num? && v.x >= high ==> r == 1
    ensures v.Num? && low <= v.x < high ==> r == 2
    ensures v.Num? && v.x < low && v.x < high ==> r == 3
    ensures low <= high && v.Num? ==> (r == 3 <==> v.x < low) && (r == 2 <==> low <= v.x < high) && (r == 1 <==> v.x >= high)
  {
    Overwrite([Write(Lt(v, low), 3), Write(Ge(v, low) && Lt(v, high), 2), Write(Ge(v, high), 1), Write(IsNaN(v), 4)], 0)
  }

  /** A cell further from water never gets a higher risk code. */
  lemma {:induction false} ClassifyNonIncreasing(x: real, y: real, low: real, high: real)
    requires low <= high && x <= y
    ensures Classify(Num(y), low, high) <= Classify(Num(x), low, high)
  {
  }

  /** The fixed-threshold proximity categories with 0.3 and 0.7. */
  function ClassifyThirtySeventy(v: Cell): (r: int)
    ensures v.NaN? <==> r == 4
    ensures v.Num? ==> (r == 3 <==> v.x < 0.3) && (r == 2 <==> 0.3 <= v.x < 0.7) && (r == 1 <==> v.x >= 0.7)
  {
    Classify(v, 0.3, 0.7)
  }

  /** The proximity risk map of a whole grid. */
  function ClassifyGrid(g: Grid<Cell>, low: real, high: real): (r: Grid<int>)
    requires g.Valid()
    ensures r.Valid() && SameShape(r, g)
    ensures forall i, j :: 0 <= i < g.height && 0 <= j < g.width ==> r.rows[i][j] == Classify(g.rows[i][j], low, high)
  {
    Map(g, v => Classify(v, low, high))
  }

  /** A uniform proximity grid ends as No Data (4) everywhere, whatever the thresholds. */
  lemma {:induction false} UniformGridAllNoData(g: Grid<Cell>, low: real, high: real)
    requires g.Valid() && Normalise(g).Success? && Uniform(g)
    ensures var r := ClassifyGrid(Normalise(g).value, low, high);
      forall i, j :: 0 <= i < r.height && 0 <= j < r.width ==> r.rows[i][j] == 4
  {
    UniformBecomesNaN(g);
  }

  /** A non-uniform grid that needed rescaling normalises to a grid holding both 0 and 1. */
  lemma {:induction false} NormalisedHitsZeroAndOne(g: Grid<Cell>)
    requires g.Valid() && Normalise(g).Success? && OutOfUnit(g) && !Uniform(g)
    ensures var n := Normalise(g).value;
      && (exists i, j :: 0 <= i < n.height && 0 <= j < n.width && n.rows[i][j] == Num(0.0))
      && (exists i, j :: 0 <= i < n.height && 0 <= j < n.width && n.rows[i][j] == Num(1.0))
  {
    var mx, mn := NanMax(Flatten(g.rows)), NanMin(Flatten(g.rows));
    NormaliseRescales(g);
    NonUniformExtremes(g);
    RescaleEndpoints(mn.x, mx.x);
    var n := Normalise(g).value;
    ExtremeIsCell(g, mx);
    ExtremeIsCell(g, mn);
    var a, b :| 0 <= a < g.height && 0 <= b < g.width && g.rows[a][b] == mx;
    var c, d :| 0 <= c < g.height && 0 <= d < g.width && g.rows[c][d] == mn;
    assert n.rows[a][b] == Num(1.0);
    assert n.rows[c][d] == Num(0.0);
  }

  /**
   * On a normalised grid with two distinct values, both extremes occur, so
   * with thresholds inside `(0, 1]` the map holds a High (3) cell and a Low (1) cell.
   */
  lemma {:induction false} NormalisedSpansBands(g: Grid<Cell>, low: real, high: real)
    requires g.Valid() && Normalise(g).Success? && OutOfUnit(g) && !Uniform(g)
    requires 0.0 < low <= high <= 1.0
    ensures var r := ClassifyGrid(Normalise(g).value, low, high);
      && (exists i, j :: 0 <= i < r.height && 0 <= j < r.width && r.rows[i][j] == 3)
      && (exists i, j :: 0 <= i < r.height && 0 <= j < r.width && r.rows[i][j] == 1)
  {
    NormalisedHitsZeroAndOne(g);
    var n := Normalise(g).value;
    var a, b :| 0 <= a < n.height && 0 <= b < n.width && n.rows[a][b] == Num(1.0);
    var c, d :| 0 <= c < n.height && 0 <= d < n.width && n.rows[c][d] == Num(0.0);
    var r := ClassifyGrid(n, low, high);
    assert r.rows[a][b] == 1;
    assert r.rows[c][d] == 3;
  }
}
