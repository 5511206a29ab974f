/**
 * Combining per-factor risk maps into one.  The weighted scripts take the
 * rounded weighted sum of the risk codes wherever every map is valid, and
 * the two-factor script takes the larger code.  Every risk map reaching
 * these functions is an integer array, so the validity mask
 * `~np.isnan(...)` holds at every cell and the No Data code 4 is averaged
 * in like any other level.
 */
module Aggregate {
  import opened Wrappers
  import opened Cells
  import opened Grids
  import opened Rounding
  import opened Sums

  /** The No Data code every classifier writes for a missing input. */
  const NoData := 4

  /** `w0 * v0 + w1 * v1 + ...` over one cell's stack of risk codes. */
  function WeightedSum(ws: seq<real>, vs: seq<int>): (total: real)
    requires |ws| == |vs|
  {
    if |ws| == 0 then 0.0 else ws[0] * vs[0] as real + WeightedSum(ws[1..], vs[1..])
  }

  /** With non-negative weights, codes in `[lo, hi]` sum to between `lo` and `hi` times the weight total. */
  lemma {:induction false} WeightedSumBounds(ws: seq<real>, vs: seq<int>, lo: int, hi: int)
    requires |ws| == |vs|
    requires forall k :: 0 <= k < |ws| ==> ws[k] >= 0.0
    requires forall k :: 0 <= k < |vs| ==> lo <= vs[k] <= hi
    ensures lo as real * Sum(ws) <= WeightedSum(ws, vs) <= hi as real * Sum(ws)
    decreases |ws|
  {
    if |ws| > 0 {
      WeightedSumBounds(ws[1..], vs[1..], lo, hi);
      MulNonNegative(ws[0], (vs[0] - lo) as real);
      MulNonNegative(ws[0], (hi - vs[0]) as real);
      assert Sum(ws) == ws[0] + Sum(ws[1..]);
      assert WeightedSum(ws, vs) == ws[0] * vs[0] as real + WeightedSum(ws[1..], vs[1..]);
    }
  }

  /** A code of at most 4 scaled by a weight total within 1.001e-5 of 1 moves by less than 1e-4. */
  lemma {:induction false} ScaledNearOne(c: real, s: real)
    requires 0.0 <= c <= 4.0 && 1.0 - 0.00001001 <= s <= 1.0 + 0.00001001
    ensures c - 0.0001 <= c * s <= c + 0.0001
  {
    var d := if s >= 1.0 then s - 1.0 else 1.0 - s;
    MulNonNegative(4.0 - c, d);
    MulNonNegative(c, d);
    assert (4.0 - c) * d == 4.0 * d - c * d;
    assert c * s == if s >= 1.0 then c + c * d else c - c * d;
  }

  /** A stack holding one code `c` everywhere sums to `c` times the weight total. */
  lemma {:induction false} WeightedSumConstant(ws: seq<real>, vs: seq<int>, c: int)
    requires |ws| == |vs|
    requires forall k :: 0 <= k < |vs| ==> vs[k] == c
    ensures WeightedSum(ws, vs) == c as real * Sum(ws)
    decreases |ws|
  {
    if |ws| > 0 {
      WeightedSumConstant(ws[1..], vs[1..], c);
    }
  }

  /**
   * One cell of `combine_risks_weighted` as written: the validity mask is
   * always true on integer maps, so the cell is the rounded weighted sum.
   */
  function CombineCell(ws: seq<real>, vs: seq<int>): (r: Cell)
    requires |ws| == |vs|
    ensures r.Num? && r.x == RoundHalfEven(WeightedSum(ws, vs)) as real
  {
    Num(RoundHalfEven(WeightedSum(ws, vs)) as real)
  }

  /**
   * With non-negative weights accepted as summing to 1 and every code in
   * `[lo, hi]` with `0 <= lo <= hi <= 4`, the combined level stays in
   * `[lo, hi]`: the weights' tolerance is far too small to tip a rounding.
   */
  lemma {:induction false} CombineCellInRange(ws: seq<real>, vs: seq<int>, lo: int, hi: int)
    requires |ws| == |vs| && IsClose(Sum(ws), 1.0)
    requires forall k :: 0 <= k < |ws| ==> ws[k] >= 0.0
    requires 0 <= lo <= hi <= 4
    requires forall k :: 0 <= k < |vs| ==> lo <= vs[k] <= hi
    ensures lo as real <= CombineCell(ws, vs).x <= hi as real
  {
    WeightedSumBounds(ws, vs, lo, hi);
    RoundsInRange(WeightedSum(ws, vs), Sum(ws), lo, hi);
  }

  /** A value between `lo * s` and `hi * s`, for a total `s` accepted as close to 1, rounds into `[lo, hi]`. */
  lemma {:induction false} RoundsInRange(t: real, s: real, lo: int, hi: int)
    requires 0 <= lo <= hi <= 4 && IsClose(s, 1.0)
    requires lo as real * s <= t <= hi as real * s
    ensures lo <= RoundHalfEven(t) <= hi
  {
    IsCloseToOne(s);
    ScaledNearOne(lo as real, s);
    ScaledNearOne(hi as real, s);
    RoundWithin(t, lo, hi);
  }

  /** Maps that agree on a code `c` (0 to 4) at a cell combine to `c` there. */
  lemma {:induction false} AgreeingCodesKeepLevel(ws: seq<real>, vs: seq<int>, c: int)
    requires |ws| == |vs| && IsClose(Sum(ws), 1.0)
    requires 0 <= c <= 4
    requires forall k :: 0 <= k < |vs| ==> vs[k] == c
    ensures CombineCell(ws, vs) == Code(c)
  {
    var s := Sum(ws);
    IsCloseToOne(s);
    WeightedSumConstant(ws, vs, c);
    ScaledNearOne(c as real, s);
    RoundUnique(WeightedSum(ws, vs), c);
  }

  /** The weights the four-factor script falls back on: slope, rainfall, elevation, proximity. */
  const DefaultWeights: seq<real> := [0.2, 0.35, 0.2, 0.25]

  /**
   * As written, a No Data slope (4) next to Low (1) rainfall, elevation and
   * proximity is averaged into a Moderate (2) cell instead of staying
   * missing: `0.2 * 4 + 0.35 + 0.2 + 0.25 = 1.6` rounds to 2.
   */
  lemma {:induction false} NoDataAveragedIn()
    ensures CombineCell(DefaultWeights, [NoData, 1, 1, 1]) == Code(2)
  {
    assert WeightedSum([0.25], [1]) == 0.25;
    assert WeightedSum([0.2, 0.25], [1, 1]) == 0.45;
    assert WeightedSum([0.35, 0.2, 0.25], [1, 1, 1]) == 0.8;
    assert WeightedSum(DefaultWeights, [NoData, 1, 1, 1]) == 1.6;
    RoundUnique(1.6, 2);
  }

  /**
   * The combination the NaN-propagation step evidently intends: a cell
   * where any map holds No Data stays missing, every other cell is the
   * rounded weighted sum.
   */
  function CombineCellAbsorbing(ws: seq<real>, vs: seq<int>): (r: Cell)
    requires |ws| == |vs|
    ensures r.NaN? <==> NoData in vs
    ensures r.Num? ==> r == CombineCell(ws, vs)
  {
    if NoData in vs then NaN else CombineCell(ws, vs)
  }

  /**
   * With valid weights and codes 0 to 4, the intended combination is
   * missing exactly where an input is, and a risk level 0 to 3 elsewhere.
   */
  lemma {:induction false} AbsorbingCombineRange(ws: seq<real>, vs: seq<int>)
    requires |ws| == |vs| && IsClose(Sum(ws), 1.0)
    requires forall k :: 0 <= k < |ws| ==> ws[k] >= 0.0
    requires forall k :: 0 <= k < |vs| ==> 0 <= vs[k] <= NoData
    ensures var r := CombineCellAbsorbing(ws, vs); r.NaN? || 0.0 <= r.x <= 3.0
  {
    if NoData !in vs {
      CombineCellInRange(ws, vs, 0, 3);
    }
  }

  /** The intended combination no longer averages No Data in. */
  lemma {:induction false} AbsorbingKeepsNoDataMissing()
    ensures CombineCellAbsorbing(DefaultWeights, [NoData, 1, 1, 1]).NaN?
  {
    assert [NoData, 1, 1, 1][0] == NoData;
  }

  datatype CombineError =
    | WeightSum      // `assert np.isclose(total_weight, 1)` fails
    | ShapeMismatch  // the element-wise expression cannot broadcast

  /** Every map has the shape of the first. */
  predicate AllSameShape(maps: seq<Grid<int>>)
  {
    forall k :: 0 <= k < |maps| ==> SameShape(maps[k], maps[0])
  }

  /** The codes the maps hold at cell `(i, j)`, in argument order. */
  function Stack(maps: seq<Grid<int>>, i: nat, j: nat): (vs: seq<int>)
    requires |maps| > 0 && AllSameShape(maps) && forall k :: 0 <= k < |maps| ==> maps[k].Valid()
    requires i < maps[0].height && j < maps[0].width
    ensures |vs| == |maps| && forall k :: 0 <= k < |maps| ==> vs[k] == maps[k].At(i, j)
  {
    seq(|maps|, k requires 0 <= k < |maps| => maps[k].At(i, j))
  }

  /**
   * `combine_risks_weighted` over a list of integer risk maps and their
   * weights.  `checkSum` selects the variant that first asserts the weights
   * sum to 1; `absorbing` selects the intended No Data handling instead of
   * the code as written.
   */
  function CombineWeighted(maps: seq<Grid<int>>, ws: seq<real>, checkSum: bool, absorbing: bool): (r: Result<Grid<Cell>, CombineError>)
    requires |maps| == |ws| > 0 && forall k :: 0 <= k < |maps| ==> maps[k].Valid()
    ensures checkSum && !IsClose(Sum(ws), 1.0) ==> r == Failure(WeightSum)
    ensures r.Failure? <==> (checkSum && !IsClose(Sum(ws), 1.0)) || !AllSameShape(maps)
    ensures r.Success? ==> r.value.Valid() && SameShape(r.value, maps[0])
    ensures r.Success? ==> forall i, j :: 0 <= i < r.value.height && 0 <= j < r.value.width ==>
      r.value.rows[i][j] == (if absorbing then CombineCellAbsorbing(ws, Stack(maps, i, j)) else CombineCell(ws, Stack(maps, i, j)))
  {
    if checkSum && !IsClose(Sum(ws), 1.0) then Failure(WeightSum)
    else if !AllSameShape(maps) then Failure(ShapeMismatch)
    else
      var h, w := maps[0].height, maps[0].width;
      Success(Grid(h, w, seq(h, i requires 0 <= i < h => seq(w, j requires 0 <= j < w =>
        if absorbing then CombineCellAbsorbing(ws, Stack(maps, i, j)) else CombineCell(ws, Stack(maps, i, j))))))
  }

  /** The four-factor combination: slope, rainfall, elevation and proximity, weights checked. */
  function CombineWeighted4(slope: Grid<int>, rainfall: Grid<int>, elevation: Grid<int>, proximity: Grid<int>, wSlope: real, wRainfall: real, wElevation: real, wProximity: real): (r: Result<Grid<Cell>, CombineError>)
    requires slope.Valid() && rainfall.Valid() && elevation.Valid() && proximity.Valid()
    ensures !IsClose(wSlope + wRainfall + wElevation + wProximity, 1.0) ==> r == Failure(WeightSum)
    ensures r.Failure? <==>
      (!IsClose(wSlope + wRainfall + wElevation + wProximity, 1.0) ||
       !SameShape(rainfall, slope) || !SameShape(elevation, slope) || !SameShape(proximity, slope))
    ensures r.Success? ==> r.value.Valid() && SameShape(r.value, slope)
    ensures r.Success? ==> forall i, j :: 0 <= i < slope.height && 0 <= j < slope.width ==>
      r.value.rows[i][j] == CombineCell([wSlope, wRainfall, wElevation, wProximity],
                                        [slope.rows[i][j], rainfall.rows[i][j], elevation.rows[i][j], proximity.rows[i][j]])
  {
    var ws := [wSlope, wRainfall, wElevation, wProximity];
    var maps := [slope, rainfall, elevation, proximity];
    assert AllSameShape(maps) <==> SameShape(rainfall, slope) && SameShape(elevation, slope) && SameShape(proximity, slope) by {
      assert maps[1] == rainfall && maps[2] == elevation && maps[3] == proximity;
    }
    assert forall i, j :: 0 <= i < slope.height && 0 <= j < slope.width && AllSameShape(maps) ==>
      Stack(maps, i, j) == [slope.rows[i][j], rainfall.rows[i][j], elevation.rows[i][j], proximity.rows[i][j]];
    assert Sum([wProximity]) == wProximity;
    assert Sum([wElevation, wProximity]) == wElevation + wProximity;
    assert Sum([wRainfall, wElevation, wProximity]) == wRainfall + wElevation + wProximity;
    assert Sum(ws) == wSlope + wRainfall + wElevation + wProximity;
    CombineWeighted([slope, rainfall, elevation, proximity], ws, true, false)
  }

  /** The three-factor combination: slope, rainfall and elevation, weights never checked. */
  function CombineWeighted3(slope: Grid<int>, rainfall: Grid<int>, elevation: Grid<int>, wSlope: real, wRainfall: real, wElevation: real): (r: Result<Grid<Cell>, CombineError>)
    requires slope.Valid() && rainfall.Valid() && elevation.Valid()
    ensures r.Failure? <==> !SameShape(rainfall, slope) || !SameShape(elevation, slope)
    ensures r.Success? ==> r.value.Valid() && SameShape(r.value, slope)
    ensures r.Success? ==> forall i, j :: 0 <= i < slope.height && 0 <= j < slope.width ==>
      r.value.rows[i][j] == CombineCell([wSlope, wRainfall, wElevation], [slope.rows[i][j], rainfall.rows[i][j], elevation.rows[i][j]])
  {
    var maps := [slope, rainfall, elevation];
    assert AllSameShape(maps) <==> SameShape(rainfall, slope) && SameShape(elevation, slope) by {
      assert maps[1] == rainfall && maps[2] == elevation;
    }
    assert forall i, j :: 0 <= i < slope.height && 0 <= j < slope.width && AllSameShape(maps) ==>
      Stack(maps, i, j) == [slope.rows[i][j], rainfall.rows[i][j], elevation.rows[i][j]];
    CombineWeighted(maps, [wSlope, wRainfall, wElevation], false, false)
  }

  /**
   * Where slope, rainfall and elevation agree on a code `c` (0 to 4), the
   * three-factor map holds `c`, provided the weights sum to 1 as the
   * script's defaults 0.3, 0.4 and 0.3 do.
   */
  lemma {:induction false} AgreeingThreeKeepLevel(slope: Grid<int>, rainfall: Grid<int>, elevation: Grid<int>,
                                                  wSlope: real, wRainfall: real, wElevation: real, i: nat, j: nat, c: int)
    requires slope.Valid() && rainfall.Valid() && elevation.Valid()
    requires CombineWeighted3(slope, rainfall, elevation, wSlope, wRainfall, wElevation).Success?
    requires IsClose(wSlope + wRainfall + wElevation, 1.0)
    requires i < slope.height && j < slope.width && 0 <= c <= 4
    requires slope.rows[i][j] == c && rainfall.rows[i][j] == c && elevation.rows[i][j] == c
    ensures CombineWeighted3(slope, rainfall, elevation, wSlope, wRainfall, wElevation).value.rows[i][j] == Code(c)
  {
    var ws := [wSlope, wRainfall, wElevation];
    assert Sum([wElevation]) == wElevation;
    assert Sum([wRainfall, wElevation]) == wRainfall + wElevation;
    assert Sum(ws) == wSlope + wRainfall + wElevation;
    AgreeingCodesKeepLevel(ws, [c, c, c], c);
  }

  /** As written, no cell of a combined map is ever missing. */
  lemma {:induction false} CombinedNeverMissing(maps: seq<Grid<int>>, ws: seq<real>, checkSum: bool)
    requires |maps| == |ws| > 0 && forall k :: 0 <= k < |maps| ==> maps[k].Valid()
    requires CombineWeighted(maps, ws, checkSum, false).Success?
    ensures var g := CombineWeighted(maps, ws, checkSum, false).value;
      forall i, j :: 0 <= i < g.height && 0 <= j < g.width ==> g.rows[i][j].Num?
  {
  }

  /** Where every map holds the same code `c`, the combined map holds `c`. */
  lemma {:induction false} AgreeingMapsKeepLevel(maps: seq<Grid<int>>, ws: seq<real>, absorbing: bool, i: nat, j: nat, c: int)
    requires |maps| == |ws| > 0 && forall k :: 0 <= k < |maps| ==> maps[k].Valid()
    requires CombineWeighted(maps, ws, true, absorbing).Success?
    requires i < maps[0].height && j < maps[0].width && 0 <= c < NoData
    requires forall k :: 0 <= k < |maps| ==> maps[k].rows[i][j] == c
    ensures CombineWeighted(maps, ws, true, absorbing).value.rows[i][j] == Code(c)
  {
    var vs := Stack(maps, i, j);
    AgreeingCodesKeepLevel(ws, vs, c);
  }

  /**
   * `combine_risks` of the two-factor script: the larger of the two codes.
   * Both maps are integer arrays, so the validity mask is all true.
   */
  function CombineMax(a: Grid<int>, b: Grid<int>): (r: Result<Grid<int>, CombineError>)
    requires a.Valid() && b.Valid()
    ensures r.Failure? <==> !SameShape(a, b)
    ensures r.Success? ==> r.value.Valid() && SameShape(r.value, a)
    ensures r.Success? ==> forall i, j :: 0 <= i < a.height && 0 <= j < a.width ==>
      var m := r.value.rows[i][j];
      m >= a.rows[i][j] && m >= b.rows[i][j] && (m == a.rows[i][j] || m == b.rows[i][j])
  {
    if !SameShape(a, b) then Failure(ShapeMismatch)
    else Success(Zip(a, b, (x: int, y: int) => if x >= y then x else y))
  }

  /** The two-factor combination does not depend on the order of its arguments. */
  lemma {:induction false} CombineMaxCommutes(a: Grid<int>, b: Grid<int>)
    requires a.Valid() && b.Valid() && SameShape(a, b)
    ensures CombineMax(a, b) == CombineMax(b, a)
  {
    var p, q := CombineMax(a, b).value, CombineMax(b, a).value;
    forall i, j | 0 <= i < a.height && 0 <= j < a.width
      ensures p.rows[i][j] == q.rows[i][j]
    {
    }
    assert forall i | 0 <= i < a.height :: p.rows[i] == q.rows[i];
    assert p.rows == q.rows;
  }

  /** Combining a map with itself gives the map back. */
  lemma {:induction false} CombineMaxIdempotent(a: Grid<int>)
    requires a.Valid()
    ensures CombineMax(a, a) == Success(a)
  {
    var p := CombineMax(a, a).value;
    assert forall i | 0 <= i < a.height :: p.rows[i] == a.rows[i];
    assert p.rows == a.rows;
  }

  /** No Data in either map wins: 4 is the largest code. */
  lemma {:induction false} CombineMaxNoDataDominates(a: Grid<int>, b: Grid<int>, i: nat, j: nat)
    requires a.Valid() && b.Valid() && SameShape(a, b) && i < a.height && j < a.width
    requires forall x, y :: 0 <= x < a.height && 0 <= y < a.width ==> a.rows[x][y] <= NoData && b.rows[x][y] <= NoData
    requires a.rows[i][j] == NoData || b.rows[i][j] == NoData
    ensures CombineMax(a, b).value.rows[i][j] == NoData
  {
  }
}
