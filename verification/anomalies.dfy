/**
 * The raster anomaly validator: a fixed sequence of checks, each adding its
 * own message, over a band whose metadata claims a width and a height.
 */
module Anomalies {
  import opened Wrappers
  import opened Cells
  import opened Grids

  /** One message of the report. */
  datatype Anomaly =
    | UnexpectedShape(foundHeight: nat, foundWidth: nat, expectedHeight: nat, expectedWidth: nat)
    | ContainsNaN
    | ContainsNegative
    | AbnormallyLarge
    | RightEdge

  /** `data[:, 0]` on an array with no columns raises `IndexError`. */
  datatype AnomalyError = NoColumns

  /** The "abnormally large" threshold. */
  const LargeValue := 1000000.0

  /** Position of each message in the check order. */
  function Rank(a: Anomaly): (k: nat)
  {
    match a
    case UnexpectedShape(_, _, _, _) => 0
    case ContainsNaN => 1
    case ContainsNegative => 2
    case AbnormallyLarge => 3
    case RightEdge => 4
  }

  /** `p(v).any()` over a run of rows, scanned row by row. */
  function AnyCell(rows: seq<seq<Cell>>, p: Cell -> bool): (b: bool)
    ensures b <==> exists i, j :: 0 <= i < |rows| && 0 <= j < |rows[i]| && p(rows[i][j])
  {
    if |rows| == 0 then false
    else
      var last := rows[|rows| - 1];
      var front := AnyCell(rows[..|rows| - 1], p);
      assert front ==> exists i, j :: 0 <= i < |rows| && 0 <= j < |rows[i]| && p(rows[i][j]) by {
        if front {
          var i, j :| 0 <= i < |rows| - 1 && 0 <= j < |rows[..|rows| - 1][i]| && p(rows[..|rows| - 1][i][j]);
          assert rows[i][j] == rows[..|rows| - 1][i][j];
        }
      }
      front || exists j :: 0 <= j < |last| && p(last[j])
  }

  /** Some row's first and last cells differ under float `==` (NaN differs from everything). */
  function EdgesDiffer(rows: seq<seq<Cell>>): (b: bool)
    requires forall i :: 0 <= i < |rows| ==> |rows[i]| > 0
    ensures b <==> exists i :: 0 <= i < |rows| && !FloatEq(rows[i][0], rows[i][|rows[i]| - 1])
  {
    if |rows| == 0 then false
    else
      var k := |rows| - 1;
      var last, init := rows[k], rows[..k];
      var front := EdgesDiffer(init);
      assert forall i :: 0 <= i < k ==> init[i] == rows[i];
      assert !FloatEq(last[0], last[|last| - 1]) ==> !FloatEq(rows[k][0], rows[k][|rows[k]| - 1]);
      front || !FloatEq(last[0], last[|last| - 1])
  }

  /** `p(data).any()` over a whole array. */
  function AnyIn(data: Grid<Cell>, p: Cell -> bool): (b: bool)
    requires data.Valid()
    ensures b <==> exists i, j :: 0 <= i < data.height && 0 <= j < data.width && p(data.At(i, j))
  {
    var b := AnyCell(data.rows, p);
    assert b ==> exists i, j :: 0 <= i < data.height && 0 <= j < data.width && p(data.At(i, j)) by {
      if b {
        var i, j :| 0 <= i < |data.rows| && 0 <= j < |data.rows[i]| && p(data.rows[i][j]);
        assert p(data.At(i, j));
      }
    }
    b
  }

  predicate IsNegative(c: Cell) { Lt(c, 0.0) }
  predicate IsLarge(c: Cell) { Gt(c, LargeValue) }

  /** The first and last columns differ somewhere. */
  function EdgesDifferIn(data: Grid<Cell>): (b: bool)
    requires data.Valid() && data.width > 0
    ensures b <==> exists i :: 0 <= i < data.height && !FloatEq(data.At(i, 0), data.At(i, data.width - 1))
  {
    var b := EdgesDiffer(data.rows);
    assert b ==> exists i :: 0 <= i < data.height && !FloatEq(data.At(i, 0), data.At(i, data.width - 1)) by {
      if b {
        var i :| 0 <= i < |data.rows| && !FloatEq(data.rows[i][0], data.rows[i][|data.rows[i]| - 1]);
        assert !FloatEq(data.At(i, 0), data.At(i, data.width - 1));
      }
    }
    b
  }

  /** The messages in strictly increasing check order. */
  predicate InCheckOrder(r: seq<Anomaly>)
  {
    forall i, j :: 0 <= i < j < |r| ==> Rank(r[i]) < Rank(r[j])
  }

  /** The message `a`, when its check fires, in front of the messages of the later checks. */
  function Then(fires: bool, a: Anomaly, rest: seq<Anomaly>): (r: seq<Anomaly>)
    requires InCheckOrder(rest) && forall x :: x in rest ==> Rank(a) < Rank(x)
    ensures InCheckOrder(r) && forall x :: x in r ==> Rank(a) <= Rank(x)
    ensures forall x :: x in r <==> (fires && x == a) || x in rest
  {
    if fires then [a] + rest else rest
  }

  /** The messages of the checks that fired, in check order. */
  function Report(shape: Anomaly, badShape: bool, nan: bool, negative: bool, large: bool, edge: bool): (r: seq<Anomaly>)
    requires shape.UnexpectedShape?
    ensures InCheckOrder(r)
    ensures shape in r <==> badShape
    ensures forall a :: a in r && a.UnexpectedShape? ==> a == shape
    ensures (ContainsNaN in r <==> nan) && (ContainsNegative in r <==> negative)
    ensures (AbnormallyLarge in r <==> large) && (RightEdge in r <==> edge)
  {
    var e := Then(edge, RightEdge, []);
    var l := Then(large, AbnormallyLarge, e);
    var n := Then(negative, ContainsNegative, l);
    var m := Then(nan, ContainsNaN, n);
    Then(badShape, shape, m)
  }

  /**
   * `check_raster_anomalies(data, width, height)`.  The shape, NaN,
   * negative and large-value checks run in that order; the edge check then
   * raises on an array without columns and otherwise compares the first
   * and last column.
   */
  function CheckAnomalies(data: Grid<Cell>, width: nat, height: nat): (r: Result<seq<Anomaly>, AnomalyError>)
    requires data.Valid()
    ensures r.Failure? <==> data.width == 0
    ensures r.Success? ==> InCheckOrder(r.value)
    ensures r.Success? ==>
      ((UnexpectedShape(data.height, data.width, height, width) in r.value) <==> (data.height, data.width) != (height, width))
    ensures r.Success? ==> forall a :: a in r.value && a.UnexpectedShape? ==> a == UnexpectedShape(data.height, data.width, height, width)
    ensures r.Success? ==>
      (ContainsNaN in r.value <==> exists i, j :: 0 <= i < data.height && 0 <= j < data.width && IsNaN(data.At(i, j)))
    ensures r.Success? ==>
      (ContainsNegative in r.value <==> exists i, j :: 0 <= i < data.height && 0 <= j < data.width && IsNegative(data.At(i, j)))
    ensures r.Success? ==>
      (AbnormallyLarge in r.value <==> exists i, j :: 0 <= i < data.height && 0 <= j < data.width && IsLarge(data.At(i, j)))
    ensures r.Success? ==>
      (RightEdge in r.value <==> exists i :: 0 <= i < data.height && !FloatEq(data.At(i, 0), data.At(i, data.width - 1)))
  {
    if data.width == 0 then Failure(NoColumns)
    else
      Success(Report(UnexpectedShape(data.height, data.width, height, width), (data.height, data.width) != (height, width),
                     AnyIn(data, IsNaN), AnyIn(data, IsNegative), AnyIn(data, IsLarge), EdgesDifferIn(data)))
  }

  /** The report is empty exactly when no check fires. */
  lemma {:induction false} NoAnomaliesIff(data: Grid<Cell>, width: nat, height: nat)
    requires data.Valid() && data.width > 0
    ensures CheckAnomalies(data, width, height).Success?
    ensures CheckAnomalies(data, width, height).value == [] <==>
      (data.height == height && data.width == width &&
       (forall i, j :: 0 <= i < data.height && 0 <= j < data.width ==> data.At(i, j).Num?) &&
       (forall i, j :: 0 <= i < data.height && 0 <= j < data.width ==> !Lt(data.At(i, j), 0.0) && !Gt(data.At(i, j), LargeValue)) &&
       (forall i :: 0 <= i < data.height ==> FloatEq(data.At(i, 0), data.At(i, data.width - 1))))
  {
    var r := CheckAnomalies(data, width, height).value;
    if r != [] {
      var a := r[0];
      assert a in r;
      match a
      case UnexpectedShape(_, _, _, _) =>
      case ContainsNaN =>
      case ContainsNegative =>
      case AbnormallyLarge =>
      case RightEdge =>
    }
  }

  /** A NaN anywhere on the first or last column always draws the edge message. */
  lemma {:induction false} NaNOnEdgeFlagged(data: Grid<Cell>, width: nat, height: nat, i: nat, j: nat)
    requires data.Valid() && data.width > 0 && i < data.height
    requires j == 0 || j == data.width - 1
    requires data.At(i, j).NaN?
    ensures RightEdge in CheckAnomalies(data, width, height).value
  {
    assert !FloatEq(data.At(i, 0), data.At(i, data.width - 1));
  }
}
