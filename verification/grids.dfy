/**
 * A 2-D numpy array: an explicit `(height, width)` shape and its rows.  The
 * shape is kept apart from the rows so that a `(0, w)` array still has a
 * width, as numpy's `shape` does.
 */
module Grids {

  datatype Grid<T> = Grid(height: nat, width: nat, rows: seq<seq<T>>)
  {
    /** The rows agree with the shape. */
    predicate Valid()
    {
      |rows| == height && forall i :: 0 <= i < |rows| ==> |rows[i]| == width
    }

    /** Cell `(i, j)`. */
    function At(i: nat, j: nat): (v: T)
      requires Valid() && i < height && j < width
    {
      rows[i][j]
    }
  }

  predicate SameShape<A, B>(a: Grid<A>, b: Grid<B>)
  {
    a.height == b.height && a.width == b.width
  }

  /** Every cell satisfies `p`. */
  ghost predicate All<T>(g: Grid<T>, p: T -> bool)
    requires g.Valid()
  {
    forall i, j :: 0 <= i < g.height && 0 <= j < g.width ==> p(g.rows[i][j])
  }

  /** The array of `f(v)` for every cell `v`: a per-cell numpy expression. */
  function Map<T, U>(g: Grid<T>, f: T -> U): (r: Grid<U>)
    requires g.Valid()
    ensures r.Valid() && SameShape(r, g)
    ensures forall i, j :: 0 <= i < g.height && 0 <= j < g.width ==> r.rows[i][j] == f(g.rows[i][j])
  {
    Grid(g.height, g.width, seq(g.height, i requires 0 <= i < g.height => seq(g.width, j requires 0 <= j < g.width => f(g.rows[i][j]))))
  }

  /** An element-wise binary numpy expression over two same-shape arrays. */
  function Zip<A, B, C>(a: Grid<A>, b: Grid<B>, f: (A, B) -> C): (r: Grid<C>)
    requires a.Valid() && b.Valid() && SameShape(a, b)
    ensures r.Valid() && SameShape(r, a)
    ensures forall i, j :: 0 <= i < a.height && 0 <= j < a.width ==> r.rows[i][j] == f(a.rows[i][j], b.rows[i][j])
  {
    Grid(a.height, a.width, seq(a.height, i requires 0 <= i < a.height => seq(a.width, j requires 0 <= j < a.width => f(a.rows[i][j], b.rows[i][j]))))
  }

  /** `a.reshape(-1)`: the cells in row-major order. */
  function Flatten<T>(rows: seq<seq<T>>): (flat: seq<T>)
  {
    if |rows| == 0 then [] else Flatten(rows[..|rows| - 1]) + rows[|rows| - 1]
  }

  /** Every cell of the array appears in its flattening. */
  lemma {:induction false} CellInFlatten<T>(rows: seq<seq<T>>, i: nat, j: nat)
    requires i < |rows| && j < |rows[i]|
    ensures rows[i][j] in Flatten(rows)
    decreases |rows|
  {
    if i < |rows| - 1 {
      CellInFlatten(rows[..|rows| - 1], i, j);
    }
  }

  /** Every element of the flattening is some cell of the array. */
  lemma {:induction false} FlattenHasOnlyCells<T>(rows: seq<seq<T>>, x: T)
    requires x in Flatten(rows)
    ensures exists i, j :: 0 <= i < |rows| && 0 <= j < |rows[i]| && rows[i][j] == x
    decreases |rows|
  {
    var front := rows[..|rows| - 1];
    if x in Flatten(front) {
      FlattenHasOnlyCells(front, x);
      var i, j :| 0 <= i < |front| && 0 <= j < |front[i]| && front[i][j] == x;
      assert rows[i][j] == x;
    } else {
      var k :| 0 <= k < |rows[|rows| - 1]| && rows[|rows| - 1][k] == x;
    }
  }

  /** A rectangular array of `height` rows flattens to `height * width` cells. */
  lemma {:induction false} FlattenLength<T>(g: Grid<T>)
    requires g.Valid()
    ensures |Flatten(g.rows)| == g.height * g.width
    decreases g.height
  {
    if g.height > 0 {
      FlattenLength(Grid(g.height - 1, g.width, g.rows[..g.height - 1]));
      assert (g.height - 1) * g.width + g.width == g.height * g.width;
    }
  }

  /** The flattened array is empty exactly when there are no rows or no columns. */
  lemma {:induction false} FlattenEmpty<T>(g: Grid<T>)
    requires g.Valid()
    ensures |Flatten(g.rows)| == 0 <==> g.height == 0 || g.width == 0
  {
    FlattenLength(g);
    ProductZero(g.height, g.width);
  }

  lemma {:induction false} ProductZero(a: nat, b: nat)
    ensures a * b == 0 <==> a == 0 || b == 0
  {
    if a > 0 && b > 0 {
      assert a * b >= b;
    }
  }

  /** Row-major order: cell `(i, j)` of a `width`-column array sits at `i * width + j`. */
  lemma {:induction false} FlattenIndex<T>(g: Grid<T>, i: nat, j: nat)
    requires g.Valid() && i < g.height && j < g.width
    ensures |Flatten(g.rows)| == g.height * g.width
    ensures i * g.width + j < g.height * g.width
    ensures Flatten(g.rows)[i * g.width + j] == g.At(i, j)
    decreases g.height
  {
    FlattenLength(g);
    var front := Grid(g.height - 1, g.width, g.rows[..g.height - 1]);
    FlattenLength(front);
    assert Flatten(g.rows) == Flatten(front.rows) + g.rows[g.height - 1];
    if i < g.height - 1 {
      FlattenIndex(front, i, j);
      assert i * g.width + j < (g.height - 1) * g.width;
    } else {
      assert i * g.width + j == (g.height - 1) * g.width + j;
    }
    assert i * g.width + j < g.height * g.width by {
      assert i * g.width <= (g.height - 1) * g.width;
    }
  }
}
