/**
 * One raster value as the scripts see it after `astype(float)`: a real
 * number or NaN.  Every ordered comparison with NaN is false, which is the
 * only thing numpy's boolean masks ever ask of a NaN cell.
 */
module Cells {

  datatype Cell = Num(x: real) | NaN

  predicate Lt(c: Cell, t: real) { c.Num? && c.x < t }
  predicate Le(c: Cell, t: real) { c.Num? && c.x <= t }
  predicate Gt(c: Cell, t: real) { c.Num? && c.x > t }
  predicate Ge(c: Cell, t: real) { c.Num? && c.x >= t }

  /** `np.isnan`. */
  predicate IsNaN(c: Cell) { c.NaN? }

  /** Floating-point `==`: NaN is equal to nothing, itself included. */
  predicate FloatEq(a: Cell, b: Cell) { a.Num? && b.Num? && a.x == b.x }

  /** A category code stored in a float grid. */
  function Code(k: int): (c: Cell) { Num(k as real) }

  /**
   * `data[data < 0] = 0`, the step every rainfall script runs before it
   * classifies: negative values become zero, NaN and non-negative values
   * are left alone.
   */
  function ClampNegative(c: Cell): (r: Cell)
    ensures r.NaN? <==> c.NaN?
    ensures !Lt(r, 0.0)
    ensures Ge(c, 0.0) ==> r == c
    ensures Lt(c, 0.0) ==> r == Num(0.0)
  {
    if Lt(c, 0.0) then Num(0.0) else c
  }
}
