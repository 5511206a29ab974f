/**
 * Finite sums of reals and of the rows and columns of a rectangular
 * matrix: the arithmetic behind `np.sum`, `matrix.sum(axis=0)` and
 * `matrix.mean(axis=1)`.
 */
module Sums {

  /** `np.sum` of a vector. */
  function Sum(s: seq<real>): (total: real)
  {
    if |s| == 0 then 0.0 else s[0] + Sum(s[1..])
  }

  /** Summing a concatenation sums the parts. */
  lemma {:induction false} SumConcat(a: seq<real>, b: seq<real>)
    ensures Sum(a + b) == Sum(a) + Sum(b)
    decreases |a|
  {
    if |a| == 0 {
      assert a + b == b;
    } else {
      assert (a + b)[1..] == a[1..] + b;
      SumConcat(a[1..], b);
    }
  }

  /** The sum of an element-wise sum is the sum of the sums. */
  lemma {:induction false} SumAdd(a: seq<real>, b: seq<real>, c: seq<real>)
    requires |a| == |b| == |c| && forall k :: 0 <= k < |c| ==> c[k] == a[k] + b[k]
    ensures Sum(c) == Sum(a) + Sum(b)
    decreases |a|
  {
    if |a| > 0 {
      SumAdd(a[1..], b[1..], c[1..]);
    }
  }

  /** Dividing every entry by `d` divides the sum by `d`. */
  lemma {:induction false} SumDivide(a: seq<real>, c: seq<real>, d: real)
    requires d != 0.0 && |a| == |c| && forall k :: 0 <= k < |c| ==> c[k] == a[k] / d
    ensures Sum(c) == Sum(a) / d
    decreases |a|
  {
    if |a| > 0 {
      SumDivide(a[1..], c[1..], d);
      assert c[0] + Sum(a[1..]) / d == (a[0] + Sum(a[1..])) / d;
    }
  }

  /** A vector of one repeated value `v` sums to `|s| * v`. */
  lemma {:induction false} SumConstant(s: seq<real>, v: real)
    requires forall k :: 0 <= k < |s| ==> s[k] == v
    ensures Sum(s) == |s| as real * v
    decreases |s|
  {
    if |s| > 0 {
      SumConstant(s[1..], v);
    }
  }

  /** Entries strictly between `lo` and `hi` give a sum strictly between `|s| * lo` and `|s| * hi`. */
  lemma {:induction false} SumStrictBounds(s: seq<real>, lo: real, hi: real)
    requires |s| > 0 && forall k :: 0 <= k < |s| ==> lo < s[k] < hi
    ensures |s| as real * lo < Sum(s) < |s| as real * hi
    decreases |s|
  {
    if |s| == 1 {
      assert Sum(s) == s[0];
      Distribute(|s| as real, 0.0, lo);
      Distribute(|s| as real, 0.0, hi);
    } else {
      SumStrictBounds(s[1..], lo, hi);
      assert Sum(s) == s[0] + Sum(s[1..]);
      Distribute(|s| as real, |s[1..]| as real, lo);
      Distribute(|s| as real, |s[1..]| as real, hi);
    }
  }

  /** One more copy of `x`: `n * x == x + m * x` when `n == m + 1`. */
  lemma {:induction false} Distribute(n: real, m: real, x: real)
    requires n == m + 1.0
    ensures n * x == x + m * x
  {
  }

  /** Non-negative entries give a sum no smaller than any one of them. */
  lemma {:induction false} SumAtLeastEntry(s: seq<real>, i: nat)
    requires i < |s| && forall k :: 0 <= k < |s| ==> s[k] >= 0.0
    ensures Sum(s) >= s[i]
    decreases |s|
  {
    if i > 0 {
      SumAtLeastEntry(s[1..], i - 1);
    }
    SumNonNegative(s[1..]);
  }

  lemma {:induction false} SumNonNegative(s: seq<real>)
    requires forall k :: 0 <= k < |s| ==> s[k] >= 0.0
    ensures Sum(s) >= 0.0
    decreases |s|
  {
    if |s| > 0 {
      SumNonNegative(s[1..]);
    }
  }

  /** A product of two non-negative reals is non-negative. */
  lemma {:induction false} MulNonNegative(a: real, b: real)
    requires a >= 0.0 && b >= 0.0
    ensures a * b >= 0.0
  {
  }

  /** A positive `x` below a positive `c` is a share of it strictly between 0 and 1. */
  lemma {:induction false} ShareInUnit(x: real, c: real)
    requires 0.0 < x < c
    ensures 0.0 < x / c < 1.0
  {
    var q := x / c;
    assert q * c == x;
    if q >= 1.0 {
      MulNonNegative(q - 1.0, c);
    }
  }

  lemma {:induction false} DivideSelf(c: real)
    requires c != 0.0
    ensures c / c == 1.0
  {
  }

  /** Every row has `n` entries. */
  predicate Rect(a: seq<seq<real>>, n: nat)
  {
    forall i :: 0 <= i < |a| ==> |a[i]| == n
  }

  /** Column `j` of a matrix. */
  function Column(a: seq<seq<real>>, j: nat): (c: seq<real>)
    requires forall i :: 0 <= i < |a| ==> j < |a[i]|
    ensures |c| == |a| && forall i :: 0 <= i < |a| ==> c[i] == a[i][j]
  {
    seq(|a|, i requires 0 <= i < |a| => a[i][j])
  }

  /** `a.sum(axis=1)`. */
  function RowSums(a: seq<seq<real>>): (r: seq<real>)
    ensures |r| == |a| && forall i :: 0 <= i < |a| ==> r[i] == Sum(a[i])
  {
    seq(|a|, i requires 0 <= i < |a| => Sum(a[i]))
  }

  /** `a.sum(axis=0)` of a matrix with `n` columns. */
  function ColumnSums(a: seq<seq<real>>, n: nat): (r: seq<real>)
    requires Rect(a, n)
    ensures |r| == n && forall j :: 0 <= j < n ==> r[j] == Sum(Column(a, j))
  {
    seq(n, j requires 0 <= j < n => Sum(Column(a, j)))
  }

  /** Adding up by rows or by columns gives the same total. */
  lemma {:induction false} SumRowsColumns(a: seq<seq<real>>, n: nat)
    requires Rect(a, n)
    ensures Sum(RowSums(a)) == Sum(ColumnSums(a, n))
    decreases |a|
  {
    if |a| == 0 {
      SumConstant(ColumnSums(a, n), 0.0);
    } else {
      var rest := a[1..];
      SumRowsColumns(rest, n);
      assert RowSums(a)[1..] == RowSums(rest);
      forall j | 0 <= j < n
        ensures ColumnSums(a, n)[j] == a[0][j] + ColumnSums(rest, n)[j]
      {
        assert Column(a, j)[1..] == Column(rest, j);
      }
      SumAdd(a[0], ColumnSums(rest, n), ColumnSums(a, n));
    }
  }
}
