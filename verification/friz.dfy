/**
 * The eigenvector variant of the Analytic Hierarchy Process in the FRIZ
 * dialogs: read the pairwise table (blank or unreadable cells count as
 * 1), take the eigenvector of the eigenvalue with the largest real part,
 * scale it to sum 1, and rate its consistency.  The eigen-solver is an
 * oracle, and so is `float()` on a cell's text.
 */
module Friz {
  import opened Wrappers
  import opened Sums
  import Ahp

  /** Real parts of what `np.linalg.eig` returns: `vectors[i][k]` is entry `i` of eigenvector `k`. */
  datatype Eigen = Eigen(values: seq<real>, vectors: seq<seq<real>>)

  /** The solver's answer for an `n x n` matrix has `n` values and `n` vectors of length `n`. */
  predicate EigenShape(e: Eigen, n: nat)
  {
    |e.values| == n && |e.vectors| == n && Rect(e.vectors, n)
  }

  /**
   * One table cell: a missing item or empty text gives 1.0, text that
   * `float()` rejects gives 1.0, anything else its value.
   */
  function CellValue(item: Option<string>, parse: string -> Option<real>): (v: real)
    ensures item.None? || item.value == [] ==> v == 1.0
    ensures item.Some? && item.value != [] && parse(item.value).None? ==> v == 1.0
    ensures item.Some? && item.value != [] && parse(item.value).Some? ==> v == parse(item.value).value
  {
    if item.Some? && item.value != [] then
      match parse(item.value)
      case Some(x) => x
      case None => 1.0
    else 1.0
  }

  /** The `n x n` matrix `A` filled cell by cell from the table. */
  function ReadMatrix(n: nat, items: (nat, nat) -> Option<string>, parse: string -> Option<real>): (a: seq<seq<real>>)
    ensures Ahp.Square(a, n)
    ensures forall i, j :: 0 <= i < n && 0 <= j < n ==> a[i][j] == CellValue(items(i, j), parse)
  {
    seq(n, i requires 0 <= i < n => seq(n, j requires 0 <= j < n => CellValue(items(i, j), parse)))
  }

  /** An empty table reads as the all-ones matrix of equal judgements. */
  lemma {:induction false} EmptyTableIsOnes(n: nat, parse: string -> Option<real>)
    ensures ReadMatrix(n, (i, j) => None, parse) == Ahp.Ones(n)
  {
    var a, b := ReadMatrix(n, (i, j) => None, parse), Ahp.Ones(n);
    forall i | 0 <= i < n
      ensures a[i] == b[i]
    {
    }
  }

  /** `np.argmax`: the first index holding the largest value. */
  function ArgMax(s: seq<real>): (k: nat)
    requires |s| > 0
    ensures k < |s|
    ensures forall i :: 0 <= i < |s| ==> s[i] <= s[k]
    ensures forall i :: 0 <= i < k ==> s[i] < s[k]
  {
    if |s| == 1 then 0
    else
      var k := ArgMax(s[..|s| - 1]);
      if s[|s| - 1] > s[k] then |s| - 1 else k
  }

  /**
   * `v / np.sum(v)`.  A zero sum makes numpy produce infinities or NaN
   * instead of weights; that case is `None`.
   */
  function NormaliseBySum(v: seq<real>): (w: Option<seq<real>>)
    ensures w.None? <==> Sum(v) == 0.0
    ensures w.Some? ==> |w.value| == |v| && forall i :: 0 <= i < |v| ==> w.value[i] == v[i] / Sum(v)
  {
    if Sum(v) == 0.0 then None else Some(seq(|v|, i requires 0 <= i < |v| => v[i] / Sum(v)))
  }

  /** Weights scaled by a nonzero sum add up to 1. */
  lemma {:induction false} NormalisedSumsToOne(v: seq<real>)
    requires Sum(v) != 0.0
    ensures Sum(NormaliseBySum(v).value) == 1.0
  {
    SumDivide(v, NormaliseBySum(v).value, Sum(v));
    DivideSelf(Sum(v));
  }

  /** Scaling does not depend on the eigenvector's sign or length: any nonzero multiple gives the same weights. */
  lemma {:induction false} NormaliseScaleInvariant(v: seq<real>, u: seq<real>, c: real)
    requires Sum(v) != 0.0 && c != 0.0
    requires |u| == |v| && forall i :: 0 <= i < |v| ==> u[i] == c * v[i]
    ensures Sum(u) == c * Sum(v) && NormaliseBySum(u) == NormaliseBySum(v)
  {
    SumScale(v, u, c);
    SharesScale(v, u, c, Sum(v), Sum(u));
    SameShares(u, v);
  }

  /** Each entry of the scaled vector is the same share of the scaled total (totals passed as plain numbers). */
  lemma {:induction false} SharesScale(v: seq<real>, u: seq<real>, c: real, sv: real, su: real)
    requires sv != 0.0 && c != 0.0 && su == c * sv
    requires |u| == |v| && forall i :: 0 <= i < |v| ==> u[i] == c * v[i]
    ensures su != 0.0 && forall i :: 0 <= i < |v| ==> u[i] / su == v[i] / sv
  {
    MulNonZero(c, sv);
    forall i | 0 <= i < |v|
      ensures u[i] / su == v[i] / sv
    {
      CancelFactor(v[i], u[i], sv, su, c);
    }
  }

  /** Two vectors whose entries make up the same shares of their sums normalise alike. */
  lemma {:induction false} SameShares(u: seq<real>, v: seq<real>)
    requires Sum(u) != 0.0 && Sum(v) != 0.0 && |u| == |v|
    requires forall i :: 0 <= i < |v| ==> u[i] / Sum(u) == v[i] / Sum(v)
    ensures NormaliseBySum(u) == NormaliseBySum(v)
  {
    assert NormaliseBySum(u).value == NormaliseBySum(v).value;
  }

  lemma {:induction false} MulNonZero(a: real, b: real)
    requires a != 0.0 && b != 0.0
    ensures a * b != 0.0
  {
  }

  /** Multiplying every entry by `c` multiplies the sum by `c`. */
  lemma {:induction false} SumScale(v: seq<real>, u: seq<real>, c: real)
    requires |u| == |v| && forall i :: 0 <= i < |v| ==> u[i] == c * v[i]
    ensures Sum(u) == c * Sum(v)
    decreases |v|
  {
    if |v| > 0 {
      SumScale(v[1..], u[1..], c);
    }
  }

  lemma {:induction false} CancelFactor(x: real, y: real, s: real, t: real, c: real)
    requires s != 0.0 && c != 0.0 && y == c * x && t == c * s
    ensures t != 0.0 && y / t == x / s
  {
    var q := x / s;
    assert q * s == x;
    assert t * q == y;
  }

  /** `CI = (lambda_max - n) / (n - 1) if n > 1 else 0.0`. */
  function ConsistencyIndex(lambdaMax: real, n: nat): (ci: real)
    ensures n <= 1 ==> ci == 0.0
    ensures n > 1 ==> ci * (n - 1) as real == lambdaMax - n as real
  {
    if n > 1 then (lambdaMax - n as real) / (n - 1) as real else 0.0
  }

  /** `CR = CI / RI if RI != 0 else 0.0`, with the same random index table as the predictor. */
  function ConsistencyRatio(lambdaMax: real, n: nat): (cr: real)
    ensures 1 <= n <= 2 ==> cr == 0.0
    ensures (n == 0 || n >= 3) ==> cr * Ahp.RandomIndex(n) == ConsistencyIndex(lambdaMax, n)
  {
    var ri := Ahp.RandomIndex(n);
    if ri != 0.0 then ConsistencyIndex(lambdaMax, n) / ri else 0.0
  }

  /** From three criteria on, both variants give the same ratio when fed the same eigenvalue. */
  lemma {:induction false} RatioAgreesWithPredictor(lambdaMax: real, n: nat)
    requires n >= 3
    ensures Ahp.ConsistencyRatio(lambdaMax, n) == Some(ConsistencyRatio(lambdaMax, n))
  {
  }

  /** Ratio 0 exactly when the eigenvalue equals the number of criteria (for three or more). */
  lemma {:induction false} RatioZeroIffConsistent(lambdaMax: real, n: nat)
    requires n >= 3
    ensures ConsistencyRatio(lambdaMax, n) == 0.0 <==> lambdaMax == n as real
  {
  }

  datatype FrizError =
    | EmptyTable    // `np.argmax` of the eigenvalues of a 0 x 0 matrix raises
    | TooFewWeights // `ahp_weights[3]` on fewer than four criteria raises `IndexError`

  /** What `collect_ahp_values` returns: the weights (`None` for a zero-sum eigenvector) and CR. */
  datatype AhpValues = AhpValues(weights: Option<seq<real>>, cr: real)

  /**
   * `collect_ahp_values`: build the matrix, ask the solver, pick the
   * eigenpair with the largest real eigenvalue, normalise, rate.
   */
  function CollectAhpValues(n: nat, items: (nat, nat) -> Option<string>, parse: string -> Option<real>, eig: seq<seq<real>> -> Eigen): (r: Result<AhpValues, FrizError>)
    requires EigenShape(eig(ReadMatrix(n, items, parse)), n)
    ensures r.Failure? <==> n == 0
    ensures r.Success? ==> var e := eig(ReadMatrix(n, items, parse)); var k := ArgMax(e.values);
      && r.value.cr == ConsistencyRatio(e.values[k], n)
      && r.value.weights == NormaliseBySum(Column(e.vectors, k))
      && (r.value.weights.Some? ==> |r.value.weights.value| == n && Sum(r.value.weights.value) == 1.0)
  {
    if n == 0 then Failure(EmptyTable)
    else
      var e := eig(ReadMatrix(n, items, parse));
      var k := ArgMax(e.values);
      var v := Column(e.vectors, k);
      var w := NormaliseBySum(v);
      assert w.Some? ==> Sum(w.value) == 1.0 by {
        if w.Some? {
          NormalisedSumsToOne(v);
        }
      }
      Success(AhpValues(w, ConsistencyRatio(e.values[k], n)))
  }

  /** The four weight spin boxes, in criterion order. */
  datatype SpinBoxes = SpinBoxes(elevation: real, slope: real, proximity: real, rainfall: real)

  /**
   * `calculate_ahp`: the first four weights fill the spin boxes for
   * elevation, slope, proximity and rainfall.  Fewer than four criteria
   * raise on the missing index.
   */
  function CalculateAhp(w: seq<real>): (r: Result<SpinBoxes, FrizError>)
    ensures r.Failure? <==> |w| < 4
    ensures r.Success? ==> r.value == SpinBoxes(w[0], w[1], w[2], w[3])
  {
    if |w| < 4 then Failure(TooFewWeights) else Success(SpinBoxes(w[0], w[1], w[2], w[3]))
  }

  /** With exactly four criteria the spin boxes hold the whole weight vector, so they sum to 1. */
  lemma {:induction false} FourSpinBoxesSumToOne(w: seq<real>)
    requires |w| == 4 && Sum(w) == 1.0
    ensures var b := CalculateAhp(w).value; b.elevation + b.slope + b.proximity + b.rainfall == 1.0
  {
    assert Sum(w[3..]) == w[3] by { assert w[3..][1..] == []; }
    assert Sum(w[2..]) == w[2] + Sum(w[3..]) by { assert w[2..][1..] == w[3..]; }
    assert Sum(w[1..]) == w[1] + Sum(w[2..]) by { assert w[1..][1..] == w[2..]; }
  }
}
