/**
 * The column-normalisation approximation of the Analytic Hierarchy Process
 * used by the shapefile predictor: normalise every column of the pairwise
 * comparison matrix to sum 1, average each row to get the priority
 * weights, estimate the principal eigenvalue from `A . w`, and derive the
 * consistency index and ratio.  A ratio above 0.1 aborts the prediction.
 */
module Ahp {
  import opened Wrappers
  import opened Sums

  /** An `n x n` matrix. */
  predicate Square(a: seq<seq<real>>, n: nat)
  {
    |a| == n && Rect(a, n)
  }

  /** Every entry is strictly positive, as pairwise comparison judgements are. */
  predicate Positive(a: seq<seq<real>>)
  {
    forall i, j :: 0 <= i < |a| && 0 <= j < |a[i]| ==> a[i][j] > 0.0
  }

  /** Every column sum is positive: what the column division needs. */
  predicate PositiveColumns(a: seq<seq<real>>, n: nat)
    requires Rect(a, n)
  {
    forall j :: 0 <= j < n ==> Sum(Column(a, j)) > 0.0
  }

  /** Positive entries make every column sum positive. */
  lemma {:induction false} PositiveHasPositiveColumns(a: seq<seq<real>>, n: nat)
    requires Square(a, n) && Positive(a)
    ensures PositiveColumns(a, n)
  {
    forall j | 0 <= j < n
      ensures Sum(Column(a, j)) > 0.0
    {
      SumAtLeastEntry(Column(a, j), 0);
    }
  }

  /** `matrix / matrix.sum(axis=0)`. */
  function NormaliseColumns(a: seq<seq<real>>, n: nat): (m: seq<seq<real>>)
    requires Square(a, n) && PositiveColumns(a, n)
    ensures Square(m, n)
    ensures forall i, j :: 0 <= i < n && 0 <= j < n ==> m[i][j] == a[i][j] / Sum(Column(a, j))
  {
    seq(n, i requires 0 <= i < n => seq(n, j requires 0 <= j < n => a[i][j] / Sum(Column(a, j))))
  }

  /** Every column of the normalised matrix sums to 1. */
  lemma {:induction false} NormalisedColumnsSumToOne(a: seq<seq<real>>, n: nat, j: nat)
    requires Square(a, n) && PositiveColumns(a, n) && j < n
    ensures Sum(Column(NormaliseColumns(a, n), j)) == 1.0
  {
    var m := NormaliseColumns(a, n);
    var c := Sum(Column(a, j));
    assert forall i :: 0 <= i < n ==> Column(m, j)[i] == Column(a, j)[i] / c;
    SumDivide(Column(a, j), Column(m, j), c);
    DivideSelf(c);
  }

  /** `norm_matrix.mean(axis=1)`: the priority weight of each criterion. */
  function PriorityWeights(a: seq<seq<real>>, n: nat): (w: seq<real>)
    requires Square(a, n) && PositiveColumns(a, n)
    ensures |w| == n
    ensures forall i :: 0 <= i < n ==> w[i] == Sum(NormaliseColumns(a, n)[i]) / n as real
  {
    var m := NormaliseColumns(a, n);
    seq(n, i requires 0 <= i < n => Sum(m[i]) / n as real)
  }

  /** The weights add up to the grand total of the normalised matrix over `n`. */
  lemma {:induction false} WeightsTotal(a: seq<seq<real>>, n: nat)
    requires Square(a, n) && PositiveColumns(a, n) && n > 0
    ensures Sum(PriorityWeights(a, n)) == Sum(RowSums(NormaliseColumns(a, n))) / n as real
  {
    var m := NormaliseColumns(a, n);
    var w := PriorityWeights(a, n);
    var rs := RowSums(m);
    assert forall i :: 0 <= i < n ==> w[i] == rs[i] / n as real;
    SumDivide(rs, w, n as real);
  }

  /** The normalised matrix has grand total `n`: each of its `n` columns sums to 1. */
  lemma {:induction false} NormalisedTotal(a: seq<seq<real>>, n: nat)
    requires Square(a, n) && PositiveColumns(a, n)
    ensures Sum(RowSums(NormaliseColumns(a, n))) == n as real
  {
    var m := NormaliseColumns(a, n);
    var cs := ColumnSums(m, n);
    SumRowsColumns(m, n);
    forall j | 0 <= j < n
      ensures cs[j] == 1.0
    {
      NormalisedColumnsSumToOne(a, n, j);
    }
    SumConstant(cs, 1.0);
  }

  /** The priority weights sum to 1. */
  lemma {:induction false} WeightsSumToOne(a: seq<seq<real>>, n: nat)
    requires Square(a, n) && PositiveColumns(a, n) && n > 0
    ensures Sum(PriorityWeights(a, n)) == 1.0
  {
    WeightsTotal(a, n);
    NormalisedTotal(a, n);
    DivideSelf(n as real);
  }

  /** With at least two positive entries a sum exceeds each of them. */
  lemma {:induction false} SumExceedsEntry(s: seq<real>, i: nat)
    requires 2 <= |s| && i < |s| && forall k :: 0 <= k < |s| ==> s[k] > 0.0
    ensures Sum(s) > s[i]
    decreases |s|
  {
    if i == 0 {
      SumAtLeastEntry(s[1..], 0);
    } else if |s| == 2 {
      assert Sum(s[1..]) == s[1];
    } else {
      SumExceedsEntry(s[1..], i - 1);
    }
  }

  /** For a positive matrix of at least two criteria every weight lies strictly between 0 and 1. */
  lemma {:induction false} WeightsInUnit(a: seq<seq<real>>, n: nat, i: nat)
    requires Square(a, n) && Positive(a) && 2 <= n && i < n
    ensures PositiveColumns(a, n) && 0.0 < PriorityWeights(a, n)[i] < 1.0
  {
    PositiveHasPositiveColumns(a, n);
    var m := NormaliseColumns(a, n);
    forall j | 0 <= j < n
      ensures 0.0 < m[i][j] < 1.0
    {
      SumExceedsEntry(Column(a, j), i);
      ShareInUnit(a[i][j], Sum(Column(a, j)));
    }
    SumStrictBounds(m[i], 0.0, 1.0);
    ShareInUnit(Sum(m[i]), n as real);
  }

  /** `np.dot(x, y)`. */
  function Dot(x: seq<real>, y: seq<real>): (d: real)
    requires |x| == |y|
  {
    if |x| == 0 then 0.0 else x[0] * y[0] + Dot(x[1..], y[1..])
  }

  /** `np.dot(matrix, weights)`. */
  function MatVec(a: seq<seq<real>>, w: seq<real>): (r: seq<real>)
    requires Rect(a, |w|)
    ensures |r| == |a| && forall i :: 0 <= i < |a| ==> r[i] == Dot(a[i], w)
  {
    seq(|a|, i requires 0 <= i < |a| => Dot(a[i], w))
  }

  /** `weighted_sum.mean() / weights.mean()`. */
  function LambdaMax(a: seq<seq<real>>, w: seq<real>): (l: real)
    requires Square(a, |w|) && |w| > 0 && Sum(w) != 0.0
  {
    var n := |w| as real;
    (Sum(MatVec(a, w)) / n) / (Sum(w) / n)
  }

  /** With weights summing to 1 the eigenvalue estimate is the plain total of `A . w`. */
  lemma {:induction false} LambdaMaxIsTotal(a: seq<seq<real>>, w: seq<real>)
    requires Square(a, |w|) && |w| > 0 && Sum(w) == 1.0
    ensures LambdaMax(a, w) == Sum(MatVec(a, w))
  {
    DivideByMean(Sum(MatVec(a, w)), |w| as real);
  }

  /** Dividing a mean by the mean of weights summing to 1 gives back the total. */
  lemma {:induction false} DivideByMean(t: real, n: real)
    requires n > 0.0
    ensures (t / n) / (1.0 / n) == t
  {
    var p, q := t / n, 1.0 / n;
    assert p * n == t && q * n == 1.0;
    assert p == t * q;
  }

  /** The random consistency index table, 1.49 beyond ten criteria. */
  function RandomIndex(n: nat): (ri: real)
    ensures 1 <= n <= 2 ==> ri == 0.0
    ensures (n == 0 || n >= 3) ==> ri > 0.0
    ensures n >= 10 || n == 0 ==> ri == 1.49
  {
    if n == 1 then 0.0 else if n == 2 then 0.0 else if n == 3 then 0.58
    else if n == 4 then 0.9 else if n == 5 then 1.12 else if n == 6 then 1.24
    else if n == 7 then 1.32 else if n == 8 then 1.41 else if n == 9 then 1.45
    else 1.49
  }

  /** The table never decreases with the number of criteria from 1 on. */
  lemma {:induction false} RandomIndexMonotone(n: nat, k: nat)
    requires 1 <= n <= k
    ensures RandomIndex(n) <= RandomIndex(k)
  {
  }

  /** `CI = (lambda_max - n) / (n - 1)`. */
  function ConsistencyIndex(lambdaMax: real, n: nat): (ci: real)
    requires n >= 2
  {
    (lambdaMax - n as real) / (n - 1) as real
  }

  /**
   * `CR = CI / RI`.  Neither division is guarded: for one or two criteria
   * a divisor is zero, so the ratio is undefined (`None`).
   */
  function ConsistencyRatio(lambdaMax: real, n: nat): (cr: Option<real>)
    ensures cr.None? <==> n <= 2
    ensures cr.Some? ==> cr.value * RandomIndex(n) == ConsistencyIndex(lambdaMax, n)
  {
    if n <= 2 then None else Some(ConsistencyIndex(lambdaMax, n) / RandomIndex(n))
  }

  /** A perfectly consistent estimate `lambdaMax == n` has ratio 0. */
  lemma {:induction false} ConsistentRatioIsZero(n: nat)
    requires n >= 3
    ensures ConsistencyRatio(n as real, n) == Some(0.0)
  {
  }

  /** What `calculate_ahp_weights` returns: the weights and the consistency ratio (`None` where it is undefined). */
  datatype AhpResult = AhpResult(weights: seq<real>, ratio: Option<real>)

  /** `calculate_ahp_weights`: the weights and the consistency ratio. */
  function CalculateWeights(a: seq<seq<real>>, n: nat): (r: AhpResult)
    requires Square(a, n) && PositiveColumns(a, n) && n > 0
    ensures r.weights == PriorityWeights(a, n) && Sum(r.weights) == 1.0
    ensures r.ratio.None? <==> n <= 2
  {
    var w := PriorityWeights(a, n);
    WeightsSumToOne(a, n);
    AhpResult(w, ConsistencyRatio(LambdaMax(a, w), n))
  }

  /** The `n x n` matrix of ones: every criterion judged equal to every other. */
  function Ones(n: nat): (a: seq<seq<real>>)
    ensures Square(a, n) && Positive(a) && PositiveColumns(a, n)
    ensures forall i, j :: 0 <= i < n && 0 <= j < n ==> a[i][j] == 1.0
  {
    var a := seq(n, i => seq(n, j => 1.0));
    PositiveHasPositiveColumns(a, n);
    a
  }

  /** Normalising the matrix of ones gives `1/n` everywhere. */
  lemma {:induction false} OnesNormalised(n: nat, i: nat, j: nat)
    requires i < n && j < n
    ensures NormaliseColumns(Ones(n), n)[i][j] == 1.0 / n as real
  {
    SumConstant(Column(Ones(n), j), 1.0);
  }

  /** Equal judgements give equal weights `1/n`. */
  lemma {:induction false} OnesEqualWeights(n: nat, i: nat)
    requires n > 0 && i < n
    ensures PriorityWeights(Ones(n), n)[i] == 1.0 / n as real
  {
    var m := NormaliseColumns(Ones(n), n);
    var k := 1.0 / n as real;
    forall j | 0 <= j < n
      ensures m[i][j] == k
    {
      OnesNormalised(n, i, j);
    }
    SumConstant(m[i], k);
    MeanOfShares(n as real);
  }

  /** `n` shares of `1/n` average to `1/n`. */
  lemma {:induction false} MeanOfShares(n: real)
    requires n > 0.0
    ensures (n * (1.0 / n)) / n == 1.0 / n
  {
    assert n * (1.0 / n) == 1.0;
  }

  /** Equal judgements are perfectly consistent: the eigenvalue estimate is `n` and CI is 0. */
  lemma {:induction false} OnesConsistent(n: nat)
    requires n >= 2
    ensures var w := PriorityWeights(Ones(n), n);
      Sum(w) == 1.0 && LambdaMax(Ones(n), w) == n as real && ConsistencyIndex(LambdaMax(Ones(n), w), n) == 0.0
  {
    var a := Ones(n);
    var w := PriorityWeights(a, n);
    WeightsSumToOne(a, n);
    LambdaMaxIsTotal(a, w);
    forall i | 0 <= i < n
      ensures MatVec(a, w)[i] == 1.0
    {
      OnesDot(w);
    }
    SumConstant(MatVec(a, w), 1.0);
  }

  /** A row of ones dotted with weights summing to 1 gives 1. */
  lemma {:induction false} OnesDot(w: seq<real>)
    ensures Dot(seq(|w|, j => 1.0), w) == Sum(w)
    decreases |w|
  {
    if |w| > 0 {
      assert seq(|w|, j => 1.0)[1..] == seq(|w| - 1, j => 1.0);
      OnesDot(w[1..]);
    }
  }

  /**
   * The hard-coded pairwise comparison matrix of the shapefile predictor,
   * criteria in the order elevation, slope, rivers, land cover, rainfall,
   * historical floods.
   */
  const GisMatrix: seq<seq<real>> := [
    [1.0, 2.0, 4.0, 1.0 / 2.0, 3.0, 5.0],
    [1.0 / 2.0, 1.0, 3.0, 1.0 / 3.0, 2.0, 4.0],
    [1.0 / 4.0, 1.0 / 3.0, 1.0, 1.0 / 5.0, 1.0, 3.0],
    [2.0, 3.0, 5.0, 1.0, 4.0, 6.0],
    [1.0 / 3.0, 1.0 / 2.0, 1.0, 1.0 / 4.0, 1.0, 2.0],
    [1.0 / 5.0, 1.0 / 4.0, 1.0 / 3.0, 1.0 / 6.0, 1.0 / 2.0, 1.0]]

  /** The number of criteria the predictor weighs. */
  const GisCriteria := 6

  /** The matrix is a well-formed judgement matrix: square, positive, unit diagonal and reciprocal. */
  lemma {:induction false} GisMatrixReciprocal()
    ensures Square(GisMatrix, GisCriteria) && Positive(GisMatrix)
    ensures forall i :: 0 <= i < GisCriteria ==> GisMatrix[i][i] == 1.0
    ensures forall i, j :: 0 <= i < GisCriteria && 0 <= j < GisCriteria ==> GisMatrix[j][i] * GisMatrix[i][j] == 1.0
  {
  }

  /** `calculate_ahp_weights(pairwise_matrix)` for the hard-coded matrix. */
  function GisWeights(): (r: AhpResult)
    ensures |r.weights| == GisCriteria && Sum(r.weights) == 1.0 && r.ratio.Some?
    ensures forall i :: 0 <= i < GisCriteria ==> 0.0 < r.weights[i] < 1.0
  {
    GisMatrixReciprocal();
    PositiveHasPositiveColumns(GisMatrix, GisCriteria);
    forall i | 0 <= i < GisCriteria
      ensures 0.0 < PriorityWeights(GisMatrix, GisCriteria)[i] < 1.0
    {
      WeightsInUnit(GisMatrix, GisCriteria, i);
    }
    CalculateWeights(GisMatrix, GisCriteria)
  }

  /** Why `predict_flood_risk` stops without a map. */
  datatype GisError =
    | Inconsistent        // `CR > 0.1`: the prediction stops before any score
    | Shape(factor: nat)  // the `+=` of this factor raises: numpy cannot broadcast it onto the scores

  /** numpy broadcasts a factor onto `regions` scores when it holds one value per region or a single value. */
  predicate Broadcasts(factor: seq<real>, regions: nat) {
    |factor| == regions || |factor| == 1
  }

  /** Entry `r` of a factor as the broadcasting `+=` reads it: a single value serves every region. */
  function Entry(factor: seq<real>, r: nat): (v: real)
    requires r < |factor| || |factor| == 1
    ensures v in factor
    ensures r < |factor| ==> v == factor[r]
  {
    if |factor| == 1 then factor[0] else factor[r]
  }

  /** The score of region `r` after the first `k` factors have been added in. */
  function PartialScore(data: seq<seq<real>>, w: seq<real>, r: nat, k: nat): (score: real)
    requires k <= |data| && k <= |w| && forall f :: 0 <= f < k ==> r < |data[f]| || |data[f]| == 1
  {
    if k == 0 then 0.0 else PartialScore(data, w, r, k - 1) + Entry(data[k - 1], r) * w[k - 1]
  }

  /** The score of region `r` over the six factors, under the hard-coded matrix's weights. */
  function GisScore(data: seq<seq<real>>, r: nat): (score: real)
    requires |data| == GisCriteria && forall f :: 0 <= f < GisCriteria ==> r < |data[f]| || |data[f]| == 1
  {
    PartialScore(data, GisWeights().weights, r, GisCriteria)
  }

  /**
   * `flood_risk_scores += data[factor] * weights[idx]` over the factors in
   * order, from a zero vector of one score per region. The first factor
   * numpy cannot broadcast raises, and the exception ends the prediction.
   */
  method Scores(data: seq<seq<real>>, w: seq<real>, regions: nat) returns (r: Result<seq<real>, GisError>)
    requires |data| <= |w|
    ensures r.Failure? <==> exists f :: 0 <= f < |data| && !Broadcasts(data[f], regions)
    ensures r.Failure? ==> r.error.Shape? && r.error.factor < |data| && !Broadcasts(data[r.error.factor], regions)
    ensures r.Failure? ==> forall f :: 0 <= f < r.error.factor ==> Broadcasts(data[f], regions)
    ensures r.Success? ==> |r.value| == regions
    ensures r.Success? ==> forall k :: 0 <= k < regions ==> r.value[k] == PartialScore(data, w, k, |data|)
  {
    var s := seq(regions, k => 0.0);
    var idx := 0;
    while idx < |data|
      invariant idx <= |data| && |s| == regions
      invariant forall f :: 0 <= f < idx ==> Broadcasts(data[f], regions)
      invariant forall k :: 0 <= k < regions ==> s[k] == PartialScore(data, w, k, idx)
    {
      var factor := data[idx];
      if !Broadcasts(factor, regions) {
        return Failure(Shape(idx));
      }
      var weight := w[idx];
      s := seq(regions, k requires 0 <= k < regions => s[k] + Entry(factor, k) * weight);
      idx := idx + 1;
    }
    return Success(s);
  }

  /** A region scoring `v` on every factor scores `v` times the weight total. */
  lemma {:induction false} UniformRegionScore(data: seq<seq<real>>, w: seq<real>, r: nat, k: nat, v: real)
    requires k <= |data| && k <= |w|
    requires forall f :: 0 <= f < k ==> (r < |data[f]| || |data[f]| == 1) && Entry(data[f], r) == v
    ensures PartialScore(data, w, r, k) == v * Sum(w[..k])
    decreases k
  {
    if k > 0 {
      UniformRegionScore(data, w, r, k - 1, v);
      assert w[..k] == w[..k - 1] + [w[k - 1]];
      SumConcat(w[..k - 1], [w[k - 1]]);
    }
  }

  /**
   * `predict_flood_risk` from its six factor columns: the consistency gate
   * first, then the scoring, whose first unbroadcastable factor raises.
   */
  method PredictFloodRisk(data: seq<seq<real>>, regions: nat) returns (r: Result<seq<real>, GisError>)
    requires |data| == GisCriteria
    ensures r.Failure? <==> GisWeights().ratio.value > 0.1 || exists f :: 0 <= f < |data| && !Broadcasts(data[f], regions)
    ensures GisWeights().ratio.value > 0.1 ==> r == Failure(Inconsistent)
    ensures r.Failure? && GisWeights().ratio.value <= 0.1 ==>
      r.error.Shape? && r.error.factor < |data| && !Broadcasts(data[r.error.factor], regions) &&
      forall f :: 0 <= f < r.error.factor ==> Broadcasts(data[f], regions)
    ensures r.Success? ==> |r.value| == regions
    ensures r.Success? ==> forall k :: 0 <= k < regions ==> r.value[k] == GisScore(data, k)
  {
    var gis := GisWeights();
    if gis.ratio.value > 0.1 {
      return Failure(Inconsistent);
    }
    r := Scores(data, gis.weights, regions);
  }

  /**
   * The elevation column when a DEM is given: its cells, flattened, and
   * padded with zeros up to one value per region only when there are fewer.
   */
  function ElevationColumn(dem: seq<real>, regions: nat): (e: seq<real>)
    ensures |e| == if |dem| < regions then regions else |dem|
    ensures e[..|dem|] == dem
    ensures forall i :: |dem| <= i < |e| ==> e[i] == 0.0
  {
    if |dem| < regions then dem + seq(regions - |dem|, i => 0.0) else dem
  }

  /**
   * The prediction with a DEM file: the flattened DEM is the elevation
   * column, the other five factors are drawn with one value per region.
   * A DEM with more than one cell and more cells than regions always fails
   * on the elevation factor, since nothing maps its cells to the regions.
   */
  method PredictFromDem(dem: seq<real>, slope: seq<real>, rivers: seq<real>, landCover: seq<real>,
                        rainfall: seq<real>, floods: seq<real>, regions: nat) returns (r: Result<seq<real>, GisError>)
    requires |slope| == |rivers| == |landCover| == |rainfall| == |floods| == regions
    ensures r.Failure? <==> |dem| > regions && |dem| != 1
    ensures r.Failure? ==> r == Failure(Shape(0))
    ensures r.Success? ==> |r.value| == regions
    ensures r.Success? ==> forall k :: 0 <= k < regions ==>
      r.value[k] == GisScore([ElevationColumn(dem, regions), slope, rivers, landCover, rainfall, floods], k)
  {
    GisMatrixConsistent();
    var column := ElevationColumn(dem, regions);
    var data := [column, slope, rivers, landCover, rainfall, floods];
    if Broadcasts(column, regions) {
      assert forall f :: 0 <= f < |data| ==> Broadcasts(data[f], regions);
    } else {
      assert |dem| > regions && |dem| != 1 && !Broadcasts(data[0], regions);
    }
    r := PredictFloodRisk(data, regions);
  }

  /**
   * The intended prediction with a DEM: each region takes one elevation,
   * `zonal(i)`, the DEM summarised over region `i` (a zonal statistic this
   * model takes as given). Every factor then has one value per region and
   * the prediction always produces the weighted scores.
   */
  method PredictFromZones(zonal: nat -> real, slope: seq<real>, rivers: seq<real>, landCover: seq<real>,
                          rainfall: seq<real>, floods: seq<real>, regions: nat) returns (r: Result<seq<real>, GisError>)
    requires |slope| == |rivers| == |landCover| == |rainfall| == |floods| == regions
    ensures r.Success? && |r.value| == regions
    ensures forall k :: 0 <= k < regions ==>
      r.value[k] == GisScore([seq(regions, i requires 0 <= i < regions => zonal(i)), slope, rivers, landCover, rainfall, floods], k)
  {
    GisMatrixConsistent();
    var column := seq(regions, i requires 0 <= i < regions => zonal(i));
    r := PredictFloodRisk([column, slope, rivers, landCover, rainfall, floods], regions);
  }

  /** A six-entry sum written out. */
  lemma {:induction false} Sum6(s: seq<real>)
    requires |s| == 6
    ensures Sum(s) == s[0] + s[1] + s[2] + s[3] + s[4] + s[5]
  {
    assert Sum(s[5..]) == s[5];
    assert Sum(s[4..]) == s[4] + Sum(s[5..]) by { assert s[4..][1..] == s[5..]; }
    assert Sum(s[3..]) == s[3] + Sum(s[4..]) by { assert s[3..][1..] == s[4..]; }
    assert Sum(s[2..]) == s[2] + Sum(s[3..]) by { assert s[2..][1..] == s[3..]; }
    assert Sum(s[1..]) == s[1] + Sum(s[2..]) by { assert s[1..][1..] == s[2..]; }
  }

  /** A six-entry dot product written out. */
  lemma {:induction false} Dot6(x: seq<real>, y: seq<real>)
    requires |x| == 6 && |y| == 6
    ensures Dot(x, y) == x[0] * y[0] + x[1] * y[1] + x[2] * y[2] + x[3] * y[3] + x[4] * y[4] + x[5] * y[5]
  {
    assert Dot(x[5..], y[5..]) == x[5] * y[5];
    assert Dot(x[4..], y[4..]) == x[4] * y[4] + Dot(x[5..], y[5..]) by { assert x[4..][1..] == x[5..] && y[4..][1..] == y[5..]; }
    assert Dot(x[3..], y[3..]) == x[3] * y[3] + Dot(x[4..], y[4..]) by { assert x[3..][1..] == x[4..] && y[3..][1..] == y[4..]; }
    assert Dot(x[2..], y[2..]) == x[2] * y[2] + Dot(x[3..], y[3..]) by { assert x[2..][1..] == x[3..] && y[2..][1..] == y[3..]; }
    assert Dot(x[1..], y[1..]) == x[1] * y[1] + Dot(x[2..], y[2..]) by { assert x[1..][1..] == x[2..] && y[1..][1..] == y[2..]; }
  }

  /** The column totals of the hard-coded matrix. */
  lemma {:induction false} GisColumnSums()
    ensures Sum(Column(GisMatrix, 0)) == 257.0 / 60.0
    ensures Sum(Column(GisMatrix, 1)) == 85.0 / 12.0
    ensures Sum(Column(GisMatrix, 2)) == 43.0 / 3.0
    ensures Sum(Column(GisMatrix, 3)) == 49.0 / 20.0
    ensures Sum(Column(GisMatrix, 4)) == 23.0 / 2.0
    ensures Sum(Column(GisMatrix, 5)) == 21.0
  {
    Sum6(Column(GisMatrix, 0));
    Sum6(Column(GisMatrix, 1));
    Sum6(Column(GisMatrix, 2));
    Sum6(Column(GisMatrix, 3));
    Sum6(Column(GisMatrix, 4));
    Sum6(Column(GisMatrix, 5));
  }

  /** The exact priority weights of the hard-coded matrix, as fractions. */
  const GisExactWeights: seq<real> := [
    4757270279.0 / 19055349810.0, 341462683.0 / 2117261090.0, 515170213.0 / 6351783270.0,
    2414732387.0 / 6351783270.0, 797803228.0 / 9527674905.0, 419800564.0 / 9527674905.0]

  /** The weight of criterion `i`: the mean of its normalised row. */
  lemma {:induction false} GisWeightAt(i: nat)
    requires i < GisCriteria
    ensures PositiveColumns(GisMatrix, GisCriteria)
    ensures PriorityWeights(GisMatrix, GisCriteria)[i] == GisExactWeights[i]
  {
    if i < 3 { GisWeightUpper(i); } else { GisWeightLower(i); }
  }

  /** The weights of the first three criteria. */
  lemma {:induction false} GisWeightUpper(i: nat)
    requires i < 3
    ensures PositiveColumns(GisMatrix, GisCriteria)
    ensures PriorityWeights(GisMatrix, GisCriteria)[i] == GisExactWeights[i]
  {
    GisMatrixReciprocal();
    PositiveHasPositiveColumns(GisMatrix, GisCriteria);
    GisColumnSums();
    var m := NormaliseColumns(GisMatrix, GisCriteria);
    if i == 0 { Sum6(m[0]); }
    else if i == 1 { Sum6(m[1]); }
    else { Sum6(m[2]); }
  }

  /** The weights of the last three criteria. */
  lemma {:induction false} GisWeightLower(i: nat)
    requires 3 <= i < GisCriteria
    ensures PositiveColumns(GisMatrix, GisCriteria)
    ensures PriorityWeights(GisMatrix, GisCriteria)[i] == GisExactWeights[i]
  {
    GisMatrixReciprocal();
    PositiveHasPositiveColumns(GisMatrix, GisCriteria);
    GisColumnSums();
    var m := NormaliseColumns(GisMatrix, GisCriteria);
    if i == 3 { Sum6(m[3]); }
    else if i == 4 { Sum6(m[4]); }
    else { Sum6(m[5]); }
  }

  /** The exact priority weights of the hard-coded matrix. */
  lemma {:induction false} GisWeightValues()
    ensures PositiveColumns(GisMatrix, GisCriteria)
    ensures PriorityWeights(GisMatrix, GisCriteria) == GisExactWeights
  {
    GisWeightAt(0);
    forall i | 0 <= i < GisCriteria
      ensures PriorityWeights(GisMatrix, GisCriteria)[i] == GisExactWeights[i]
    {
      GisWeightAt(i);
    }
  }

  /** The entries of `A . w` for the hard-coded matrix and its exact weights. */
  const GisWeightedSums: seq<real> := [
    1319669543.0 / 846904436.0, 1814541049.0 / 1814795220.0, 186449310599.0 / 381106996200.0,
    15041938649.0 / 6351783270.0, 117044489693.0 / 228664197720.0, 11288190789.0 / 42345221800.0]

  /** Row `i` of the matrix dotted with the exact weights. */
  lemma {:induction false} GisProductAt(i: nat)
    requires i < GisCriteria
    ensures Square(GisMatrix, |GisExactWeights|)
    ensures MatVec(GisMatrix, GisExactWeights)[i] == GisWeightedSums[i]
  {
    GisMatrixReciprocal();
    if i == 0 { GisRow0(); }
    else if i == 1 { GisRow1(); }
    else if i == 2 { GisRow2(); }
    else if i == 3 { GisRow3(); }
    else if i == 4 { GisRow4(); }
    else { GisRow5(); }
  }

  /* One row of `A . w` each, written out. */
  lemma {:induction false} GisRow0()
    ensures Dot(GisMatrix[0], GisExactWeights) == GisWeightedSums[0]
  {
    Dot6(GisMatrix[0], GisExactWeights);
  }

  lemma {:induction false} GisRow1()
    ensures Dot(GisMatrix[1], GisExactWeights) == GisWeightedSums[1]
  {
    Dot6(GisMatrix[1], GisExactWeights);
  }

  lemma {:induction false} GisRow2()
    ensures Dot(GisMatrix[2], GisExactWeights) == GisWeightedSums[2]
  {
    Dot6(GisMatrix[2], GisExactWeights);
  }

  lemma {:induction false} GisRow3()
    ensures Dot(GisMatrix[3], GisExactWeights) == GisWeightedSums[3]
  {
    Dot6(GisMatrix[3], GisExactWeights);
  }

  lemma {:induction false} GisRow4()
    ensures Dot(GisMatrix[4], GisExactWeights) == GisWeightedSums[4]
  {
    Dot6(GisMatrix[4], GisExactWeights);
  }

  lemma {:induction false} GisRow5()
    ensures Dot(GisMatrix[5], GisExactWeights) == GisWeightedSums[5]
  {
    Dot6(GisMatrix[5], GisExactWeights);
  }

  /** The total of `A . w`, the eigenvalue estimate, is `1416323046461 / 228664197720`. */
  lemma {:induction false} GisProductTotal()
    ensures Square(GisMatrix, |GisExactWeights|)
    ensures Sum(MatVec(GisMatrix, GisExactWeights)) == 1416323046461.0 / 228664197720.0
  {
    GisProductAt(0);
    var aw := MatVec(GisMatrix, GisExactWeights);
    forall i | 0 <= i < GisCriteria
      ensures aw[i] == GisWeightedSums[i]
    {
      GisProductAt(i);
    }
    Sum6(aw);
  }

  /**
   * The hard-coded matrix passes the consistency gate: its eigenvalue
   * estimate is `1416323046461 / 228664197720` (about 6.194), so CR is
   * about 0.031, below 0.1, and the prediction always goes on to score.
   */
  lemma {:induction false} GisMatrixConsistent()
    ensures GisWeights().ratio.value <= 0.1
  {
    GisLambdaMax();
    GisRatioBelowGate(LambdaMax(GisMatrix, PriorityWeights(GisMatrix, GisCriteria)));
  }

  /** The eigenvalue estimate of the hard-coded matrix, from its exact weights. */
  lemma {:induction false} GisLambdaMax()
    ensures PositiveColumns(GisMatrix, GisCriteria) && Sum(PriorityWeights(GisMatrix, GisCriteria)) == 1.0
    ensures LambdaMax(GisMatrix, PriorityWeights(GisMatrix, GisCriteria)) == 1416323046461.0 / 228664197720.0
  {
    GisWeightValues();
    var w := PriorityWeights(GisMatrix, GisCriteria);
    WeightsSumToOne(GisMatrix, GisCriteria);
    LambdaMaxIsTotal(GisMatrix, w);
    GisProductTotal();
  }

  /** Six criteria with that eigenvalue estimate rate below the 0.1 gate. */
  lemma {:induction false} GisRatioBelowGate(lambdaMax: real)
    requires lambdaMax == 1416323046461.0 / 228664197720.0
    ensures ConsistencyRatio(lambdaMax, GisCriteria).Some? && ConsistencyRatio(lambdaMax, GisCriteria).value <= 0.1
  {
  }
}
