/**
 * The Weibull distribution object of util/weibull.py and its maximum-likelihood
 * estimator: the masked evaluation of the density and the cumulative function,
 * the precondition checks of the two ML steps and the failure isolation of
 * `estimate`. Every floating-point body is a field of `Numerics`.
 */
module WeibullModel {
  import opened Wrappers
  import opened Samples

  /** `Weibull(lambd, beta)`: scale and shape, stored as given and never changed. */
  datatype Weibull = Weibull(lambd: Float, beta: Float)

  /** The marker both estimators return when estimation raised: `Weibull(-999, -999)`. */
  const Failed: Weibull := Weibull(Num(-999.0), Num(-999.0))

  /**
   * The floating-point library calls the core makes, as uninterpreted functions.
   * A result of `None` means that the call raised.
   */
  datatype Numerics = Numerics(
    // the density formula at one positive point: beta/lambd * (x/lambd)^(beta-1) * exp(-(x/lambd)^beta)
    density: (Weibull, Float) -> Float,
    // the cumulative formula at one positive point: 1 - exp(-(x/lambd)^beta)
    cumulative: (Weibull, Float) -> Float,
    // `scipy.optimize.root(l_fn, 2.0).x.item()` for the ML stationarity condition on a sample;
    // the root is returned whether or not the solver converged
    shapeRoot: seq<Float> -> Option<Float>,
    // `(1/N * sum(X ** beta)) ** (1/beta)` for a non-zero beta
    powerMean: (seq<Float>, Float) -> Float,
    // `np.histogram(X, bins=edges)[0][i]`: the count of the i-th bin
    binCount: (seq<Float>, seq<real>, nat) -> nat,
    // `np.log` of one edge
    logEdge: real -> Float,
    // `np.log(-np.log(1 - F + 0.000001) + 0.000001)` of one CDF value
    linearise: Float -> Float,
    // `np.polyfit(x, y, 1)`: slope and intercept
    polyfit: (seq<Float>, seq<Float>) -> Option<(Float, Float)>,
    // `np.exp(-intercept / slope)`
    scaleFromLine: (Float, Float) -> Float
  )

  /** The value that `result[X > 0] = values` leaves at position `i` of `result = zeros_like(X)`. */
  function MaskedAt(xs: seq<Float>, values: seq<Float>, i: nat): Float
    requires i < |xs|
  {
    if IsPositive(xs[i]) && Rank(xs, i) < |values| then values[Rank(xs, i)] else Zero
  }

  /**
   * `result[X > 0] = values` on `result = zeros_like(X)`: the values, one per entry > 0,
   * are written in order into the positions of the entries > 0; every other position stays 0.
   */
  method MaskedAssign(xs: seq<Float>, values: seq<Float>) returns (r: seq<Float>)
    requires |values| == |Positives(xs)|
    ensures |r| == |xs|
    ensures forall i :: 0 <= i < |xs| && !IsPositive(xs[i]) ==> r[i] == Zero
    ensures forall i :: 0 <= i < |xs| && IsPositive(xs[i]) ==> Rank(xs, i) < |values| && r[i] == values[Rank(xs, i)]
  {
    var result := new Float[|xs|](_ => Zero);
    var i, j := 0, 0;
    while i < |xs|
      invariant 0 <= i <= |xs| && result.Length == |xs|
      invariant j == Rank(xs, i)
      invariant forall p :: 0 <= p < i ==> result[p] == MaskedAt(xs, values, p)
      invariant forall p :: i <= p < |xs| ==> result[p] == Zero
    {
      RankStep(xs, i);
      if IsPositive(xs[i]) {
        RankSlot(xs, i);
        result[i] := values[j];
        j := j + 1;
      }
      i := i + 1;
    }
    r := result[..];
    forall i | 0 <= i < |xs| && IsPositive(xs[i])
      ensures Rank(xs, i) < |values|
    {
      RankSlot(xs, i);
    }
  }

  /** `Weibull.pdf`: same length as the input, the density at every entry > 0 and 0 everywhere else. */
  method Pdf(w: Weibull, xs: seq<Float>, k: Numerics) returns (r: seq<Float>)
    ensures |r| == |xs|
    ensures forall i :: 0 <= i < |xs| ==> r[i] == if IsPositive(xs[i]) then k.density(w, xs[i]) else Zero
  {
    var nonNegatives := Positives(xs);
    var values := seq(|nonNegatives|, j requires 0 <= j < |nonNegatives| => k.density(w, nonNegatives[j]));
    r := MaskedAssign(xs, values);
    forall i | 0 <= i < |xs| && IsPositive(xs[i])
      ensures r[i] == k.density(w, xs[i])
    {
      RankSlot(xs, i);
    }
  }

  /** `Weibull.cdf`: same length as the input, the cumulative value at every entry > 0 and 0 everywhere else. */
  method Cdf(w: Weibull, xs: seq<Float>, k: Numerics) returns (r: seq<Float>)
    ensures |r| == |xs|
    ensures forall i :: 0 <= i < |xs| ==> r[i] == if IsPositive(xs[i]) then k.cumulative(w, xs[i]) else Zero
  {
    var nonNegatives := Positives(xs);
    var values := seq(|nonNegatives|, j requires 0 <= j < |nonNegatives| => k.cumulative(w, nonNegatives[j]));
    r := MaskedAssign(xs, values);
    forall i | 0 <= i < |xs| && IsPositive(xs[i])
      ensures r[i] == k.cumulative(w, xs[i])
    {
      RankSlot(xs, i);
    }
  }

  /**
   * `Weibull.ml_beta`: the assertion `len(X[X > 0]) > 0` raises on a sample with no entry > 0;
   * otherwise the root finder's answer, whatever its convergence status.
   */
  function MlBeta(xs: seq<Float>, k: Numerics): (r: Option<Float>)
    ensures |Positives(xs)| == 0 ==> r == None
    ensures |Positives(xs)| > 0 ==> r == k.shapeRoot(xs)
  {
    if |Positives(xs)| == 0 then None
    else k.shapeRoot(xs)
  }

  /**
   * `Weibull.ml_lambda`: raises on a sample with no entry > 0 (the assertion) and on a zero
   * shape (`1 / beta` on a Python float); otherwise the power mean.
   */
  function MlLambda(xs: seq<Float>, beta: Float, k: Numerics): (r: Option<Float>)
    ensures r == None <==> |Positives(xs)| == 0 || beta == Zero
  {
    if |Positives(xs)| == 0 then None
    else if beta == Zero then None
    else Some(k.powerMean(xs, beta))
  }

  /**
   * `Weibull.estimate`: preprocess, run both ML steps, and turn any exception into `Failed`.
   * It always returns; a sample without an entry > 0 gives `Failed`; the shape is never 0.
   */
  function Estimate(xs: seq<Float>, k: Numerics): (w: Weibull)
    ensures |Positives(xs)| == 0 ==> w == Failed
    ensures w.beta != Zero
  {
    var sample := Preprocess(xs);
    PreprocessIsPositives(xs);
    match MlBeta(sample, k)
    case None => Failed
    case Some(b) =>
      match MlLambda(sample, b, k)
      case None => Failed
      case Some(l) => Weibull(l, b)
  }

  /** The estimate depends only on the entries > 0, in order: non-positive and NaN entries are irrelevant. */
  lemma EstimateSeesOnlyPositives(xs: seq<Float>, ys: seq<Float>, k: Numerics)
    requires Positives(xs) == Positives(ys)
    ensures Estimate(xs, k) == Estimate(ys, k)
  {
    PreprocessIsPositives(xs);
    PreprocessIsPositives(ys);
  }

  /** Estimating on an already preprocessed sample gives the same fit. */
  lemma EstimateOfPreprocessed(xs: seq<Float>, k: Numerics)
    ensures Estimate(Preprocess(xs), k) == Estimate(xs, k)
  {
    PreprocessIsPositives(xs);
    PositivesIdentity(Positives(xs));
    EstimateSeesOnlyPositives(Preprocess(xs), xs, k);
  }

  /** When the root finder raises, both parameters are the marker. */
  lemma EstimateRootRaises(xs: seq<Float>, k: Numerics)
    requires k.shapeRoot(Preprocess(xs)) == None
    ensures Estimate(xs, k) == Failed
  {
  }

  /**
   * When the root finder returns a zero shape, `ml_beta` succeeded but `ml_lambda` raises:
   * the shape already computed is discarded and both parameters are the marker together.
   */
  lemma EstimateZeroShapeFailsBoth(xs: seq<Float>, k: Numerics)
    requires k.shapeRoot(Preprocess(xs)) == Some(Zero)
    ensures Estimate(xs, k) == Failed
  {
  }

  /**
   * On a sample with an entry > 0, whatever non-zero shape the root finder returns is kept,
   * converged or not: non-convergence does not produce the marker.
   */
  lemma EstimateKeepsRoot(xs: seq<Float>, b: Float, k: Numerics)
    requires |Positives(xs)| > 0
    requires k.shapeRoot(Preprocess(xs)) == Some(b) && b != Zero
    ensures Estimate(xs, k) == Weibull(k.powerMean(Preprocess(xs), b), b)
  {
    PreprocessIsPositives(xs);
  }
}
