/**
 * The discrete front half of the graphical Weibull estimator of util/weibull.py
 * (`graphical_parameters` and `graphical_estimate`): histogram edges, the
 * running-sum empirical CDF, the trim of the near-flat prefix, normalisation by
 * the total count and the alignment of CDF values with bin edges handed to the
 * linear regression. Edges are exact reals; logarithms, the regression and the
 * bin assignment are fields of `Numerics`.
 */
module GraphicalMethod {
  import opened Wrappers
  import opened Samples
  import opened WeibullModel

  /** `number_of_bins`, passed to `np.linspace`: it is the number of EDGES, so there are 999 bins. */
  const NumberOfBins: nat := 1000

  /** The cumulative count a leading bin must exceed to end the trim. */
  const TrimThreshold: real := 0.1

  /** A sample as `graphical_estimate` hands it over: every entry is > 0 (finite or +inf). */
  predicate AllPositive(xs: seq<Float>) {
    forall i :: 0 <= i < |xs| ==> IsPositive(xs[i])
  }

  /** Python's `int()` on a finite float: truncation toward zero. */
  function Truncate(r: real): (n: int)
    ensures r >= 0.0 ==> n as real <= r < n as real + 1.0
  {
    if r >= 0.0 then r.Floor else -((-r).Floor)
  }

  /** `np.nanmax` of a non-empty sample of finite values. */
  function MaxValue(xs: seq<Float>): (m: real)
    requires |xs| > 0 && forall i :: 0 <= i < |xs| ==> xs[i].Num?
    ensures forall i :: 0 <= i < |xs| ==> xs[i].value <= m
    ensures m in (set i | 0 <= i < |xs| :: xs[i].value)
  {
    if |xs| == 1 then xs[0].value
    else
      var rest := MaxValue(xs[1..]);
      assert forall i :: 1 <= i < |xs| ==> xs[i].value == xs[1..][i - 1].value;
      if xs[0].value >= rest then xs[0].value else rest
  }

  /** `max_included_windspeed = int(np.nanmax(X) + 1)`: at least 1 and above every sample value. */
  function MaxIncluded(xs: seq<Float>): (m: int)
    requires |xs| > 0 && forall i :: 0 <= i < |xs| ==> xs[i].Num? && xs[i].value > 0.0
    ensures m >= 1
    ensures forall i :: 0 <= i < |xs| ==> xs[i].value < m as real
  {
    Truncate(MaxValue(xs) + 1.0)
  }

  /** `np.linspace(start, stop, n)` in exact arithmetic: n evenly spaced points from start to stop. */
  function Linspace(start: real, stop: real, n: nat): (e: seq<real>)
    requires n >= 2
    ensures |e| == n && e[0] == start && e[n - 1] == stop
    ensures forall i :: 0 <= i < n - 1 ==> e[i + 1] - e[i] == (stop - start) / (n - 1) as real
  {
    var step := (stop - start) / (n - 1) as real;
    var e := seq(n, i => start + i as real * step);
    assert e[n - 1] == start + (n - 1) as real * step;
    e
  }

  /** `edges = np.linspace(0, max_included_windspeed, number_of_bins)`. */
  function Edges(m: int): (e: seq<real>)
    ensures |e| == NumberOfBins && e[0] == 0.0 && e[NumberOfBins - 1] == m as real
  {
    Linspace(0.0, m as real, NumberOfBins)
  }

  /** `np.histogram(X, bins=edges)[0]`: one count per bin, that is one fewer than the edges. */
  function BinCounts(xs: seq<Float>, edges: seq<real>, k: Numerics): (c: seq<nat>)
    requires |edges| >= 1
    ensures |c| == |edges| - 1
  {
    FirstBinCounts(xs, edges, k, |edges| - 1)
  }

  /** The counts of the first `n` bins, in bin order. */
  function FirstBinCounts(xs: seq<Float>, edges: seq<real>, k: Numerics, n: nat): (c: seq<nat>)
    ensures |c| == n
    ensures forall i :: 0 <= i < n ==> c[i] == k.binCount(xs, edges, i)
  {
    if n == 0 then [] else FirstBinCounts(xs, edges, k, n - 1) + [k.binCount(xs, edges, n - 1)]
  }

  /** The sum of a sequence of counts. */
  function Sum(s: seq<nat>): nat
  {
    if s == [] then 0 else Sum(s[..|s| - 1]) + s[|s| - 1]
  }

  /** The empirical (unnormalised) CDF: entry `i` is the number of samples in bins 0..i. */
  function PrefixSums(counts: seq<nat>): (c: seq<nat>)
    ensures |c| == |counts|
  {
    seq(|counts|, i requires 0 <= i < |counts| => Sum(counts[..i + 1]))
  }

  /**
   * The running-sum loop: `CDF = [counts[0]]`, then `CDF[i] = CDF[i-1] + counts[i]` appended
   * for every further bin. The result is the prefix-sum sequence of the counts.
   */
  method CumulativeCounts(counts: seq<nat>) returns (cdf: seq<nat>)
    requires |counts| > 0
    ensures cdf == PrefixSums(counts)
  {
    assert counts[..1] == [] + [counts[0]];
    cdf := [counts[0]];
    var i := 1;
    while i < |counts|
      invariant 1 <= i <= |counts| && |cdf| == i
      invariant forall j :: 0 <= j < i ==> cdf[j] == Sum(counts[..j + 1])
    {
      SumStep(counts, i);
      cdf := cdf + [cdf[i - 1] + counts[i]];
      i := i + 1;
    }
  }

  /** The empirical CDF starts at the first count and adds one bin's count per step. */
  lemma PrefixSumsStep(counts: seq<nat>)
    requires |counts| > 0
    ensures |PrefixSums(counts)| == |counts| && PrefixSums(counts)[0] == counts[0]
    ensures forall i :: 1 <= i < |counts| ==> PrefixSums(counts)[i] == PrefixSums(counts)[i - 1] + counts[i]
  {
    SumStep(counts, 0);
    assert counts[..0] == [];
    forall i | 1 <= i < |counts|
      ensures PrefixSums(counts)[i] == PrefixSums(counts)[i - 1] + counts[i]
    {
      SumStep(counts, i);
    }
  }

  /** Extending a prefix by one bin adds that bin's count. */
  lemma SumStep(counts: seq<nat>, i: nat)
    requires i < |counts|
    ensures Sum(counts[..i + 1]) == Sum(counts[..i]) + counts[i]
  {
    assert counts[..i + 1][..i] == counts[..i];
  }

  /** Prefix sums of counts never decrease. */
  lemma {:induction false} PrefixSumsMonotone(counts: seq<nat>, i: nat, j: nat)
    requires i <= j < |counts|
    ensures PrefixSums(counts)[i] <= PrefixSums(counts)[j]
    decreases j - i
  {
    if i < j {
      PrefixSumsMonotone(counts, i, j - 1);
      SumStep(counts, j);
    }
  }

  /** The last entry of the empirical CDF is the total count. */
  lemma PrefixSumsLast(counts: seq<nat>)
    requires |counts| > 0
    ensures PrefixSums(counts)[|counts| - 1] == Sum(counts)
  {
    assert counts[..|counts|] == counts;
  }

  /** A prefix sum is 0 exactly when every count up to that bin is 0. */
  lemma {:induction false} PrefixSumZero(counts: seq<nat>, i: nat)
    requires i < |counts|
    ensures PrefixSums(counts)[i] == 0 <==> forall j :: 0 <= j <= i ==> counts[j] == 0
  {
    assert counts[..i + 1][..i] == counts[..i];
    if i > 0 {
      PrefixSumZero(counts, i - 1);
      assert PrefixSums(counts)[i] == PrefixSums(counts)[i - 1] + counts[i];
    } else {
      assert counts[..1][..0] == [];
      assert PrefixSums(counts)[0] == counts[0];
    }
  }

  /** The trim index by its definition: the first index whose entry exceeds the threshold, else the last. */
  function FirstAbove(cdf: seq<nat>): (d: nat)
    ensures |cdf| == 0 ==> d == 0
    ensures |cdf| > 0 ==> d < |cdf|
  {
    if |cdf| <= 1 || cdf[0] as real > TrimThreshold then 0
    else 1 + FirstAbove(cdf[1..])
  }

  /**
   * `FirstAbove` is what the trim promises: nothing before it exceeds the threshold; it
   * exceeds the threshold if anything does; otherwise it is the last index.
   */
  lemma {:induction false} FirstAboveIsFirst(cdf: seq<nat>)
    ensures forall j :: 0 <= j < FirstAbove(cdf) ==> cdf[j] as real <= TrimThreshold
    ensures (exists j :: 0 <= j < |cdf| && cdf[j] as real > TrimThreshold) ==> cdf[FirstAbove(cdf)] as real > TrimThreshold
    ensures (forall j :: 0 <= j < |cdf| ==> cdf[j] as real <= TrimThreshold) && |cdf| > 0 ==> FirstAbove(cdf) == |cdf| - 1
  {
    if |cdf| > 1 && cdf[0] as real <= TrimThreshold {
      FirstAboveIsFirst(cdf[1..]);
      assert forall j :: 1 <= j < |cdf| ==> cdf[j] == cdf[1..][j - 1];
    }
  }

  /**
   * The trim loop: `d = i` on every pass, and `break` once `CDF[i] > 0.1`. The index it leaves
   * is the first one whose cumulative count exceeds the threshold, or the last index if none does.
   */
  method TrimIndex(cdf: seq<nat>) returns (d: nat)
    ensures |cdf| == 0 ==> d == 0
    ensures |cdf| > 0 ==> d < |cdf|
    ensures forall j :: 0 <= j < d ==> cdf[j] as real <= TrimThreshold
    ensures (exists j :: 0 <= j < |cdf| && cdf[j] as real > TrimThreshold) ==> cdf[d] as real > TrimThreshold
    ensures (forall j :: 0 <= j < |cdf| ==> cdf[j] as real <= TrimThreshold) && |cdf| > 0 ==> d == |cdf| - 1
    ensures d == FirstAbove(cdf)
  {
    d := 0;
    var i := 0;
    while i < |cdf|
      invariant 0 <= i <= |cdf|
      invariant d == if i == 0 then 0 else i - 1
      invariant forall j :: 0 <= j < i ==> cdf[j] as real <= TrimThreshold
    {
      d := i;
      if cdf[i] as real > TrimThreshold {
        break;
      }
      i := i + 1;
    }
    FirstAboveIsFirst(cdf);
  }

  /**
   * With integer counts the 0.1 threshold means "non-zero": the trim stops at the first
   * non-empty bin, and every bin before it is empty.
   */
  lemma TrimAtFirstNonEmptyBin(counts: seq<nat>)
    requires |counts| > 0
    ensures forall j :: 0 <= j < FirstAbove(PrefixSums(counts)) ==> counts[j] == 0
    ensures (exists j :: 0 <= j < |counts| && counts[j] > 0) ==> counts[FirstAbove(PrefixSums(counts))] > 0
  {
    var cdf := PrefixSums(counts);
    var d := FirstAbove(cdf);
    FirstAboveIsFirst(cdf);
    if d > 0 {
      PrefixSumZero(counts, d - 1);
    }
    if exists j :: 0 <= j < |counts| && counts[j] > 0 {
      var j :| 0 <= j < |counts| && counts[j] > 0;
      PrefixSumZero(counts, j);
      assert cdf[j] as real > TrimThreshold;
      PrefixSumZero(counts, d);
      assert cdf[d] > 0;
      if d > 0 {
        assert cdf[d] == cdf[d - 1] + counts[d] by {
          assert counts[..d + 1][..d] == counts[..d];
        }
      } else {
        assert counts[..1] == [counts[0]];
      }
    }
  }

  /** numpy's true division of two counts: 0/0 is NaN and n/0 is +inf, with a warning, never an exception. */
  function Divide(a: nat, b: nat): (r: Float)
    ensures b > 0 ==> r.Num? && r.value * b as real == a as real
    ensures b == 0 ==> (r == NaN <==> a == 0) && (r == PosInf <==> a > 0)
  {
    if b == 0 then (if a == 0 then NaN else PosInf)
    else Num(a as real / b as real)
  }

  /** `CDF / CDF[len(CDF) - 1]`: every entry divided by the last one. */
  function Normalise(v: seq<nat>): (r: seq<Float>)
    requires |v| > 0
    ensures |r| == |v|
  {
    seq(|v|, i requires 0 <= i < |v| => Divide(v[i], v[|v| - 1]))
  }

  /** A count over a larger count lies in [0, 1]. */
  lemma UnitRatio(a: nat, b: nat)
    requires 0 < b && a <= b
    ensures 0.0 <= a as real / b as real <= 1.0
  {
    assert a as real / b as real * b as real == a as real;
  }

  /** A sequence of counts bounded by its positive last entry normalises into [0, 1], ending at exactly 1. */
  lemma NormaliseIntoUnitInterval(v: seq<nat>)
    requires |v| > 0 && v[|v| - 1] > 0
    requires forall i :: 0 <= i < |v| ==> v[i] <= v[|v| - 1]
    ensures Normalise(v)[|v| - 1] == Num(1.0)
    ensures forall i :: 0 <= i < |v| ==> Normalise(v)[i].Num? && 0.0 <= Normalise(v)[i].value <= 1.0
  {
    forall i | 0 <= i < |v|
      ensures Normalise(v)[i].Num? && 0.0 <= Normalise(v)[i].value <= 1.0
    {
      UnitRatio(v[i], v[|v| - 1]);
    }
    assert v[|v| - 1] as real / v[|v| - 1] as real == 1.0;
  }

  /** Every entry of the empirical CDF is at most its last entry, the total count. */
  lemma PrefixSumsBounded(counts: seq<nat>)
    requires |counts| > 0
    ensures |PrefixSums(counts)| == |counts| && PrefixSums(counts)[|counts| - 1] == Sum(counts)
    ensures forall i :: 0 <= i < |counts| ==> PrefixSums(counts)[i] <= Sum(counts)
  {
    PrefixSumsLast(counts);
    forall i | 0 <= i < |counts|
      ensures PrefixSums(counts)[i] <= Sum(counts)
    {
      PrefixSumsMonotone(counts, i, |counts| - 1);
    }
  }

  /** `CDF = CDF[d:]; CDF = CDF / CDF[len(CDF)-1]` for the trim index `d` of the cumulative counts. */
  function TrimmedCdf(cdf: seq<nat>): (f: seq<Float>)
    requires |cdf| > 0
    ensures |f| == |cdf| - FirstAbove(cdf)
  {
    Normalise(cdf[FirstAbove(cdf)..])
  }

  /**
   * When any sample was counted (a positive last entry bounding every entry, as for the
   * empirical CDF), the trimmed and divided CDF ends at exactly 1 and lies in [0, 1].
   */
  lemma TrimmedCdfUnit(cdf: seq<nat>)
    requires |cdf| > 0 && cdf[|cdf| - 1] > 0
    requires forall i :: 0 <= i < |cdf| ==> cdf[i] <= cdf[|cdf| - 1]
    ensures var f := TrimmedCdf(cdf);
            && f[|f| - 1] == Num(1.0)
            && forall i :: 0 <= i < |f| ==> f[i].Num? && 0.0 <= f[i].value <= 1.0
  {
    var tail := cdf[FirstAbove(cdf)..];
    assert tail[|tail| - 1] == cdf[|cdf| - 1];
    forall i | 0 <= i < |tail|
      ensures tail[i] <= tail[|tail| - 1]
    {
      assert tail[i] == cdf[FirstAbove(cdf) + i];
    }
    NormaliseIntoUnitInterval(tail);
  }

  /** When no sample was counted, the division by a zero total gives NaN everywhere and raises nothing. */
  lemma TrimmedCdfZeroTotal(cdf: seq<nat>)
    requires |cdf| > 0 && cdf[|cdf| - 1] == 0
    requires forall i :: 0 <= i < |cdf| ==> cdf[i] <= cdf[|cdf| - 1]
    ensures forall i :: 0 <= i < |TrimmedCdf(cdf)| ==> TrimmedCdf(cdf)[i] == NaN
  {
    var d := FirstAbove(cdf);
    forall i | 0 <= i < |TrimmedCdf(cdf)|
      ensures TrimmedCdf(cdf)[i] == NaN
    {
      assert cdf[d..][i] == cdf[d + i];
      assert cdf[d..][|cdf| - d - 1] == cdf[|cdf| - 1];
    }
  }

  /** `np.log(edges[2:])`. */
  function LogEdges(edges: seq<real>, k: Numerics): (x: seq<Float>)
    requires |edges| >= 2
    ensures |x| == |edges| - 2
  {
    seq(|edges| - 2, j requires 0 <= j < |edges| - 2 => k.logEdge(edges[2 + j]))
  }

  /** `np.log(-np.log(1 - CDF[1:] + 0.000001) + 0.000001)`. */
  function LinearisedCdf(cdf: seq<Float>, k: Numerics): (y: seq<Float>)
    requires |cdf| >= 1
    ensures |y| == |cdf| - 1
  {
    seq(|cdf| - 1, j requires 0 <= j < |cdf| - 1 => k.linearise(cdf[1 + j]))
  }

  /** `linpol = np.polyfit(x, y, 1)`, `b = linpol[0]`, `l = np.exp(-linpol[1] / linpol[0])`, returning `[l, b]`. */
  function LineToParameters(x: seq<Float>, y: seq<Float>, k: Numerics): (r: Option<(Float, Float)>)
    ensures k.polyfit(x, y) == None ==> r == None
    ensures k.polyfit(x, y).Some? ==> r.Some? && r.value.1 == k.polyfit(x, y).value.0
  {
    match k.polyfit(x, y)
    case None => None
    case Some((slope, intercept)) => Some((k.scaleFromLine(slope, intercept), slope))
  }

  /** The regression inputs for given edges and cumulative counts, trimmed at the first entry above the threshold. */
  function RegressionInputs(edges: seq<real>, cdf: seq<nat>, k: Numerics): (p: (seq<Float>, seq<Float>))
    requires |cdf| > 0 && |edges| == |cdf| + 1
    ensures |p.0| == |p.1| == |cdf| - 1 - FirstAbove(cdf)
  {
    (LogEdges(edges[FirstAbove(cdf)..], k), LinearisedCdf(TrimmedCdf(cdf), k))
  }

  /**
   * `edges[2:]` and `CDF[1:]` after the trim at `d` have the same length, one fewer than the
   * bins left after the trim, and the j-th x value is the log of the right edge of bin d+1+j.
   */
  lemma RegressionEdges(edges: seq<real>, cdf: seq<nat>, k: Numerics)
    requires |cdf| > 0 && |edges| == |cdf| + 1
    ensures |RegressionInputs(edges, cdf, k).0| == |RegressionInputs(edges, cdf, k).1| == |cdf| - 1 - FirstAbove(cdf)
    ensures forall j :: 0 <= j < |RegressionInputs(edges, cdf, k).0| ==>
              RegressionInputs(edges, cdf, k).0[j] == k.logEdge(edges[(FirstAbove(cdf) + 1 + j) + 1])
  {
    var d := FirstAbove(cdf);
    var x := LogEdges(edges[d..], k);
    forall j | 0 <= j < |x|
      ensures x[j] == k.logEdge(edges[(d + 1 + j) + 1])
    {
      assert edges[d..][2 + j] == edges[d + 2 + j];
    }
  }

  /**
   * The j-th y value is the linearised CDF after bin d+1+j divided by the total, the last CDF
   * entry: each y is paired with the right edge of the same bin.
   */
  lemma RegressionValues(edges: seq<real>, cdf: seq<nat>, k: Numerics)
    requires |cdf| > 0 && |edges| == |cdf| + 1
    ensures forall j :: 0 <= j < |RegressionInputs(edges, cdf, k).1| ==>
              RegressionInputs(edges, cdf, k).1[j] == k.linearise(Divide(cdf[FirstAbove(cdf) + 1 + j], cdf[|cdf| - 1]))
  {
    var d := FirstAbove(cdf);
    var tail := cdf[d..];
    assert tail[|tail| - 1] == cdf[|cdf| - 1];
    var y := LinearisedCdf(TrimmedCdf(cdf), k);
    forall j | 0 <= j < |y|
      ensures y[j] == k.linearise(Divide(cdf[d + 1 + j], cdf[|cdf| - 1]))
    {
      assert tail[1 + j] == cdf[d + 1 + j];
    }
  }

  /** With the source's 1000 edges, the regression gets 998 - d points. */
  lemma RegressionLength(m: int, cdf: seq<nat>, k: Numerics)
    requires |cdf| == NumberOfBins - 1
    ensures |RegressionInputs(Edges(m), cdf, k).0| == NumberOfBins - 2 - FirstAbove(cdf)
    ensures |RegressionInputs(Edges(m), cdf, k).1| == NumberOfBins - 2 - FirstAbove(cdf)
  {
  }

  /** Every edge after the first is strictly positive, so every edge handed to `np.log` is. */
  lemma EdgesPositive(m: int)
    requires m >= 1
    ensures forall i :: 0 < i < NumberOfBins ==> 0.0 < Edges(m)[i]
  {
    var step := (m as real) / (NumberOfBins - 1) as real;
    assert step > 0.0;
    forall i | 0 < i < NumberOfBins
      ensures 0.0 < Edges(m)[i]
    {
      assert Edges(m)[i] == i as real * step;
    }
  }

  /**
   * `graphical_parameters` on a filtered sample, by its definition: `None` when it raises
   * (`np.nanmax` of an empty array, `int()` of +inf, or the regression), otherwise `[l, b]`.
   */
  function GraphicalSpec(xs: seq<Float>, k: Numerics): (r: Option<(Float, Float)>)
    requires AllPositive(xs)
    ensures |xs| == 0 || PosInf in xs ==> r == None
  {
    if |xs| == 0 then None
    else if PosInf in xs then None
    else
      var edges := Edges(MaxIncluded(xs));
      var (x, y) := RegressionInputs(edges, PrefixSums(BinCounts(xs, edges, k)), k);
      LineToParameters(x, y, k)
  }

  /**
   * `graphical_parameters`, step by step as the source runs it. Raises (here: `None`) on an
   * empty sample and on a sample holding +inf; otherwise agrees with `GraphicalSpec`.
   */
  method GraphicalParameters(xs: seq<Float>, k: Numerics) returns (r: Option<(Float, Float)>)
    requires AllPositive(xs)
    ensures |xs| == 0 ==> r == None
    ensures PosInf in xs ==> r == None
    ensures r == GraphicalSpec(xs, k)
  {
    if |xs| == 0 {
      // np.nanmax of an empty array raises ValueError
      return None;
    }
    if PosInf in xs {
      // int(inf + 1) raises OverflowError
      return None;
    }
    var maxIncluded := MaxIncluded(xs);
    var edges := Edges(maxIncluded);
    var empiricPdf := BinCounts(xs, edges, k);
    var cdf := CumulativeCounts(empiricPdf);
    var d := TrimIndex(cdf);
    edges := edges[d..];
    cdf := cdf[d..];
    var normalised := Normalise(cdf);
    var modCdf := LinearisedCdf(normalised, k);
    var logEdges := LogEdges(edges, k);
    r := LineToParameters(logEdges, modCdf, k);
  }

  /** The fit `graphical_estimate` builds from the parameters, or the marker when they raised. */
  function ToWeibull(params: Option<(Float, Float)>): (w: Weibull)
    ensures params == None ==> w == Failed
    ensures params.Some? ==> w.lambd == params.value.0 && w.beta == params.value.1
  {
    match params
    case None => Failed
    case Some((l, b)) => Weibull(l, b)
  }

  /**
   * `graphical_estimate`: preprocess, run `graphical_parameters` and turn any exception into
   * `Failed`. It always returns; a sample without an entry > 0 or holding +inf gives `Failed`.
   */
  method GraphicalEstimate(xs: seq<Float>, k: Numerics) returns (w: Weibull)
    ensures |Positives(xs)| == 0 ==> w == Failed
    ensures PosInf in xs ==> w == Failed
    ensures w == ToWeibull(GraphicalSpec(Preprocess(xs), k))
  {
    var sample := Preprocess(xs);
    PreprocessIsPositives(xs);
    var params := GraphicalParameters(sample, k);
    w := ToWeibull(params);
  }
}
