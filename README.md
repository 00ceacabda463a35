# Wind-speed Weibull estimation: the discrete core

This project models the deterministic layer under the Weibull estimators and the
periodic aggregator of a wind-speed analysis package, and proves its properties in Dafny.

- `Weibull(lambd, beta)` is an immutable pair. `pdf` and `cdf` write the formula values into a
  zero array through the boolean mask `X > 0`.
- `estimate` (maximum likelihood) keeps the entries > 0, runs `ml_beta` and then `ml_lambda`,
  and turns any exception into the marker `Weibull(-999, -999)`.
- `graphical_estimate` does the same filtering and failure isolation around
  `graphical_parameters`. That function builds 1000 linspace edges over `[0, int(max + 1)]`,
  sums the histogram counts into an empirical CDF with a loop, trims the leading bins with a
  loop that `break`s, divides by the last entry, and hands `log(edges[2:])` and the
  linearised `CDF[1:]` to a straight-line fit.
- `yearly_params` and `monthly_params` build a table with one row per year, or per
  (year, month), of the requested range. They fill each row with `estimate` applied to the
  wind speeds whose timestamp falls in that period.

Modelling choices:

- A float is `Samples.Float`: an exact real, NaN, +inf or -inf. numpy's `x > 0` is false for
  NaN and true for +inf.
- Every floating-point library body is a field of the record `WeibullModel.Numerics` and is
  otherwise uninterpreted. These are the density and cumulative formulas, the SciPy root
  finder, the power mean, the histogram bin counts, `log`, the log-log linearisation, `polyfit`
  and `exp(-c/m)`. A call that may raise returns an `Option`, where `None` means it raised.
- Timestamps are reduced to their (year, month) fields.
- The input frame is a sequence of observations, passed by value. The aggregators' only
  heap effect is on the table they allocate: it is a `class` whose methods have `modifies`
  clauses, and nothing else is in any frame. So the input series is left unchanged.
- Index labels are distinct (proved for both key sequences). So `.loc[label]` writes are
  modelled as writes to the label's row position.

Behaviour of the code worth noting:

- The trim compares raw cumulative counts with 0.1, not cumulative probabilities. With integer
  counts it stops at the first non-empty bin.
- The filtering keeps +inf. The ML path passes it to the root finder. The graphical path
  raises in `int(inf + 1)` and so returns the marker.
- The root finder's result is used whether or not it converged. Non-convergence does not
  produce the marker.
- `number_of_bins = 1000` is the number of edges, so there are 999 bins.
- The top edge is `int(max + 1)`, not `max + 1`.

## Model

| member | source | states |
|---|---|---|
| `Samples.IsPositive` | util/weibull.py:30 | numpy's `x > 0` is never true for NaN or -inf, and on a finite value it is the ordinary comparison with 0 |
| `Samples.Positives` | util/weibull.py:80 | `X[X > 0]` keeps only entries > 0 and never grows the sample |
| `Samples.PositivesMembership` | util/weibull.py:80 | a value is in `X[X > 0]` exactly when it is in the input and > 0 (so NaN and -inf go, +inf stays) |
| `Samples.PositivesNone` | util/weibull.py:80 | a sample without any entry > 0 masks to the empty array |
| `Samples.NotNaN` | util/weibull.py:81 | `X[~isnan(X)]` keeps exactly the values that are not NaN |
| `Samples.NotNaNCount` | util/weibull.py:81 | `X[~isnan(X)]` keeps every non-NaN value exactly as often as it occurs and drops NaN |
| `Samples.NotNaNAppend` | util/weibull.py:81 | the NaN filter distributes over concatenation, so the kept values stay in their original order |
| `Samples.Preprocess` | util/weibull.py:80-81 | after both filters every entry of the sample is > 0 |
| `Samples.PositivesAppend` | util/weibull.py:80 | masking distributes over concatenation, i.e. the kept entries stay in their original relative order |
| `Samples.PositivesCount` | util/weibull.py:80 | every entry > 0 is kept exactly as often as it occurs, every other entry is dropped |
| `Samples.NotNaNIdentity` | util/weibull.py:81 | the NaN filter is the identity on a sequence without NaN |
| `Samples.PositivesIdentity` | util/weibull.py:80 | the `> 0` mask is the identity on a sequence whose entries are all > 0 |
| `Samples.PreprocessIsPositives` | util/weibull.py:144-145 | the two-step preprocessing equals the `> 0` mask alone (NaN is already gone) and keeps +inf |
| `Samples.PreprocessIdempotent` | util/weibull.py:80-81 | preprocessing an already preprocessed sample changes nothing |
| `Samples.RankSlot` | util/weibull.py:30-32 | the entry at a positive position i is the k-th entry of `X[X > 0]`, k being the number of positive entries before i |
| `Samples.RankStep` | util/weibull.py:30-32 | that count grows by one exactly at positive positions |
| `WeibullModel.MaskedAssign` | util/weibull.py:29-32 | `result[X > 0] = values` on a zero array: same length, 0 at every non-positive position, the k-th value at the k-th positive position |
| `WeibullModel.Pdf` | util/weibull.py:24-33 | same length as the input; the density formula at every entry > 0, 0 at every other entry (≤ 0, NaN, -inf) |
| `WeibullModel.Cdf` | util/weibull.py:35-44 | same length as the input; the cumulative formula at every entry > 0, 0 at every other entry |
| `WeibullModel.MlBeta` | util/weibull.py:66-73 | raises on a sample with no entry > 0; otherwise the root finder's answer, converged or not |
| `WeibullModel.MlLambda` | util/weibull.py:58-64 | raises exactly when the sample has no entry > 0 or the shape is 0 (`1 / beta` on a Python float) |
| `WeibullModel.Estimate` | util/weibull.py:75-94 | always returns; a sample with no entry > 0 gives `Weibull(-999, -999)`; the returned shape is never 0 |
| `WeibullModel.EstimateSeesOnlyPositives` | util/weibull.py:80-81 | two samples with the same entries > 0, in the same order, get the same fit |
| `WeibullModel.EstimateOfPreprocessed` | util/weibull.py:80-81 | estimating on the preprocessed sample gives the same fit as on the raw one |
| `WeibullModel.EstimateRootRaises` | util/weibull.py:86-94 | an exception in the root finder gives `Weibull(-999, -999)` |
| `WeibullModel.EstimateZeroShapeFailsBoth` | util/weibull.py:86-94 | when `ml_beta` succeeds with shape 0 and `ml_lambda` then raises, both parameters become -999 together |
| `WeibullModel.EstimateKeepsRoot` | util/weibull.py:87-88 | any non-zero shape the root finder returns is kept, with the power-mean scale, whether or not it converged |
| `GraphicalMethod.Truncate` | util/weibull.py:102 | Python `int()` on a non-negative value is its integer part |
| `GraphicalMethod.MaxValue` | util/weibull.py:102 | `nanmax` of finite values bounds every value and is one of them |
| `GraphicalMethod.MaxIncluded` | util/weibull.py:102 | `int(max + 1)` is at least 1 and strictly above every sample value |
| `GraphicalMethod.Edges` | util/weibull.py:104 | `np.linspace(0, M, 1000)` has 1000 edges, the first 0 and the last M |
| `GraphicalMethod.Linspace` | util/weibull.py:104 | n points from start to stop inclusive, evenly spaced |
| `GraphicalMethod.BinCounts` | util/weibull.py:106 | the histogram has one count per bin, one fewer than the edges |
| `GraphicalMethod.CumulativeCounts` | util/weibull.py:107-109 | the loop-built CDF is the prefix-sum sequence of the counts: entry i is the sum of counts[0..i] |
| `GraphicalMethod.SumStep` | util/weibull.py:109 | extending a prefix by one bin adds that bin's count |
| `GraphicalMethod.PrefixSumsStep` | util/weibull.py:107-109 | the prefix sums start with counts[0] and add counts[i] at step i, the recurrence the loop runs |
| `GraphicalMethod.PrefixSumsMonotone` | util/weibull.py:107-109 | the empirical CDF never decreases |
| `GraphicalMethod.PrefixSumsLast` | util/weibull.py:107-109 | the last CDF entry is the total count |
| `GraphicalMethod.PrefixSumsBounded` | util/weibull.py:107-109 | every CDF entry is at most the last one, the total count |
| `GraphicalMethod.PrefixSumZero` | util/weibull.py:107-109 | a CDF entry is 0 exactly when every bin up to it is empty |
| `GraphicalMethod.FirstAbove` | util/weibull.py:112-116 | the trim index lies in [0, len) for a non-empty CDF |
| `GraphicalMethod.FirstAboveIsFirst` | util/weibull.py:112-116 | every entry before the trim index is ≤ 0.1; the entry at it is > 0.1 if any entry is; otherwise it is the last index |
| `GraphicalMethod.TrimIndex` | util/weibull.py:112-116 | the loop with `break` leaves d in [0, len); entries before d are ≤ 0.1; CDF[d] > 0.1 when any entry is, else d = len − 1 |
| `GraphicalMethod.TrimAtFirstNonEmptyBin` | util/weibull.py:112-116 | with integer counts the trim stops at the first non-empty bin and every bin before it is empty |
| `GraphicalMethod.Divide` | util/weibull.py:123-124 | numpy true division of counts: a/b for b > 0, NaN for 0/0, +inf for n/0 with n > 0, never an exception |
| `GraphicalMethod.Normalise` | util/weibull.py:124 | dividing by the last entry keeps the length |
| `GraphicalMethod.NormaliseIntoUnitInterval` | util/weibull.py:124 | a CDF bounded by its positive last entry normalises into [0, 1] and ends at exactly 1 |
| `GraphicalMethod.TrimmedCdf` | util/weibull.py:118-124 | after the trim at d and the division the CDF has len − d entries |
| `GraphicalMethod.TrimmedCdfUnit` | util/weibull.py:118-124 | with a positive total bounding every entry, the trimmed and divided CDF ends at exactly 1 and lies in [0, 1] |
| `GraphicalMethod.TrimmedCdfZeroTotal` | util/weibull.py:118-124 | with a zero total every entry of the trimmed and divided CDF is NaN and nothing raises |
| `GraphicalMethod.LogEdges` | util/weibull.py:128 | `log(edges[2:])` has two entries fewer than the edges |
| `GraphicalMethod.LinearisedCdf` | util/weibull.py:127 | the linearised `CDF[1:]` has one entry fewer than the CDF |
| `GraphicalMethod.LineToParameters` | util/weibull.py:131-135 | a raising fit raises; otherwise the shape returned is the fitted slope |
| `GraphicalMethod.RegressionInputs` | util/weibull.py:118-128 | `log(edges[2:])` and the linearised `CDF[1:]` after the trim at d both have len − 1 − d entries, so `polyfit` gets inputs of equal length |
| `GraphicalMethod.RegressionEdges` | util/weibull.py:118-128 | `edges[2:]` and `CDF[1:]` after the trim at d have the same length, bins − 1 − d; x value j is the log of the right edge of bin d+1+j |
| `GraphicalMethod.RegressionValues` | util/weibull.py:118-127 | y value j is the linearised CDF after bin d+1+j divided by the total, so it pairs with the right edge of the same bin |
| `GraphicalMethod.RegressionLength` | util/weibull.py:103-104 | with 1000 edges the regression gets 998 − d points |
| `GraphicalMethod.EdgesPositive` | util/weibull.py:102-104 | every edge after the first is > 0, so every edge passed to `log` is |
| `GraphicalMethod.GraphicalSpec` | util/weibull.py:98-135 | `graphical_parameters` raises on an empty sample and on one holding +inf |
| `GraphicalMethod.GraphicalParameters` | util/weibull.py:98-135 | the step-by-step computation raises on an empty or +inf sample and otherwise agrees with `GraphicalSpec` |
| `GraphicalMethod.ToWeibull` | util/weibull.py:150-156 | a raising computation gives `Weibull(-999, -999)`, otherwise `Weibull(l, b)` from `[l, b]` |
| `GraphicalMethod.GraphicalEstimate` | util/weibull.py:139-156 | always returns; gives `Weibull(-999, -999)` on a sample with no entry > 0 or holding +inf; otherwise the fit of `graphical_parameters` on the filtered sample |
| `Periods.Where` | util/get_params.py:22-23 | a mask selects exactly the rows whose key equals the wanted key |
| `Periods.WhereCount` | util/get_params.py:22-23 | a mask keeps every matching row exactly as often as it occurs and drops every other row |
| `Periods.WhereAppend` | util/get_params.py:22-23 | a mask distributes over concatenation, so the matching rows stay in their original order |
| `Periods.Speeds` | util/get_params.py:23 | the wind-speed column has one value per selected row, in order |
| `Periods.PeriodFit` | util/get_params.py:22-23 | the fit of one period never has shape 0, and is `Weibull(-999, -999)` when the period's speeds hold no entry > 0 |
| `Periods.Years` | util/get_params.py:15 | `np.arange(first, last + 1)` has last − first + 1 strictly ascending years, none when last < first |
| `Periods.Months` | util/get_params.py:37 | the month range has 12 labels per year of the range, from (first, 1) to (last, 12), none when last < first |
| `Periods.ParamTable.constructor` | util/get_params.py:14-18 | the table is indexed by the given keys with both parameters 0.0 in every row |
| `Periods.ParamTable.Put` | util/get_params.py:24-25 | writing a row sets both parameters of that row and leaves the index and all other rows unchanged |
| `Periods.YearlyParams` | util/get_params.py:7-27 | a fresh table keyed first..last; row i is `estimate` on the speeds of year i; no shape is left at 0.0 |
| `Periods.MonthlyParams` | util/get_params.py:30-48 | a fresh table keyed by every (year, month) of the range; each row is `estimate` on the speeds of that month; no shape is left at 0.0 |
| `Periods.YearsEnumerate` | util/get_params.py:15 | the yearly keys are first, first+1, …, last, strictly ascending, none when last < first |
| `Periods.MonthsEnumerate` | util/get_params.py:37 | 12·(last − first + 1) monthly keys from (first, 1) to (last, 12), strictly increasing, none when last < first |
| `Periods.MonthsMembership` | util/get_params.py:37 | a (year, month) is a monthly key exactly when its year lies in [first, last] |
| `Periods.Among` | util/get_params.py:42-43 | the rows selected by some key of a list are exactly those whose key is in the list |
| `Periods.AmongCount` | util/get_params.py:42-43 | selecting by a list of keys keeps every row whose key is listed exactly as often as it occurs and no other row |
| `Periods.MasksDisjoint` | util/get_params.py:43 | masks of distinct keys never select the same row |
| `Periods.MasksPartition` | util/get_params.py:42-46 | for distinct keys, the masks together select every row whose key is among them exactly once |
| `Periods.MasksReadOnce` | util/get_params.py:21-23 | over the masks of distinct keys, each row whose key is listed is read exactly as often as it occurs, and no other row is read |
| `Periods.MonthsCoverYears` | util/get_params.py:37-43 | the monthly keys select exactly the rows whose year lies in [first, last] |
| `Periods.MonthlyMasksPartition` | util/get_params.py:37-46 | the monthly masks are disjoint and together read each row of a year in [first, last] exactly once |
| `Periods.YearlyMasksPartition` | util/get_params.py:15-23 | the yearly masks are disjoint and together read each row of a year in [first, last] exactly once |
| `Periods.EmptyPeriodFails` | util/get_params.py:22-23 | a period with no wind speed > 0 gets `Weibull(-999, -999)` |
| `Periods.YearlyRowsOverwritten` | util/get_params.py:16-25 | after filling, no yearly row keeps shape 0.0, and a year without data holds the failed fit rather than being dropped |

## Left out

- Floating-point arithmetic: exact reals stand in for doubles, without rounding, signed zero
  or overflow. All numeric bodies are uninterpreted fields of `Numerics`. These are the
  density and cumulative formulas, the `scipy.optimize.root` solve, the power mean, the
  histogram's bin assignment, `log`, the log-log linearisation with its 1e-6 offsets,
  `np.polyfit` and `exp(-c/m)`.
- `n_raw_moment`: the gamma-function moment is floating-point only.
- `mode` and `median`: they read the attribute `self.k`, which does not exist, so they
  always raise AttributeError. They are not modelled as working.
- The module-level `print(Weibull.graphical_estimate(arr))`: an import-time side effect.
- `__repr__`: string formatting only.
- Pdf: when the scale is a Python float equal to 0, `beta / lambd` raises ZeroDivisionError.
  The model treats the formula as a total, opaque kernel and does not capture this.
- Pdf, Cdf: the integer-dtype truncation caused by `zeros_like` on an integer input array is
  not modelled; results are floats.
- GraphicalParameters: modelled only on filtered samples (every entry > 0), the only way
  `graphical_estimate` calls it. Its normalised `empiric_pdf` and `poly1d` model are computed
  by the source but never used, so they are not modelled.
- GraphicalParameters: whether `np.polyfit` raises (for instance on the empty inputs left
  when the trim stops at the last bin) is part of the uninterpreted `polyfit`.
- MonthlyParams: pandas cannot build dates outside roughly 1677–2262 and raises there. The
  model enumerates months for any years.
- Timestamp parsing and the `.dt.year` / `.dt.month` accessors: timestamps are given as
  (year, month) pairs.
- Data acquisition (HTTP download, HTML scraping, zip extraction, caching), ridge-line
  plotting and the date-offset helper: I/O, presentation, and a thin wrapper over the
  datetime library.
- The Beaufort classifier and the SNH and Pettitt change-point statistics: their source
  is not part of this model.
