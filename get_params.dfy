/**
 * The periodic aggregator of util/get_params.py: one Weibull fit per calendar year,
 * or per (year, month), of the wind speeds whose timestamp falls in that period.
 * Timestamps are reduced to the two calendar fields the masks read.
 */
module Periods {
  import opened Samples
  import opened WeibullModel

  type Month = m: int | 1 <= m <= 12 witness 1

  /** What `.dt.year` and `.dt.month` read from a `MESS_DATUM` timestamp. */
  datatype Stamp = Stamp(year: int, month: Month)

  /** One row of the input frame: the timestamp and the `FF_10_wind` value. */
  datatype Observation = Observation(stamp: Stamp, speed: Float)

  /** The index label of a monthly row: a pandas Period of frequency 'M'. */
  datatype YearMonth = YearMonth(year: int, month: Month)

  /** The key of an observation's year row. */
  function YearOf(s: Stamp): int { s.year }

  /** The key of an observation's month row. */
  function MonthOf(s: Stamp): YearMonth { YearMonth(s.year, s.month) }

  /** `(y1, m1)` comes strictly before `(y2, m2)` in calendar order. */
  predicate Before(a: YearMonth, b: YearMonth) {
    a.year < b.year || (a.year == b.year && a.month < b.month)
  }

  /** `np.arange(first, last + 1)`: the years of the inclusive range, ascending; none when last < first. */
  function Years(first: int, last: int): (r: seq<int>)
    ensures |r| == if last < first then 0 else last - first + 1
    ensures forall i :: 0 < i < |r| ==> r[i - 1] < r[i]
  {
    if last < first then [] else seq(last - first + 1, i => first + i)
  }

  /**
   * `pd.date_range(start=f'{first}-01', end=f'{last+1}-01', freq='M').to_period('M')`: the
   * month ends from January of `first` up to the first of January of `last + 1`, that is
   * every month of every year in the range, in calendar order.
   */
  function Months(first: int, last: int): (r: seq<YearMonth>)
    ensures |r| == if last < first then 0 else 12 * (last - first + 1)
    ensures |r| > 0 ==> r[0] == YearMonth(first, 1) && r[|r| - 1] == YearMonth(last, 12)
  {
    if last < first then []
    else seq(12 * (last - first + 1), i requires 0 <= i < 12 * (last - first + 1) => YearMonth(first + i / 12, i % 12 + 1))
  }

  /** `dataframe[mask]` for `mask = key(dataframe['MESS_DATUM']) == want`: the matching rows, in order. */
  function Where<K(==)>(series: seq<Observation>, key: Stamp -> K, want: K): (r: seq<Observation>)
    ensures |r| <= |series|
    ensures forall o :: o in r <==> o in series && key(o.stamp) == want
  {
    if series == [] then []
    else if key(series[0].stamp) == want then [series[0]] + Where(series[1..], key, want)
    else Where(series[1..], key, want)
  }

  /** A mask keeps every matching row exactly as often as it occurs and drops every other row. */
  lemma {:induction false} WhereCount<K>(series: seq<Observation>, key: Stamp -> K, want: K, o: Observation)
    ensures multiset(Where(series, key, want))[o] == if key(o.stamp) == want then multiset(series)[o] else 0
  {
    if series != [] {
      assert series == [series[0]] + series[1..];
      WhereCount(series[1..], key, want, o);
    }
  }

  /** A mask distributes over concatenation: the matching rows stay in their original order. */
  lemma {:induction false} WhereAppend<K>(a: seq<Observation>, b: seq<Observation>, key: Stamp -> K, want: K)
    ensures Where(a + b, key, want) == Where(a, key, want) + Where(b, key, want)
  {
    if a != [] {
      assert (a + b)[0] == a[0];
      assert (a + b)[1..] == a[1..] + b;
      WhereAppend(a[1..], b, key, want);
    } else {
      assert a + b == b;
    }
  }

  /** `[...]['FF_10_wind']`: the wind-speed column of some rows. */
  function Speeds(rows: seq<Observation>): (r: seq<Float>)
    ensures |r| == |rows|
    ensures forall i :: 0 <= i < |rows| ==> r[i] == rows[i].speed
  {
    if rows == [] then [] else [rows[0].speed] + Speeds(rows[1..])
  }

  /** The fit of one period: `Weibull.estimate` on the wind speeds of the rows whose key matches. */
  function PeriodFit<K(==)>(series: seq<Observation>, key: Stamp -> K, want: K, k: Numerics): (w: Weibull)
    ensures w.beta != Zero
    ensures |Positives(Speeds(Where(series, key, want)))| == 0 ==> w == Failed
  {
    Estimate(Speeds(Where(series, key, want)), k)
  }

  /**
   * The output frame: an index of period labels and the `param_lambda` and `param_beta`
   * columns, both created as 0.0 and written one row at a time.
   */
  class ParamTable<K> {
    var index: seq<K>
    var lambdas: seq<Float>
    var betas: seq<Float>

    ghost predicate Valid()
      reads this
    {
      |lambdas| == |index| && |betas| == |index|
    }

    /** The fit stored in row `i`. */
    function Row(i: nat): Weibull
      reads this
      requires Valid() && i < |index|
    {
      Weibull(lambdas[i], betas[i])
    }

    /** A frame indexed by `keys` with both parameter columns set to 0.0. */
    constructor (keys: seq<K>)
      ensures Valid() && index == keys
      ensures forall i :: 0 <= i < |keys| ==> Row(i) == Weibull(Zero, Zero)
    {
      index := keys;
      lambdas := seq(|keys|, _ => Zero);
      betas := seq(|keys|, _ => Zero);
    }

    /**
     * `df.loc[key, 'param_lambda'] = w.lambd` and `df.loc[key, 'param_beta'] = w.beta` for the
     * label in row `i` (labels are distinct, so the label selects exactly that row).
     */
    method Put(i: nat, w: Weibull)
      requires Valid() && i < |index|
      modifies this
      ensures Valid() && index == old(index)
      ensures Row(i) == w
      ensures forall j :: 0 <= j < |index| && j != i ==> Row(j) == old(Row(j))
    {
      lambdas := lambdas[i := w.lambd];
      betas := betas[i := w.beta];
    }
  }

  /**
   * `yearly_params`: one row per year of `[first, last]`, ascending, each holding the fit of
   * the wind speeds measured in that year. Only the fresh table is written.
   */
  method YearlyParams(first: int, last: int, series: seq<Observation>, k: Numerics) returns (t: ParamTable<int>)
    ensures fresh(t) && t.Valid()
    ensures t.index == Years(first, last)
    ensures forall i :: 0 <= i < |t.index| ==> t.Row(i) == PeriodFit(series, YearOf, t.index[i], k)
    ensures forall i :: 0 <= i < |t.index| ==> t.Row(i).beta != Zero
  {
    t := new ParamTable(Years(first, last));
    var i := 0;
    while i < |t.index|
      invariant 0 <= i <= |t.index| && t.Valid()
      invariant t.index == Years(first, last)
      invariant forall j :: 0 <= j < i ==> t.Row(j) == PeriodFit(series, YearOf, t.index[j], k)
    {
      var y := t.index[i];
      var rows := Where(series, YearOf, y);
      var w := Estimate(Speeds(rows), k);
      t.Put(i, w);
      i := i + 1;
    }
  }

  /**
   * `monthly_params`: one row per (year, month) from January of `first` to December of `last`,
   * in calendar order, each holding the fit of the wind speeds measured in that month.
   */
  method MonthlyParams(first: int, last: int, series: seq<Observation>, k: Numerics) returns (t: ParamTable<YearMonth>)
    ensures fresh(t) && t.Valid()
    ensures t.index == Months(first, last)
    ensures forall i :: 0 <= i < |t.index| ==> t.Row(i) == PeriodFit(series, MonthOf, t.index[i], k)
    ensures forall i :: 0 <= i < |t.index| ==> t.Row(i).beta != Zero
  {
    t := new ParamTable(Months(first, last));
    var i := 0;
    while i < |t.index|
      invariant 0 <= i <= |t.index| && t.Valid()
      invariant t.index == Months(first, last)
      invariant forall j :: 0 <= j < i ==> t.Row(j) == PeriodFit(series, MonthOf, t.index[j], k)
    {
      var m := t.index[i];
      var rows := Where(series, MonthOf, m);
      var w := Estimate(Speeds(rows), k);
      t.Put(i, w);
      i := i + 1;
    }
  }

  /** The yearly keys are exactly first, first+1, ..., last, ascending, and none when last < first. */
  lemma YearsEnumerate(first: int, last: int)
    ensures |Years(first, last)| == if last < first then 0 else last - first + 1
    ensures forall i :: 0 <= i < |Years(first, last)| ==> Years(first, last)[i] == first + i
    ensures forall i, j :: 0 <= i < j < |Years(first, last)| ==> Years(first, last)[i] < Years(first, last)[j]
    ensures forall y :: y in Years(first, last) <==> first <= y <= last
  {
    var ys := Years(first, last);
    forall y | first <= y <= last
      ensures y in ys
    {
      assert ys[y - first] == y;
    }
  }

  /** The monthly keys: 12 per year, from (first, 1) to (last, 12), strictly increasing in calendar order. */
  lemma MonthsEnumerate(first: int, last: int)
    ensures |Months(first, last)| == if last < first then 0 else 12 * (last - first + 1)
    ensures first <= last ==> Months(first, last)[0] == YearMonth(first, 1)
    ensures first <= last ==> Months(first, last)[|Months(first, last)| - 1] == YearMonth(last, 12)
    ensures forall i, j :: 0 <= i < j < |Months(first, last)| ==> Before(Months(first, last)[i], Months(first, last)[j])
  {
    var ms := Months(first, last);
    if first <= last {
      var n := 12 * (last - first + 1);
      assert (n - 1) / 12 == last - first && (n - 1) % 12 == 11;
      forall i, j | 0 <= i < j < n
        ensures Before(ms[i], ms[j])
      {
        DivModOrder(i, j);
      }
    }
  }

  /** Dividing by 12: a smaller index has an earlier (quotient, remainder) pair. */
  lemma DivModOrder(i: nat, j: nat)
    requires i < j
    ensures i / 12 < j / 12 || (i / 12 == j / 12 && i % 12 < j % 12)
  {
  }

  /** A (year, month) is a monthly key exactly when its year lies in [first, last]. */
  lemma MonthsMembership(first: int, last: int, ym: YearMonth)
    ensures ym in Months(first, last) <==> first <= ym.year <= last
  {
    var ms := Months(first, last);
    if first <= ym.year <= last {
      var i := 12 * (ym.year - first) + ym.month - 1;
      assert i / 12 == ym.year - first && i % 12 == ym.month - 1;
      assert ms[i] == ym;
    }
  }

  /** The rows of `series` whose key is one of `keys`, in order. */
  function Among<K(==)>(series: seq<Observation>, key: Stamp -> K, keys: seq<K>): (r: seq<Observation>)
    ensures forall o :: o in r <==> o in series && key(o.stamp) in keys
  {
    if series == [] then []
    else if key(series[0].stamp) in keys then [series[0]] + Among(series[1..], key, keys)
    else Among(series[1..], key, keys)
  }

  /** Selecting by a list of keys keeps every row whose key is listed exactly as often as it occurs. */
  lemma {:induction false} AmongCount<K>(series: seq<Observation>, key: Stamp -> K, keys: seq<K>, o: Observation)
    ensures multiset(Among(series, key, keys))[o] == if key(o.stamp) in keys then multiset(series)[o] else 0
  {
    if series != [] {
      assert series == [series[0]] + series[1..];
      AmongCount(series[1..], key, keys, o);
    }
  }

  /** The masks of the keys, one after the other: what the row-filling loop reads in total. */
  function Gathered<K(==)>(series: seq<Observation>, key: Stamp -> K, keys: seq<K>): seq<Observation>
  {
    if keys == [] then [] else Where(series, key, keys[0]) + Gathered(series, key, keys[1..])
  }

  /** Masks of distinct keys never select the same row. */
  lemma MasksDisjoint<K>(series: seq<Observation>, key: Stamp -> K, a: K, b: K)
    requires a != b
    ensures forall o :: !(o in Where(series, key, a) && o in Where(series, key, b))
  {
  }

  /**
   * The masks of distinct keys partition the rows whose key is among them: every such row is
   * read by exactly one mask, as often as it occurs.
   */
  lemma {:induction false} MasksPartition<K>(series: seq<Observation>, key: Stamp -> K, keys: seq<K>)
    requires forall i, j :: 0 <= i < j < |keys| ==> keys[i] != keys[j]
    ensures multiset(Gathered(series, key, keys)) == multiset(Among(series, key, keys))
  {
    if keys == [] {
      AmongNone(series, key);
    } else {
      MasksPartition(series, key, keys[1..]);
      AmongSplit(series, key, keys);
    }
  }

  /**
   * Over the masks of distinct keys, each row whose key is listed is read exactly as often as it
   * occurs in the input, and no other row is read.
   */
  lemma MasksReadOnce<K>(series: seq<Observation>, key: Stamp -> K, keys: seq<K>, o: Observation)
    requires forall i, j :: 0 <= i < j < |keys| ==> keys[i] != keys[j]
    ensures multiset(Gathered(series, key, keys))[o] == if key(o.stamp) in keys then multiset(series)[o] else 0
  {
    MasksPartition(series, key, keys);
    AmongCount(series, key, keys, o);
  }

  /** No key, no rows. */
  lemma {:induction false} AmongNone<K>(series: seq<Observation>, key: Stamp -> K)
    ensures Among(series, key, []) == []
  {
    if series != [] {
      AmongNone(series[1..], key);
    }
  }

  /** Selecting by a non-empty list of distinct keys is selecting by its head plus selecting by its tail. */
  lemma {:induction false} AmongSplit<K>(series: seq<Observation>, key: Stamp -> K, keys: seq<K>)
    requires keys != [] && keys[0] !in keys[1..]
    ensures multiset(Among(series, key, keys)) == multiset(Where(series, key, keys[0])) + multiset(Among(series, key, keys[1..]))
  {
    if series != [] {
      AmongSplit(series[1..], key, keys);
      assert keys == [keys[0]] + keys[1..];
    }
  }

  /** The monthly keys select exactly the rows whose year lies in [first, last]. */
  lemma {:induction false} MonthsCoverYears(first: int, last: int, series: seq<Observation>)
    ensures forall o :: o in Among(series, MonthOf, Months(first, last)) <==> o in series && first <= o.stamp.year <= last
  {
    forall o | o in series
      ensures MonthOf(o.stamp) in Months(first, last) <==> first <= o.stamp.year <= last
    {
      MonthsMembership(first, last, MonthOf(o.stamp));
    }
  }

  /**
   * The monthly masks are disjoint and together read, exactly once each, the rows whose
   * year lies in [first, last].
   */
  lemma MonthlyMasksPartition(first: int, last: int, series: seq<Observation>)
    ensures multiset(Gathered(series, MonthOf, Months(first, last))) == multiset(Among(series, MonthOf, Months(first, last)))
    ensures forall o :: o in Gathered(series, MonthOf, Months(first, last)) <==> o in series && first <= o.stamp.year <= last
  {
    MonthsEnumerate(first, last);
    var ms := Months(first, last);
    forall i, j | 0 <= i < j < |ms|
      ensures ms[i] != ms[j]
    {
      assert Before(ms[i], ms[j]);
    }
    MasksPartition(series, MonthOf, ms);
    MonthsCoverYears(first, last, series);
    forall o
      ensures o in Gathered(series, MonthOf, ms) <==> o in multiset(Gathered(series, MonthOf, ms))
    {
    }
  }

  /** The yearly masks are disjoint and together read, exactly once each, the rows whose year lies in [first, last]. */
  lemma YearlyMasksPartition(first: int, last: int, series: seq<Observation>)
    ensures multiset(Gathered(series, YearOf, Years(first, last))) == multiset(Among(series, YearOf, Years(first, last)))
    ensures forall o :: o in Among(series, YearOf, Years(first, last)) <==> o in series && first <= o.stamp.year <= last
  {
    YearsEnumerate(first, last);
    MasksPartition(series, YearOf, Years(first, last));
  }

  /** A period whose rows hold no wind speed > 0 (none at all, or only missing values) gets the failed fit. */
  lemma EmptyPeriodFails<K>(series: seq<Observation>, key: Stamp -> K, want: K, k: Numerics)
    requires forall o :: o in series && key(o.stamp) == want ==> !IsPositive(o.speed)
    ensures PeriodFit(series, key, want, k) == Failed
  {
    var rows := Where(series, key, want);
    var speeds := Speeds(rows);
    forall i | 0 <= i < |speeds|
      ensures !IsPositive(speeds[i])
    {
      assert rows[i] in rows;
    }
    PositivesNone(speeds);
  }

  /** No row of year `y` holds a wind speed > 0. */
  predicate NoWindIn(series: seq<Observation>, y: int) {
    forall o :: o in series && o.stamp.year == y ==> !IsPositive(o.speed)
  }

  /**
   * After `yearly_params` no row keeps the initial 0.0 shape, and a year without any wind
   * speed > 0 holds the failed fit rather than being left out.
   */
  lemma YearlyRowsOverwritten(first: int, last: int, series: seq<Observation>, k: Numerics, rows: seq<Weibull>)
    requires |rows| == |Years(first, last)|
    requires forall i :: 0 <= i < |rows| ==> rows[i] == PeriodFit(series, YearOf, Years(first, last)[i], k)
    ensures forall i :: 0 <= i < |rows| ==> rows[i].beta != Zero
    ensures forall y :: first <= y <= last && NoWindIn(series, y) ==> rows[y - first] == Failed
  {
    var ys := Years(first, last);
    forall y | first <= y <= last && NoWindIn(series, y)
      ensures rows[y - first] == Failed
    {
      assert ys[y - first] == y;
      EmptyPeriodFails(series, YearOf, y, k);
    }
  }
}
