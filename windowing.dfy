/**
 * Sliding-window sample construction and training-table assembly
 * (LSTM-project/src/dataset/windowing.py).
 */
module Windowing {
  import opened Wrappers
  import opened Sums
  import opened Sorting
  import opened Library
  import opened Spectral
  import opened Processing

  /** One training row: the `feat` dictionary after `feat.update(fft_feat)`. */
  datatype Sample = Sample(
    windowEndDate: int,
    chargingType: string,
    yNext7Total: real,      // the label: total usage of the next `horizon` days
    month: int,
    dayOfWeek: int,
    mean28d: real,
    std28d: real,
    lastDayUsage: real,
    peakRatioMean: real,
    spectral: SpectralFeatures)

  // ---------------------------------------------------------------------------
  // build_sliding_window_samples
  // ---------------------------------------------------------------------------

  predicate DateLe(a: Record, b: Record)
  {
    a.date <= b.date
  }

  /** `type_df.sort_values('일자')`: a permutation of the rows in non-decreasing date. */
  function SortByDate(rows: seq<Record>): (s: seq<Record>)
    ensures |s| == |rows| && multiset(s) == multiset(rows)
    ensures forall i, j :: 0 <= i < j < |s| ==> s[i].date <= s[j].date
  {
    SortBySorted(rows, DateLe);
    SortBy(rows, DateLe)
  }

  /** The `daily_total` column of some rows. */
  function DailyTotals(rows: seq<Record>): (d: seq<real>)
    ensures |d| == |rows| && forall k :: 0 <= k < |rows| ==> d[k] == rows[k].dailyTotal
  {
    seq(|rows|, k requires 0 <= k < |rows| => rows[k].dailyTotal)
  }

  /** The `peak_ratio` column of some rows. */
  function PeakRatios(rows: seq<Record>): (p: seq<real>)
    ensures |p| == |rows| && forall k :: 0 <= k < |rows| ==> p[k] == rows[k].peakRatio
  {
    seq(|rows|, k requires 0 <= k < |rows| => rows[k].peakRatio)
  }

  /** The parameters the source demands: a window of at least one day, no negative horizon. */
  predicate ValidParams(lookback: int, horizon: int)
  {
    lookback >= 1 && horizon >= 0
  }

  /** `i` is a window end the loop visits: `range(lookback - 1, n_rows - horizon)`. */
  predicate IsWindowEnd(n: nat, lookback: int, horizon: int, i: int)
  {
    lookback - 1 <= i < n - horizon
  }

  /** `type_df.iloc[i - (lookback-1) : i + 1]`: rows `i-lookback+1 .. i`, all inside the series. */
  function Window(series: seq<Record>, i: int, lookback: int): (w: seq<Record>)
    requires lookback >= 1 && lookback - 1 <= i < |series|
    ensures |w| == lookback && 0 <= i - lookback + 1
    ensures forall k :: 0 <= k < lookback ==> w[k] == series[i - lookback + 1 + k]
    ensures w[lookback - 1] == series[i]
  {
    series[i - (lookback - 1)..i + 1]
  }

  /** `type_df.iloc[i + 1 : i + 1 + horizon]`: the `horizon` rows after `i`, all inside the series. */
  function Target(series: seq<Record>, i: int, horizon: int): (t: seq<Record>)
    requires 0 <= i && horizon >= 0 && i + horizon < |series|
    ensures |t| == horizon
    ensures forall k :: 0 <= k < horizon ==> t[k] == series[i + 1 + k]
  {
    series[i + 1..i + 1 + horizon]
  }

  /** The sample the loop emits for window end `i` of a date-sorted series. */
  function SampleAt(series: seq<Record>, i: int, lookback: int, horizon: int, topK: int, lib: Externals): Sample
    requires ValidParams(lookback, horizon) && IsWindowEnd(|series|, lookback, horizon, i)
  {
    var window := Window(series, i, lookback);
    var dailySeq := DailyTotals(window);
    var currentDate := series[i].date;
    Sample(
      currentDate,
      series[i].chargingType,
      Sum(DailyTotals(Target(series, i, horizon))),
      lib.month(currentDate),
      lib.dayOfWeek(currentDate),
      Mean(dailySeq),
      lib.std(dailySeq),
      dailySeq[|dailySeq| - 1],
      Mean(PeakRatios(window)),
      SpectralSpec(dailySeq, topK, lib))
  }

  /** The number of window ends, `max(0, n - lookback - horizon + 1)`. */
  function WindowCount(n: nat, lookback: int, horizon: int): nat
  {
    if n - lookback - horizon + 1 > 0 then n - lookback - horizon + 1 else 0
  }

  /** `[f(lo), f(lo + 1), ..., f(hi - 1)]`. */
  function Tabulate<T>(f: int -> T, lo: int, hi: int): (r: seq<T>)
    requires lo <= hi
    ensures |r| == hi - lo
  {
    seq(hi - lo, j requires 0 <= j < hi - lo => f(lo + j))
  }

  lemma TabulateAt<T>(f: int -> T, lo: int, hi: int, j: int)
    requires lo <= hi && 0 <= j < hi - lo
    ensures Tabulate(f, lo, hi)[j] == f(lo + j)
  {
  }

  /** Appending `f(hi)` extends the table by one: the step a loop takes. */
  lemma TabulateSnoc<T>(f: int -> T, lo: int, hi: int)
    requires lo <= hi
    ensures Tabulate(f, lo, hi + 1) == Tabulate(f, lo, hi) + [f(hi)]
  {
    var r := Tabulate(f, lo, hi) + [f(hi)];
    assert forall j :: 0 <= j < hi + 1 - lo ==> Tabulate(f, lo, hi + 1)[j] == r[j];
  }

  /** The sample of each window end (other indices get a placeholder that is never used). */
  function SampleFor(series: seq<Record>, lookback: int, horizon: int, topK: int, lib: Externals): int -> Sample
  {
    i => if ValidParams(lookback, horizon) && IsWindowEnd(|series|, lookback, horizon, i)
         then SampleAt(series, i, lookback, horizon, topK, lib)
         else Sample(0, [], 0.0, 0, 0, 0.0, 0.0, 0.0, 0.0, SpectralFeatures([], [], 0.0, 0.0, 0.0, 0.0))
  }

  /** The last index the loop reaches, `max(lookback - 1, n - horizon)`. */
  function LoopEnd(n: nat, lookback: int, horizon: int): int
  {
    if n - horizon > lookback - 1 then n - horizon else lookback - 1
  }

  /** The samples of a date-sorted series, one per window end in increasing order. */
  function WindowSamples(series: seq<Record>, lookback: int, horizon: int, topK: int, lib: Externals): seq<Sample>
  {
    Tabulate(SampleFor(series, lookback, horizon, topK, lib), lookback - 1, LoopEnd(|series|, lookback, horizon))
  }

  /** There are `max(0, n - lookback - horizon + 1)` samples, and sample `j` is the one for window end `lookback - 1 + j`. */
  lemma WindowSampleAt(series: seq<Record>, lookback: int, horizon: int, topK: int, lib: Externals, j: int)
    requires ValidParams(lookback, horizon) && 0 <= j < WindowCount(|series|, lookback, horizon)
    ensures |WindowSamples(series, lookback, horizon, topK, lib)| == WindowCount(|series|, lookback, horizon)
    ensures IsWindowEnd(|series|, lookback, horizon, lookback - 1 + j)
    ensures WindowSamples(series, lookback, horizon, topK, lib)[j]
         == SampleAt(series, lookback - 1 + j, lookback, horizon, topK, lib)
  {
    hide SampleAt;
    TabulateAt(SampleFor(series, lookback, horizon, topK, lib), lookback - 1, LoopEnd(|series|, lookback, horizon), j);
    SampleForAt(series, lookback - 1 + j, lookback, horizon, topK, lib);
  }

  lemma SampleForAt(series: seq<Record>, i: int, lookback: int, horizon: int, topK: int, lib: Externals)
    requires ValidParams(lookback, horizon) && IsWindowEnd(|series|, lookback, horizon, i)
    ensures SampleFor(series, lookback, horizon, topK, lib)(i) == SampleAt(series, i, lookback, horizon, topK, lib)
  {
    hide SampleAt;
  }

  /** The fields of a sample that come straight from its window's last row. */
  lemma SampleAtFields(series: seq<Record>, i: int, lookback: int, horizon: int, topK: int, lib: Externals)
    requires ValidParams(lookback, horizon) && IsWindowEnd(|series|, lookback, horizon, i)
    ensures SampleAt(series, i, lookback, horizon, topK, lib).windowEndDate == series[i].date
    ensures SampleAt(series, i, lookback, horizon, topK, lib).chargingType == series[i].chargingType
    ensures SampleAt(series, i, lookback, horizon, topK, lib).lastDayUsage == series[i].dailyTotal
  {
    hide SpectralSpec;
  }

  /** The loop body of `build_sliding_window_samples` for window end `i`: builds `feat`. */
  method MakeSample(series: seq<Record>, i: int, lookback: int, horizon: int, topK: int, lib: Externals)
    returns (feat: Sample)
    requires ValidParams(lookback, horizon) && IsWindowEnd(|series|, lookback, horizon, i) && lib.Valid()
    ensures feat == SampleAt(series, i, lookback, horizon, topK, lib)
  {
    hide SpectralSpec;
    var window := Window(series, i, lookback);
    var targetWindow := Target(series, i, horizon);
    var dailySeq := DailyTotals(window);
    var currentDate := series[i].date;
    var fftFeat := FftFeatures(dailySeq, lib, topK);
    feat := Sample(
      currentDate,
      series[i].chargingType,
      Sum(DailyTotals(targetWindow)),
      lib.month(currentDate),
      lib.dayOfWeek(currentDate),
      Mean(dailySeq),
      lib.std(dailySeq),
      dailySeq[|dailySeq| - 1],
      Mean(PeakRatios(window)),
      fftFeat);
  }

  /** One pass of the loop: emit the sample for window end `i` after those before it. */
  method AppendSample(series: seq<Record>, i: int, lookback: int, horizon: int, topK: int, lib: Externals,
                      samples: seq<Sample>)
    returns (extended: seq<Sample>)
    requires ValidParams(lookback, horizon) && IsWindowEnd(|series|, lookback, horizon, i) && lib.Valid()
    requires samples == Tabulate(SampleFor(series, lookback, horizon, topK, lib), lookback - 1, i)
    ensures extended == Tabulate(SampleFor(series, lookback, horizon, topK, lib), lookback - 1, i + 1)
  {
    hide SampleAt;
    var feat := MakeSample(series, i, lookback, horizon, topK, lib);
    SampleForAt(series, i, lookback, horizon, topK, lib);
    TabulateSnoc(SampleFor(series, lookback, horizon, topK, lib), lookback - 1, i);
    extended := samples + [feat];
  }

  /** The loop of `build_sliding_window_samples` over the window ends of a sorted series. */
  method CollectWindows(series: seq<Record>, lookback: int, horizon: int, topK: int, lib: Externals)
    returns (samples: seq<Sample>)
    requires ValidParams(lookback, horizon) && lib.Valid()
    ensures samples == WindowSamples(series, lookback, horizon, topK, lib)
  {
    hide SampleAt;
    var nRows := |series|;
    samples := [];
    var i := lookback - 1;
    while i < nRows - horizon
      invariant lookback - 1 <= i && (i == lookback - 1 || i <= nRows - horizon)
      invariant samples == Tabulate(SampleFor(series, lookback, horizon, topK, lib), lookback - 1, i)
    {
      samples := AppendSample(series, i, lookback, horizon, topK, lib, samples);
      i := i + 1;
    }
    assert i == LoopEnd(nRows, lookback, horizon);
  }

  /**
   * `build_sliding_window_samples`: sort one type's rows by date and emit a sample for
   * each window end `i` in `[lookback-1, n-horizon-1]`, in increasing `i`.
   */
  method BuildSlidingWindowSamples(typeRows: seq<Record>, lib: Externals, lookback: int := 28, horizon: int := 7, topK: int := 3)
    returns (samples: seq<Sample>)
    requires ValidParams(lookback, horizon) && lib.Valid()
    ensures samples == WindowSamples(SortByDate(typeRows), lookback, horizon, topK, lib)
    ensures |samples| == WindowCount(|typeRows|, lookback, horizon)
    ensures forall j :: 0 <= j < |samples| ==>
      && samples[j].windowEndDate == SortByDate(typeRows)[lookback - 1 + j].date
      && samples[j].chargingType == SortByDate(typeRows)[lookback - 1 + j].chargingType
      && samples[j].lastDayUsage == SortByDate(typeRows)[lookback - 1 + j].dailyTotal
    ensures forall j1, j2 :: 0 <= j1 < j2 < |samples| ==> samples[j1].windowEndDate <= samples[j2].windowEndDate
  {
    hide SampleAt;
    var series := SortByDate(typeRows);
    samples := CollectWindows(series, lookback, horizon, topK, lib);
    WindowSamplesFacts(series, lookback, horizon, topK, lib);
  }

  /**
   * The emitted samples follow the series: sample `j` ends at row `lookback-1+j`, takes
   * its date and type, its last-day usage is that row's `daily_total`, and end dates
   * never decrease.
   */
  lemma WindowSamplesFacts(series: seq<Record>, lookback: int, horizon: int, topK: int, lib: Externals)
    requires ValidParams(lookback, horizon)
    requires forall i, j :: 0 <= i < j < |series| ==> series[i].date <= series[j].date
    ensures var samples := WindowSamples(series, lookback, horizon, topK, lib);
      && |samples| == WindowCount(|series|, lookback, horizon)
      && (forall j :: 0 <= j < |samples| ==>
        && samples[j].windowEndDate == series[lookback - 1 + j].date
        && samples[j].chargingType == series[lookback - 1 + j].chargingType
        && samples[j].lastDayUsage == series[lookback - 1 + j].dailyTotal)
      && (forall j1, j2 :: 0 <= j1 < j2 < |samples| ==> samples[j1].windowEndDate <= samples[j2].windowEndDate)
  {
    hide SampleAt;
    var samples := WindowSamples(series, lookback, horizon, topK, lib);
    forall j | 0 <= j < |samples|
      ensures samples[j].windowEndDate == series[lookback - 1 + j].date
      ensures samples[j].chargingType == series[lookback - 1 + j].chargingType
      ensures samples[j].lastDayUsage == series[lookback - 1 + j].dailyTotal
    {
      WindowSampleAt(series, lookback, horizon, topK, lib, j);
      SampleAtFields(series, lookback - 1 + j, lookback, horizon, topK, lib);
    }
  }

  // ---------------------------------------------------------------------------
  // Properties of one sample
  // ---------------------------------------------------------------------------

  /** The `daily_total` column of a slice is the slice of the column. */
  lemma DailyTotalsSlice(rows: seq<Record>, a: int, b: int)
    requires 0 <= a <= b <= |rows|
    ensures DailyTotals(rows[a..b]) == DailyTotals(rows)[a..b]
  {
    assert forall k :: 0 <= k < b - a ==> DailyTotals(rows[a..b])[k] == DailyTotals(rows)[a..b][k];
  }

  /**
   * The label is the total `daily_total` of the `horizon` rows right after the window,
   * rows `i + 1 .. i + horizon`, all of which lie inside the series.
   */
  lemma LabelIsFutureSum(series: seq<Record>, i: int, lookback: int, horizon: int, topK: int, lib: Externals)
    requires ValidParams(lookback, horizon) && IsWindowEnd(|series|, lookback, horizon, i)
    ensures i + 1 + horizon <= |series|
    ensures SampleAt(series, i, lookback, horizon, topK, lib).yNext7Total
         == Sum(DailyTotals(series)[i + 1..i + 1 + horizon])
  {
    hide SpectralSpec;
    DailyTotalsSlice(series, i + 1, i + 1 + horizon);
    assert Target(series, i, horizon) == series[i + 1..i + 1 + horizon];
  }

  /** Moving the window end by one day drops day `i + 1` from the label and adds day `i + 1 + horizon`. */
  lemma LabelRolling(series: seq<Record>, i: int, lookback: int, horizon: int, topK: int, lib: Externals)
    requires ValidParams(lookback, horizon)
    requires IsWindowEnd(|series|, lookback, horizon, i) && IsWindowEnd(|series|, lookback, horizon, i + 1)
    ensures SampleAt(series, i + 1, lookback, horizon, topK, lib).yNext7Total
         == SampleAt(series, i, lookback, horizon, topK, lib).yNext7Total
            - series[i + 1].dailyTotal + series[i + 1 + horizon].dailyTotal
  {
    hide SampleAt;
    LabelIsFutureSum(series, i, lookback, horizon, topK, lib);
    LabelIsFutureSum(series, i + 1, lookback, horizon, topK, lib);
    var d := DailyTotals(series);
    var x := d[i + 1..i + 2 + horizon];
    SumSplit(x, 1);
    SumSnoc(x, horizon);
    assert x[1..] == d[i + 2..i + 2 + horizon];
    assert x[..horizon] == d[i + 1..i + 1 + horizon];
    assert x[..1] == [d[i + 1]];
    assert Sum([d[i + 1]]) == d[i + 1];
    assert x[..horizon + 1] == x;
  }

  /**
   * Leakage boundary: a sample depends on rows after its window end only through its
   * label. Two series that agree on rows `0 .. i` give samples that differ at most in
   * `y_next7_total`; if they also agree on the `horizon` rows after `i`, the samples are equal.
   */
  lemma NoLeakage(s1: seq<Record>, s2: seq<Record>, i: int, lookback: int, horizon: int, topK: int, lib: Externals)
    requires ValidParams(lookback, horizon)
    requires IsWindowEnd(|s1|, lookback, horizon, i) && IsWindowEnd(|s2|, lookback, horizon, i)
    requires s1[..i + 1] == s2[..i + 1]
    ensures SampleAt(s1, i, lookback, horizon, topK, lib).(yNext7Total := 0.0)
         == SampleAt(s2, i, lookback, horizon, topK, lib).(yNext7Total := 0.0)
    ensures s1[..i + 1 + horizon] == s2[..i + 1 + horizon] ==>
      SampleAt(s1, i, lookback, horizon, topK, lib) == SampleAt(s2, i, lookback, horizon, topK, lib)
  {
    hide SpectralSpec;
    assert s1[i] == s1[..i + 1][i] == s2[..i + 1][i] == s2[i];
    assert Window(s1, i, lookback) == Window(s2, i, lookback) by {
      forall k | 0 <= k < lookback
        ensures Window(s1, i, lookback)[k] == Window(s2, i, lookback)[k]
      {
        assert s1[i - lookback + 1 + k] == s1[..i + 1][i - lookback + 1 + k];
        assert s2[i - lookback + 1 + k] == s2[..i + 1][i - lookback + 1 + k];
      }
    }
    if s1[..i + 1 + horizon] == s2[..i + 1 + horizon] {
      assert Target(s1, i, horizon) == Target(s2, i, horizon) by {
        forall k | 0 <= k < horizon
          ensures Target(s1, i, horizon)[k] == Target(s2, i, horizon)[k]
        {
          assert s1[i + 1 + k] == s1[..i + 1 + horizon][i + 1 + k];
          assert s2[i + 1 + k] == s2[..i + 1 + horizon][i + 1 + k];
        }
      }
    }
  }

  /**
   * The constant-usage example: 35 consecutive days of usage 10 with `lookback = 28` and
   * `horizon = 7` give exactly one sample, with 28-day mean 10, last-day usage 10 and
   * label 70, and the detrended window is all zeros (so the spectrum has no energy
   * away from the DC bin).
   */
  lemma ConstantSeriesExample(series: seq<Record>, topK: int, lib: Externals)
    requires |series| == 35 && forall k :: 0 <= k < |series| ==> series[k].dailyTotal == 10.0
    ensures |WindowSamples(series, 28, 7, topK, lib)| == 1
    ensures WindowSamples(series, 28, 7, topK, lib)[0].mean28d == 10.0
    ensures WindowSamples(series, 28, 7, topK, lib)[0].lastDayUsage == 10.0
    ensures WindowSamples(series, 28, 7, topK, lib)[0].yNext7Total == 70.0
    ensures forall k :: 0 <= k < 28 ==> Detrend(DailyTotals(Window(series, 27, 28)))[k] == 0.0
  {
    hide SpectralSpec;
    WindowSampleAt(series, 28, 7, topK, lib, 0);
    var d := DailyTotals(Window(series, 27, 28));
    SumConstant(d, 10.0);
    assert Mean(d) == 10.0;
    var t := DailyTotals(Target(series, 27, 7));
    SumConstant(t, 10.0);
  }

  // ---------------------------------------------------------------------------
  // build_train_df
  // ---------------------------------------------------------------------------

  /** `df['충전방식'].unique()`: the charging types in order of first appearance. */
  function UniqueTypes(rows: seq<Record>): seq<string>
  {
    if |rows| == 0 then []
    else
      var types := UniqueTypes(rows[..|rows| - 1]);
      var c := rows[|rows| - 1].chargingType;
      if c in types then types else types + [c]
  }

  /** The unique types are distinct, and they are exactly the types that occur in the rows. */
  lemma {:induction false} UniqueTypesExact(rows: seq<Record>)
    ensures forall a, b :: 0 <= a < b < |UniqueTypes(rows)| ==> UniqueTypes(rows)[a] != UniqueTypes(rows)[b]
    ensures forall k :: 0 <= k < |rows| ==> rows[k].chargingType in UniqueTypes(rows)
    ensures forall c :: c in UniqueTypes(rows) ==> exists k :: 0 <= k < |rows| && rows[k].chargingType == c
  {
    if |rows| > 0 {
      var front := rows[..|rows| - 1];
      UniqueTypesExact(front);
      assert forall k :: 0 <= k < |front| ==> front[k] == rows[k];
    }
  }

  /** `df[df['충전방식'] == c]`: the rows of type `c`, in their original order. */
  function FilterType(rows: seq<Record>, c: string): (kept: seq<Record>)
    ensures |kept| <= |rows|
  {
    if |rows| == 0 then []
    else
      var kept := FilterType(rows[..|rows| - 1], c);
      if rows[|rows| - 1].chargingType == c then kept + [rows[|rows| - 1]] else kept
  }

  /** The filter keeps every row of type `c`, as often as it occurs, and nothing else. */
  lemma {:induction false} FilterTypeExact(rows: seq<Record>, c: string)
    ensures forall r :: multiset(FilterType(rows, c))[r] == if r.chargingType == c then multiset(rows)[r] else 0
  {
    if |rows| > 0 {
      var front := rows[..|rows| - 1];
      FilterTypeExact(front, c);
      assert rows == front + [rows[|rows| - 1]];
    }
  }

  /** The samples `build_sliding_window_samples` makes for type `c`. */
  function TypeSamples(rows: seq<Record>, c: string, lookback: int, horizon: int, topK: int, lib: Externals): seq<Sample>
  {
    WindowSamples(SortByDate(FilterType(rows, c)), lookback, horizon, topK, lib)
  }

  /** `all_samples` once the loop has run over `types`: each type's samples, in turn. */
  function Collected(rows: seq<Record>, types: seq<string>, lookback: int, horizon: int, topK: int, lib: Externals): seq<Sample>
  {
    if |types| == 0 then []
    else
      Collected(rows, types[..|types| - 1], lookback, horizon, topK, lib)
        + TypeSamples(rows, types[|types| - 1], lookback, horizon, topK, lib)
  }

  /** The per-type sample counts, added up over `types`. */
  function TotalCount(rows: seq<Record>, types: seq<string>, lookback: int, horizon: int): nat
  {
    if |types| == 0 then 0
    else TotalCount(rows, types[..|types| - 1], lookback, horizon)
         + WindowCount(|FilterType(rows, types[|types| - 1])|, lookback, horizon)
  }

  /** The sort key `['window_end_date', 'charging_type']`, ascending. */
  predicate SampleLe(x: Sample, y: Sample)
  {
    x.windowEndDate < y.windowEndDate || (x.windowEndDate == y.windowEndDate && StrLe(x.chargingType, y.chargingType))
  }

  lemma SampleLeTotalPreorder()
    ensures TotalPreorder(SampleLe)
  {
    forall x: Sample, y: Sample
      ensures SampleLe(x, y) || SampleLe(y, x)
    {
      StrLeTotal(x.chargingType, y.chargingType);
    }
    forall x: Sample, y: Sample, z: Sample | SampleLe(x, y) && SampleLe(y, z)
      ensures SampleLe(x, z)
    {
      if x.windowEndDate == y.windowEndDate == z.windowEndDate {
        StrLeTransitive(x.chargingType, y.chargingType, z.chargingType);
      }
    }
  }

  /** The training table: all samples, sorted by (end date, type). Empty when there are none. */
  function TrainDf(rows: seq<Record>, lookback: int, horizon: int, topK: int, lib: Externals): seq<Sample>
  {
    SortBy(Collected(rows, UniqueTypes(rows), lookback, horizon, topK, lib), SampleLe)
  }

  /**
   * `build_train_df` as written: with no samples at all, `pd.DataFrame([])` has no
   * columns and `sort_values(['window_end_date', 'charging_type'])` raises `KeyError`.
   */
  function TrainDfAsWritten(rows: seq<Record>, lookback: int, horizon: int, topK: int, lib: Externals): Result<seq<Sample>, string>
  {
    var all := Collected(rows, UniqueTypes(rows), lookback, horizon, topK, lib);
    if |all| == 0 then Err("KeyError: 'window_end_date'") else Ok(SortBy(all, SampleLe))
  }

  /** Type `c` contributes `max(0, n_c - lookback - horizon + 1)` samples, all of type `c`. */
  lemma TypeSamplesOfType(rows: seq<Record>, c: string, lookback: int, horizon: int, topK: int, lib: Externals)
    requires ValidParams(lookback, horizon)
    ensures |TypeSamples(rows, c, lookback, horizon, topK, lib)| == WindowCount(|FilterType(rows, c)|, lookback, horizon)
    ensures forall x :: x in TypeSamples(rows, c, lookback, horizon, topK, lib) ==> x.chargingType == c
  {
    hide SampleAt;
    var series := SortByDate(FilterType(rows, c));
    FilterTypeExact(rows, c);
    forall k | 0 <= k < |series|
      ensures series[k].chargingType == c
    {
      assert series[k] in multiset(series);
    }
    WindowSamplesFacts(series, lookback, horizon, topK, lib);
    var samples := TypeSamples(rows, c, lookback, horizon, topK, lib);
    forall x | x in samples
      ensures x.chargingType == c
    {
      var j :| 0 <= j < |samples| && samples[j] == x;
      assert samples[j].chargingType == series[lookback - 1 + j].chargingType;
    }
  }

  /**
   * After the loop over `types`, `all_samples` holds `TotalCount` samples, and each is
   * one of the samples built from the rows of its own charging type, a type in `types`.
   */
  lemma {:induction false} CollectedFacts(rows: seq<Record>, types: seq<string>, lookback: int, horizon: int, topK: int, lib: Externals)
    requires ValidParams(lookback, horizon)
    ensures |Collected(rows, types, lookback, horizon, topK, lib)| == TotalCount(rows, types, lookback, horizon)
    ensures forall x :: x in Collected(rows, types, lookback, horizon, topK, lib) ==>
      x.chargingType in types && x in TypeSamples(rows, x.chargingType, lookback, horizon, topK, lib)
  {
    hide TypeSamples;
    if |types| > 0 {
      var front := types[..|types| - 1];
      var c := types[|types| - 1];
      CollectedFacts(rows, front, lookback, horizon, topK, lib);
      TypeSamplesOfType(rows, c, lookback, horizon, topK, lib);
      forall x | x in Collected(rows, types, lookback, horizon, topK, lib)
        ensures x.chargingType in types && x in TypeSamples(rows, x.chargingType, lookback, horizon, topK, lib)
      {
        if x in Collected(rows, front, lookback, horizon, topK, lib) {
          assert x.chargingType in front;
        }
      }
    }
  }

  /**
   * The training table holds the per-type sample counts added up, is sorted ascending by
   * (end date, type), and is a permutation of the concatenated samples. Every row's
   * charging type occurs in the input, and a row of type `c` is one of the samples
   * built from the type-`c` rows alone.
   */
  lemma TrainDfProperties(rows: seq<Record>, lookback: int, horizon: int, topK: int, lib: Externals)
    requires ValidParams(lookback, horizon)
    ensures |TrainDf(rows, lookback, horizon, topK, lib)| == TotalCount(rows, UniqueTypes(rows), lookback, horizon)
    ensures Sorted(TrainDf(rows, lookback, horizon, topK, lib), SampleLe)
    ensures multiset(TrainDf(rows, lookback, horizon, topK, lib))
         == multiset(Collected(rows, UniqueTypes(rows), lookback, horizon, topK, lib))
    ensures forall x :: x in TrainDf(rows, lookback, horizon, topK, lib) ==>
      && (exists k :: 0 <= k < |rows| && rows[k].chargingType == x.chargingType)
      && x in TypeSamples(rows, x.chargingType, lookback, horizon, topK, lib)
  {
    hide TypeSamples;
    var types := UniqueTypes(rows);
    var all := Collected(rows, types, lookback, horizon, topK, lib);
    CollectedFacts(rows, types, lookback, horizon, topK, lib);
    UniqueTypesExact(rows);
    SampleLeTotalPreorder();
    SortBySorted(all, SampleLe);
    var table := TrainDf(rows, lookback, horizon, topK, lib);
    forall x | x in table
      ensures exists k :: 0 <= k < |rows| && rows[k].chargingType == x.chargingType
      ensures x in TypeSamples(rows, x.chargingType, lookback, horizon, topK, lib)
    {
      assert x in multiset(table);
      assert x in all;
    }
  }

  /** At most one row per (date, charging type): one record per day and type. */
  predicate UniqueDays(rows: seq<Record>)
  {
    forall a, b :: 0 <= a < b < |rows| ==>
      rows[a].date != rows[b].date || rows[a].chargingType != rows[b].chargingType
  }

  /** Rows drawn from a table with one row per (date, type) have one row per (date, type). */
  lemma UniqueDaysSub(s: seq<Record>, t: seq<Record>)
    requires UniqueDays(s) && multiset(t) <= multiset(s)
    ensures UniqueDays(t)
  {
    forall p, q | 0 <= p < q < |t|
      ensures t[p].date != t[q].date || t[p].chargingType != t[q].chargingType
    {
      if t[p].date == t[q].date && t[p].chargingType == t[q].chargingType {
        if t[p] == t[q] {
          RepeatedValue(t, p, q);
          AtMostOnce(s, t[p]);
        } else {
          TwoPositions(s, t[p], t[q]);
        }
      }
    }
  }

  /** Two different values of a sequence sit at two different positions. */
  lemma TwoPositions(s: seq<Record>, v: Record, w: Record)
    requires v in multiset(s) && w in multiset(s) && v != w
    ensures exists a, b :: 0 <= a < |s| && 0 <= b < |s| && a != b && s[a] == v && s[b] == w
  {
    var a :| 0 <= a < |s| && s[a] == v;
    var b :| 0 <= b < |s| && s[b] == w;
  }

  /** With one row per (date, type), one type's date-sorted rows have strictly increasing dates. */
  lemma TypeSeriesIncreasing(rows: seq<Record>, c: string)
    requires UniqueDays(rows)
    ensures forall p, q :: 0 <= p < q < |SortByDate(FilterType(rows, c))| ==>
      SortByDate(FilterType(rows, c))[p].date < SortByDate(FilterType(rows, c))[q].date
  {
    var kept := FilterType(rows, c);
    var series := SortByDate(kept);
    FilterTypeExact(rows, c);
    assert multiset(series) <= multiset(rows) by {
      forall r
        ensures multiset(kept)[r] <= multiset(rows)[r]
      {
      }
    }
    UniqueDaysSub(rows, series);
    forall k | 0 <= k < |series|
      ensures series[k].chargingType == c
    {
      assert series[k] in multiset(series);
    }
  }

  /** With one row per (date, type), one type's samples have strictly increasing end dates. */
  lemma TypeSamplesIncreasing(rows: seq<Record>, c: string, lookback: int, horizon: int, topK: int, lib: Externals)
    requires ValidParams(lookback, horizon) && UniqueDays(rows)
    ensures forall j1, j2 :: 0 <= j1 < j2 < |TypeSamples(rows, c, lookback, horizon, topK, lib)| ==>
      TypeSamples(rows, c, lookback, horizon, topK, lib)[j1].windowEndDate
        < TypeSamples(rows, c, lookback, horizon, topK, lib)[j2].windowEndDate
  {
    hide SampleAt;
    TypeSeriesIncreasing(rows, c);
    WindowSamplesFacts(SortByDate(FilterType(rows, c)), lookback, horizon, topK, lib);
  }

  /** In samples with strictly increasing end dates, two with the same end date are the same sample. */
  lemma SameEndSameSample(ts: seq<Sample>, x: Sample, y: Sample)
    requires forall j1, j2 :: 0 <= j1 < j2 < |ts| ==> ts[j1].windowEndDate < ts[j2].windowEndDate
    requires x in ts && y in ts && x.windowEndDate == y.windowEndDate
    ensures x == y
  {
    var j1 :| 0 <= j1 < |ts| && ts[j1] == x;
    var j2 :| 0 <= j2 < |ts| && ts[j2] == y;
  }

  /** With one row per (date, type) and distinct `types`, no sample occurs twice in `all_samples`. */
  lemma {:induction false} CollectedAtMostOnce(rows: seq<Record>, types: seq<string>,
                                               lookback: int, horizon: int, topK: int, lib: Externals)
    requires ValidParams(lookback, horizon) && UniqueDays(rows)
    requires forall a, b :: 0 <= a < b < |types| ==> types[a] != types[b]
    ensures forall x :: multiset(Collected(rows, types, lookback, horizon, topK, lib))[x] <= 1
  {
    hide TypeSamples;
    if |types| > 0 {
      var front := types[..|types| - 1];
      var c := types[|types| - 1];
      assert forall k :: 0 <= k < |front| ==> front[k] == types[k];
      CollectedAtMostOnce(rows, front, lookback, horizon, topK, lib);
      CollectedFacts(rows, front, lookback, horizon, topK, lib);
      TypeSamplesOfType(rows, c, lookback, horizon, topK, lib);
      TypeSamplesIncreasing(rows, c, lookback, horizon, topK, lib);
      var before := Collected(rows, front, lookback, horizon, topK, lib);
      var ts := TypeSamples(rows, c, lookback, horizon, topK, lib);
      assert Collected(rows, types, lookback, horizon, topK, lib) == before + ts;
      forall x: Sample
        ensures multiset(before + ts)[x] <= 1
      {
        if x.chargingType == c {
          AtMostOnce(ts, x);
          assert c !in front;
        }
      }
    }
  }

  /**
   * With one row per (date, type) in the input, no two rows of the training table share
   * (end date, type), so the table is strictly ascending by that key.
   */
  lemma TrainDfStrictlySorted(rows: seq<Record>, lookback: int, horizon: int, topK: int, lib: Externals)
    requires ValidParams(lookback, horizon) && UniqueDays(rows)
    ensures forall a, b :: 0 <= a < b < |TrainDf(rows, lookback, horizon, topK, lib)| ==>
      && (TrainDf(rows, lookback, horizon, topK, lib)[a].windowEndDate
            != TrainDf(rows, lookback, horizon, topK, lib)[b].windowEndDate
          || TrainDf(rows, lookback, horizon, topK, lib)[a].chargingType
            != TrainDf(rows, lookback, horizon, topK, lib)[b].chargingType)
      && !SampleLe(TrainDf(rows, lookback, horizon, topK, lib)[b], TrainDf(rows, lookback, horizon, topK, lib)[a])
  {
    hide TypeSamples;
    var table := TrainDf(rows, lookback, horizon, topK, lib);
    TrainDfProperties(rows, lookback, horizon, topK, lib);
    UniqueTypesExact(rows);
    CollectedAtMostOnce(rows, UniqueTypes(rows), lookback, horizon, topK, lib);
    forall a, b | 0 <= a < b < |table|
      ensures table[a].windowEndDate != table[b].windowEndDate || table[a].chargingType != table[b].chargingType
    {
      var x, y := table[a], table[b];
      if x.windowEndDate == y.windowEndDate && x.chargingType == y.chargingType {
        TypeSamplesIncreasing(rows, x.chargingType, lookback, horizon, topK, lib);
        SameEndSameSample(TypeSamples(rows, x.chargingType, lookback, horizon, topK, lib), x, y);
        RepeatedValue(table, a, b);
      }
    }
    forall a, b | 0 <= a < b < |table|
      ensures !SampleLe(table[b], table[a])
    {
      if SampleLe(table[b], table[a]) {
        assert SampleLe(table[a], table[b]);
        StrLeAntisymmetric(table[a].chargingType, table[b].chargingType);
      }
    }
  }

  /** As written, the source fails exactly when no type yields a sample, and otherwise agrees with `TrainDf`. */
  lemma TrainDfAsWrittenAgrees(rows: seq<Record>, lookback: int, horizon: int, topK: int, lib: Externals)
    requires ValidParams(lookback, horizon)
    ensures TrainDfAsWritten(rows, lookback, horizon, topK, lib).Err?
        <==> TotalCount(rows, UniqueTypes(rows), lookback, horizon) == 0
    ensures TotalCount(rows, UniqueTypes(rows), lookback, horizon) > 0 ==>
      TrainDfAsWritten(rows, lookback, horizon, topK, lib) == Ok(TrainDf(rows, lookback, horizon, topK, lib))
  {
    hide TypeSamples;
    CollectedFacts(rows, UniqueTypes(rows), lookback, horizon, topK, lib);
  }

  /** Every type count in `types` is below `lookback + horizon`, so no type yields a sample. */
  lemma {:induction false} ShortTypesYieldNothing(rows: seq<Record>, types: seq<string>, lookback: int, horizon: int)
    requires ValidParams(lookback, horizon) && |rows| < lookback + horizon
    ensures TotalCount(rows, types, lookback, horizon) == 0
  {
    if |types| > 0 {
      ShortTypesYieldNothing(rows, types[..|types| - 1], lookback, horizon);
    }
  }

  /**
   * The input that shows the failure: a frame with fewer rows than `lookback + horizon`
   * (one row, say, with the default 28 and 7) makes the source raise `KeyError`, where
   * the evidently intended result is an empty table.
   */
  lemma ShortHistoryRaises(rows: seq<Record>, lookback: int, horizon: int, topK: int, lib: Externals)
    requires ValidParams(lookback, horizon) && |rows| < lookback + horizon
    ensures TrainDfAsWritten(rows, lookback, horizon, topK, lib) == Err("KeyError: 'window_end_date'")
    ensures TrainDf(rows, lookback, horizon, topK, lib) == []
  {
    ShortTypesYieldNothing(rows, UniqueTypes(rows), lookback, horizon);
    TrainDfAsWrittenAgrees(rows, lookback, horizon, topK, lib);
    TrainDfProperties(rows, lookback, horizon, topK, lib);
  }

  /**
   * The loop of `build_train_df`: for each charging type in order of first appearance,
   * build its window samples and extend `all_samples` with them.
   */
  method CollectAllSamples(rows: seq<Record>, lib: Externals, lookback: int, horizon: int, topK: int)
    returns (allSamples: seq<Sample>)
    requires ValidParams(lookback, horizon) && lib.Valid()
    ensures allSamples == Collected(rows, UniqueTypes(rows), lookback, horizon, topK, lib)
  {
    hide SampleAt;
    allSamples := [];
    var chargingTypes := UniqueTypes(rows);
    for t := 0 to |chargingTypes|
      invariant allSamples == Collected(rows, chargingTypes[..t], lookback, horizon, topK, lib)
    {
      var typeRows := FilterType(rows, chargingTypes[t]);
      var typeSamples := BuildSlidingWindowSamples(typeRows, lib, lookback, horizon, topK);
      assert chargingTypes[..t + 1][..t] == chargingTypes[..t];
      allSamples := allSamples + typeSamples;
    }
    assert chargingTypes[..|chargingTypes|] == chargingTypes;
  }

  /**
   * `build_train_df` (with an empty table when no type yields a sample): collect each
   * charging type's samples in order of first appearance, then sort by (end date, type).
   */
  method BuildTrainDf(rows: seq<Record>, lib: Externals, lookback: int := 28, horizon: int := 7, topK: int := 3)
    returns (table: seq<Sample>)
    requires ValidParams(lookback, horizon) && lib.Valid()
    ensures table == TrainDf(rows, lookback, horizon, topK, lib)
    ensures |table| == TotalCount(rows, UniqueTypes(rows), lookback, horizon)
    ensures Sorted(table, SampleLe)
    ensures multiset(table) == multiset(Collected(rows, UniqueTypes(rows), lookback, horizon, topK, lib))
    ensures forall x :: x in table ==>
      && (exists k :: 0 <= k < |rows| && rows[k].chargingType == x.chargingType)
      && x in TypeSamples(rows, x.chargingType, lookback, horizon, topK, lib)
    ensures UniqueDays(rows) ==> forall a, b :: 0 <= a < b < |table| ==>
      (table[a].windowEndDate != table[b].windowEndDate || table[a].chargingType != table[b].chargingType)
      && !SampleLe(table[b], table[a])
  {
    hide SampleAt;
    hide TypeSamples;
    hide Collected;
    var allSamples := CollectAllSamples(rows, lib, lookback, horizon, topK);
    table := SortBy(allSamples, SampleLe);
    TrainDfProperties(rows, lookback, horizon, topK, lib);
    if UniqueDays(rows) {
      TrainDfStrictlySorted(rows, lookback, horizon, topK, lib);
    }
  }
}
