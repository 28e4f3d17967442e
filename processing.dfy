/**
 * Daily preprocessing of the charging table (LSTM-project/src/data/processing.py):
 * hourly columns `0시`..`23시` are coerced to numbers on a copy of the input, then
 * `daily_total` and `peak_ratio` are added to the table in place.
 */
module Processing {
  import opened Wrappers
  import opened Sums

  /** Columns `0시`..`23시`. */
  const HourCount: nat := 24
  /** The peak band is the columns `8시`..`19시`: hours in [PeakStart, PeakEnd). */
  const PeakStart: nat := 8
  const PeakEnd: nat := 20

  /** One day of one charging type, as the window builder reads it. */
  datatype Record = Record(
    date: int,            // day number; calendar parsing is not modelled
    chargingType: string,
    hours: seq<real>,     // the 24 hourly usages
    dailyTotal: real,
    peakRatio: real)

  /**
   * `pd.to_numeric(errors='coerce')` followed by `fillna(0)` on one cell: `None`
   * stands for a missing cell or one that does not parse as a number.
   */
  function Coerce(cell: Option<real>): real
  {
    cell.GetOr(0.0)
  }

  /** One hourly column after coercion: every cell holds a number, and numbers are kept. */
  function CoerceColumn(col: seq<Option<real>>): (r: seq<Option<real>>)
    ensures |r| == |col|
    ensures forall k :: 0 <= k < |r| ==> r[k].Some?
    ensures forall k :: 0 <= k < |r| ==> col[k].Some? ==> r[k] == col[k]
    ensures forall k :: 0 <= k < |r| ==> col[k].None? ==> r[k] == Some(0.0)
  {
    seq(|col|, k requires 0 <= k < |col| => Some(Coerce(col[k])))
  }

  /** `daily_total`: the sum of the 24 hourly values. */
  function DailyTotal(hours: seq<real>): real
  {
    Sum(hours)
  }

  /** The sum over the peak-band columns. */
  function PeakSum(hours: seq<real>): real
    requires |hours| == HourCount
  {
    Sum(hours[PeakStart..PeakEnd])
  }

  /** `peak_ratio`: the peak-band sum over `daily_total + 1e-9`. */
  function PeakRatio(peakSum: real, dailyTotal: real): real
  {
    Ratio(peakSum, dailyTotal + Epsilon)
  }

  /** With non-negative usage, the peak band holds part of the day's total. */
  lemma PeakBandWithinDay(hours: seq<real>)
    requires |hours| == HourCount && NonNegative(hours)
    ensures 0.0 <= PeakSum(hours) <= DailyTotal(hours)
  {
    SumSplit(hours, PeakEnd);
    SumSplit(hours[..PeakEnd], PeakStart);
    assert hours[..PeakEnd][PeakStart..] == hours[PeakStart..PeakEnd];
    assert NonNegative(hours[..PeakEnd][..PeakStart]);
    assert NonNegative(hours[PeakStart..PeakEnd]);
    assert NonNegative(hours[PeakEnd..]);
    SumNonNegative(hours[..PeakEnd][..PeakStart]);
    SumNonNegative(hours[PeakStart..PeakEnd]);
    SumNonNegative(hours[PeakEnd..]);
  }

  /** With non-negative usage, `peak_ratio` lies in [0, 1). */
  lemma PeakRatioBounds(hours: seq<real>)
    requires |hours| == HourCount && NonNegative(hours)
    ensures 0.0 <= PeakRatio(PeakSum(hours), DailyTotal(hours)) < 1.0
  {
    PeakBandWithinDay(hours);
    var p, t := PeakSum(hours), DailyTotal(hours);
    assert t + Epsilon > 0.0;
    assert p / (t + Epsilon) < 1.0 by {
      assert p < t + Epsilon;
    }
  }

  /** The hourly usages of row `r`; a missing cell counts as 0 (pandas sums skip NaN). */
  function RowHours(hourly: seq<seq<Option<real>>>, r: int): (hs: seq<real>)
    requires |hourly| == HourCount
    requires forall h :: 0 <= h < HourCount ==> 0 <= r < |hourly[h]|
    ensures |hs| == HourCount
  {
    seq(HourCount, h requires 0 <= h < HourCount =>
      assert 0 <= r < |hourly[h]|; Coerce(hourly[h][r]))
  }

  /** A table held column by column, as pandas holds it. */
  class Frame {
    var dates: seq<int>
    var chargingTypes: seq<string>
    /** `hourly[h]` is the column `h시`. */
    var hourly: seq<seq<Option<real>>>
    /** `None` while the column does not exist. */
    var dailyTotal: Option<seq<real>>
    var peakRatio: Option<seq<real>>

    /** Every column has one cell per row. */
    ghost predicate Valid()
      reads this
    {
      && |chargingTypes| == |dates|
      && |hourly| == HourCount
      && (forall h :: 0 <= h < HourCount ==> |hourly[h]| == |dates|)
      && (dailyTotal.Some? ==> |dailyTotal.value| == |dates|)
      && (peakRatio.Some? ==> |peakRatio.value| == |dates|)
    }

    function NumRows(): nat
      reads this
    {
      |dates|
    }

    /** Every hourly cell holds a number. */
    ghost predicate Numeric()
      reads this
      requires Valid()
    {
      forall h, r :: 0 <= h < HourCount && 0 <= r < |dates| ==> hourly[h][r].Some?
    }

    function Hours(r: int): (hs: seq<real>)
      reads this
      requires Valid() && 0 <= r < |dates|
      ensures |hs| == HourCount
    {
      RowHours(hourly, r)
    }

    /** `daily_total` and `peak_ratio` exist and agree with each row's hourly values. */
    ghost predicate HasDailyFeatures()
      reads this
      requires Valid()
    {
      && dailyTotal.Some? && peakRatio.Some?
      && (forall r :: 0 <= r < |dates| ==> dailyTotal.value[r] == DailyTotal(Hours(r)))
      && (forall r :: 0 <= r < |dates| ==>
            peakRatio.value[r] == PeakRatio(PeakSum(Hours(r)), dailyTotal.value[r]))
    }

    /** The table's rows as daily records, once the daily columns exist. */
    function Records(): (rs: seq<Record>)
      reads this
      requires Valid() && dailyTotal.Some? && peakRatio.Some?
      ensures |rs| == |dates|
      ensures forall r :: 0 <= r < |rs| ==>
        rs[r] == Record(dates[r], chargingTypes[r], Hours(r), dailyTotal.value[r], peakRatio.value[r])
    {
      var ds, ts, hr, dt, pr := dates, chargingTypes, hourly, dailyTotal.value, peakRatio.value;
      seq(|ds|, r requires 0 <= r < |ds| => Record(ds[r], ts[r], RowHours(hr, r), dt[r], pr[r]))
    }

    constructor (dates: seq<int>, chargingTypes: seq<string>, hourly: seq<seq<Option<real>>>,
                 dailyTotal: Option<seq<real>>, peakRatio: Option<seq<real>>)
      requires |chargingTypes| == |dates| && |hourly| == HourCount
      requires forall h :: 0 <= h < HourCount ==> |hourly[h]| == |dates|
      requires dailyTotal.Some? ==> |dailyTotal.value| == |dates|
      requires peakRatio.Some? ==> |peakRatio.value| == |dates|
      ensures Valid()
      ensures this.dates == dates && this.chargingTypes == chargingTypes && this.hourly == hourly
      ensures this.dailyTotal == dailyTotal && this.peakRatio == peakRatio
    {
      this.dates := dates;
      this.chargingTypes := chargingTypes;
      this.hourly := hourly;
      this.dailyTotal := dailyTotal;
      this.peakRatio := peakRatio;
    }

    /** `DataFrame.copy()`: a new table with the same columns. */
    method Copy() returns (df: Frame)
      requires Valid()
      ensures fresh(df) && df.Valid()
      ensures df.dates == dates && df.chargingTypes == chargingTypes && df.hourly == hourly
      ensures df.dailyTotal == dailyTotal && df.peakRatio == peakRatio
    {
      df := new Frame(dates, chargingTypes, hourly, dailyTotal, peakRatio);
    }
  }

  /**
   * `preprocess_data`: on a copy of `data`, every hourly column is coerced to numbers,
   * missing or non-numeric cells becoming 0. The input table is left as it was, and
   * no row or other column changes.
   */
  method PreprocessData(data: Frame) returns (df: Frame)
    requires data.Valid()
    ensures fresh(df) && df.Valid() && unchanged(data)
    ensures df.NumRows() == data.NumRows()
    ensures df.dates == data.dates && df.chargingTypes == data.chargingTypes
    ensures df.dailyTotal == data.dailyTotal && df.peakRatio == data.peakRatio
    ensures |df.hourly| == HourCount
    ensures forall h :: 0 <= h < HourCount ==> df.hourly[h] == CoerceColumn(data.hourly[h])
    ensures df.Numeric()
  {
    df := data.Copy();
    for h := 0 to HourCount
      invariant df.Valid()
      invariant df.dates == data.dates && df.chargingTypes == data.chargingTypes
      invariant df.dailyTotal == data.dailyTotal && df.peakRatio == data.peakRatio
      invariant forall g :: 0 <= g < h ==> df.hourly[g] == CoerceColumn(data.hourly[g])
      invariant forall g :: h <= g < HourCount ==> df.hourly[g] == data.hourly[g]
    {
      df.hourly := df.hourly[h := CoerceColumn(df.hourly[h])];
    }
  }

  /**
   * `add_daily_features`: writes the `daily_total` and `peak_ratio` columns into the
   * caller's table (adding or overwriting them) and returns that same table.
   */
  method AddDailyFeatures(df: Frame) returns (out: Frame)
    requires df.Valid()
    modifies df
    ensures out == df && df.Valid() && df.HasDailyFeatures()
    ensures df.dates == old(df.dates) && df.chargingTypes == old(df.chargingTypes)
    ensures df.hourly == old(df.hourly)
  {
    var n := |df.dates|;
    var hourly := df.hourly;
    var totals := seq(n, r requires 0 <= r < n => DailyTotal(RowHours(hourly, r)));
    df.dailyTotal := Some(totals);
    df.peakRatio := Some(seq(n, r requires 0 <= r < n => PeakRatio(PeakSum(RowHours(hourly, r)), totals[r])));
    out := df;
  }

  /**
   * Once the daily columns agree with the hours and every hourly value is non-negative,
   * each record's `daily_total` is non-negative and its `peak_ratio` lies in [0, 1).
   */
  lemma DailyRecordBounds(df: Frame)
    requires df.Valid() && df.HasDailyFeatures()
    requires forall r :: 0 <= r < df.NumRows() ==> NonNegative(df.Hours(r))
    ensures forall rec :: rec in df.Records() ==>
      rec.dailyTotal == Sum(rec.hours) && rec.dailyTotal >= 0.0 && 0.0 <= rec.peakRatio < 1.0
  {
    var rs := df.Records();
    forall rec | rec in rs
      ensures rec.dailyTotal == Sum(rec.hours) && rec.dailyTotal >= 0.0 && 0.0 <= rec.peakRatio < 1.0
    {
      var r :| 0 <= r < |rs| && rs[r] == rec;
      SumNonNegative(df.Hours(r));
      PeakRatioBounds(df.Hours(r));
    }
  }
}
