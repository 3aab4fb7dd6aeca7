/**
 * `MV03_productionForecast.forecast_production` around the forecasting model:
 * the 8-hour shift sums of the package log, the weekday filter and the column
 * drop that prepare the series, and the 5-day means of the forecast relabelled
 * onto eight calendar Mondays. The forecast itself arrives as a parameter: its
 * first instant and its values, one per 8-hour step.
 */
module Forecast {
  import opened Wrappers
  import opened Calendar
  import opened Records
  import opened Sorting
  import opened Loading
  import opened Resample
  import opened Tables

  const SHIFT: int := 8 * HOUR
  const FIVE_DAYS: int := 5 * DAY

  /** `model.predict(120)`: 120 shifts ahead. */
  const HORIZON: int := 120

  /** Forecast steps per 5-day bin: 5 days of three shifts. */
  const STEPS_PER_BIN: int := 15

  /** `pd.bdate_range("2022-08-01", periods=8, freq="W-Mon")`: 2022-08-01 is 19201 days after the epoch. */
  const FIRST_MONDAY: int := 19201 * DAY
  const CALENDAR_WEEKS: int := 8

  // ---------------------------------------------------------- shift sums

  /** One bin of `resample("8h", on="timestamp").agg("sum")`. */
  datatype ShiftRow = ShiftRow(start: int, good: int, reject: int)

  /** The 8-hour sums, anchored at midnight of the first row's day. */
  function ShiftSums(rows: seq<Record<Packs>>): (r: seq<ShiftRow>)
    ensures rows == [] ==> r == []
    ensures rows != [] ==> |r| == |Buckets(rows, DayStart(MinTime(rows)), SHIFT)|
  {
    if rows == [] then []
    else
      var bs := Buckets(rows, DayStart(MinTime(rows)), SHIFT);
      seq(|bs|, i requires 0 <= i < |bs| => ShiftRow(bs[i].start, SumOf(bs[i].members, Good), SumOf(bs[i].members, Reject)))
  }

  /** Step `k` of the 8-hour grid of a midnight starts at 00:00, 08:00 or 16:00. */
  lemma ShiftStartHour(origin: int, k: int)
    requires origin % DAY == 0
    ensures HourOfDay(origin + k * SHIFT) == 8 * (k % 3)
    ensures HourOfDay(origin + k * SHIFT) in {0, 8, 16}
  {
    var m, q, r := origin / DAY, k / 3, k % 3;
    assert origin + k * SHIFT == (24 * (m + q) + 8 * r) * HOUR;
    assert (origin + k * SHIFT) / HOUR == 24 * (m + q) + 8 * r;
  }

  /** Shift `i` starts on the 8-hour grid of the first row's day, and the next shift starts 8 hours later. */
  lemma ShiftSumsGrid(rows: seq<Record<Packs>>, i: int) returns (k: int)
    requires 0 <= i < |ShiftSums(rows)|
    ensures ShiftSums(rows)[i].start == DayStart(MinTime(rows)) + k * SHIFT
    ensures i + 1 < |ShiftSums(rows)| ==> ShiftSums(rows)[i + 1].start == ShiftSums(rows)[i].start + SHIFT
  {
    k := BucketGrid(rows, DayStart(MinTime(rows)), SHIFT, i);
  }

  /** Every shift starts at 00:00, 08:00 or 16:00. */
  lemma ShiftSumsHour(rows: seq<Record<Packs>>, i: int)
    requires 0 <= i < |ShiftSums(rows)|
    ensures HourOfDay(ShiftSums(rows)[i].start) in {0, 8, 16}
  {
    var k := ShiftSumsGrid(rows, i);
    ShiftStartHour(DayStart(MinTime(rows)), k);
  }

  /** Shift `i` is the sum row of 8-hour bin `i`. */
  lemma ShiftSumsAt(rows: seq<Record<Packs>>, i: int) returns (b: Bin<Packs>)
    requires 0 <= i < |ShiftSums(rows)|
    ensures rows != [] && 0 <= i < |Buckets(rows, DayStart(MinTime(rows)), SHIFT)|
    ensures b == Buckets(rows, DayStart(MinTime(rows)), SHIFT)[i]
    ensures ShiftSums(rows)[i] == ShiftRow(b.start, SumOf(b.members, Good), SumOf(b.members, Reject))
  {
    b := Buckets(rows, DayStart(MinTime(rows)), SHIFT)[i];
  }

  /** The sums of shift `i` are those of exactly the rows of its 8 hours (zero for a shift without rows). */
  lemma ShiftSumsRow(rows: seq<Record<Packs>>, i: int)
    requires 0 <= i < |ShiftSums(rows)|
    ensures ShiftSums(rows)[i].good == WindowSum(rows, ShiftSums(rows)[i].start, ShiftSums(rows)[i].start + SHIFT, Good)
    ensures ShiftSums(rows)[i].reject == WindowSum(rows, ShiftSums(rows)[i].start, ShiftSums(rows)[i].start + SHIFT, Reject)
  {
    var b := ShiftSumsAt(rows, i);
    assert ShiftSums(rows)[i].good == WindowSum(rows, b.start, b.start + SHIFT, Good) by {
      BucketSum(rows, DayStart(MinTime(rows)), SHIFT, i, b, Good);
    }
    assert ShiftSums(rows)[i].reject == WindowSum(rows, b.start, b.start + SHIFT, Reject) by {
      BucketSum(rows, DayStart(MinTime(rows)), SHIFT, i, b, Reject);
    }
  }

  /** The shift sums add up to the packs of all rows. */
  lemma ShiftSumsConserve(rows: seq<Record<Packs>>)
    ensures Total(ShiftSums(rows), (r: ShiftRow) => r.good) == SumOf(rows, Good)
    ensures Total(ShiftSums(rows), (r: ShiftRow) => r.reject) == SumOf(rows, Reject)
  {
    if rows != [] {
      var origin := DayStart(MinTime(rows));
      var bs := Buckets(rows, origin, SHIFT);
      SumBinsPointwise(bs, Good, ShiftSums(rows), (r: ShiftRow) => r.good);
      SumBinsPointwise(bs, Reject, ShiftSums(rows), (r: ShiftRow) => r.reject);
      BucketsConserveSum(rows, origin, SHIFT, Good);
      BucketsConserveSum(rows, origin, SHIFT, Reject);
    }
  }

  predicate StartsAscending(ss: seq<ShiftRow>) {
    forall i, j :: 0 <= i < j < |ss| ==> ss[i].start < ss[j].start
  }

  /** The shifts come out in time order. */
  lemma ShiftSumsAscending(rows: seq<Record<Packs>>)
    ensures StartsAscending(ShiftSums(rows))
  {
    if rows != [] {
      forall i, j | 0 <= i < j < |ShiftSums(rows)|
        ensures ShiftSums(rows)[i].start < ShiftSums(rows)[j].start
      {
        BucketsAscending(rows, DayStart(MinTime(rows)), SHIFT, i, j);
      }
    }
  }

  // ------------------------------------------------------ weekday filter

  /** `package_data[package_data.index.dayofweek < 5]`. */
  function WeekdayShifts(ss: seq<ShiftRow>): seq<ShiftRow> {
    if ss == [] then []
    else
      var last := ss[|ss| - 1];
      WeekdayShifts(ss[..|ss| - 1]) + (if DayOfWeek(last.start) < 5 then [last] else [])
  }

  /**
   * The filter keeps exactly the shifts that start Monday to Friday, and
   * keeps them in order.
   */
  lemma {:induction false} WeekdayShiftsSpec(ss: seq<ShiftRow>)
    ensures forall s :: s in WeekdayShifts(ss) <==> s in ss && DayOfWeek(s.start) < 5
    ensures StartsAscending(ss) ==> StartsAscending(WeekdayShifts(ss))
  {
    if ss != [] {
      var p, last := ss[..|ss| - 1], ss[|ss| - 1];
      assert ss == p + [last];
      WeekdayShiftsSpec(p);
      if StartsAscending(ss) {
        assert StartsAscending(p);
        assert forall s :: s in WeekdayShifts(p) ==> s.start < last.start;
      }
    }
  }

  // --------------------------------------------------------- column drop

  /** A shift after `drop("reject_packs", axis=1)`. */
  datatype GoodRow = GoodRow(start: int, good: int)

  /** Drop the reject column: every shift keeps its start and its good packs. */
  function DropReject(ss: seq<ShiftRow>): (r: seq<GoodRow>)
    ensures |r| == |ss|
    ensures forall i :: 0 <= i < |ss| ==> r[i].start == ss[i].start && r[i].good == ss[i].good
  {
    seq(|ss|, i requires 0 <= i < |ss| => GoodRow(ss[i].start, ss[i].good))
  }

  // ---------------------------------------------------------- the forecast

  /** The forecast as a frame: value `i` at `t0 + i` shifts. */
  function ForecastPoints(t0: int, values: seq<real>): (r: seq<Record<real>>)
    ensures |r| == |values|
  {
    seq(|values|, i requires 0 <= i < |values| => Record(t0 + i * SHIFT, values[i]))
  }

  function Value(v: real): real { v }

  /** Sum of `values[a..b]`. */
  function RangeSum(values: seq<real>, a: int, b: int): real
    requires 0 <= a && b <= |values|
    decreases b - a
  {
    if b <= a then 0.0 else RangeSum(values, a, b - 1) + values[b - 1]
  }

  /** The forecast lies on its 8-hour grid: from `t0` to `t0 + (n - 1)` shifts, in order. */
  lemma ForecastPointsSpan(t0: int, values: seq<real>)
    requires |values| > 0
    ensures MinTime(ForecastPoints(t0, values)) == t0
    ensures MaxTime(ForecastPoints(t0, values)) == t0 + (|values| - 1) * SHIFT
    ensures SortedByTime(ForecastPoints(t0, values))
  {
    var ps := ForecastPoints(t0, values);
    forall i | 0 <= i < |ps|
      ensures t0 <= ps[i].t <= t0 + (|values| - 1) * SHIFT
    {
      MulLeft(0, i, SHIFT);
      MulLeft(i, |values| - 1, SHIFT);
    }
    forall i, j | 0 <= i < j < |ps|
      ensures ps[i].t <= ps[j].t
    {
      MulLeft(i, j, SHIFT);
    }
    assert ps[0].t == t0;
    assert ps[|ps| - 1].t == t0 + (|values| - 1) * SHIFT;
  }

  /**
   * For a grid origin `o` less than a shift before `t0`, step `n` lies in the
   * window from grid step `a` (included) to grid step `b` (excluded) exactly
   * when `a <= n < b`.
   */
  lemma StepInWindow(o: int, t0: int, n: int, a: int, b: int)
    requires o <= t0 < o + SHIFT
    ensures o + a * SHIFT <= t0 + n * SHIFT < o + b * SHIFT <==> a <= n < b
  {
    if a <= n { MulLeft(a, n, SHIFT); } else { MulStrict(n, a, SHIFT); }
    if n < b { MulStrict(n, b, SHIFT); } else { MulLeft(b, n, SHIFT); }
  }

  /** The first `n` forecast points are the last `n - 1` plus one. */
  lemma ForecastPointsSnoc(t0: int, values: seq<real>, n: int)
    requires 0 < n <= |values|
    ensures var ps := ForecastPoints(t0, values[..n]);
      && ps[..n - 1] == ForecastPoints(t0, values[..n - 1])
      && ps[n - 1] == Record(t0 + (n - 1) * SHIFT, values[n - 1])
  {
    var ps := ForecastPoints(t0, values[..n]);
    assert ps[..n - 1] == ForecastPoints(t0, values[..n - 1]);
  }

  /**
   * Among the first `n` forecast points, those between grid step `a`
   * (included) and grid step `b` (excluded) of an origin less than a shift
   * before `t0` sum to the values `a .. min(n, b) - 1`.
   */
  lemma {:induction false} ForecastWindowSum(o: int, t0: int, values: seq<real>, n: int, a: int, b: int)
    requires o <= t0 < o + SHIFT
    requires 0 <= n <= |values| && 0 <= a <= b
    ensures WindowSumReal(ForecastPoints(t0, values[..n]), o + a * SHIFT, o + b * SHIFT, Value)
         == RangeSum(values, a, if n < b then n else b)
  {
    if n > 0 {
      ForecastWindowSum(o, t0, values, n - 1, a, b);
      ForecastPointsSnoc(t0, values, n);
      StepInWindow(o, t0, n - 1, a, b);
    }
  }

  /** Among the first `n` forecast points, as many lie between grid steps `a` and `b` as steps `a .. min(n, b) - 1`. */
  lemma {:induction false} ForecastWindowCount(o: int, t0: int, values: seq<real>, n: int, a: int, b: int)
    requires o <= t0 < o + SHIFT
    requires 0 <= n <= |values| && 0 <= a <= b
    ensures WindowSum(ForecastPoints(t0, values[..n]), o + a * SHIFT, o + b * SHIFT, One)
         == if n <= a then 0 else if n < b then n - a else b - a
  {
    if n > 0 {
      ForecastWindowCount(o, t0, values, n - 1, a, b);
      ForecastPointsSnoc(t0, values, n);
      StepInWindow(o, t0, n - 1, a, b);
    }
  }

  /** One 5-day bin of the forecast: its start and the mean of its points. */
  datatype ForecastBin = ForecastBin(start: int, mean: Option<real>)

  /** The 5-day means over `origin + k * 5 days` bins. */
  function FiveDayBins(points: seq<Record<real>>, origin: int): (r: seq<ForecastBin>)
    ensures |r| == |Buckets(points, origin, FIVE_DAYS)|
  {
    var bs := Buckets(points, origin, FIVE_DAYS);
    seq(|bs|, i requires 0 <= i < |bs| => ForecastBin(bs[i].start, Mean(bs[i].members, Value)))
  }

  /**
   * `prediction_df.resample("5D").agg("mean")` as pandas computes it: the bins
   * are anchored at midnight of the first forecast day.
   */
  function FiveDayMeans(points: seq<Record<real>>): (r: seq<ForecastBin>)
    ensures points == [] ==> r == []
  {
    if points == [] then [] else FiveDayBins(points, DayStart(MinTime(points)))
  }

  /** The 5-day means with the bins anchored at the first forecast instant. */
  function FiveDayMeansFromStart(points: seq<Record<real>>): (r: seq<ForecastBin>)
    ensures points == [] ==> r == []
  {
    if points == [] then [] else FiveDayBins(points, MinTime(points))
  }

  /** Each 5-day bin's value is the mean of the forecast points inside it. */
  lemma FiveDayBinsMean(points: seq<Record<real>>, origin: int, i: int)
    requires 0 <= i < |FiveDayBins(points, origin)|
    ensures var b := FiveDayBins(points, origin)[i];
      b.mean == MeanOf(WindowSumReal(points, b.start, b.start + FIVE_DAYS, Value), WindowSum(points, b.start, b.start + FIVE_DAYS, One))
  {
    BucketMean(points, origin, FIVE_DAYS, i, Value);
  }

  /**
   * As written, 120 forecast shifts fall into 8 bins of 5 days only when the
   * forecast starts before 08:00; a start at 08:00 or later spills the last
   * points into a ninth bin.
   */
  lemma FiveDayMeansCount(t0: int, values: seq<real>)
    requires |values| == HORIZON
    ensures |FiveDayMeans(ForecastPoints(t0, values))| == if t0 - DayStart(t0) < SHIFT then 8 else 9
  {
    var ps := ForecastPoints(t0, values);
    ForecastPointsSpan(t0, values);
    var origin := DayStart(t0);
    BinIndexIff(t0, origin, FIVE_DAYS, 0);
    if t0 - origin < SHIFT {
      BinIndexIff(t0 + (HORIZON - 1) * SHIFT, origin, FIVE_DAYS, 7);
    } else {
      BinIndexIff(t0 + (HORIZON - 1) * SHIFT, origin, FIVE_DAYS, 8);
    }
  }

  /** Anchored at the first forecast instant, 120 shifts always make 8 bins. */
  lemma FiveDayMeansFromStartCount(t0: int, values: seq<real>)
    requires |values| == HORIZON
    ensures |FiveDayMeansFromStart(ForecastPoints(t0, values))| == CALENDAR_WEEKS
  {
    ForecastPointsSpan(t0, values);
    BinIndexIff(t0, t0, FIVE_DAYS, 0);
    BinIndexIff(t0 + (HORIZON - 1) * SHIFT, t0, FIVE_DAYS, 7);
  }

  /** Bin `j` of 5 days spans forecast steps 15j .. 15j + 15. */
  lemma BinInSteps(j: int)
    ensures j * FIVE_DAYS == (STEPS_PER_BIN * j) * SHIFT
    ensures j * FIVE_DAYS + FIVE_DAYS == (STEPS_PER_BIN * j + STEPS_PER_BIN) * SHIFT
  {
    assert FIVE_DAYS == STEPS_PER_BIN * SHIFT;
  }

  /** The forecast points from grid step `a` (included) to grid step `b` (excluded) are the values `a .. b - 1`. */
  lemma ForecastWindowAll(o: int, t0: int, values: seq<real>, a: int, b: int)
    requires o <= t0 < o + SHIFT
    requires 0 <= a <= b <= |values|
    ensures WindowSumReal(ForecastPoints(t0, values), o + a * SHIFT, o + b * SHIFT, Value) == RangeSum(values, a, b)
    ensures WindowSum(ForecastPoints(t0, values), o + a * SHIFT, o + b * SHIFT, One) == b - a
  {
    assert values[..|values|] == values;
    ForecastWindowSum(o, t0, values, |values|, a, b);
    ForecastWindowCount(o, t0, values, |values|, a, b);
  }

  /** Anchoring at the first forecast instant is anchoring at `t0`; anchoring at its midnight is anchoring at `DayStart(t0)`. */
  lemma AnchorsOfT0(t0: int, values: seq<real>)
    requires |values| > 0
    ensures FiveDayMeansFromStart(ForecastPoints(t0, values)) == FiveDayBins(ForecastPoints(t0, values), t0)
    ensures FiveDayMeans(ForecastPoints(t0, values)) == FiveDayBins(ForecastPoints(t0, values), DayStart(t0))
  {
    ForecastPointsSpan(t0, values);
  }

  /** With an origin less than a shift before `t0`, bin `j` starts `j` times 5 days after the origin. */
  lemma BinStartAt(o: int, t0: int, values: seq<real>, j: int)
    requires o <= t0 < o + SHIFT
    requires |values| > 0 && 0 <= j < |FiveDayBins(ForecastPoints(t0, values), o)|
    ensures FiveDayBins(ForecastPoints(t0, values), o)[j].start == o + j * FIVE_DAYS
  {
    var ps := ForecastPoints(t0, values);
    ForecastPointsSpan(t0, values);
    BinIndexIff(t0, o, FIVE_DAYS, 0);
    assert FirstBin(ps, o, FIVE_DAYS) == 0;
    BucketStart(ps, o, FIVE_DAYS, j);
  }

  /** Bin `j` from such an origin holds the mean of forecast values 15j .. 15j + 14. */
  lemma BinMeanAt(o: int, t0: int, values: seq<real>, j: int)
    requires o <= t0 < o + SHIFT
    requires 0 <= j && STEPS_PER_BIN * j + STEPS_PER_BIN <= |values|
    requires j < |FiveDayBins(ForecastPoints(t0, values), o)|
    requires FiveDayBins(ForecastPoints(t0, values), o)[j].start == o + j * FIVE_DAYS
    ensures FiveDayBins(ForecastPoints(t0, values), o)[j].mean
         == MeanOf(RangeSum(values, STEPS_PER_BIN * j, STEPS_PER_BIN * j + STEPS_PER_BIN), STEPS_PER_BIN)
  {
    var a := STEPS_PER_BIN * j;
    BinInSteps(j);
    FiveDayBinsMean(ForecastPoints(t0, values), o, j);
    ForecastWindowAll(o, t0, values, a, a + STEPS_PER_BIN);
  }

  /**
   * Anchored at the first forecast instant, bin `j` starts `j` times 5 days
   * after it and holds the mean of forecast values 15j .. 15j + 14.
   */
  lemma FiveDayMeansFromStartRow(t0: int, values: seq<real>, j: int)
    requires |values| == HORIZON && 0 <= j < CALENDAR_WEEKS
    ensures |FiveDayMeansFromStart(ForecastPoints(t0, values))| == CALENDAR_WEEKS
    ensures var b := FiveDayMeansFromStart(ForecastPoints(t0, values))[j];
      && b.start == t0 + j * FIVE_DAYS
      && b.mean == MeanOf(RangeSum(values, STEPS_PER_BIN * j, STEPS_PER_BIN * j + STEPS_PER_BIN), STEPS_PER_BIN)
  {
    FiveDayMeansFromStartCount(t0, values);
    AnchorsOfT0(t0, values);
    BinStartAt(t0, t0, values, j);
    BinMeanAt(t0, t0, values, j);
  }

  /**
   * As written, a forecast that starts before 08:00 has 8 bins anchored at
   * its midnight: bin `j` starts `j` times 5 days after that midnight and
   * holds the mean of forecast values 15j .. 15j + 14, as the corrected bins do.
   */
  lemma FiveDayMeansRow(t0: int, values: seq<real>, j: int)
    requires |values| == HORIZON && 0 <= j < CALENDAR_WEEKS
    requires t0 - DayStart(t0) < SHIFT
    ensures |FiveDayMeans(ForecastPoints(t0, values))| == CALENDAR_WEEKS
    ensures var b := FiveDayMeans(ForecastPoints(t0, values))[j];
      && b.start == DayStart(t0) + j * FIVE_DAYS
      && b.mean == MeanOf(RangeSum(values, STEPS_PER_BIN * j, STEPS_PER_BIN * j + STEPS_PER_BIN), STEPS_PER_BIN)
  {
    FiveDayMeansCount(t0, values);
    AnchorsOfT0(t0, values);
    BinStartAt(DayStart(t0), t0, values, j);
    BinMeanAt(DayStart(t0), t0, values, j);
  }

  // ------------------------------------------------------------ relabel

  /** A row of the written forecast: the week's Monday and the mean good packs per shift. */
  datatype WeekForecast = WeekForecast(weekFrom: int, goodPerShift: Option<real>)

  /** The eight Mondays from 2022-08-01. */
  function MondayCalendar(): (r: seq<int>)
    ensures |r| == CALENDAR_WEEKS
  {
    seq(CALENDAR_WEEKS, i requires 0 <= i < CALENDAR_WEEKS => FIRST_MONDAY + i * WEEK)
  }

  /** The calendar starts on 2022-08-01 and holds consecutive Mondays at midnight. */
  lemma MondayCalendarSpec()
    ensures MondayCalendar()[0] == FIRST_MONDAY
    ensures forall i :: 0 <= i < CALENDAR_WEEKS ==> DayOfWeek(MondayCalendar()[i]) == 0 && MondayCalendar()[i] % DAY == 0
    ensures forall i :: 0 < i < CALENDAR_WEEKS ==> MondayCalendar()[i] == MondayCalendar()[i - 1] + WEEK
  {
    forall i | 0 <= i < CALENDAR_WEEKS
      ensures DayOfWeek(MondayCalendar()[i]) == 0 && MondayCalendar()[i] % DAY == 0
    {
      assert MondayCalendar()[i] == (2743 + i) * WEEK;
      WeekStartIsMonday(2743 + i);
    }
  }

  /** `prediction_df.index = correct_index`: fails unless there is one label per bin, and keeps the means. */
  function RelabelWeeks(bins: seq<ForecastBin>, mondays: seq<int>): (r: Result<seq<WeekForecast>, LengthMismatch>)
    ensures r.Ok? <==> |bins| == |mondays|
    ensures r.Ok? ==> |r.value| == |mondays|
    ensures r.Ok? ==> forall i :: 0 <= i < |mondays| ==> r.value[i] == WeekForecast(mondays[i], bins[i].mean)
  {
    if |bins| != |mondays| then Err(LengthMismatch(|bins|, |mondays|))
    else Ok(seq(|mondays|, i requires 0 <= i < |mondays| => WeekForecast(mondays[i], bins[i].mean)))
  }

  /** The forecast table as written: pandas' 5-day bins relabelled onto the calendar. */
  function ForecastTableAsWritten(t0: int, values: seq<real>): Result<seq<WeekForecast>, LengthMismatch> {
    RelabelWeeks(FiveDayMeans(ForecastPoints(t0, values)), MondayCalendar())
  }

  /**
   * As written, the relabel of a 120-shift forecast fails exactly when the
   * forecast starts at 08:00 or later in its day.
   */
  lemma ForecastTableAsWrittenFails(t0: int, values: seq<real>)
    requires |values| == HORIZON
    ensures ForecastTableAsWritten(t0, values).Err? <==> t0 - DayStart(t0) >= SHIFT
  {
    FiveDayMeansCount(t0, values);
  }

  /** The forecast table with the bins anchored at the first forecast instant. */
  function ForecastTable(t0: int, values: seq<real>): Result<seq<WeekForecast>, LengthMismatch> {
    RelabelWeeks(FiveDayMeansFromStart(ForecastPoints(t0, values)), MondayCalendar())
  }

  /**
   * A 120-shift forecast always yields the table: week `j` is the `j`-th
   * Monday from 2022-08-01 and carries the mean of forecast values
   * 15j .. 15j + 14.
   */
  lemma ForecastTableSpec(t0: int, values: seq<real>)
    requires |values| == HORIZON
    ensures ForecastTable(t0, values).Ok?
    ensures |ForecastTable(t0, values).value| == CALENDAR_WEEKS
    ensures forall j :: 0 <= j < CALENDAR_WEEKS ==>
      var w := ForecastTable(t0, values).value[j];
      && w.weekFrom == FIRST_MONDAY + j * WEEK
      && DayOfWeek(w.weekFrom) == 0
      && w.goodPerShift == MeanOf(RangeSum(values, STEPS_PER_BIN * j, STEPS_PER_BIN * j + STEPS_PER_BIN), STEPS_PER_BIN)
  {
    FiveDayMeansFromStartCount(t0, values);
    MondayCalendarSpec();
    forall j | 0 <= j < CALENDAR_WEEKS
      ensures ForecastTable(t0, values).value[j].goodPerShift
           == MeanOf(RangeSum(values, STEPS_PER_BIN * j, STEPS_PER_BIN * j + STEPS_PER_BIN), STEPS_PER_BIN)
    {
      FiveDayMeansFromStartRow(t0, values, j);
    }
  }

  /** As written, week `j` of a forecast starting before 08:00 carries the mean of forecast values 15j .. 15j + 14. */
  lemma ForecastTableAsWrittenRow(t0: int, values: seq<real>, j: int)
    requires |values| == HORIZON && 0 <= j < CALENDAR_WEEKS
    requires t0 - DayStart(t0) < SHIFT
    ensures ForecastTableAsWritten(t0, values).Ok? && |ForecastTableAsWritten(t0, values).value| == CALENDAR_WEEKS
    ensures ForecastTableAsWritten(t0, values).value[j]
         == WeekForecast(FIRST_MONDAY + j * WEEK, MeanOf(RangeSum(values, STEPS_PER_BIN * j, STEPS_PER_BIN * j + STEPS_PER_BIN), STEPS_PER_BIN))
  {
    FiveDayMeansRow(t0, values, j);
  }

  /**
   * Whenever the table as written exists (a forecast that starts before
   * 08:00), it is the corrected table: both bin the same 15 shifts per week.
   */
  lemma ForecastTableAsWrittenAgrees(t0: int, values: seq<real>)
    requires |values| == HORIZON
    ensures ForecastTableAsWritten(t0, values).Ok? ==> ForecastTableAsWritten(t0, values) == ForecastTable(t0, values)
  {
    ForecastTableAsWrittenFails(t0, values);
    if t0 - DayStart(t0) < SHIFT {
      ForecastTableSpec(t0, values);
      ForecastTableAsWrittenRow(t0, values, 0);
      var written, corrected := ForecastTableAsWritten(t0, values).value, ForecastTable(t0, values).value;
      forall j | 0 <= j < CALENDAR_WEEKS
        ensures written[j] == corrected[j]
      {
        ForecastTableAsWrittenRow(t0, values, j);
      }
      assert written == corrected;
    }
  }

  // ---------------------------------------------------------- the script

  /**
   * Load the package log and prepare the shift series the model is fitted
   * on; then, given the model's 120-shift forecast from `t0`, build the
   * weekly forecast table as the script does (`table`, which fails for a
   * forecast starting at 08:00 or later) and with the corrected bins
   * (`corrected`, which always exists and agrees with `table` when that does).
   */
  method ForecastProduction(packRaw: seq<RawRecord<Packs>>, t0: int, forecast: seq<real>)
    returns (series: seq<GoodRow>, table: Result<seq<WeekForecast>, LengthMismatch>,
             corrected: Result<seq<WeekForecast>, LengthMismatch>)
    requires |forecast| == HORIZON
    ensures series == DropReject(WeekdayShifts(ShiftSums(SortByTime(DropMachineAll(packRaw)))))
    ensures table == ForecastTableAsWritten(t0, forecast)
    ensures table.Err? <==> t0 - DayStart(t0) >= SHIFT
    ensures corrected == ForecastTable(t0, forecast) && corrected.Ok?
    ensures table.Ok? ==> table == corrected
  {
    var packs := LoadStream(packRaw);
    series := DropReject(WeekdayShifts(ShiftSums(packs)));
    table := ForecastTableAsWritten(t0, forecast);
    ForecastTableAsWrittenFails(t0, forecast);
    corrected := ForecastTable(t0, forecast);
    ForecastTableSpec(t0, forecast);
    ForecastTableAsWrittenAgrees(t0, forecast);
  }
}
