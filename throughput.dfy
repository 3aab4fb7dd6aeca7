/**
 * `MV01_throughputAnalysis.throughput_analysis`: the 5-minute row counts of
 * the OEE log, its weekly means, the weekly pack sums joined onto them, and the
 * final shaping of the report table.
 */
module Throughput {
  import opened Wrappers
  import opened Calendar
  import opened Records
  import opened Sorting
  import opened Loading
  import opened Resample
  import opened Tables

  // ------------------------------------------------------ 5-minute counts

  const FIVE_MINUTES: int := 5 * MINUTE

  /** One 5-minute bin of `agg("count")`: the non-missing entries of each column. */
  datatype CountRow = CountRow(start: int, expected: int, actual: int, deviation: int)

  /**
   * `resample("5min", on="timestamp").agg("count")`. Bins are anchored at
   * midnight of the first row's day; the loaded rows have no missing field,
   * so each column counts every row of the bin.
   */
  function FiveMinuteCounts(rows: seq<Record<OeeRow>>): (r: seq<CountRow>)
    ensures rows == [] ==> r == []
    ensures rows != [] ==> |r| == |Buckets(rows, DayStart(MinTime(rows)), FIVE_MINUTES)|
  {
    if rows == [] then []
    else
      var bs := Buckets(rows, DayStart(MinTime(rows)), FIVE_MINUTES);
      seq(|bs|, i requires 0 <= i < |bs| =>
        var n := SumOf(bs[i].members, One);
        CountRow(bs[i].start, n, n, n))
  }

  /** Each column's count in bin `i` is the number of rows whose instant lies in the bin. */
  lemma FiveMinuteCountsRow(rows: seq<Record<OeeRow>>, i: int)
    requires 0 <= i < |FiveMinuteCounts(rows)|
    ensures var c := FiveMinuteCounts(rows)[i];
      c.expected == c.actual == c.deviation == WindowSum(rows, c.start, c.start + FIVE_MINUTES, One)
  {
    var origin := DayStart(MinTime(rows));
    BucketSum(rows, origin, FIVE_MINUTES, i, Buckets(rows, origin, FIVE_MINUTES)[i], One);
  }

  /**
   * The count bins lie on the 5-minute grid of the first row's day and follow
   * each other without gaps.
   */
  lemma FiveMinuteCountsGrid(rows: seq<Record<OeeRow>>, i: int) returns (k: int)
    requires 0 <= i < |FiveMinuteCounts(rows)|
    ensures FiveMinuteCounts(rows)[i].start == DayStart(MinTime(rows)) + k * FIVE_MINUTES
    ensures i + 1 < |FiveMinuteCounts(rows)| ==> FiveMinuteCounts(rows)[i + 1].start == FiveMinuteCounts(rows)[i].start + FIVE_MINUTES
  {
    k := BucketGrid(rows, DayStart(MinTime(rows)), FIVE_MINUTES, i);
  }

  /** The first bin holds the earliest row, the last bin the latest, and the counts add up to the rows. */
  lemma FiveMinuteCountsCover(rows: seq<Record<OeeRow>>)
    requires |rows| > 0
    ensures var cs := FiveMinuteCounts(rows);
      && |cs| > 0
      && cs[0].start <= MinTime(rows) < cs[0].start + FIVE_MINUTES
      && cs[|cs| - 1].start <= MaxTime(rows) < cs[|cs| - 1].start + FIVE_MINUTES
      && Total(cs, (c: CountRow) => c.expected) == |rows|
  {
    var origin := DayStart(MinTime(rows));
    var bs := Buckets(rows, origin, FIVE_MINUTES);
    BucketsShape(rows, origin, FIVE_MINUTES);
    SumBinsPointwise(bs, One, FiveMinuteCounts(rows), (c: CountRow) => c.expected);
    BucketsConserveSum(rows, origin, FIVE_MINUTES, One);
    SumOfOneIsLength(rows);
  }

  // -------------------------------------------------------- weekly means

  /** One week of `resample("1W").agg("mean")`, indexed by its Sunday; a week without rows has no means. */
  datatype MeanRow = MeanRow(sunday: int, expected: Option<real>, actual: Option<real>, deviation: Option<real>)

  function Expected(r: OeeRow): real { r.expected }
  function Actual(r: OeeRow): real { r.actual }
  function DeviationOf(r: OeeRow): real { r.deviation }

  /** `resample("1W", on="timestamp").agg("mean")` over the loaded OEE rows. */
  function WeeklyMeans(rows: seq<Record<OeeRow>>): (r: seq<MeanRow>)
    ensures |r| == |Buckets(rows, 0, WEEK)|
  {
    var bs := Buckets(rows, 0, WEEK);
    seq(|bs|, i requires 0 <= i < |bs| =>
      MeanRow(SundayLabel(bs[i].start), Mean(bs[i].members, Expected), Mean(bs[i].members, Actual), Mean(bs[i].members, DeviationOf)))
  }

  /**
   * Each weekly mean is the mean over exactly the rows of its Monday-to-Sunday
   * week (missing when the week has no row), and the weeks follow each other
   * without gaps.
   */
  lemma WeeklyMeansRow(rows: seq<Record<OeeRow>>, i: int)
    requires 0 <= i < |WeeklyMeans(rows)|
    ensures var w := WeeklyMeans(rows)[i];
      var monday := ShiftBackSixDays(w.sunday);
      var n := WindowSum(rows, monday, monday + WEEK, One);
      && DayOfWeek(monday) == 0 && monday % DAY == 0
      && w.expected == MeanOf(WindowSumReal(rows, monday, monday + WEEK, Expected), n)
      && w.actual == MeanOf(WindowSumReal(rows, monday, monday + WEEK, Actual), n)
      && w.deviation == MeanOf(WindowSumReal(rows, monday, monday + WEEK, DeviationOf), n)
    ensures i + 1 < |WeeklyMeans(rows)| ==> WeeklyMeans(rows)[i + 1].sunday == WeeklyMeans(rows)[i].sunday + WEEK
  {
    var k := BucketGrid(rows, 0, WEEK, i);
    WeekStartIsMonday(k);
    BucketMean(rows, 0, WEEK, i, Expected);
    BucketMean(rows, 0, WEEK, i, Actual);
    BucketMean(rows, 0, WEEK, i, DeviationOf);
  }

  // ------------------------------------------------------------ the join

  /** A row of `oee_data_weekly.join(package_data_weekly)`. */
  datatype JoinedWeek = JoinedWeek(sunday: int, expected: Option<real>, actual: Option<real>, deviation: Option<real>,
                                   good: Option<int>, reject: Option<int>)

  /** The first package week with index `sunday`, if any. */
  function FindWeek(packs: seq<SumRow<int>>, sunday: int): (r: Option<SumRow<int>>)
    ensures r.None? <==> forall k :: 0 <= k < |packs| ==> packs[k].index != sunday
    ensures r.Some? ==> exists k :: 0 <= k < |packs| && packs[k] == r.value && r.value.index == sunday
  {
    if packs == [] then None
    else if packs[0].index == sunday then Some(packs[0])
    else
      var r := FindWeek(packs[1..], sunday);
      assert forall k :: 0 < k < |packs| ==> packs[k] == packs[1..][k - 1];
      r
  }

  /** `DataFrame.join` on the index (a left join): every OEE week, in order, with the matching package week or missing sums. */
  function LeftJoin(oee: seq<MeanRow>, packs: seq<SumRow<int>>): (r: seq<JoinedWeek>)
    ensures |r| == |oee|
  {
    seq(|oee|, i requires 0 <= i < |oee| =>
      var m := FindWeek(packs, oee[i].sunday);
      JoinedWeek(oee[i].sunday, oee[i].expected, oee[i].actual, oee[i].deviation,
                 if m.Some? then Some(m.value.good) else None,
                 if m.Some? then Some(m.value.reject) else None))
  }

  /**
   * The join keeps every OEE week with its means, in order; it attaches the
   * sums of the package week with the same index, and leaves them missing when
   * the package table has no such week.
   */
  lemma LeftJoinSpec(oee: seq<MeanRow>, packs: seq<SumRow<int>>, i: int)
    requires 0 <= i < |oee|
    ensures var j := LeftJoin(oee, packs)[i];
      && j.sunday == oee[i].sunday && j.expected == oee[i].expected && j.actual == oee[i].actual && j.deviation == oee[i].deviation
      && (j.good.None? <==> forall k :: 0 <= k < |packs| ==> packs[k].index != oee[i].sunday)
      && j.good.None? == j.reject.None?
      && (j.good.Some? ==> exists k :: 0 <= k < |packs| && packs[k].index == oee[i].sunday
                                       && j.good.value == packs[k].good && j.reject.value == packs[k].reject)
  {
  }

  /** Pack sums the join attaches to a week are the packs of the seven days from its Monday. */
  lemma JoinedPackSums(oee: seq<MeanRow>, packRows: seq<Record<Packs>>, i: int)
    requires 0 <= i < |oee|
    ensures var j := LeftJoin(oee, WeeklyPackSums(packRows))[i];
      var monday := ShiftBackSixDays(oee[i].sunday);
      && (j.good.Some? ==> j.good.value == WindowSum(packRows, monday, monday + WEEK, Good))
      && (j.reject.Some? ==> j.reject.value == WindowSum(packRows, monday, monday + WEEK, Reject))
  {
    var ps := WeeklyPackSums(packRows);
    var j := LeftJoin(oee, ps)[i];
    LeftJoinSpec(oee, ps, i);
    if j.good.Some? {
      var k :| 0 <= k < |ps| && ps[k].index == oee[i].sunday && j.good.value == ps[k].good && j.reject.value == ps[k].reject;
      WeeklyPackSumsRow(packRows, k);
    }
  }

  // ------------------------------------------------------------ shaping

  /** A row of the written report: the planned rate, the week's Monday, and the kept columns. */
  datatype ReportRow = ReportRow(planned: int, weekFrom: int, expected: Option<real>, actual: Option<real>,
                                 good: Option<int>, reject: Option<int>)

  const PLANNED_RATE: int := 10

  /**
   * `index - timedelta(6)`, `drop("deviation_from_programmed_throughput")` and
   * `insert(0, "Geplante_Taktleistung", 10)`.
   */
  function Shape(weeks: seq<JoinedWeek>): (r: seq<ReportRow>)
    ensures |r| == |weeks|
  {
    seq(|weeks|, i requires 0 <= i < |weeks| =>
      ReportRow(PLANNED_RATE, ShiftBackSixDays(weeks[i].sunday), weeks[i].expected, weeks[i].actual, weeks[i].good, weeks[i].reject))
  }

  /** A report row keeps the joined week's means and sums under its Monday, after the planned rate. */
  lemma ShapeJoinRow(oee: seq<MeanRow>, packs: seq<SumRow<int>>, i: int)
    requires 0 <= i < |oee|
    ensures var r := Shape(LeftJoin(oee, packs))[i];
      var j := LeftJoin(oee, packs)[i];
      && r.planned == PLANNED_RATE
      && r.weekFrom == ShiftBackSixDays(oee[i].sunday)
      && r.expected == oee[i].expected && r.actual == oee[i].actual
      && r.good == j.good && r.reject == j.reject
  {
  }

  /**
   * The report pairs each week's Monday with the OEE means of that week and,
   * when the package table has the week, its pack sums over the same seven
   * days; the planned rate is 10 in every row.
   */
  lemma ReportRowSpec(oeeRows: seq<Record<OeeRow>>, packRows: seq<Record<Packs>>, i: int)
    requires 0 <= i < |Shape(LeftJoin(WeeklyMeans(oeeRows), WeeklyPackSums(packRows)))|
    ensures var r := Shape(LeftJoin(WeeklyMeans(oeeRows), WeeklyPackSums(packRows)))[i];
      var n := WindowSum(oeeRows, r.weekFrom, r.weekFrom + WEEK, One);
      && r.planned == 10
      && DayOfWeek(r.weekFrom) == 0
      && r.weekFrom == ShiftBackSixDays(WeeklyMeans(oeeRows)[i].sunday)
      && r.expected == MeanOf(WindowSumReal(oeeRows, r.weekFrom, r.weekFrom + WEEK, Expected), n)
      && r.actual == MeanOf(WindowSumReal(oeeRows, r.weekFrom, r.weekFrom + WEEK, Actual), n)
      && (r.good.Some? ==> r.good.value == WindowSum(packRows, r.weekFrom, r.weekFrom + WEEK, Good))
      && (r.reject.Some? ==> r.reject.value == WindowSum(packRows, r.weekFrom, r.weekFrom + WEEK, Reject))
  {
    var oee := WeeklyMeans(oeeRows);
    ShapeJoinRow(oee, WeeklyPackSums(packRows), i);
    WeeklyMeansRow(oeeRows, i);
    JoinedPackSums(oee, packRows, i);
  }

  // ---------------------------------------------------------- the script

  /**
   * Load both logs and build the 5-minute counts and the report table, as
   * `throughput_analysis` does before plotting and writing them.
   */
  method ThroughputAnalysis(oeeRaw: seq<RawRecord<OeeSample>>, packRaw: seq<RawRecord<Packs>>)
    returns (counts: seq<CountRow>, report: seq<ReportRow>)
    ensures var oee := WithDeviation(DropMissing(ForwardFill(SortByTime(DropMachineAll(oeeRaw)))));
      && counts == FiveMinuteCounts(oee)
      && report == Shape(LeftJoin(WeeklyMeans(oee), WeeklyPackSums(SortByTime(DropMachineAll(packRaw)))))
  {
    var oee := LoadOeeData(oeeRaw);
    counts := FiveMinuteCounts(oee);
    var weekly := WeeklyMeans(oee);
    var packs := LoadStream(packRaw);
    var packWeekly := WeeklyPackSums(packs);
    report := Shape(LeftJoin(weekly, packWeekly));
  }
}
