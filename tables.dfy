/**
 * Tables shared by the scripts: rows of good and reject sums, the reject-rate
 * column, and the weekly (`"1W"`, Monday to Sunday) pack sums.
 */
module Tables {
  import opened Wrappers
  import opened Calendar
  import opened Records
  import opened Resample

  /** `Schlechtpackungen / Gutpackungen`; pandas gives inf or NaN when no good pack was made. */
  function RejectRate(good: int, reject: int): (r: Option<real>)
    ensures r.None? <==> good == 0
    ensures r.Some? ==> r.value * (good as real) == reject as real
  {
    if good == 0 then None else Some((reject as real) / (good as real))
  }

  /** One row of an aggregate table before the rate column is added. */
  datatype SumRow<L> = SumRow(index: L, good: int, reject: int)

  /** One row of an aggregate table with its `Rate_Schlechtpackungen` column. */
  datatype RateRow<L> = RateRow(index: L, good: int, reject: int, rate: Option<real>)

  /** Assign the rate column to every row. */
  function AddRate<L>(rows: seq<SumRow<L>>): (r: seq<RateRow<L>>)
    ensures |r| == |rows|
  {
    seq(|rows|, i requires 0 <= i < |rows| => RateRow(rows[i].index, rows[i].good, rows[i].reject, RejectRate(rows[i].good, rows[i].reject)))
  }

  /** The rate column is the row's reject sum over its good sum, and the other columns are unchanged. */
  lemma AddRateSpec<L>(rows: seq<SumRow<L>>, i: int)
    requires 0 <= i < |rows|
    ensures var r := AddRate(rows)[i];
      && r.index == rows[i].index && r.good == rows[i].good && r.reject == rows[i].reject
      && (r.rate.None? <==> rows[i].good == 0)
      && (r.rate.Some? ==> r.rate.value * (r.good as real) == r.reject as real)
  {
  }

  /** `set_index` with a list whose length differs from the frame's: pandas raises a length mismatch. */
  datatype LengthMismatch = LengthMismatch(rows: int, labels: int)

  function Good(p: Packs): int { p.good }
  function Reject(p: Packs): int { p.reject }

  /** The label pandas gives a `"1W"` (W-SUN) bin: the Sunday that ends it. */
  function SundayLabel(start: int): int {
    start + 6 * DAY
  }

  /** `index - timedelta(6)`. */
  function ShiftBackSixDays(sunday: int): int {
    sunday - 6 * DAY
  }

  /** `resample("1W")[["good_packs", "reject_packs"]].agg("sum")`, indexed by each week's Sunday. */
  function WeeklyPackSums(rows: seq<Record<Packs>>): (r: seq<SumRow<int>>)
    ensures |r| == |Buckets(rows, 0, WEEK)|
  {
    var bs := Buckets(rows, 0, WEEK);
    seq(|bs|, i requires 0 <= i < |bs| => SumRow(SundayLabel(bs[i].start), SumOf(bs[i].members, Good), SumOf(bs[i].members, Reject)))
  }

  /**
   * Weekly row `i` is indexed by a Sunday 00:00; its week runs from the Monday
   * six days earlier to the end of that Sunday, the weeks follow each other
   * without gaps, and its sums are those of exactly the rows of its week (zero
   * for a week without rows).
   */
  lemma WeeklyPackSumsRow(rows: seq<Record<Packs>>, i: int)
    requires 0 <= i < |WeeklyPackSums(rows)|
    ensures var w := WeeklyPackSums(rows)[i];
      var monday := ShiftBackSixDays(w.index);
      && DayOfWeek(monday) == 0 && monday % DAY == 0 && DayOfWeek(w.index) == 6
      && w.good == WindowSum(rows, monday, monday + WEEK, Good)
      && w.reject == WindowSum(rows, monday, monday + WEEK, Reject)
    ensures i + 1 < |WeeklyPackSums(rows)| ==> WeeklyPackSums(rows)[i + 1].index == WeeklyPackSums(rows)[i].index + WEEK
  {
    var k := BucketGrid(rows, 0, WEEK, i);
    var b := Buckets(rows, 0, WEEK)[i];
    BucketSum(rows, 0, WEEK, i, b, Good);
    BucketSum(rows, 0, WEEK, i, b, Reject);
    WeekStartIsMonday(k);
  }

  /** Week `k` after the epoch starts on a Monday at midnight, and its sixth day after is a Sunday. */
  lemma WeekStartIsMonday(k: int)
    ensures DayOfWeek(k * WEEK) == 0 && (k * WEEK) % DAY == 0
    ensures DayOfWeek(k * WEEK + 6 * DAY) == 6
  {
    assert k * WEEK == (k * 7) * DAY;
    assert k * WEEK + 6 * DAY == (k * 7 + 6) * DAY;
  }

  /** The first week holds the earliest row and the last week the latest. */
  lemma WeeklyPackSumsSpan(rows: seq<Record<Packs>>)
    requires |rows| > 0
    ensures |WeeklyPackSums(rows)| > 0
    ensures var first := ShiftBackSixDays(WeeklyPackSums(rows)[0].index);
      first <= MinTime(rows) < first + WEEK
    ensures var last := ShiftBackSixDays(WeeklyPackSums(rows)[|WeeklyPackSums(rows)| - 1].index);
      last <= MaxTime(rows) < last + WEEK
  {
    BucketsShape(rows, 0, WEEK);
  }

  /** The weekly sums add up to the packs of all rows. */
  lemma WeeklyPackSumsConserve(rows: seq<Record<Packs>>)
    ensures Total(WeeklyPackSums(rows), (r: SumRow<int>) => r.good) == SumOf(rows, Good)
    ensures Total(WeeklyPackSums(rows), (r: SumRow<int>) => r.reject) == SumOf(rows, Reject)
  {
    var bs := Buckets(rows, 0, WEEK);
    var t := WeeklyPackSums(rows);
    SumBinsPointwise(bs, Good, t, (r: SumRow<int>) => r.good);
    SumBinsPointwise(bs, Reject, t, (r: SumRow<int>) => r.reject);
    BucketsConserveSum(rows, 0, WEEK, Good);
    BucketsConserveSum(rows, 0, WEEK, Reject);
  }
}
