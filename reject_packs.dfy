/**
 * `MV02_rejectPackAnalysis.reject_pack_analysis`: good and reject packs summed
 * per hour of day, per weekday and per calendar week, each with a reject rate;
 * per recipe after an as-of join with the recipe log; and per error code the
 * number of messages and their total duration.
 */
module RejectPacks {
  import opened Wrappers
  import opened Calendar
  import opened Records
  import opened Sorting
  import opened Loading
  import opened Resample
  import opened GroupBy
  import opened Asof
  import opened Tables

  function GroupRow(g: Group): SumRow<Key> {
    SumRow(g.key, g.x, g.y)
  }

  function GroupRows(gs: seq<Group>): (r: seq<SumRow<Key>>)
    ensures |r| == |gs|
  {
    seq(|gs|, i requires 0 <= i < |gs| => GroupRow(gs[i]))
  }

  // ---------------------------------------------------------------- hourly

  /** `timestamp.dt.hour`, the group key of the hourly table. */
  function HourKey(r: Record<Packs>): Option<Key> {
    Some(Num(HourOfDay(r.t)))
  }

  function HourlySums(rows: seq<Record<Packs>>): seq<Group> {
    GroupSums(rows, HourKey, Good, Reject)
  }

  /** `groupby(["hour"])[["good_packs", "reject_packs"]].sum()` plus the rate column. */
  function HourlyTable(rows: seq<Record<Packs>>): seq<RateRow<Key>> {
    AddRate(GroupRows(HourlySums(rows)))
  }

  /**
   * The hourly table has at most 24 rows, in ascending hour order, one for
   * every hour in which some row lies and no other; each row sums the packs of
   * exactly the rows of its hour and carries their reject rate.
   */
  lemma HourlyTableSpec(rows: seq<Record<Packs>>, i: int, h: int)
    requires 0 <= i < |HourlyTable(rows)|
    ensures |HourlyTable(rows)| <= 24
    ensures var r := HourlyTable(rows)[i];
      && r.index.Num? && 0 <= r.index.n < 24
      && r.good == KeySum(rows, HourKey, r.index, Good)
      && r.reject == KeySum(rows, HourKey, r.index, Reject)
      && r.rate == RejectRate(r.good, r.reject)
    ensures forall j :: 0 <= j < i ==> KeyLess(HourlyTable(rows)[j].index, HourlyTable(rows)[i].index)
    ensures HasGroup(HourlySums(rows), Num(h)) <==> exists j :: 0 <= j < |rows| && HourOfDay(rows[j].t) == h
  {
    var gs := HourlySums(rows);
    GroupSumsAscending(rows, HourKey, Good, Reject);
    HourKeysBelow(rows);
    NumKeysBelow(gs, 24);
    GroupSumsRow(rows, HourKey, Good, Reject, i);
    GroupSumsKeys(rows, HourKey, Good, Reject, Num(h));
    assert forall j :: 0 <= j < |rows| ==> (HourKey(rows[j]) == Some(Num(h)) <==> HourOfDay(rows[j].t) == h);
  }

  /** Every hourly group's key is an hour 0 .. 23. */
  lemma HourKeysBelow(rows: seq<Record<Packs>>)
    ensures forall i :: 0 <= i < |HourlySums(rows)| ==> HourlySums(rows)[i].key.Num? && 0 <= HourlySums(rows)[i].key.n < 24
  {
    var gs := HourlySums(rows);
    forall i | 0 <= i < |gs|
      ensures gs[i].key.Num? && 0 <= gs[i].key.n < 24
    {
      var k := gs[i].key;
      GroupSumsKeys(rows, HourKey, Good, Reject, k);
      assert HasGroup(gs, k);
      var j :| 0 <= j < |rows| && HourKey(rows[j]) == Some(k);
    }
  }

  /** The hourly sums add up to the packs of all rows. */
  lemma HourlyTableConserves(rows: seq<Record<Packs>>)
    ensures Total(HourlySums(rows), GroupX) == SumOf(rows, Good)
    ensures Total(HourlySums(rows), GroupY) == SumOf(rows, Reject)
  {
    GroupSumsConserve(rows, HourKey, Good, Reject);
    KeyedSumAll(rows, HourKey, Good);
    KeyedSumAll(rows, HourKey, Reject);
  }

  // --------------------------------------------------------------- weekday

  const WEEKDAY_NAMES: seq<string> := ["Montag", "Dienstag", "Mittwoch", "Donnerstag", "Freitag", "Samstag", "Sonntag"]

  /** `timestamp.dt.weekday`, the group key of the weekday table. */
  function WeekdayKey(r: Record<Packs>): Option<Key> {
    Some(Num(DayOfWeek(r.t)))
  }

  function WeekdaySums(rows: seq<Record<Packs>>): seq<Group> {
    GroupSums(rows, WeekdayKey, Good, Reject)
  }

  /** Replace group labels by names; fails unless there is exactly one name per group. */
  function Relabel<L, M>(table: seq<SumRow<L>>, names: seq<M>): (r: Result<seq<SumRow<M>>, LengthMismatch>)
    ensures r.Ok? <==> |table| == |names|
    ensures r.Ok? ==> |r.value| == |names|
    ensures r.Ok? ==> forall i :: 0 <= i < |names| ==> r.value[i] == SumRow(names[i], table[i].good, table[i].reject)
  {
    if |table| != |names| then Err(LengthMismatch(|table|, |names|))
    else Ok(seq(|names|, i requires 0 <= i < |names| => SumRow(names[i], table[i].good, table[i].reject)))
  }

  /** The weekday table: group by weekday, name the groups Montag .. Sonntag, add the rate. */
  function WeekdayTable(rows: seq<Record<Packs>>): Result<seq<RateRow<string>>, LengthMismatch> {
    match Relabel(GroupRows(WeekdaySums(rows)), WEEKDAY_NAMES)
    case Err(e) => Err(e)
    case Ok(t) => Ok(AddRate(t))
  }

  predicate WeekdayOccurs(rows: seq<Record<Packs>>, d: int) {
    exists j :: 0 <= j < |rows| && DayOfWeek(rows[j].t) == d
  }

  /**
   * The weekday table is built exactly when every weekday occurs in the data;
   * then row `d` is named after weekday `d`, sums the packs of exactly the
   * rows of that weekday and carries their reject rate.
   */
  lemma WeekdayTableSpec(rows: seq<Record<Packs>>)
    ensures WeekdayTable(rows).Ok? <==> forall d :: 0 <= d < 7 ==> WeekdayOccurs(rows, d)
    ensures WeekdayTable(rows).Ok? ==> |WeekdayTable(rows).value| == 7
    ensures WeekdayTable(rows).Ok? ==>
      forall d :: 0 <= d < 7 ==>
        var r := WeekdayTable(rows).value[d];
        && r.index == WEEKDAY_NAMES[d]
        && r.good == KeySum(rows, WeekdayKey, Num(d), Good)
        && r.reject == KeySum(rows, WeekdayKey, Num(d), Reject)
        && r.rate == RejectRate(r.good, r.reject)
  {
    var gs := WeekdaySums(rows);
    GroupSumsAscending(rows, WeekdayKey, Good, Reject);
    WeekdayKeysBelow(rows);
    forall d | 0 <= d < 7
      ensures HasGroup(gs, Num(d)) <==> WeekdayOccurs(rows, d)
    {
      GroupSumsKeys(rows, WeekdayKey, Good, Reject, Num(d));
      assert forall j :: 0 <= j < |rows| ==> (WeekdayKey(rows[j]) == Some(Num(d)) <==> DayOfWeek(rows[j].t) == d);
    }
    NumKeysBelow(gs, 7);
    if |gs| == 7 {
      NumKeysTop(gs, 7);
      forall d | 0 <= d < 7
        ensures HasGroup(gs, Num(d))
        ensures gs[d].x == KeySum(rows, WeekdayKey, Num(d), Good) && gs[d].y == KeySum(rows, WeekdayKey, Num(d), Reject)
      {
        assert gs[d].key == Num(d);
        GroupSumsRow(rows, WeekdayKey, Good, Reject, d);
      }
    }
  }

  /** Integer keys below `n` filling all `n` rows are 0 .. n - 1 in order. */
  lemma NumKeysTop(gs: seq<Group>, n: int)
    requires Ascending(gs) && |gs| == n
    requires forall i :: 0 <= i < |gs| ==> gs[i].key.Num? && 0 <= gs[i].key.n < n
    ensures forall i :: 0 <= i < n ==> gs[i].key == Num(i)
  {
    forall i | 0 <= i < n
      ensures gs[i].key == Num(i)
    {
      NumKeysRise(gs);
      NumKeysRise(gs[i..]);
      assert Ascending(gs[i..]);
      assert gs[i..][n - 1 - i] == gs[n - 1];
    }
  }

  /** Every weekday group's key is a weekday 0 .. 6. */
  lemma WeekdayKeysBelow(rows: seq<Record<Packs>>)
    ensures forall i :: 0 <= i < |WeekdaySums(rows)| ==> WeekdaySums(rows)[i].key.Num? && 0 <= WeekdaySums(rows)[i].key.n < 7
  {
    var gs := WeekdaySums(rows);
    forall i | 0 <= i < |gs|
      ensures gs[i].key.Num? && 0 <= gs[i].key.n < 7
    {
      var k := gs[i].key;
      GroupSumsKeys(rows, WeekdayKey, Good, Reject, k);
      assert HasGroup(gs, k);
      var j :| 0 <= j < |rows| && WeekdayKey(rows[j]) == Some(k);
    }
  }

  // ---------------------------------------------------------------- weekly

  /** The weekly table: pack sums per week, indexed by the week's Monday, plus the rate. */
  function WeeklyTable(rows: seq<Record<Packs>>): (r: seq<RateRow<int>>)
    ensures |r| == |WeeklyPackSums(rows)|
  {
    var ws := WeeklyPackSums(rows);
    AddRate(seq(|ws|, i requires 0 <= i < |ws| => ws[i].(index := ShiftBackSixDays(ws[i].index))))
  }

  /**
   * Weekly row `i` is indexed by the Monday 00:00 that starts its week, the
   * weeks follow each other without gaps, and its sums are those of exactly
   * the rows from that Monday to the end of the following Sunday (zero for a
   * week without rows), with their reject rate.
   */
  lemma WeeklyTableRow(rows: seq<Record<Packs>>, i: int)
    requires 0 <= i < |WeeklyTable(rows)|
    ensures var w := WeeklyTable(rows)[i];
      && DayOfWeek(w.index) == 0 && w.index % DAY == 0
      && w.good == WindowSum(rows, w.index, w.index + WEEK, Good)
      && w.reject == WindowSum(rows, w.index, w.index + WEEK, Reject)
      && w.rate == RejectRate(w.good, w.reject)
    ensures i + 1 < |WeeklyTable(rows)| ==> WeeklyTable(rows)[i + 1].index == WeeklyTable(rows)[i].index + WEEK
  {
    WeeklyPackSumsRow(rows, i);
  }

  /** The weekly sums add up to the packs of all rows. */
  lemma WeeklyTableConserves(rows: seq<Record<Packs>>)
    ensures Total(WeeklyTable(rows), (r: RateRow<int>) => r.good) == SumOf(rows, Good)
    ensures Total(WeeklyTable(rows), (r: RateRow<int>) => r.reject) == SumOf(rows, Reject)
  {
    var ws := WeeklyPackSums(rows);
    var t := WeeklyTable(rows);
    TotalPointwise(t, (r: RateRow<int>) => r.good, ws, (r: SumRow<int>) => r.good);
    TotalPointwise(t, (r: RateRow<int>) => r.reject, ws, (r: SumRow<int>) => r.reject);
    WeeklyPackSumsConserve(rows);
  }

  // ---------------------------------------------------------------- recipe

  function JoinedGood(j: Joined): int { j.good }
  function JoinedReject(j: Joined): int { j.reject }

  /** The recipe column as group key; rows joined to no recipe have none and are dropped. */
  function RecipeKey(r: Record<Joined>): Option<Key> {
    match r.f.recipe
    case None => None
    case Some(s) => Some(Text(s))
  }

  function RecipeSums(joined: seq<Record<Joined>>): seq<Group> {
    GroupSums(joined, RecipeKey, JoinedGood, JoinedReject)
  }

  /** `groupby(["recipe"])[["good_packs", "reject_packs"]].sum()` plus the rate. */
  function RecipeTable(joined: seq<Record<Joined>>): seq<RateRow<Key>> {
    AddRate(GroupRows(RecipeSums(joined)))
  }

  /**
   * The per-recipe table lists the recipes in ascending order, each once, and
   * its sums add up to the packs of the rows that were joined to a recipe.
   */
  lemma RecipeTableSpec(joined: seq<Record<Joined>>)
    ensures Ascending(RecipeSums(joined))
    ensures Total(RecipeSums(joined), GroupX) == KeyedSum(joined, RecipeKey, JoinedGood)
    ensures Total(RecipeSums(joined), GroupY) == KeyedSum(joined, RecipeKey, JoinedReject)
  {
    GroupSumsAscending(joined, RecipeKey, JoinedGood, JoinedReject);
    GroupSumsConserve(joined, RecipeKey, JoinedGood, JoinedReject);
  }

  /**
   * Recipe row `i` sums the packs of exactly the joined rows with its recipe
   * and carries their reject rate.
   */
  lemma RecipeTableRow(joined: seq<Record<Joined>>, i: int)
    requires 0 <= i < |RecipeTable(joined)|
    ensures var r := RecipeTable(joined)[i];
      && r.index.Text?
      && r.good == KeySum(joined, RecipeKey, r.index, JoinedGood)
      && r.reject == KeySum(joined, RecipeKey, r.index, JoinedReject)
      && r.rate == RejectRate(r.good, r.reject)
  {
    var gs := RecipeSums(joined);
    GroupSumsRow(joined, RecipeKey, JoinedGood, JoinedReject, i);
    GroupSumsKeys(joined, RecipeKey, JoinedGood, JoinedReject, gs[i].key);
  }

  // ----------------------------------------------------------- error codes

  function CodeKey(r: Record<ErrorEvent>): Option<Key> {
    match r.f.code
    case None => None
    case Some(c) => Some(Num(c))
  }

  /** `duration_in_s`, where `sum` skips a missing value. */
  function Duration(e: ErrorEvent): int {
    e.duration.GetOr(0)
  }

  /** `groupby(code)[["code", "duration_in_s"]].agg({"code": "count", "duration_in_s": "sum"})`. */
  function ErrorTable(errors: seq<Record<ErrorEvent>>): seq<Group> {
    GroupSums(errors, CodeKey, One, Duration)
  }

  /** Number of messages whose code is `c`. */
  function CountCode(errors: seq<Record<ErrorEvent>>, c: int): nat {
    if errors == [] then 0
    else CountCode(errors[..|errors| - 1], c) + (if errors[|errors| - 1].f.code == Some(c) then 1 else 0)
  }

  lemma {:induction false} KeySumOneIsCount(errors: seq<Record<ErrorEvent>>, c: int)
    ensures KeySum(errors, CodeKey, Num(c), One) == CountCode(errors, c)
  {
    if errors != [] {
      KeySumOneIsCount(errors[..|errors| - 1], c);
    }
  }

  /**
   * Each error-code row counts exactly the messages with that code and sums
   * their durations; the codes are ascending and each appears once.
   */
  lemma ErrorTableRow(errors: seq<Record<ErrorEvent>>, i: int)
    requires 0 <= i < |ErrorTable(errors)|
    ensures Ascending(ErrorTable(errors))
    ensures var g := ErrorTable(errors)[i];
      && g.key.Num?
      && g.x == CountCode(errors, g.key.n) && g.x > 0
      && g.y == KeySum(errors, CodeKey, g.key, Duration)
  {
    var gs := ErrorTable(errors);
    GroupSumsAscending(errors, CodeKey, One, Duration);
    GroupSumsRow(errors, CodeKey, One, Duration, i);
    var k := gs[i].key;
    GroupSumsKeys(errors, CodeKey, One, Duration, k);
    assert HasGroup(gs, k);
    var j :| 0 <= j < |errors| && CodeKey(errors[j]) == Some(k);
    KeySumOneIsCount(errors, k.n);
    CountCodePositive(errors, k.n, j);
  }

  lemma {:induction false} CountCodePositive(errors: seq<Record<ErrorEvent>>, c: int, j: int)
    requires 0 <= j < |errors| && errors[j].f.code == Some(c)
    ensures CountCode(errors, c) > 0
  {
    if j < |errors| - 1 {
      CountCodePositive(errors[..|errors| - 1], c, j);
    }
  }

  /** When every message has a code, the counts add up to the number of messages. */
  lemma ErrorCountsAddUp(errors: seq<Record<ErrorEvent>>)
    requires forall j :: 0 <= j < |errors| ==> errors[j].f.code.Some?
    ensures Total(ErrorTable(errors), GroupX) == |errors|
  {
    GroupSumsConserve(errors, CodeKey, One, Duration);
    KeyedSumAll(errors, CodeKey, One);
    SumOfOneIsLength(errors);
  }

  // ------------------------------------------------------------ the script

  /** The tables `reject_pack_analysis` writes after the hourly one, in its order. */
  datatype LaterTables = LaterTables(
    weekday: seq<RateRow<string>>,
    weekly: seq<RateRow<int>>,
    byRecipe: seq<RateRow<Key>>,
    errors: seq<Group>)

  /**
   * What the script writes: the hourly table, then either the remaining four
   * tables or the length mismatch of the weekday relabel, which stops the run.
   */
  datatype Report = Report(hourly: seq<RateRow<Key>>, later: Result<LaterTables, LengthMismatch>)

  /**
   * Load the package log and write the hourly table. A relabel failure stops
   * the run there; otherwise write the weekday and weekly tables, load the
   * recipe changes and join them (the as-of join cannot fail, because the
   * loaders leave both frames sorted), write the recipe table, then load the
   * error messages and write the error table.
   */
  method RejectPackAnalysis(packRaw: seq<RawRecord<Packs>>, recipeRaw: seq<RawRecord<RecipeChange>>, errorRaw: seq<RawRecord<ErrorEvent>>)
    returns (report: Report)
    ensures var packs := SortByTime(DropMachineAll(packRaw));
      && report.hourly == HourlyTable(packs)
      && (report.later.Err? <==> exists d :: 0 <= d < 7 && !WeekdayOccurs(packs, d))
      && (report.later.Err? ==> WeekdayTable(packs).Err? && report.later.error == WeekdayTable(packs).error)
    ensures var packs := SortByTime(DropMachineAll(packRaw));
      var recipes := SortByTime(DropMachineAll(recipeRaw));
      report.later.Ok? ==>
        && WeekdayTable(packs).Ok?
        && AsofJoin(packs, recipes).Ok?
        && report.later.value == LaterTables(WeekdayTable(packs).value, WeeklyTable(packs),
                                             RecipeTable(AsofJoin(packs, recipes).value),
                                             ErrorTable(SortByTime(DropMachineAll(errorRaw))))
  {
    var packs := LoadStream(packRaw);
    var hourly := HourlyTable(packs);
    WeekdayTableSpec(packs);
    var weekday := WeekdayTable(packs);
    if weekday.Err? {
      report := Report(hourly, Err(weekday.error));
      return;
    }
    var weekly := WeeklyTable(packs);
    var recipes := LoadStream(recipeRaw);
    var joined := MergeAsof(packs, recipes);
    var byRecipe := RecipeTable(joined.value);
    var errors := LoadStream(errorRaw);
    report := Report(hourly, Ok(LaterTables(weekday.value, weekly, byRecipe, ErrorTable(errors))));
  }
}
