# Production-log aggregation of a packaging machine, in Dafny

This project models the batch aggregations of three analysis scripts for one
packaging machine:

- `MV01_throughputAnalysis.py` loads the OEE log. The OEE log records the
  programmed and the actual cycle rate. The script forward-fills the programmed
  rate, drops incomplete rows and derives the deviation. It then counts the
  rows per 5 minutes and averages the rates per week. Finally it joins the
  weekly pack sums and shapes the report.
- `MV02_rejectPackAnalysis.py` sums good and reject packs by hour of day, by
  weekday (named Montag .. Sonntag), by week and by recipe. The recipe comes
  from a backward as-of join onto the recipe changes. The script adds the
  reject rate to each of these tables. It also counts error messages and sums
  their durations per error code.
- `MV03_productionForecast.py` sums the packs per 8-hour shift and keeps the
  weekday shifts and the good packs. The forecast is averaged over 5-day bins
  and relabelled onto eight Mondays from 2022-08-01.

Instants are whole seconds since 1970-01-05 00:00, a Monday. Hour of day,
weekday and midnight are then plain floor arithmetic (module `Calendar`).

The modules follow the pipeline:

- `Records` holds the row types, sums and means.
- `Sorting` is the time sort, as a function and as an in-place sort of an array.
- `Loading` holds the `load_*_data` functions.
- `Resample` is `resample(...)` with the pandas bin rules.
- `GroupBy` is `groupby(...).sum()` with sorted keys.
- `Asof` is `merge_asof(direction="backward")`.
- `Tables` holds the reject rate and the weekly pack sums shared by two scripts.
- `RejectPacks`, `Throughput` and `Forecast` model one script each.

A missing value (NaN in pandas) is `None`. That covers a mean over no rows and
a rate over zero good packs.

Two consequences of the code are easy to miss:

- pandas' `groupby` omits labels without rows. The hour and weekday tables
  therefore list only the hours and weekdays that occur, and the weekday
  relabel (`MV02_rejectPackAnalysis.py:75`) fails unless all seven weekdays
  occur (`RejectPacks.WeekdayTableSpec`). That failure stops the reject-pack
  analysis after the hourly table, so the later tables are not written
  (`RejectPacks.RejectPackAnalysis`).
- The 5-day bins of the forecast fit the 8-Monday calendar only for some
  forecast start times (see Findings).

## Model

| member | source | states |
|---|---|---|
| Calendar.HourOfDay | MV02_rejectPackAnalysis.py:59 | the hour lies in 0..23, and the instant falls inside that hour of its own day |
| Calendar.DayOfWeek | MV02_rejectPackAnalysis.py:73 | the weekday `d` is 0..6 and the instant lies in day `d` of its week, counted from the week's Monday 00:00 |
| Calendar.NextDayNextWeekday | MV02_rejectPackAnalysis.py:73 | a day later is the next weekday, Sunday being followed by Monday |
| Calendar.DayStart | MV01_throughputAnalysis.py:51 | midnight of the instant's day: a whole number of days, at or before the instant and less than a day before it |
| Calendar.SameDaySameWeekday | MV03_productionForecast.py:27 | every instant of a day has the weekday of that day's midnight |
| Records.DropMachineAll | MV02_rejectPackAnalysis.py:10 | dropping the machine column keeps every row, in order, with its instant and fields |
| Records.MinTime | MV01_throughputAnalysis.py:51 | the earliest instant is a lower bound of all rows and belongs to one of them |
| Records.MaxTime | MV01_throughputAnalysis.py:51 | the latest instant is an upper bound of all rows and belongs to one of them |
| Records.SumOfOneIsLength | MV01_throughputAnalysis.py:51 | the `count` aggregate of a window is the number of its rows |
| Records.MeanOfSpec | MV01_throughputAnalysis.py:58 | a mean is missing exactly for an empty window, and otherwise times the row count gives the sum |
| Sorting.InsertByTimePermutes | MV01_throughputAnalysis.py:13 | inserting a row adds exactly that row to the multiset |
| Sorting.InsertByTimeSorted | MV01_throughputAnalysis.py:13 | inserting into a time-sorted sequence keeps it sorted |
| Sorting.SortByTimeSortsAndPermutes | MV01_throughputAnalysis.py:13 | `sort_values(by="timestamp")` yields a time-ordered permutation of the rows |
| Sorting.SortByTimeIdempotent | MV02_rejectPackAnalysis.py:12 | sorting rows that are already sorted leaves them unchanged |
| Sorting.SortByTimeStable | MV02_rejectPackAnalysis.py:12 | two rows with equal instants keep their relative order |
| Sorting.InsertInPlace | MV02_rejectPackAnalysis.py:12 | one insertion step in the array equals the functional insertion and leaves the rest of the array unchanged |
| Sorting.SortInPlace | MV02_rejectPackAnalysis.py:12 | the in-place sort of the array equals the functional sort |
| Loading.LoadStream | MV02_rejectPackAnalysis.py:10-13 | a loaded log is the sorted rows without the machine column: time-ordered, and the same multiset of rows |
| Loading.LastKnown | MV01_throughputAnalysis.py:16 | the fill source is missing exactly when no earlier row has a rate, and is otherwise the latest known rate |
| Loading.ForwardFillSpec | MV01_throughputAnalysis.py:16 | `ffill` changes only the programmed rate, keeps every known rate, leaves a rate missing only before the first known one, and otherwise copies the latest known rate |
| Loading.ForwardFillInPlace | MV01_throughputAnalysis.py:16 | the column assignment done row by row on an array equals the functional fill |
| Loading.DropMissingAt | MV01_throughputAnalysis.py:20 | each complete row is kept once, at the position given by the number of complete rows before it |
| Loading.DropMissingSpec | MV01_throughputAnalysis.py:20 | `dropna` keeps exactly the complete rows, each once and in input order, and keeps the frame sorted |
| Loading.FillThenDropKeeps | MV01_throughputAnalysis.py:16-20 | a row with an actual rate after the first known programmed rate survives the fill and the drop |
| Loading.Deviation | MV01_throughputAnalysis.py:23-24 | the deviation is non-negative, is zero exactly when the rates agree, and is their absolute difference |
| Loading.WithDeviation | MV01_throughputAnalysis.py:23-24 | the new column is added to every row and nothing else changes |
| Loading.LoadOeeData | MV01_throughputAnalysis.py:11-24 | the loaded OEE log is the sorted, filled, complete rows with their deviation: time-ordered, no longer than the raw log, all deviations non-negative |
| Resample.BinIndexIff | MV01_throughputAnalysis.py:51 | an instant is in bin `k` exactly when it lies in `[origin + k·width, origin + (k+1)·width)` |
| Resample.BinIndexMonotonic | MV01_throughputAnalysis.py:51 | a later instant never falls in an earlier bin |
| Resample.RowsInBinRange | MV01_throughputAnalysis.py:51 | every row's bin lies between the first row's bin and the last row's bin |
| Resample.BucketAt | MV01_throughputAnalysis.py:51 | there is one output bin per index from the first row's bin to the last row's bin, including empty ones; bin `i` starts `i` widths after the first |
| Resample.BucketStart | MV01_throughputAnalysis.py:51 | bin `i` starts `i` widths after the first row's bin |
| Resample.BucketsAscending | MV01_throughputAnalysis.py:51 | the bins come out in time order, at least one width apart |
| Resample.BucketGrid | MV01_throughputAnalysis.py:51 | every bin starts on the grid of the origin, and the next bin starts one width later |
| Resample.BucketsShape | MV01_throughputAnalysis.py:51 | the first bin holds the earliest row, the last bin holds the latest row, and the bins follow each other without gaps |
| Resample.BucketMembers | MV01_throughputAnalysis.py:51 | a bin holds exactly the rows whose instant lies in its interval |
| Resample.BucketOfRow | MV01_throughputAnalysis.py:51 | every row lies in exactly one bin |
| Resample.MembersIff | MV01_throughputAnalysis.py:51 | the rows of bin `k` are exactly the input rows whose bin index is `k` |
| Resample.BucketSum | MV02_rejectPackAnalysis.py:89 | a bin's sum is the sum over exactly the rows of its interval, and zero for an empty bin |
| Resample.BucketSumReal | MV01_throughputAnalysis.py:58 | the same for a real-valued column |
| Resample.BucketMean | MV01_throughputAnalysis.py:58 | a bin's mean is the mean over exactly the rows of its interval, and missing for an empty bin |
| Resample.BucketsConserveSum | MV01_throughputAnalysis.py:64 | resampling with `sum` conserves the column total |
| Resample.SumRangeCovers | MV01_throughputAnalysis.py:64 | summing bins over a range of indices that covers every row gives the column total |
| GroupBy.KeyLessIrreflexive | MV02_rejectPackAnalysis.py:60 | no group key precedes itself |
| GroupBy.KeyLessTransitive | MV02_rejectPackAnalysis.py:60 | the key order is transitive |
| GroupBy.KeyLessTotal | MV02_rejectPackAnalysis.py:60 | any two distinct keys are ordered |
| GroupBy.Find | MV02_rejectPackAnalysis.py:60 | a key lookup fails exactly when no group has the key, and otherwise returns a group with that key |
| GroupBy.AddToKeys | MV02_rejectPackAnalysis.py:60 | folding a row into the groups adds exactly its key |
| GroupBy.AddToAscending | MV02_rejectPackAnalysis.py:60 | folding a row in keeps the keys strictly ascending |
| GroupBy.GroupSumsAscending | MV02_rejectPackAnalysis.py:60 | the grouped table is sorted by key, with no key repeated |
| GroupBy.GroupSumsKeys | MV02_rejectPackAnalysis.py:60 | a key has a group exactly when some row carries it; rows without a key are dropped |
| GroupBy.GroupSumsRow | MV02_rejectPackAnalysis.py:60 | each group's two sums are the sums over exactly the rows with its key |
| GroupBy.GroupOfRecord | MV02_rejectPackAnalysis.py:60 | every row with a key falls in exactly one group |
| GroupBy.GroupSumsConserve | MV02_rejectPackAnalysis.py:60 | the group sums add up to the sums over all rows that have a key |
| GroupBy.KeyedSumAll | MV02_rejectPackAnalysis.py:60 | when every row has a key, those are the sums over all rows |
| Asof.LastAtOrBefore | MV02_rejectPackAnalysis.py:107-108 | the backward match is a right row at or before the instant with only later rows after it, and is missing exactly when every right row is later |
| Asof.AsofJoinSpec | MV02_rejectPackAnalysis.py:107-108 | the join fails exactly on an unsorted frame, reporting the left frame first; otherwise it keeps each left row and its packs and attaches the recipe of the latest change at or before it, or none |
| Asof.CheckSorted | MV02_rejectPackAnalysis.py:107-108 | the pairwise check reports exactly whether the frame is sorted |
| Asof.MergeAsof | MV02_rejectPackAnalysis.py:107-108 | the two-pointer join computes exactly the join above |
| Tables.RejectRate | MV02_rejectPackAnalysis.py:66-67 | the rate is missing exactly when no good pack was produced, and otherwise times the good packs gives the reject packs |
| Tables.AddRateSpec | MV02_rejectPackAnalysis.py:97-98 | adding the rate column keeps index, good and reject packs, and sets the rate of the row |
| Tables.WeekStartIsMonday | MV02_rejectPackAnalysis.py:89-90 | every `1W` bin starts on a Monday at midnight, and its label is the Sunday six days later |
| Tables.WeeklyPackSumsRow | MV01_throughputAnalysis.py:64 | weekly row `i` is labelled by a Sunday, its week runs Monday to Sunday, the weeks have no gaps, and its sums cover exactly the rows of that week |
| Tables.WeeklyPackSumsSpan | MV01_throughputAnalysis.py:64 | the first week holds the earliest row and the last week holds the latest row |
| Tables.WeeklyPackSumsConserve | MV01_throughputAnalysis.py:64 | the weekly sums add up to the packs of all rows |
| RejectPacks.HourlyTableSpec | MV02_rejectPackAnalysis.py:59-67 | the hourly table has at most 24 rows, sorted by hour; an hour has a row exactly when some pack row falls in that hour; each row sums that hour's packs and carries its rate |
| RejectPacks.HourKeysBelow | MV02_rejectPackAnalysis.py:59-60 | every hourly key is an hour 0..23 |
| RejectPacks.HourlyTableConserves | MV02_rejectPackAnalysis.py:60 | the hourly sums add up to all packs |
| RejectPacks.Relabel | MV02_rejectPackAnalysis.py:75-76 | `set_index` with a list succeeds exactly when there is one name per row, and keeps the sums |
| RejectPacks.WeekdayKeysBelow | MV02_rejectPackAnalysis.py:73-74 | every weekday key is 0..6 |
| RejectPacks.NumKeysTop | MV02_rejectPackAnalysis.py:74-75 | seven ascending weekday keys are exactly Monday .. Sunday in order |
| RejectPacks.WeekdayTableSpec | MV02_rejectPackAnalysis.py:73-83 | the weekday table exists exactly when all seven weekdays occur; then row `d` is named after weekday `d`, sums exactly that weekday's packs and carries their reject rate |
| RejectPacks.WeeklyTableRow | MV02_rejectPackAnalysis.py:89-98 | each weekly row is labelled by its Monday, sums exactly that week's packs, and carries its rate; consecutive rows are a week apart |
| RejectPacks.WeeklyTableConserves | MV02_rejectPackAnalysis.py:89 | the weekly sums add up to all packs |
| RejectPacks.RecipeTableSpec | MV02_rejectPackAnalysis.py:111-114 | the recipe table is sorted by recipe and its sums add up to the packs of the rows that have a recipe |
| RejectPacks.RecipeTableRow | MV02_rejectPackAnalysis.py:111-114 | each recipe row sums the packs of exactly the joined rows with that recipe and carries their reject rate |
| RejectPacks.KeySumOneIsCount | MV02_rejectPackAnalysis.py:132 | the `count` of a code is the number of messages with that code |
| RejectPacks.ErrorTableRow | MV02_rejectPackAnalysis.py:131-134 | the error table is sorted by code; each row counts the messages with its code (at least one) and sums their durations |
| RejectPacks.CountCodePositive | MV02_rejectPackAnalysis.py:131-132 | a code that occurs is counted at least once |
| RejectPacks.ErrorCountsAddUp | MV02_rejectPackAnalysis.py:131-133 | when every message has a code, the counts add up to the number of messages |
| RejectPacks.RejectPackAnalysis | MV02_rejectPackAnalysis.py:44-134 | the hourly table is always built from the loaded package log; the run stops with the relabel's length mismatch exactly when some weekday has no rows; otherwise the weekday, weekly, recipe and error tables follow from the loaded logs, and the as-of join cannot fail on them |
| Throughput.FiveMinuteCountsRow | MV01_throughputAnalysis.py:51 | each column's 5-minute count is the number of rows in that 5-minute bin |
| Throughput.FiveMinuteCountsGrid | MV01_throughputAnalysis.py:51 | the count bins lie on the 5-minute grid from midnight of the first row's day, without gaps |
| Throughput.FiveMinuteCountsCover | MV01_throughputAnalysis.py:51 | the first bin holds the earliest row, the last bin holds the latest row, and the counts add up to the number of rows |
| Throughput.WeeklyMeansRow | MV01_throughputAnalysis.py:58 | each weekly mean is the mean over exactly the rows of its Monday-to-Sunday week, and missing for a week without rows; the weeks have no gaps |
| Throughput.FindWeek | MV01_throughputAnalysis.py:68 | the lookup fails exactly when no package week has the label, and otherwise returns one that has it |
| Throughput.LeftJoinSpec | MV01_throughputAnalysis.py:68 | the join keeps every OEE week in order and attaches the sums of the package week with the same label, or leaves them missing |
| Throughput.JoinedPackSums | MV01_throughputAnalysis.py:64-68 | the pack sums attached to a week are the packs of the seven days from its Monday |
| Throughput.ReportRowSpec | MV01_throughputAnalysis.py:74-78 | each report row has planned rate 10 and a Monday as its label; it carries the mean rates of that week and, when present, that week's pack sums |
| Throughput.ThroughputAnalysis | MV01_throughputAnalysis.py:41-78 | the 5-minute counts and the report are computed from the loaded logs |
| Forecast.ShiftSumsGrid | MV03_productionForecast.py:26 | the 8-hour bins lie on the grid from midnight of the first row's day, without gaps |
| Forecast.ShiftSumsHour | MV03_productionForecast.py:26 | every shift starts at 00:00, 08:00 or 16:00 |
| Forecast.ShiftSumsRow | MV03_productionForecast.py:26 | each shift sums exactly the packs of its 8 hours, and is zero for an empty shift |
| Forecast.ShiftSumsConserve | MV03_productionForecast.py:26 | the shift sums add up to all packs |
| Forecast.ShiftSumsAscending | MV03_productionForecast.py:26 | the shifts come out in time order |
| Forecast.WeekdayShiftsSpec | MV03_productionForecast.py:27 | the filter keeps exactly the shifts that start Monday to Friday, in order |
| Forecast.DropReject | MV03_productionForecast.py:28 | dropping the reject column keeps every shift with its start and good packs |
| Forecast.ForecastPointsSpan | MV03_productionForecast.py:47 | the 120 forecast steps run from the first forecast instant in 8-hour steps, in order |
| Forecast.FiveDayBinsMean | MV03_productionForecast.py:58 | each 5-day bin holds the mean of the forecast points inside it |
| Forecast.FiveDayMeansCount | MV03_productionForecast.py:47-58 | as written, 120 shifts make 8 bins when the forecast starts before 08:00, and 9 bins otherwise |
| Forecast.FiveDayMeansFromStartCount | MV03_productionForecast.py:47-58 | anchored at the first forecast instant, 120 shifts always make 8 bins |
| Forecast.FiveDayMeansFromStartRow | MV03_productionForecast.py:58 | anchored there, bin `j` starts `j` times 5 days later and holds the mean of forecast values 15j .. 15j+14 |
| Forecast.MondayCalendarSpec | MV03_productionForecast.py:57 | the calendar starts on 2022-08-01 and holds eight consecutive Mondays at midnight |
| Forecast.RelabelWeeks | MV03_productionForecast.py:59 | assigning the index succeeds exactly when the lengths match, and keeps the means |
| Forecast.ForecastTableAsWrittenFails | MV03_productionForecast.py:57-59 | as written, the relabel of a 120-shift forecast fails exactly when the forecast starts at 08:00 or later in its day |
| Forecast.FiveDayMeansRow | MV03_productionForecast.py:58 | as written, a forecast starting before 08:00 has 8 bins from its midnight, and bin `j` holds the mean of forecast values 15j .. 15j+14 |
| Forecast.ForecastTableAsWrittenRow | MV03_productionForecast.py:57-59 | as written, for a forecast starting before 08:00, week `j` is the `j`-th Monday from 2022-08-01 with the mean of forecast values 15j .. 15j+14 |
| Forecast.ForecastTableAsWrittenAgrees | MV03_productionForecast.py:57-59 | whenever the table as written exists, it equals the corrected table |
| Forecast.ForecastTableSpec | MV03_productionForecast.py:57-59 | with the corrected bins the table always exists; week `j` is the `j`-th Monday from 2022-08-01 and carries the mean of forecast values 15j .. 15j+14 |
| Forecast.ForecastProduction | MV03_productionForecast.py:25-59 | the shift series is built from the loaded log; the table as written fails exactly for a forecast starting at 08:00 or later; the corrected table always exists and equals the written one whenever that exists |

## Left out

- Reading and writing CSV files is not modelled: separators, decimal marks, float formats and file names are I/O.
- Parsing timestamps (`pd.to_datetime`), `tz_localize(None)` and `strftime('%d.%m.%Y')` are not modelled. Instants are already integers, and an index label is the instant of its day.
- The recipe and error loaders sort the raw timestamp strings before they parse them (`MV02_rejectPackAnalysis.py:24`, `:37`). The model sorts by instant. The two orders agree for fixed-width ISO timestamps.
- The German column and index names (`rename`, `index.names`) are labels only and are not modelled.
- Plots (`plt`) and `del` statements are not modelled.
- The darts `TimeSeries` and the Prophet fit and predict (`MV03_productionForecast.py:32-54`) are left out. They are a foreign model with floating-point numerics. The forecast enters as its first instant and its values. How darts handles the weekend gaps of the series is not modelled.
- Floating-point division is not modelled. `inf` and `NaN` from a division by zero become `None`, and means and rates are exact reals.
- pandas' default sort is not stable. The model uses a stable sort, so the order of rows with equal instants is a modelling choice.
- The `hour` and `weekday` helper columns (`MV02_rejectPackAnalysis.py:59`, `:73`) are not stored. They are computed as the group key.
- `reset_index`, the `timestamp_y` drop (`MV02_rejectPackAnalysis.py:111`) and the index-versus-column distinction change no values and are not modelled.
- Group keys of mixed kinds (numbers and text in one column) are ordered numbers first, then text. No script produces such a column.
- Forecast.ForecastProduction: takes the forecast length of 120 as a precondition, because the forecasting model guarantees it. The forecast's first instant `t0` is a parameter and is not tied to the last shift of the series, because the forecaster that would fix it is not modelled.

## Findings

| source | as written | input that shows it | evidently intended | confidence | as-written member | corrected member |
|---|---|---|---|---|---|---|
| MV03_productionForecast.py:58 | `resample("5D")` anchors the 5-day bins at midnight of the first forecast day, so 120 eight-hour points span 9 bins when the forecast starts at 08:00 or 16:00, and assigning the 8-Monday index raises a length mismatch | a forecast whose first instant is 08:00, as when the fitted series ends with a 00:00 shift | 8 bins of 15 forecast shifts each, one per calendar Monday | not executed | Forecast.ForecastTableAsWrittenFails | Forecast.ForecastTableSpec |
