/**
 * Instants are whole seconds since an epoch that falls on a Monday at 00:00
 * (1970-01-05, timezone-naive). With that epoch the calendar fields pandas reads
 * from a timestamp are plain integer arithmetic: Dafny's `/` and `%` on `int`
 * with a positive divisor round toward negative infinity, as pandas does.
 */
module Calendar {

  const MINUTE: int := 60
  const HOUR: int := 3600
  const DAY: int := 86400
  const WEEK: int := 604800

  /** `Timestamp.hour`. */
  function HourOfDay(t: int): (h: int)
    ensures 0 <= h < 24
    ensures DayStart(t) + h * HOUR <= t < DayStart(t) + (h + 1) * HOUR
  {
    (t / HOUR) % 24
  }

  /** `Timestamp.weekday` / `dayofweek`: Monday is 0, Sunday is 6. */
  function DayOfWeek(t: int): (d: int)
    ensures 0 <= d < 7
    ensures (t / WEEK) * WEEK + d * DAY <= t < (t / WEEK) * WEEK + (d + 1) * DAY
  {
    (t / DAY) % 7
  }

  /** Midnight of the day holding `t` (`Timestamp.normalize`). */
  function DayStart(t: int): (s: int)
    ensures s <= t < s + DAY
    ensures s % DAY == 0
  {
    (t / DAY) * DAY
  }

  /** A day later is the next weekday, Sunday (6) being followed by Monday (0). */
  lemma NextDayNextWeekday(t: int)
    ensures DayOfWeek(t + DAY) == (DayOfWeek(t) + 1) % 7
  {
    assert (t + DAY) / DAY == t / DAY + 1;
  }

  /** Every instant of one day has the weekday of that day's midnight. */
  lemma SameDaySameWeekday(s: int, t: int)
    requires s % DAY == 0 && s <= t < s + DAY
    ensures DayOfWeek(t) == DayOfWeek(s)
  {
    assert t / DAY == s / DAY;
  }
}
