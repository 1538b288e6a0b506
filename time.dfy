/**
 * Local calendar time as an integer count of minutes.
 *
 * The schedule works with JavaScript `Date` values read in local time and
 * with a handful of date-fns helpers (`addMinutes`, `addDays`, `isSameDay`,
 * `startOfWeek`) and `Date` setters (`setHours`, `setMinutes`, `setDate`).
 * Here an instant is the number of minutes since local midnight at the start
 * of 1970-01-01, and a calendar day is the number of whole days since then.
 * Every day has exactly 1440 minutes (no daylight-saving transitions).
 */
module Time {

  const MinutesPerHour: int := 60
  const MinutesPerDay: int := 1440
  const DaysPerWeek: int := 7

  /** The calendar day (local year, month and date) an instant falls on. */
  function DayOf(t: int): int {
    t / MinutesPerDay
  }

  /** Minutes since local midnight. */
  function TimeOfDay(t: int): (r: int)
    ensures 0 <= r < MinutesPerDay
  {
    t % MinutesPerDay
  }

  /** `getHours()` */
  function HourOf(t: int): (r: int)
    ensures 0 <= r < 24
  {
    TimeOfDay(t) / MinutesPerHour
  }

  /** `getMinutes()` */
  function MinuteOf(t: int): (r: int)
    ensures 0 <= r < MinutesPerHour
  {
    t % MinutesPerHour
  }

  /** The instant `minute` minutes after the midnight that starts day `day`. */
  function At(day: int, minute: int): int {
    day * MinutesPerDay + minute
  }

  lemma AtSplits(day: int, minute: int)
    requires 0 <= minute < MinutesPerDay
    ensures DayOf(At(day, minute)) == day
    ensures TimeOfDay(At(day, minute)) == minute
  {
    var t := At(day, minute);
    assert t == day * MinutesPerDay + minute;
  }

  /** The clock time of an instant is its hour and its minute. */
  lemma ClockSplit(t: int)
    ensures TimeOfDay(t) == HourOf(t) * MinutesPerHour + MinuteOf(t)
  {
    var q, r := t / MinutesPerDay, t % MinutesPerDay;
    var h, m := r / MinutesPerHour, r % MinutesPerHour;
    assert t == (q * 24 + h) * MinutesPerHour + m;
  }

  /** Local midnight at the start of the day `t` falls on. */
  function Midnight(t: int): int {
    t - TimeOfDay(t)
  }

  /** `isSameDay(a, b)`: same local year, month and date, i.e. the same midnight starts both days. */
  predicate IsSameDay(a: int, b: int): (same: bool)
    ensures same <==> Midnight(a) == Midnight(b)
  {
    assert Midnight(a) == At(DayOf(a), 0) && Midnight(b) == At(DayOf(b), 0);
    DayOf(a) == DayOf(b)
  }

  /**
   * `addMinutes(t, n)`: the clock time advances by `n` modulo a day, the day
   * by the number of midnights crossed, and the result stays on the day of
   * `t` exactly when it does not cross a midnight.
   */
  function AddMinutes(t: int, n: int): (r: int)
    ensures TimeOfDay(r) == (TimeOfDay(t) + n) % MinutesPerDay
    ensures DayOf(r) == DayOf(t) + (TimeOfDay(t) + n) / MinutesPerDay
    ensures DayOf(r) == DayOf(t) <==> 0 <= TimeOfDay(t) + n < MinutesPerDay
  {
    var d, c := DayOf(t), TimeOfDay(t) + n;
    assert t + n == (d + c / MinutesPerDay) * MinutesPerDay + c % MinutesPerDay;
    AtSplits(d + c / MinutesPerDay, c % MinutesPerDay);
    t + n
  }

  /** `addDays(t, n)`: the same clock time `n` calendar days later. */
  function AddDays(t: int, n: int): (r: int)
    ensures DayOf(r) == DayOf(t) + n
    ensures TimeOfDay(r) == TimeOfDay(t)
  {
    AtSplits(DayOf(t) + n, TimeOfDay(t));
    t + n * MinutesPerDay
  }

  /**
   * `d.setHours(h, m, 0, 0)` on a copy of `t`: the same calendar day at
   * clock time h:m. Out-of-range values roll over as `Date` does.
   */
  function SetHours(t: int, h: int, m: int): (r: int)
    ensures 0 <= h * MinutesPerHour + m < MinutesPerDay ==>
              DayOf(r) == DayOf(t) && HourOf(r) == (h * MinutesPerHour + m) / MinutesPerHour &&
              TimeOfDay(r) == h * MinutesPerHour + m
  {
    if 0 <= h * MinutesPerHour + m < MinutesPerDay then
      AtSplits(DayOf(t), h * MinutesPerHour + m);
      At(DayOf(t), h * MinutesPerHour + m)
    else
      At(DayOf(t), h * MinutesPerHour + m)
  }

  /**
   * `d.setMinutes(m)`: for a minute value 0..59 the day and the hour stay and
   * the minute becomes `m`; any other value rolls over from the start of the
   * hour, so the instant moves by exactly `m` minus the current minute.
   */
  function SetMinutes(t: int, m: int): (r: int)
    ensures 0 <= m < MinutesPerHour ==> DayOf(r) == DayOf(t) && HourOf(r) == HourOf(t) && MinuteOf(r) == m
    ensures r - t == m - MinuteOf(t)
  {
    var h := t / MinutesPerHour;
    HourSplit(h, MinuteOf(t));
    if 0 <= m < MinutesPerHour then
      HourSplit(h, m);
      h * MinutesPerHour + m
    else
      h * MinutesPerHour + m
  }

  /** Minute `j` of the `h`-th hour since day 0: its day, hour and minute. */
  lemma HourSplit(h: int, j: int)
    requires 0 <= j < MinutesPerHour
    ensures DayOf(h * MinutesPerHour + j) == h / 24
    ensures HourOf(h * MinutesPerHour + j) == h % 24
    ensures MinuteOf(h * MinutesPerHour + j) == j
  {
    var d, hh := h / 24, h % 24;
    assert h * MinutesPerHour + j == At(d, hh * MinutesPerHour + j);
    AtSplits(d, hh * MinutesPerHour + j);
  }

  /** Day-of-week of a day number, counted from Monday = 0 (1970-01-01 was a Thursday). */
  function DaysSinceMonday(day: int): (r: int)
    ensures 0 <= r < DaysPerWeek
  {
    (day + 3) % DaysPerWeek
  }

  /** `startOfWeek(t, { weekStartsOn: 1 })`: midnight of the Monday on or before `t`. */
  function StartOfWeek(t: int): (r: int)
    ensures DaysSinceMonday(DayOf(r)) == 0
    ensures TimeOfDay(r) == 0
    ensures r <= t < AddDays(r, DaysPerWeek)
    ensures DayOf(t) - DayOf(r) == DaysSinceMonday(DayOf(t))
  {
    var day := DayOf(t) - DaysSinceMonday(DayOf(t));
    AtSplits(day, 0);
    MondayAlignment(DayOf(t));
    At(day, 0)
  }

  lemma MondayAlignment(day: int)
    ensures DaysSinceMonday(day - DaysSinceMonday(day)) == 0
  {
    var w := DaysSinceMonday(day);
    var q := (day + 3) / DaysPerWeek;
    assert day + 3 == q * DaysPerWeek + w;
    assert day - w + 3 == q * DaysPerWeek;
  }
}
