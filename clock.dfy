/** Time as the backend uses it: instants in whole seconds, calendar days as day
    indices, times of day as seconds since midnight. */
module Clock {
  import opened Strings

  /** An instant, in seconds since 1970-01-01T00:00:00 UTC. */
  type Timestamp = int

  /** A calendar date as the number of days since 1970-01-01. */
  type Day = int

  const SecondsPerDay: int := 86400

  /** A `datetime.time`, in seconds since midnight. */
  type TimeOfDay = t: int | 0 <= t < SecondsPerDay

  /** `dt.date()`. */
  function DateOf(ts: Timestamp): Day {
    ts / SecondsPerDay
  }

  /** `datetime.combine(d, t)`. */
  function Combine(d: Day, t: TimeOfDay): Timestamp {
    d * SecondsPerDay + t
  }

  /** `date.weekday()`: Monday is 0; 1970-01-01 was a Thursday. */
  function Weekday(d: Day): (w: int)
    ensures 0 <= w < 7
  {
    (d + 3) % 7
  }

  function HourOf(ts: Timestamp): (h: int)
    ensures 0 <= h < 24
  {
    (ts % SecondsPerDay) / 3600
  }

  function MinuteOf(ts: Timestamp): (m: int)
    ensures 0 <= m < 60
  {
    (ts % 3600) / 60
  }

  function Minutes(m: int): int {
    m * 60
  }

  /** `datetime.combine(d, time.min) <= ts <= datetime.combine(d, time.max)`. */
  predicate WithinDay(ts: Timestamp, d: Day) {
    Combine(d, 0) <= ts <= Combine(d, SecondsPerDay - 1)
  }

  /** The day-range test is the same as comparing dates. */
  lemma WithinDayIsDateOf(ts: Timestamp, d: Day)
    ensures WithinDay(ts, d) <==> DateOf(ts) == d
  {
  }

  /** The time of day of a combined instant is the time it was combined with. */
  lemma CombineTimeOfDay(d: Day, t: TimeOfDay)
    ensures Combine(d, t) % SecondsPerDay == t
  {
  }

  lemma CombineOnDay(d: Day, t: TimeOfDay)
    ensures DateOf(Combine(d, t)) == d
  {
    WithinDayIsDateOf(Combine(d, t), d);
  }

  /** The proleptic Gregorian (year, month, day) of a day index, by the usual
      era/day-of-era decomposition (400-year cycles of 146097 days). */
  function CivilDate(d: Day): (int, int, int) {
    var z := d + 719468;
    var era := z / 146097;
    var doe := z % 146097;
    var yoe := (doe - doe / 1460 + doe / 36524 - doe / 146096) / 365;
    var doy := doe - (365 * yoe + yoe / 4 - yoe / 100);
    var mp := (5 * doy + 2) / 153;
    var day := doy - (153 * mp + 2) / 5 + 1;
    var month := if mp < 10 then mp + 3 else mp - 9;
    (yoe + era * 400 + (if month <= 2 then 1 else 0), month, day)
  }

  function Padded(n: int, width: nat): string {
    if n < 0 then "-" + PadNat(-n, width) else PadNat(n, width)
  }

  /** `dt.isoformat()` of a whole-second instant: `YYYY-MM-DDTHH:MM:SS`. */
  function IsoFormat(ts: Timestamp): string {
    var (y, m, d) := CivilDate(DateOf(ts));
    Padded(y, 4) + "-" + Padded(m, 2) + "-" + Padded(d, 2) + "T"
    + TwoDigits(HourOf(ts)) + ":" + TwoDigits(MinuteOf(ts)) + ":" + TwoDigits(ts % 60)
  }

  /** `dt.strftime('%H:%M')`. */
  function HourMinute(ts: Timestamp): (s: string)
    ensures |s| == 5 && s[2] == ':'
  {
    TwoDigits(HourOf(ts)) + ":" + TwoDigits(MinuteOf(ts))
  }
}
