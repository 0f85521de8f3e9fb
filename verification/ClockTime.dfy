/** Clock faces and instants: how a time in hours after midnight of its source day
    is shown, and which moment it names. */
module ClockTime {
  import opened Basics
  import opened Calendar
  import opened Schedule
  import opened TriggerCache

  /** C's conversion of a real to an integer: towards zero. */
  function Truncate(x: real): int {
    if x >= 0.0 then x.Floor else -((0.0 - x).Floor)
  }

  /** `lround`: to the nearest integer, halves away from zero. */
  function RoundHalfAway(x: real): (n: int)
    ensures -0.5 <= n as real - x <= 0.5
  {
    if x >= 0.0 then (x + 0.5).Floor else -((0.5 - x).Floor)
  }

  lemma RoundOfInt(n: int)
    ensures RoundHalfAway(n as real) == n
  {
    var r := RoundHalfAway(n as real);
    assert -0.5 <= (r - n) as real <= 0.5;
  }

  /** `normalize_clock_hours`; `fmod` keeps the sign of its argument. */
  function Normalize(t: real): real {
    var f := t - 24.0 * Truncate(t / 24.0) as real;
    if f < 0.0 then f + 24.0 else f
  }

  datatype Clock = Clock(hour: int, minute: int)

  /** `format_time_hm`, as the two fields it prints. */
  function ClockOf(t: real): (c: Clock) {
    var n := Normalize(t);
    var hours := Truncate(n);
    var minutes := Ceil((n - hours as real) * 60.0);
    if minutes >= 60 then Clock((hours + 1) % 24, minutes - 60) else Clock(hours % 24, minutes)
  }

  lemma NormalizeIsADayApart(t: real) returns (q: int)
    ensures 0.0 <= Normalize(t) < 24.0 && t == Normalize(t) + (24 * q) as real
  {
    var w := Truncate(t / 24.0);
    var f := t - 24.0 * w as real;
    assert t == 24.0 * (t / 24.0);
    assert -24.0 < f < 24.0 && (t >= 0.0 ==> f >= 0.0);
    q := if f < 0.0 then w - 1 else w;
  }

  lemma FieldsOfMinutes(c: int, h: int, m: int)
    requires 0 <= h < 24 && 0 <= m <= 60 && c == 60 * h + m
    ensures var k := if m >= 60 then Clock((h + 1) % 24, m - 60) else Clock(h % 24, m);
            0 <= k.hour < 24 && 0 <= k.minute < 60 && 60 * k.hour + k.minute == c % MINUTES_PER_DAY
  {
    if m >= 60 && h == 23 {
      assert c == MINUTES_PER_DAY;
    }
  }

  /** The clock face is the minute the time rounds up to, within its own day. */
  lemma ClockIsTheRoundedMinute(t: real)
    ensures var c := ClockOf(t);
            0 <= c.hour < 24 && 0 <= c.minute < 60 && 60 * c.hour + c.minute == Ceil(t * 60.0) % MINUTES_PER_DAY
  {
    hide Normalize, Ceil;
    var q := NormalizeIsADayApart(t);
    var n := Normalize(t);
    var h := Truncate(n);
    var x := (n - h as real) * 60.0;
    assert 0.0 <= x < 60.0;
    assert n * 60.0 == x + (60 * h) as real;
    CeilPlus(x, 60 * h);
    assert t * 60.0 == n * 60.0 + (MINUTES_PER_DAY * q) as real;
    CeilPlus(n * 60.0, MINUTES_PER_DAY * q);
    FieldsOfMinutes(Ceil(n * 60.0), h, Ceil(x));
    WholeDays(Ceil(n * 60.0), q);
  }

  lemma WholeDays(c: int, q: int)
    ensures (c + MINUTES_PER_DAY * q) % MINUTES_PER_DAY == c % MINUTES_PER_DAY
  {
    var d := c / MINUTES_PER_DAY;
    assert c + MINUTES_PER_DAY * q == MINUTES_PER_DAY * (d + q) + c % MINUTES_PER_DAY;
  }

  /** What the library hands out for one prayer. */
  datatype PublicTime = PublicTime(date: Civil, clock: Clock, dayOffset: int, instant: int)

  /** Seconds since 1970 UTC of a minute of a day, on a clock `offset` hours ahead. */
  function InstantAt(serial: int, minute: int, offset: real): int {
    serial * 86400 + minute * 60 - RoundHalfAway(offset * 3600.0)
  }

  /** `time_from_hours`; None stands for a time that is not finite. */
  function TimeFromHours(hours: Option<real>, serial: int, offset: real): (r: Option<PublicTime>)
    ensures r.Some? <==> hours.Some?
  {
    match hours
    case None => None
    case Some(h) =>
      var clock := ClockOf(h);
      var total := Ceil(h * 60.0);
      var shift := if total < 0 then -1 else if total >= MINUTES_PER_DAY then 1 else 0;
      Some(PublicTime(CivilFromDays(serial + shift), clock, shift,
                      (serial + shift) * 86400 + clock.hour * 3600 + clock.minute * 60
                      - RoundHalfAway(offset * 3600.0)))
  }

  /** The date, the clock and the day offset belong together, whatever the hours:
      the date is the source day moved by the offset, and the instant is that of
      the clock on that date. They name the minute the time rounds up to exactly
      when that minute lies within a day of its source day. */
  lemma TimeRejoins(hours: real, serial: int, offset: real)
    ensures var t := TimeFromHours(Some(hours), serial, offset).value;
            var minute := 60 * t.clock.hour + t.clock.minute;
            var rounded := Ceil(hours * 60.0);
            && DaysFromCivil(t.date) == serial + t.dayOffset && minute == rounded % MINUTES_PER_DAY
            && t.instant == InstantAt(DaysFromCivil(t.date), minute, offset)
            && (t.dayOffset * MINUTES_PER_DAY + minute == rounded <==> -MINUTES_PER_DAY <= rounded < 2 * MINUTES_PER_DAY)
            && (t.instant == InstantAt(serial, rounded, offset) <==> -MINUTES_PER_DAY <= rounded < 2 * MINUTES_PER_DAY)
  {
    hide DaysFromCivil, CivilFromDays, ClockOf, Ceil, RoundHalfAway;
    ClockIsTheRoundedMinute(hours);
    var t := TimeFromHours(Some(hours), serial, offset).value;
    DaysOfCivilOfDays(serial + t.dayOffset);
  }
}
