/** Points in time as the scheduling core uses them: one fixed time zone
    (UTC, the configured default), whole minutes, and the calendar fields
    and `strftime` renderings the services read from a `datetime`. */
module Clock {
  import opened Text

  /** Whole minutes since 1970-01-01 00:00 in the fixed zone. */
  type Timestamp = int

  const MinutesPerHour: int := 60
  const MinutesPerDay: int := 1440
  const MinutesPerWeek: int := 10080

  /** Midnight of the day holding `t` (`t.date()` as a point in time). */
  function DayStart(t: Timestamp): Timestamp {
    t - t % MinutesPerDay
  }

  /** `t.hour`, from 0 to 23. */
  function Hour(t: Timestamp): int {
    (t % MinutesPerDay) / MinutesPerHour
  }

  /** `t.minute`, from 0 to 59. */
  function Minute(t: Timestamp): int {
    t % MinutesPerHour
  }

  /** `t.weekday()`: Monday is 0 and Sunday 6; 1970-01-01 was a Thursday. */
  function Weekday(t: Timestamp): int {
    (t / MinutesPerDay + 3) % 7
  }

  /** `datetime.combine(t.date(), time(hour, minute))`. */
  function At(t: Timestamp, hour: int, minute: int): Timestamp {
    DayStart(t) + hour * MinutesPerHour + minute
  }

  /** Division by the day length is determined by quotient and remainder. */
  lemma DayDivision(a: int, q: int, r: int)
    requires a == MinutesPerDay * q + r && 0 <= r < MinutesPerDay
    ensures a / MinutesPerDay == q && a % MinutesPerDay == r
  {
  }

  /** Division by the hour length is determined by quotient and remainder. */
  lemma HourDivision(a: int, q: int, r: int)
    requires a == MinutesPerHour * q + r && 0 <= r < MinutesPerHour
    ensures a / MinutesPerHour == q && a % MinutesPerHour == r
  {
  }

  /** A clock time put on a day keeps that day and reads back as the same
      hour and minute. */
  lemma AtFields(t: Timestamp, h: int, m: int)
    requires 0 <= h < 24 && 0 <= m < 60
    ensures DayStart(At(t, h, m)) == DayStart(t)
    ensures Hour(At(t, h, m)) == h && Minute(At(t, h, m)) == m
    ensures Weekday(At(t, h, m)) == Weekday(t)
  {
    var q := t / MinutesPerDay;
    var x := h * MinutesPerHour + m;
    DayDivision(At(t, h, m), q, x);
    HourDivision(x, h, m);
    HourDivision(At(t, h, m), 24 * q + h, m);
  }

  /** Moving by whole days keeps the clock time and turns the weekday. */
  lemma ShiftDays(t: Timestamp, k: int)
    ensures DayStart(t + k * MinutesPerDay) == DayStart(t) + k * MinutesPerDay
    ensures Hour(t + k * MinutesPerDay) == Hour(t)
    ensures Minute(t + k * MinutesPerDay) == Minute(t)
    ensures Weekday(t + k * MinutesPerDay) == (Weekday(t) + k) % 7
  {
    var q := t / MinutesPerDay;
    var r := t % MinutesPerDay;
    var u := t + k * MinutesPerDay;
    DayDivision(u, q + k, r);
    var h := r / MinutesPerHour;
    var m := r % MinutesPerHour;
    HourDivision(t, 24 * q + h, m);
    HourDivision(u, 24 * (q + k) + h, m);
  }

  /** `%I`: the hour on a 12-hour clock, from 1 to 12. */
  function Hour12(t: Timestamp): int {
    var h := Hour(t) % 12;
    if h == 0 then 12 else h
  }

  /** `%p`. */
  function Period(t: Timestamp): string {
    if Hour(t) < 12 then "AM" else "PM"
  }

  /** `t.strftime('%I:%M %p')`, e.g. "02:30 PM". */
  function ClockText(t: Timestamp): string {
    Pad2(Hour12(t)) + ":" + Pad2(Minute(t)) + " " + Period(t)
  }

  /** Month (1 to 12) and day of the month of the day holding `t`, by the
      proleptic Gregorian calendar. */
  function MonthDay(t: Timestamp): (int, int) {
    var z := t / MinutesPerDay + 719468;
    var era := z / 146097;
    var doe := z - era * 146097;
    var yoe := (doe - doe / 1460 + doe / 36524 - doe / 146096) / 365;
    var doy := doe - (365 * yoe + yoe / 4 - yoe / 100);
    var mp := (5 * doy + 2) / 153;
    var day := doy - (153 * mp + 2) / 5 + 1;
    (if mp < 10 then mp + 3 else mp - 9, day)
  }

  /** `%A`. */
  function WeekdayName(w: int): string {
    if w == 0 then "Monday" else if w == 1 then "Tuesday"
    else if w == 2 then "Wednesday" else if w == 3 then "Thursday"
    else if w == 4 then "Friday" else if w == 5 then "Saturday" else "Sunday"
  }

  /** `%B`. */
  function MonthName(m: int): string {
    if m == 1 then "January" else if m == 2 then "February"
    else if m == 3 then "March" else if m == 4 then "April"
    else if m == 5 then "May" else if m == 6 then "June"
    else if m == 7 then "July" else if m == 8 then "August"
    else if m == 9 then "September" else if m == 10 then "October"
    else if m == 11 then "November" else "December"
  }

  /** `t.strftime('%A, %B %d at %I:%M %p')`, e.g. "Tuesday, June 04 at 02:30 PM". */
  function LongText(t: Timestamp): string {
    var (month, day) := MonthDay(t);
    WeekdayName(Weekday(t)) + ", " + MonthName(month) + " " + Pad2(day) + " at " + ClockText(t)
  }

  lemma WeekdayNameOneLine(w: int)
    ensures '\n' !in WeekdayName(w)
  {
  }

  lemma MonthNameOneLine(month: int)
    ensures '\n' !in MonthName(month)
  {
  }

  /** The clock rendering is digits, a colon, a space and the period. */
  lemma ClockTextOneLine(t: Timestamp)
    ensures '\n' !in ClockText(t)
  {
    var h := Pad2(Hour12(t));
    var m := Pad2(Minute(t));
    assert '\n' !in h && '\n' !in m;
    assert '\n' !in Period(t);
  }

  /** None of the pieces of the long rendering holds a line break. */
  lemma LongPiecesOneLine(w: int, month: int, day: int, t: Timestamp)
    ensures '\n' !in WeekdayName(w) + ", " + MonthName(month) + " " + Pad2(day) + " at " + ClockText(t)
  {
    WeekdayNameOneLine(w);
    MonthNameOneLine(month);
    ClockTextOneLine(t);
    var d := Pad2(day);
    assert '\n' !in d;
  }

  /** The long rendering stays on one line. */
  lemma LongTextOneLine(t: Timestamp)
    ensures '\n' !in LongText(t)
  {
    LongPiecesOneLine(Weekday(t), MonthDay(t).0, MonthDay(t).1, t);
  }
}
