/** Date-times in the exact format `YYYY-MM-DD HH:mm`, as moment.js checks
    them in strict mode, and the minute they denote. A minute is counted from
    0000-01-01 00:00 of the proleptic Gregorian calendar in the server's time
    zone; the clock and every stored date are compared in these units. */
module DateTime {
  import opened Js

  predicate IsLeapYear(y: int) {
    y % 4 == 0 && (y % 100 != 0 || y % 400 == 0)
  }

  function DaysInMonth(y: int, m: int): int
    requires 1 <= m <= 12
  {
    if m == 2 then (if IsLeapYear(y) then 29 else 28)
    else if m == 4 || m == 6 || m == 9 || m == 11 then 30
    else 31
  }

  /** Four ASCII digits, '-', two digits, '-', two digits, ' ', two digits,
      ':', two digits, and nothing else: strict mode consumes the whole
      input and each token takes exactly its width. */
  predicate HasShape(s: string) {
    && |s| == 16
    && IsDigit(s[0]) && IsDigit(s[1]) && IsDigit(s[2]) && IsDigit(s[3])
    && s[4] == '-'
    && IsDigit(s[5]) && IsDigit(s[6])
    && s[7] == '-'
    && IsDigit(s[8]) && IsDigit(s[9])
    && s[10] == ' '
    && IsDigit(s[11]) && IsDigit(s[12])
    && s[13] == ':'
    && IsDigit(s[14]) && IsDigit(s[15])
  }

  function Year(s: string): nat requires HasShape(s) {
    1000 * Digit(s[0]) + 100 * Digit(s[1]) + 10 * Digit(s[2]) + Digit(s[3])
  }

  function Month(s: string): nat requires HasShape(s) {
    10 * Digit(s[5]) + Digit(s[6])
  }

  function Day(s: string): nat requires HasShape(s) {
    10 * Digit(s[8]) + Digit(s[9])
  }

  function Hour(s: string): nat requires HasShape(s) {
    10 * Digit(s[11]) + Digit(s[12])
  }

  function Minute(s: string): nat requires HasShape(s) {
    10 * Digit(s[14]) + Digit(s[15])
  }

  /** `moment(s, "YYYY-MM-DD HH:mm", true).isValid()`: the shape, a month
      1-12, a day that exists in that month, minutes 0-59 and hours 0-23,
      or 24 when the minutes are 0 (moment reads "24:00" as the next
      midnight). */
  predicate IsStrict(s: string) {
    && HasShape(s)
    && 1 <= Month(s) <= 12
    && 1 <= Day(s) <= DaysInMonth(Year(s), Month(s))
    && Minute(s) <= 59
    && (Hour(s) <= 23 || (Hour(s) == 24 && Minute(s) == 0))
  }

  /** The same check applied to a request field. moment turns a non-string
      into its text first, and no number or boolean reads as a date in this
      format, so only strings can pass. */
  predicate IsStrictValue(v: JsValue) {
    v.Str? && IsStrict(v.s)
  }

  /** Days from 0000-01-01 to January 1st of year `y`. */
  function DaysBeforeYear(y: nat): int {
    365 * y + (y + 3) / 4 - (y + 99) / 100 + (y + 399) / 400
  }

  function DaysBeforeMonth(y: int, m: int): int
    requires 1 <= m <= 12
  {
    [0, 31, 59, 90, 120, 151, 181, 212, 243, 273, 304, 334][m - 1]
    + (if m > 2 && IsLeapYear(y) then 1 else 0)
  }

  /** The minute a strict date-time denotes. */
  function Minutes(s: string): int
    requires IsStrict(s)
  {
    DayNumber(s) * 1440 + Hour(s) * 60 + Minute(s)
  }

  function DaysInYear(y: int): int {
    if IsLeapYear(y) then 366 else 365
  }

  /** Consecutive years are as far apart as the earlier one is long. */
  lemma YearStep(y: nat)
    ensures DaysBeforeYear(y + 1) == DaysBeforeYear(y) + DaysInYear(y)
  {
    assert (y + 4) / 4 - (y + 3) / 4 == if y % 4 == 0 then 1 else 0;
    assert (y + 100) / 100 - (y + 99) / 100 == if y % 100 == 0 then 1 else 0;
    assert (y + 400) / 400 - (y + 399) / 400 == if y % 400 == 0 then 1 else 0;
  }

  /** Consecutive months are as far apart as the earlier one is long, and
      December ends the year. */
  lemma MonthStep(y: int, m: int)
    requires 1 <= m <= 12
    ensures m < 12 ==> DaysBeforeMonth(y, m + 1) == DaysBeforeMonth(y, m) + DaysInMonth(y, m)
    ensures m == 12 ==> DaysBeforeMonth(y, m) + DaysInMonth(y, m) == DaysInYear(y)
  {
  }

  /** The day a strict date-time falls on, counted from 0000-01-01. */
  function DayNumber(s: string): int
    requires IsStrict(s)
  {
    DaysBeforeYear(Year(s)) + DaysBeforeMonth(Year(s), Month(s)) + Day(s) - 1
  }

  /** A date falls within its own year. */
  lemma {:induction false} DayWithinYear(s: string)
    requires IsStrict(s)
    ensures DaysBeforeYear(Year(s)) <= DayNumber(s) < DaysBeforeYear(Year(s)) + DaysInYear(Year(s))
  {
    var y, m := Year(s), Month(s);
    MonthsUpTo(y, m);
    MonthStep(y, 12);
  }

  /** The days before month `m` leave at least that month in the year. */
  lemma {:induction false} MonthsUpTo(y: int, m: int)
    requires 1 <= m <= 12
    ensures DaysBeforeMonth(y, m) + DaysInMonth(y, m) <= DaysInYear(y)
    decreases 12 - m
  {
    if m < 12 {
      MonthStep(y, m);
      MonthsUpTo(y, m + 1);
    } else {
      MonthStep(y, m);
    }
  }

  /** Every year starts after all the days of the years before it. */
  lemma {:induction false} YearsOrdered(y1: nat, y2: nat)
    requires y1 < y2
    ensures DaysBeforeYear(y1) + DaysInYear(y1) <= DaysBeforeYear(y2)
    decreases y2 - y1
  {
    YearStep(y1);
    if y1 + 1 < y2 {
      YearsOrdered(y1 + 1, y2);
    }
  }

  /** `Minutes` orders date-times in time: a later year, or the same year
      and a later month, or the same month and a later day is a later day,
      and so a later minute unless the earlier one is the `24:00` that
      equals the next midnight. */
  lemma MinutesOrdered(s: string, t: string)
    requires IsStrict(s) && IsStrict(t)
    requires Year(s) < Year(t)
      || (Year(s) == Year(t) && Month(s) < Month(t))
      || (Year(s) == Year(t) && Month(s) == Month(t) && Day(s) < Day(t))
    ensures DayNumber(s) < DayNumber(t)
    ensures Hour(s) <= 23 ==> Minutes(s) < Minutes(t)
  {
    var ys, yt := Year(s), Year(t);
    if ys < yt {
      DayWithinYear(s);
      DayWithinYear(t);
      YearsOrdered(ys, yt);
    } else if Month(s) < Month(t) {
      MonthsUpTo(ys, Month(s));
      MonthsBefore(ys, Month(s), Month(t));
    }
  }

  /** The days before a later month include the whole earlier month. */
  lemma {:induction false} MonthsBefore(y: int, m1: int, m2: int)
    requires 1 <= m1 < m2 <= 12
    ensures DaysBeforeMonth(y, m1) + DaysInMonth(y, m1) <= DaysBeforeMonth(y, m2)
    decreases m2 - m1
  {
    MonthStep(y, m1);
    if m1 + 1 < m2 {
      MonthStep(y, m1 + 1);
      MonthsBefore(y, m1 + 1, m2);
    }
  }

  /** The minute a request field denotes, when it is a strict date-time. */
  function Parse(v: JsValue): (r: Option<int>)
    ensures r.Some? <==> IsStrictValue(v)
  {
    if IsStrictValue(v) then Some(Minutes(v.s)) else None
  }

  /** Date-times that strict mode accepts: an ordinary one, a leap day, and
      "24:00", which is the following midnight. */
  lemma StrictFormatAccepts()
    ensures IsStrict("2999-01-01 20:00")
    ensures IsStrict("2024-02-29 10:30")
    ensures IsStrict("2024-03-01 24:00")
    ensures Minutes("2024-03-01 24:00") == Minutes("2024-03-02 00:00")
  {
  }

  /** Inputs that strict mode rejects: a day the month lacks, month 13,
      24 hours with minutes, missing zero padding, another separator,
      seconds. */
  lemma StrictFormatRejects()
    ensures !IsStrict("2023-02-29 10:30")
    ensures !IsStrict("2024-13-01 10:30")
    ensures !IsStrict("2024-03-01 24:30")
    ensures !IsStrict("2024-3-1 10:30")
    ensures !IsStrict("2024-03-01T10:30")
    ensures !IsStrict("2024-03-01 10:30:00")
  {
  }
}
