/**
 * Calendar dates as the scheduler receives them: "YYYY-MM-DD" text from a
 * date input. The route reads them with `new Date(date)` and the UTC
 * getters; the client reads them with `new Date(date + 'T00:00:00')` and
 * the local getters. For well-formed text both give the calendar fields of
 * the string and the weekday of that day in the proleptic Gregorian
 * calendar, which is what `DayOfWeek` computes here.
 */
module CivilCalendar {
  import opened ClockText

  /** A day of the proleptic Gregorian calendar; `month` runs 1..12 as in the text. */
  datatype CivilDate = CivilDate(year: nat, month: nat, day: nat)

  predicate IsLeapYear(y: nat) {
    y % 4 == 0 && (y % 100 != 0 || y % 400 == 0)
  }

  function DaysInMonth(y: nat, m: nat): (n: nat)
    requires 1 <= m <= 12
    ensures 28 <= n <= 31
  {
    if m == 2 then (if IsLeapYear(y) then 29 else 28)
    else if m == 4 || m == 6 || m == 9 || m == 11 then 30
    else 31
  }

  predicate IsValidDate(d: CivilDate) {
    1 <= d.month <= 12 && 1 <= d.day <= DaysInMonth(d.year, d.month)
  }

  /** Shape and ranges of an ISO calendar date string. */
  predicate IsDateText(s: string) {
    && |s| == 10
    && IsDigit(s[0]) && IsDigit(s[1]) && IsDigit(s[2]) && IsDigit(s[3])
    && s[4] == '-' && IsDigit(s[5]) && IsDigit(s[6])
    && s[7] == '-' && IsDigit(s[8]) && IsDigit(s[9])
    && IsValidDate(FieldsOf(s))
  }

  /** The numbers written in a "YYYY-MM-DD" string. */
  function FieldsOf(s: string): CivilDate
    requires |s| == 10
    requires IsDigit(s[0]) && IsDigit(s[1]) && IsDigit(s[2]) && IsDigit(s[3])
    requires IsDigit(s[5]) && IsDigit(s[6]) && IsDigit(s[8]) && IsDigit(s[9])
  {
    CivilDate(100 * TwoDigitValue(s, 0) + TwoDigitValue(s, 2), TwoDigitValue(s, 5), TwoDigitValue(s, 8))
  }

  function DateOf(s: string): (d: CivilDate)
    requires IsDateText(s)
    ensures IsValidDate(d) && d.year < 10000
  {
    FieldsOf(s)
  }

  /** The "YYYY-MM-DD" text of a day with a four-digit year. */
  function FormatDate(d: CivilDate): (s: string)
    requires IsValidDate(d) && d.year < 10000
    ensures IsDateText(s) && DateOf(s) == d
  {
    var s := Pad2(d.year / 100) + Pad2(d.year % 100) + "-" + Pad2(d.month) + "-" + Pad2(d.day);
    assert TwoDigitValue(s, 0) == d.year / 100 && TwoDigitValue(s, 2) == d.year % 100;
    assert TwoDigitValue(s, 5) == d.month && TwoDigitValue(s, 8) == d.day;
    s
  }

  /** Reading a well-formed date and writing it back gives the same text. */
  lemma DateTextRoundTrip(s: string)
    requires IsDateText(s)
    ensures FormatDate(DateOf(s)) == s
  {
    var t := FormatDate(DateOf(s));
    var d := DateOf(s);
    assert d.year / 100 == TwoDigitValue(s, 0) && d.year % 100 == TwoDigitValue(s, 2);
    Pad2RoundTrip(s, 0);
    Pad2RoundTrip(s, 2);
    Pad2RoundTrip(s, 5);
    Pad2RoundTrip(s, 8);
    assert t[0..2] == s[0..2] && t[2..4] == s[2..4] && t[5..7] == s[5..7] && t[8..10] == s[8..10];
    assert forall k :: 0 <= k < 10 ==> t[k] == s[k];
  }

  /** Days from 0000-01-01 to the first of January of year y (each year before y is 365 or 366 days). */
  function DaysBeforeYear(y: nat): int {
    365 * y + (y + 3) / 4 - (y + 99) / 100 + (y + 399) / 400
  }

  function DaysBeforeMonth(y: nat, m: nat): nat
    requires 1 <= m <= 12
  {
    var common := [0, 31, 59, 90, 120, 151, 181, 212, 243, 273, 304, 334][m - 1];
    common + (if m > 2 && IsLeapYear(y) then 1 else 0)
  }

  /** Days from 0000-01-01 to d. */
  function DayNumber(d: CivilDate): int
    requires IsValidDate(d)
  {
    DaysBeforeYear(d.year) + DaysBeforeMonth(d.year, d.month) + d.day - 1
  }

  /**
   * The weekday as `getDay`/`getUTCDay` number it: 0 is Sunday, 6 is
   * Saturday. 0000-01-01 (day number 0) was a Saturday.
   */
  function DayOfWeek(d: CivilDate): (w: nat)
    requires IsValidDate(d)
    ensures w < 7
  {
    (DayNumber(d) + 6) % 7
  }

  /** The day after d. */
  function NextDay(d: CivilDate): (e: CivilDate)
    requires IsValidDate(d)
    ensures IsValidDate(e)
  {
    if d.day < DaysInMonth(d.year, d.month) then CivilDate(d.year, d.month, d.day + 1)
    else if d.month < 12 then CivilDate(d.year, d.month + 1, 1)
    else CivilDate(d.year + 1, 1, 1)
  }

  lemma CeilingStep4(y: nat)
    ensures (y + 4) / 4 == (y + 3) / 4 + (if y % 4 == 0 then 1 else 0)
  {
  }

  lemma CeilingStep100(y: nat)
    ensures (y + 100) / 100 == (y + 99) / 100 + (if y % 100 == 0 then 1 else 0)
  {
  }

  lemma CeilingStep400(y: nat)
    ensures (y + 400) / 400 == (y + 399) / 400 + (if y % 400 == 0 then 1 else 0)
  {
  }

  /** Year y contributes 366 days exactly when it is a leap year. */
  lemma YearLength(y: nat)
    ensures DaysBeforeYear(y + 1) == DaysBeforeYear(y) + (if IsLeapYear(y) then 366 else 365)
  {
    CeilingStep4(y);
    CeilingStep100(y);
    CeilingStep400(y);
    if y % 400 == 0 { MultipleOf400(y); }
    if y % 100 == 0 { MultipleOf100(y); }
    var a, b, c := (y + 3) / 4, (y + 99) / 100, (y + 399) / 400;
    assert DaysBeforeYear(y) == 365 * y + a - b + c;
  }

  lemma MultipleOf400(y: nat)
    requires y % 400 == 0
    ensures y % 100 == 0
  {
    var k := y / 400;
    assert y == 400 * k;
    assert y / 100 == 4 * k;
  }

  lemma MultipleOf100(y: nat)
    requires y % 100 == 0
    ensures y % 4 == 0
  {
    var k := y / 100;
    assert y == 100 * k;
    assert y / 4 == 25 * k;
  }

  /** Consecutive days have consecutive day numbers, across months and years. */
  lemma NextDayNumber(d: CivilDate)
    requires IsValidDate(d)
    ensures DayNumber(NextDay(d)) == DayNumber(d) + 1
  {
    if d.day == DaysInMonth(d.year, d.month) && d.month == 12 {
      YearLength(d.year);
    }
  }

  /** The weekday advances by one, modulo seven, from each day to the next. */
  lemma NextDayAdvancesWeekday(d: CivilDate)
    requires IsValidDate(d)
    ensures DayOfWeek(NextDay(d)) == (DayOfWeek(d) + 1) % 7
  {
    NextDayNumber(d);
    WeekdayStep(DayNumber(d) + 6, 1);
  }

  lemma WeekdayStep(n: int, k: int)
    ensures (n + k) % 7 == (n % 7 + k) % 7
  {
    var q := n / 7;
    assert n == 7 * q + n % 7;
    assert n + k == 7 * q + (n % 7 + k);
  }

  /** 400 Gregorian years are 146097 days. */
  lemma FourHundredYears(y: nat)
    ensures DaysBeforeYear(y + 400) == DaysBeforeYear(y) + 146097
  {
    assert (y + 403) / 4 == (y + 3) / 4 + 100;
    assert (y + 499) / 100 == (y + 99) / 100 + 4;
    assert (y + 799) / 400 == (y + 399) / 400 + 1;
  }

  /** Leap years repeat every 400 years. */
  lemma LeapCycle(y: nat)
    ensures IsLeapYear(y + 400) == IsLeapYear(y)
  {
    assert (y + 400) % 4 == y % 4;
    assert (y + 400) % 100 == y % 100;
    assert (y + 400) % 400 == y % 400;
  }

  /** Adding whole weeks keeps the weekday. */
  lemma WholeWeeks(n: int, q: int)
    ensures (n + 7 * q) % 7 == n % 7
  {
    var p := n / 7;
    assert n == 7 * p + n % 7;
    assert n + 7 * q == 7 * (p + q) + n % 7;
  }

  /** 146097 days are a whole number of weeks, so the weekday repeats every 400 years. */
  lemma FourHundredYearCycle(d: CivilDate)
    requires IsValidDate(d)
    ensures IsValidDate(CivilDate(d.year + 400, d.month, d.day))
    ensures DayOfWeek(CivilDate(d.year + 400, d.month, d.day)) == DayOfWeek(d)
  {
    var e := CivilDate(d.year + 400, d.month, d.day);
    LeapCycle(d.year);
    FourHundredYears(d.year);
    assert DaysBeforeMonth(e.year, e.month) == DaysBeforeMonth(d.year, d.month);
    assert DayNumber(e) + 6 == (DayNumber(d) + 6) + 7 * 20871;
    WholeWeeks(DayNumber(d) + 6, 20871);
  }

  /** Anchors: 1970-01-01 was a Thursday, 2025-06-10 a Tuesday, 2025-06-14 a Saturday. */
  lemma KnownWeekdays()
    ensures DayOfWeek(CivilDate(1970, 1, 1)) == 4
    ensures DayOfWeek(CivilDate(2025, 6, 10)) == 2
    ensures DayOfWeek(CivilDate(2025, 6, 14)) == 6
    ensures DayOfWeek(CivilDate(2025, 7, 4)) == 5
  {
  }
}
