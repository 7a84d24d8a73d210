/**
 * Go's time.Parse with the layout "2006-01-02", as the WeatherAPI forecast
 * mapper uses it: exactly four year digits, '-', two month digits, '-', two
 * day digits; the month in 1..12 and the day within that month. The result
 * is midnight UTC of that day.
 */
module Dates {
  import opened Wrappers
  import opened Model

  const SecondsPerDay: int := 86400

  /** The days from 0001-01-01 to 1970-01-01. */
  const DaysTo1970: int := 719162

  predicate IsDigit(c: char) {
    '0' <= c <= '9'
  }

  function DigitValue(c: char): int {
    c as int - '0' as int
  }

  predicate IsLeap(year: int) {
    year % 4 == 0 && (year % 100 != 0 || year % 400 == 0)
  }

  function DaysIn(month: int, year: int): int
    requires 1 <= month <= 12
  {
    if month == 2 then (if IsLeap(year) then 29 else 28)
    else if month == 4 || month == 6 || month == 9 || month == 11 then 30
    else 31
  }

  /** The days of the months before `month` in `year`. */
  function DaysBeforeMonth(month: int, year: int): int
    requires 1 <= month <= 12
  {
    [0, 31, 59, 90, 120, 151, 181, 212, 243, 273, 304, 334][month - 1]
    + if month > 2 && IsLeap(year) then 1 else 0
  }

  /** The days from 0001-01-01 to January 1 of `year`, in the proleptic Gregorian calendar. */
  function DaysBeforeYear(year: int): int {
    var y := year - 1;
    365 * y + y / 4 - y / 100 + y / 400
  }

  /** Midnight UTC at the start of the given day. */
  function Midnight(year: int, month: int, day: int): (t: Time)
    requires 1 <= month <= 12
    ensures t.unixSeconds % SecondsPerDay == 0
  {
    Time((DaysBeforeYear(year) + DaysBeforeMonth(month, year) + day - 1 - DaysTo1970) * SecondsPerDay)
  }

  /** The positions of the digits in "2006-01-02". */
  predicate IsDigitPosition(k: int) {
    0 <= k < 10 && k != 4 && k != 7
  }

  /** The year, month and day fields of a string of the layout's length. */
  function YearOf(s: string): int
    requires |s| == 10
  {
    1000 * DigitValue(s[0]) + 100 * DigitValue(s[1]) + 10 * DigitValue(s[2]) + DigitValue(s[3])
  }

  function MonthOf(s: string): int
    requires |s| == 10
  {
    10 * DigitValue(s[5]) + DigitValue(s[6])
  }

  function DayOf(s: string): int
    requires |s| == 10
  {
    10 * DigitValue(s[8]) + DigitValue(s[9])
  }

  /** `s` has the layout's shape: four digits, '-', two digits, '-', two digits. */
  predicate HasLayout(s: string) {
    && |s| == 10 && s[4] == '-' && s[7] == '-'
    && forall k | 0 <= k < 10 :: IsDigitPosition(k) ==> IsDigit(s[k])
  }

  /** The fields of `s` name a calendar day: the month in 1..12, the day within that month. */
  predicate IsCalendarDay(s: string)
    requires |s| == 10
  {
    1 <= MonthOf(s) <= 12 && 1 <= DayOf(s) <= DaysIn(MonthOf(s), YearOf(s))
  }

  /**
   * time.Parse("2006-01-02", s): the day's midnight, or None where Go
   * reports an error (a wrong shape, a non-digit, a month outside 1..12, a
   * day the month does not have).
   */
  function ParseDate(s: string): (t: Option<Time>)
    ensures t.Some? <==> HasLayout(s) && IsCalendarDay(s)
    ensures t.Some? ==> t.value == Midnight(YearOf(s), MonthOf(s), DayOf(s))
    ensures t.Some? ==> t.value.unixSeconds % SecondsPerDay == 0
  {
    if !HasLayout(s) then None
    else if MonthOf(s) < 1 || MonthOf(s) > 12 then None
    else if DayOf(s) < 1 || DayOf(s) > DaysIn(MonthOf(s), YearOf(s)) then None
    else Some(Midnight(YearOf(s), MonthOf(s), DayOf(s)))
  }

  /** The digit character for `n` in 0..9. */
  function Digit(n: int): (c: char)
    requires 0 <= n <= 9
    ensures IsDigit(c) && DigitValue(c) == n
  {
    ('0' as int + n) as char
  }

  /** A calendar day written in the layout "2006-01-02", zero-padded. */
  function Format(year: int, month: int, day: int): (s: string)
    requires 0 <= year <= 9999 && 0 <= month <= 99 && 0 <= day <= 99
    ensures HasLayout(s)
  {
    [Digit(year / 1000), Digit(year / 100 % 10), Digit(year / 10 % 10), Digit(year % 10), '-',
     Digit(month / 10), Digit(month % 10), '-',
     Digit(day / 10), Digit(day % 10)]
  }

  /** Every calendar day of years 0..9999, written in the layout, parses back to its own midnight. */
  lemma ParseFormat(year: int, month: int, day: int)
    requires 0 <= year <= 9999 && 1 <= month <= 12 && 1 <= day <= DaysIn(month, year)
    ensures ParseDate(Format(year, month, day)) == Some(Midnight(year, month, day))
  {
    var s := Format(year, month, day);
    FourDigits(year);
    TwoDigits(month);
    TwoDigits(day);
    assert YearOf(s) == year && MonthOf(s) == month && DayOf(s) == day;
  }

  /** A number below 10000 is the sum of its four decimal digits' place values. */
  lemma FourDigits(n: int)
    requires 0 <= n <= 9999
    ensures 1000 * (n / 1000) + 100 * (n / 100 % 10) + 10 * (n / 10 % 10) + n % 10 == n
  {
    var t := n / 10;
    assert n == 10 * t + n % 10;
    assert t / 10 == n / 100;
    assert t == 10 * (n / 100) + n / 10 % 10;
    assert (n / 100) / 10 == n / 1000;
    assert n / 100 == 10 * (n / 1000) + n / 100 % 10;
  }

  /** A number below 100 is the sum of its two decimal digits' place values. */
  lemma TwoDigits(n: int)
    requires 0 <= n <= 99
    ensures 10 * (n / 10) + n % 10 == n
  {
  }

  /** The zero time is itself a midnight, so a real "0001-01-01" reads exactly like a failed parse. */
  lemma FirstDayIsZeroTime()
    ensures ParseDate("0001-01-01") == Some(ZeroTime)
  {
    var s := "0001-01-01";
    assert YearOf(s) == 1 && MonthOf(s) == 1 && DayOf(s) == 1;
    assert Midnight(1, 1, 1) == ZeroTime;
  }

  lemma EpochDay()
    ensures ParseDate("1970-01-01") == Some(Time(0))
  {
    var s := "1970-01-01";
    assert YearOf(s) == 1970 && MonthOf(s) == 1 && DayOf(s) == 1;
    assert DaysBeforeYear(1970) == DaysTo1970;
  }

  /** Go rejects a day the month does not have, a month past 12 and an unpadded field. */
  lemma RejectedDates()
    ensures ParseDate("2023-02-29") == None
    ensures ParseDate("2024-13-01") == None
    ensures ParseDate("2024-1-05") == None
    ensures ParseDate("") == None
  {
  }

  /** Consecutive days of one month are one day apart. */
  lemma NextDayInMonth(year: int, month: int, day: int)
    requires 1 <= month <= 12 && 1 <= day < DaysIn(month, year)
    ensures Midnight(year, month, day + 1).unixSeconds == Midnight(year, month, day).unixSeconds + SecondsPerDay
  {
  }

  /** The first of a month follows the last day of the month before. */
  lemma NextDayAcrossMonth(year: int, month: int)
    requires 1 <= month < 12
    ensures Midnight(year, month + 1, 1).unixSeconds == Midnight(year, month, DaysIn(month, year)).unixSeconds + SecondsPerDay
  {
  }

  /** A year has 366 days when it is a leap year and 365 otherwise. */
  lemma {:induction false} YearLength(year: int)
    ensures DaysBeforeYear(year + 1) - DaysBeforeYear(year) == if IsLeap(year) then 366 else 365
  {
    var y := year - 1;
    DivStep(y, 4);
    DivStep(y, 100);
    DivStep(y, 400);
  }

  /** Going from y to y + 1 adds one to y / n exactly when n divides y + 1. */
  lemma DivStep(y: int, n: int)
    requires n == 4 || n == 100 || n == 400
    ensures (y + 1) / n - y / n == if (y + 1) % n == 0 then 1 else 0
  {
    if n == 4 {
      assert (y + 1) / 4 - y / 4 == if (y + 1) % 4 == 0 then 1 else 0;
    } else if n == 100 {
      assert (y + 1) / 100 - y / 100 == if (y + 1) % 100 == 0 then 1 else 0;
    } else {
      assert (y + 1) / 400 - y / 400 == if (y + 1) % 400 == 0 then 1 else 0;
    }
  }

  /** January 1 follows December 31 of the year before. */
  lemma NextDayAcrossYear(year: int)
    ensures Midnight(year + 1, 1, 1).unixSeconds == Midnight(year, 12, 31).unixSeconds + SecondsPerDay
  {
    YearLength(year);
  }
}
