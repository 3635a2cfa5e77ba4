/**
 * The proleptic Gregorian calendar behind Python's `calendar.monthrange`
 * and `calendar.weekday`: month lengths, leap years, and the day of the week
 * counted from Monday = 0.
 */
module Gregorian {

  /** Divisible by 4, except centuries not divisible by 400. */
  predicate IsLeapYear(year: int) {
    year % 4 == 0 && (year % 100 != 0 || year % 400 == 0)
  }

  /** `calendar.monthrange(year, month)[1]`. */
  function DaysInMonth(year: int, month: int): (days: int)
    requires 1 <= month <= 12
    ensures 28 <= days <= 31
    ensures month == 2 ==> (days == 29 <==> IsLeapYear(year))
    ensures month != 2 ==> (days == 30 <==> month in {4, 6, 9, 11})
  {
    if month == 2 then (if IsLeapYear(year) then 29 else 28)
    else if month in {4, 6, 9, 11} then 30
    else 31
  }

  function DaysInYear(year: int): int {
    if IsLeapYear(year) then 366 else 365
  }

  /** The days of the months before `month` in `year`. */
  function DaysBeforeMonth(year: int, month: int): nat
    requires 1 <= month <= 13
  {
    if month == 1 then 0 else DaysBeforeMonth(year, month - 1) + DaysInMonth(year, month - 1)
  }

  /** The twelve months add up to the length of the year. */
  lemma MonthsFillYear(year: int)
    ensures DaysBeforeMonth(year, 13) == DaysInYear(year)
  {
    var feb := DaysInMonth(year, 2);
    assert DaysBeforeMonth(year, 2) == 31;
    assert DaysBeforeMonth(year, 3) == 31 + feb;
    assert DaysBeforeMonth(year, 4) == 62 + feb;
    assert DaysBeforeMonth(year, 5) == 92 + feb;
    assert DaysBeforeMonth(year, 6) == 123 + feb;
    assert DaysBeforeMonth(year, 7) == 153 + feb;
    assert DaysBeforeMonth(year, 8) == 184 + feb;
    assert DaysBeforeMonth(year, 9) == 215 + feb;
    assert DaysBeforeMonth(year, 10) == 245 + feb;
    assert DaysBeforeMonth(year, 11) == 276 + feb;
    assert DaysBeforeMonth(year, 12) == 306 + feb;
  }

  /** Adding one day moves the weekday on by one, modulo 7. */
  lemma NextWeekdayMod(a: int)
    ensures (a + 1 + 6) % 7 == ((a + 6) % 7 + 1) % 7
  {
  }

  /** The days of all years before `year`, counted from 1 January of year 1. */
  function DaysBeforeYear(year: int): int {
    var y := year - 1;
    365 * y + y / 4 - y / 100 + y / 400
  }

  /** Day number of a date, 1 January of year 1 (a Monday) being day 1. */
  function Ordinal(year: int, month: int, day: int): int
    requires 1 <= month <= 12
  {
    DaysBeforeYear(year) + DaysBeforeMonth(year, month) + day
  }

  /** `calendar.weekday`: 0 for Monday up to 6 for Sunday. */
  function Weekday(year: int, month: int, day: int): (w: int)
    requires 1 <= month <= 12 && 1 <= day <= DaysInMonth(year, month)
    ensures 0 <= w < 7
  {
    (Ordinal(year, month, day) + 6) % 7
  }

  /** Within a month the weekday advances by one each day. */
  lemma WeekdayNextDay(year: int, month: int, day: int)
    requires 1 <= month <= 12 && 1 <= day < DaysInMonth(year, month)
    ensures Weekday(year, month, day + 1) == (Weekday(year, month, day) + 1) % 7
  {
    NextWeekdayMod(Ordinal(year, month, day));
  }

  /** The first of a month follows the last day of the month before. */
  lemma WeekdayNextMonth(year: int, month: int)
    requires 1 <= month < 12
    ensures Weekday(year, month + 1, 1) == (Weekday(year, month, DaysInMonth(year, month)) + 1) % 7
  {
    var last := DaysInMonth(year, month);
    assert Ordinal(year, month + 1, 1) == Ordinal(year, month, last) + 1;
    NextWeekdayMod(Ordinal(year, month, last));
  }

  /** A year is as long as its leap-year rule says, also for years before year 1. */
  lemma YearLength(year: int)
    ensures DaysBeforeYear(year + 1) == DaysBeforeYear(year) + DaysInYear(year)
  {
    assert year / 4 == (year - 1) / 4 + (if year % 4 == 0 then 1 else 0);
    assert year / 100 == (year - 1) / 100 + (if year % 100 == 0 then 1 else 0);
    assert year / 400 == (year - 1) / 400 + (if year % 400 == 0 then 1 else 0);
  }

  /** 1 January follows 31 December of the year before, so the week never breaks. */
  lemma WeekdayNextYear(year: int)
    ensures Weekday(year + 1, 1, 1) == (Weekday(year, 12, 31) + 1) % 7
  {
    YearLength(year);
    MonthsFillYear(year);
    assert Ordinal(year + 1, 1, 1) == Ordinal(year, 12, 31) + 1;
    NextWeekdayMod(Ordinal(year, 12, 31));
  }

  /** 1 January 2026 is a Thursday and 3 January 2026 a Saturday. */
  lemma Weekdays2026()
    ensures Weekday(2026, 1, 1) == 3
    ensures Weekday(2026, 1, 3) == 5
  {
  }
}
