/** Calendar days, as Python's `date` counts them. */
module Dates {
  import opened Models

  predicate DayBefore(a: Date, b: Date) {
    a.year < b.year || (a.year == b.year && (a.month < b.month || (a.month == b.month && a.day < b.day)))
  }

  predicate IsLeap(year: int) { year % 4 == 0 && (year % 100 != 0 || year % 400 == 0) }

  function DaysInMonth(year: int, month: int): nat {
    if month == 2 then if IsLeap(year) then 29 else 28
    else if month == 4 || month == 6 || month == 9 || month == 11 then 30 else 31
  }

  predicate IsDate(d: Date) { d.year >= 1 && 1 <= d.month <= 12 && 1 <= d.day <= DaysInMonth(d.year, d.month) }

  function DaysBeforeYear(year: int): int {
    365 * (year - 1) + (year - 1) / 4 - (year - 1) / 100 + (year - 1) / 400
  }

  function DaysBeforeMonth(year: int, month: int): nat
    decreases if month < 0 then 0 else month
  {
    if month <= 1 then 0 else DaysBeforeMonth(year, month - 1) + DaysInMonth(year, month - 1)
  }

  /** Days since the calendar began, 1 January of year 1 being day 1. */
  function DayNumber(d: Date): int { DaysBeforeYear(d.year) + DaysBeforeMonth(d.year, d.month) + d.day }

  function NextDay(d: Date): Date {
    if d.day < DaysInMonth(d.year, d.month) then d.(day := d.day + 1)
    else if d.month < 12 then Date(d.year, d.month + 1, 1)
    else Date(d.year + 1, 1, 1)
  }

  lemma FourthYear(year: int)
    ensures year / 4 == (year - 1) / 4 + if year % 4 == 0 then 1 else 0
  {
  }

  lemma HundredthYear(year: int)
    ensures year / 100 == (year - 1) / 100 + if year % 100 == 0 then 1 else 0
  {
  }

  lemma FourHundredthYear(year: int)
    ensures year / 400 == (year - 1) / 400 + if year % 400 == 0 then 1 else 0
    ensures year % 400 == 0 ==> year % 100 == 0
    ensures year % 100 == 0 ==> year % 4 == 0
  {
  }

  lemma YearLength(year: int)
    ensures DaysBeforeYear(year + 1) == DaysBeforeYear(year) + if IsLeap(year) then 366 else 365
  {
    FourthYear(year);
    HundredthYear(year);
    FourHundredthYear(year);
  }

  lemma MonthsOf(year: int)
    ensures DaysBeforeMonth(year, 13) == if IsLeap(year) then 366 else 365
  {
    var feb := DaysInMonth(year, 2);
    assert DaysBeforeMonth(year, 3) == 31 + feb;
    assert DaysBeforeMonth(year, 7) == 153 + feb;
    assert DaysBeforeMonth(year, 10) == DaysBeforeMonth(year, 7) + 92;
    assert DaysBeforeMonth(year, 13) == DaysBeforeMonth(year, 10) + 92;
  }

  /** The count is the calendar's: each day is one more than the day before it. */
  lemma DaysCountUp(d: Date)
    requires IsDate(d)
    ensures IsDate(NextDay(d)) && DayNumber(NextDay(d)) == DayNumber(d) + 1
  {
    YearLength(d.year);
    MonthsOf(d.year);
    hide DaysBeforeYear;
    assert DaysBeforeMonth(d.year, d.month + 1) == DaysBeforeMonth(d.year, d.month) + DaysInMonth(d.year, d.month);
  }

  lemma {:induction false} MonthsGrow(year: int, m: int, n: int)
    requires 1 <= m <= n
    ensures DaysBeforeMonth(year, m) <= DaysBeforeMonth(year, n)
    ensures m < n ==> DaysBeforeMonth(year, m) + DaysInMonth(year, m) <= DaysBeforeMonth(year, n)
    decreases n - m
  {
    hide DaysInMonth;
    if m < n { MonthsGrow(year, m, n - 1); }
  }

  lemma {:induction false} YearsGrow(a: int, b: int)
    requires a <= b
    ensures DaysBeforeYear(a) <= DaysBeforeYear(b)
    decreases b - a
  {
    if a < b {
      YearLength(b - 1);
      hide DaysBeforeYear;
      YearsGrow(a, b - 1);
    }
  }

  /** A day of a year comes after the years before it and before the next. */
  lemma InItsYear(d: Date)
    requires IsDate(d)
    ensures DaysBeforeYear(d.year) < DayNumber(d) <= DaysBeforeYear(d.year + 1)
  {
    YearLength(d.year);
    MonthsOf(d.year);
    MonthsGrow(d.year, d.month, 13);
    hide DaysBeforeYear, DaysBeforeMonth;
  }

  lemma EarlierIsLess(a: Date, b: Date)
    requires IsDate(a) && IsDate(b) && DayBefore(a, b)
    ensures DayNumber(a) < DayNumber(b)
  {
    InItsYear(a);
    InItsYear(b);
    if a.year < b.year {
      YearsGrow(a.year + 1, b.year);
    } else if a.month < b.month {
      MonthsGrow(a.year, a.month, b.month);
    }
    hide DaysBeforeYear, DaysBeforeMonth, DaysInMonth;
  }

  /** Dates compare as their day numbers do. */
  lemma DatesInOrder(a: Date, b: Date)
    requires IsDate(a) && IsDate(b)
    ensures DayBefore(a, b) <==> DayNumber(a) < DayNumber(b)
  {
    hide DayNumber, IsDate;
    if DayBefore(a, b) { EarlierIsLess(a, b); }
    if DayBefore(b, a) { EarlierIsLess(b, a); }
    assert DayBefore(a, b) || DayBefore(b, a) || a == b;
  }
}
