/**
 * Proleptic Gregorian calendar dates and their day count since
 * 1 January 1970, the value `Math.floor(new Date(date).getTime() / 86400000)`
 * takes for an ISO date string, which JavaScript reads as UTC midnight.
 */
module Calendar {
  import opened JsArith

  datatype CalendarDate = CalendarDate(year: int, month: int, day: int)

  const EpochYear: int := 1970

  predicate IsLeapYear(y: int) {
    y % 4 == 0 && (y % 100 != 0 || y % 400 == 0)
  }

  function DaysInYear(y: int): nat {
    if IsLeapYear(y) then 366 else 365
  }

  function DaysInMonth(y: int, m: int): nat
    requires 1 <= m <= 12
  {
    if m == 2 then (if IsLeapYear(y) then 29 else 28)
    else if m == 4 || m == 6 || m == 9 || m == 11 then 30
    else 31
  }

  /** A date that exists in the calendar. */
  predicate Valid(d: CalendarDate) {
    1 <= d.month <= 12 && 1 <= d.day <= DaysInMonth(d.year, d.month)
  }

  /** Leap years among the years before y (counting from year 0). */
  function LeapYearsBefore(y: int): int {
    (y - 1) / 4 - (y - 1) / 100 + (y - 1) / 400
  }

  /** Signed number of days from 1 January 1970 to 1 January of year y. */
  function DaysBeforeYear(y: int): int {
    365 * (y - EpochYear) + LeapYearsBefore(y) - LeapYearsBefore(EpochYear)
  }

  /** Days of year y that precede the first of month m. */
  function DaysBeforeMonth(y: int, m: int): nat
    requires 1 <= m <= 12
  {
    if m == 1 then 0 else DaysBeforeMonth(y, m - 1) + DaysInMonth(y, m - 1)
  }

  /**
   * Whole days elapsed since 1970-01-01; negative for earlier dates. The
   * count lands inside the span of day counts of the date's own year.
   */
  function DaysSinceEpoch(d: CalendarDate): (n: int)
    requires Valid(d)
    ensures DaysBeforeYear(d.year) <= n < DaysBeforeYear(d.year) + DaysInYear(d.year)
  {
    DaysBeforeMonthBound(d.year, d.month);
    DaysBeforeYear(d.year) + DaysBeforeMonth(d.year, d.month) + d.day - 1
  }

  /** The day after a valid date. */
  function NextDay(d: CalendarDate): (n: CalendarDate)
    requires Valid(d)
    ensures Valid(n)
  {
    if d.day < DaysInMonth(d.year, d.month) then CalendarDate(d.year, d.month, d.day + 1)
    else if d.month < 12 then CalendarDate(d.year, d.month + 1, 1)
    else CalendarDate(d.year + 1, 1, 1)
  }

  /** Consecutive years are a year's length apart. */
  lemma DaysBeforeNextYear(y: int)
    ensures DaysBeforeYear(y + 1) == DaysBeforeYear(y) + DaysInYear(y)
  {
    StepOfQuotient4(y);
    StepOfQuotient100(y);
    StepOfQuotient400(y);
    CenturiesAreLeapCandidates(y);
    var step := LeapYearsBefore(y + 1) - LeapYearsBefore(y);
    assert step == (if IsLeapYear(y) then 1 else 0);
  }

  /** Divisibility by 400 implies by 100, which implies by 4. */
  lemma CenturiesAreLeapCandidates(y: int)
    ensures y % 400 == 0 ==> y % 100 == 0
    ensures y % 100 == 0 ==> y % 4 == 0
  {
    if y % 400 == 0 {
      var q := y / 400;
      assert y == (4 * q) * 100;
      MultipleOf(4 * q, 100);
    }
    if y % 100 == 0 {
      var q := y / 100;
      assert y == (25 * q) * 4;
      MultipleOf(25 * q, 4);
    }
  }

  lemma StepOfQuotient4(y: int)
    ensures y / 4 - (y - 1) / 4 == if y % 4 == 0 then 1 else 0
  {
  }

  lemma StepOfQuotient100(y: int)
    ensures y / 100 - (y - 1) / 100 == if y % 100 == 0 then 1 else 0
  {
  }

  lemma StepOfQuotient400(y: int)
    ensures y / 400 - (y - 1) / 400 == if y % 400 == 0 then 1 else 0
  {
  }

  /** Month lengths before m, read off a table instead of summed. */
  function CumulativeDays(y: int, m: int): nat
    requires 1 <= m <= 12
  {
    [0, 31, 59, 90, 120, 151, 181, 212, 243, 273, 304, 334][m - 1]
      + (if m > 2 && IsLeapYear(y) then 1 else 0)
  }

  /** The month-by-month sum agrees with the cumulative table. */
  lemma {:induction false} DaysBeforeMonthTable(y: int, m: int)
    requires 1 <= m <= 12
    ensures DaysBeforeMonth(y, m) == CumulativeDays(y, m)
  {
    if m > 1 {
      DaysBeforeMonthTable(y, m - 1);
    }
  }

  /** The twelve months fill the year. */
  lemma MonthsFillYear(y: int)
    ensures DaysBeforeMonth(y, 12) + DaysInMonth(y, 12) == DaysInYear(y)
  {
    DaysBeforeMonthTable(y, 12);
  }

  /**
   * The day count starts at 0 on 1970-01-01 and goes up by one from each
   * date to the next: together these determine it on every valid date.
   */
  lemma DaysSinceEpochCounts(d: CalendarDate)
    requires Valid(d)
    ensures DaysSinceEpoch(CalendarDate(EpochYear, 1, 1)) == 0
    ensures DaysSinceEpoch(NextDay(d)) == DaysSinceEpoch(d) + 1
  {
    if d.day == DaysInMonth(d.year, d.month) && d.month == 12 {
      DaysBeforeNextYear(d.year);
      MonthsFillYear(d.year);
    }
  }

  /** A valid date lies inside its own year's span of day counts. */
  lemma DaysSinceEpochWithinYear(d: CalendarDate)
    requires Valid(d)
    ensures DaysBeforeYear(d.year) <= DaysSinceEpoch(d) < DaysBeforeYear(d.year + 1)
  {
    DaysBeforeNextYear(d.year);
  }

  lemma DaysBeforeMonthBound(y: int, m: int)
    requires 1 <= m <= 12
    ensures DaysBeforeMonth(y, m) + DaysInMonth(y, m) <= DaysInYear(y)
  {
    DaysBeforeMonthTable(y, m);
  }

  /** The day count is negative exactly for dates before 1970. */
  lemma DaysSinceEpochSign(d: CalendarDate)
    requires Valid(d)
    ensures DaysSinceEpoch(d) >= 0 <==> d.year >= EpochYear
  {
    DaysSinceEpochWithinYear(d);
    if d.year >= EpochYear {
      assert DaysBeforeYear(d.year) >= 0;
    } else {
      assert DaysBeforeYear(d.year + 1) <= 0;
    }
  }

  /** 1969-12-31 is day -1: the day whose successor is the epoch. */
  lemma DayBeforeEpoch()
    ensures DaysSinceEpoch(CalendarDate(1969, 12, 31)) == -1
  {
    var d := CalendarDate(1969, 12, 31);
    DaysSinceEpochCounts(d);
    assert NextDay(d) == CalendarDate(EpochYear, 1, 1);
  }

  /** 1990-03-21 is day 7384 of the epoch count. */
  lemma DaysSinceEpochExample()
    ensures DaysSinceEpoch(CalendarDate(1990, 3, 21)) == 7384
  {
    DaysBeforeMonthTable(1990, 3);
  }
}
