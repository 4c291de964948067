/** The day of year of `time_start`: `ee.Date(time_start).getRelative('day',
    'year')` is the 0-based number of whole days since 1 January of its UTC
    year, and the source adds 1. Dates are proleptic Gregorian. */
module Calendar {

  datatype Date = Date(year: int, month: int, day: int)

  predicate IsLeapYear(y: int) {
    (y % 4 == 0 && y % 100 != 0) || y % 400 == 0
  }

  function DaysInYear(y: int): int {
    if IsLeapYear(y) then 366 else 365
  }

  function DaysInMonth(y: int, m: int): int
    requires 1 <= m <= 12
  {
    if m == 2 then (if IsLeapYear(y) then 29 else 28)
    else if m == 4 || m == 6 || m == 9 || m == 11 then 30
    else 31
  }

  predicate ValidDate(d: Date) {
    1 <= d.month <= 12 && 1 <= d.day <= DaysInMonth(d.year, d.month)
  }

  /** Days in the months of year y before month m. */
  function DaysBeforeMonth(y: int, m: int): (r: int)
    requires 1 <= m <= 13
    ensures 28 * (m - 1) <= r <= 31 * (m - 1)
  {
    if m == 1 then 0 else DaysBeforeMonth(y, m - 1) + DaysInMonth(y, m - 1)
  }

  /** All twelve months together make up the year. */
  lemma DaysBeforeMonthOfYear(y: int)
    ensures DaysBeforeMonth(y, 13) == DaysInYear(y)
  {
    assert DaysBeforeMonth(y, 2) == 31;
    assert DaysBeforeMonth(y, 3) == 31 + DaysInMonth(y, 2);
    assert DaysBeforeMonth(y, 4) == 62 + DaysInMonth(y, 2);
    assert DaysBeforeMonth(y, 5) == 92 + DaysInMonth(y, 2);
    assert DaysBeforeMonth(y, 6) == 123 + DaysInMonth(y, 2);
    assert DaysBeforeMonth(y, 7) == 153 + DaysInMonth(y, 2);
    assert DaysBeforeMonth(y, 8) == 184 + DaysInMonth(y, 2);
    assert DaysBeforeMonth(y, 9) == 215 + DaysInMonth(y, 2);
    assert DaysBeforeMonth(y, 10) == 245 + DaysInMonth(y, 2);
    assert DaysBeforeMonth(y, 11) == 276 + DaysInMonth(y, 2);
    assert DaysBeforeMonth(y, 12) == 306 + DaysInMonth(y, 2);
  }

  /** The months from m on still fit in the year. */
  lemma {:induction false} DaysBeforeMonthFits(y: int, m: int)
    requires 1 <= m <= 13
    ensures DaysBeforeMonth(y, m) <= DaysInYear(y)
    decreases 13 - m
  {
    if m == 13 {
      DaysBeforeMonthOfYear(y);
    } else {
      DaysBeforeMonthFits(y, m + 1);
    }
  }

  /** `getRelative('day', 'year')`: whole days elapsed since 1 January. */
  function DayOrdinal(d: Date): (r: int)
    requires ValidDate(d)
    ensures 0 <= r < DaysInYear(d.year)
  {
    DaysBeforeMonthFits(d.year, d.month + 1);
    DaysBeforeMonth(d.year, d.month) + d.day - 1
  }

  /** The day of year J used by the solar geometry. */
  function DayOfYear(d: Date): (r: int)
    requires ValidDate(d)
    ensures 1 <= r <= DaysInYear(d.year) <= 366
  {
    DayOrdinal(d) + 1
  }

  /** The calendar day after d. */
  function NextDay(d: Date): (r: Date)
    requires ValidDate(d)
    ensures ValidDate(r)
  {
    if d.day < DaysInMonth(d.year, d.month) then Date(d.year, d.month, d.day + 1)
    else if d.month < 12 then Date(d.year, d.month + 1, 1)
    else Date(d.year + 1, 1, 1)
  }

  /** J counts days: it is 1 on 1 January, grows by one from each day to
      the next within a year, and is the length of the year on 31 December. */
  lemma DayOfYearCountsDays(d: Date)
    requires ValidDate(d)
    ensures DayOfYear(Date(d.year, 1, 1)) == 1
    ensures DayOfYear(Date(d.year, 12, 31)) == DaysInYear(d.year)
    ensures NextDay(d).year == d.year ==> DayOfYear(NextDay(d)) == DayOfYear(d) + 1
    ensures NextDay(d).year != d.year ==> DayOfYear(NextDay(d)) == 1 && DayOfYear(d) == DaysInYear(d.year)
  {
    DaysBeforeMonthOfYear(d.year);
  }

  /** 1 June 2020 (a leap year) is day 153. */
  lemma DayOfYearExample()
    ensures DayOfYear(Date(2020, 6, 1)) == 153
  {
    assert IsLeapYear(2020);
    assert DaysBeforeMonth(2020, 6) == 152;
  }
}
