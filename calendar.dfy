/** The part of .NET's proleptic Gregorian `DateTime` that the billing code
    relies on: dates without a time of day, month lengths, comparison, the
    first and last day of a month, and `AddMonths(1)`, which clamps the day to
    the length of the target month instead of rolling over. */
module Calendar {

  /** A year, month and day, not necessarily a real calendar date. */
  datatype Ymd = Ymd(year: int, month: int, day: int)

  predicate IsLeapYear(year: int) {
    year % 4 == 0 && (year % 100 != 0 || year % 400 == 0)
  }

  function DaysInMonth(year: int, month: int): (n: int)
    requires 1 <= month <= 12
    ensures 28 <= n <= 31
    ensures month == 2 ==> (n == 29 <==> IsLeapYear(year))
    ensures month != 2 ==> n >= 30
  {
    if month == 2 then (if IsLeapYear(year) then 29 else 28)
    else if month == 4 || month == 6 || month == 9 || month == 11 then 30
    else 31
  }

  /** What a `DateTime` constructor accepts (its upper year bound is not modelled). */
  predicate IsCalendarDate(d: Ymd) {
    1 <= d.year && 1 <= d.month <= 12 && 1 <= d.day <= DaysInMonth(d.year, d.month)
  }

  /** A date that exists: constructing one is where `DateTime` throws otherwise. */
  type Date = d: Ymd | IsCalendarDate(d) witness Ymd(1, 1, 1)

  function Min(a: int, b: int): int {
    if a <= b then a else b
  }

  /** `a < b` on dates. */
  predicate Before(a: Date, b: Date) {
    a.year < b.year ||
    (a.year == b.year && (a.month < b.month || (a.month == b.month && a.day < b.day)))
  }

  /** `a <= b` on dates. */
  predicate AtOrBefore(a: Date, b: Date) {
    !Before(b, a)
  }

  /** Months counted from January of year 0, so that consecutive months differ by one. */
  function MonthIndex(year: int, month: int): int {
    year * 12 + (month - 1)
  }

  function MonthOf(d: Date): int {
    MonthIndex(d.year, d.month)
  }

  predicate SameMonth(a: Date, b: Date) {
    a.year == b.year && a.month == b.month
  }

  /** `new DateTime(year, month, 1)`. */
  function FirstOfMonth(year: int, month: int): (d: Date)
    requires 1 <= year && 1 <= month <= 12
    ensures d.year == year && d.month == month && d.day == 1
  {
    Ymd(year, month, 1)
  }

  /** `new DateTime(year, month, 1).AddMonths(1).AddDays(-1)`. */
  function LastOfMonth(year: int, month: int): (d: Date)
    requires 1 <= year && 1 <= month <= 12
    ensures d.year == year && d.month == month && d.day == DaysInMonth(year, month)
  {
    Ymd(year, month, DaysInMonth(year, month))
  }

  /** The day `day` of the given month, clamped to the month's last day. */
  function ClampedDate(year: int, month: int, day: int): (d: Date)
    requires 1 <= year && 1 <= month <= 12 && 1 <= day
    ensures d.year == year && d.month == month
    ensures d.day == Min(day, DaysInMonth(year, month))
  {
    Ymd(year, month, Min(day, DaysInMonth(year, month)))
  }

  /** The (year, month) after the given one: December rolls over to January. */
  function NextMonth(year: int, month: int): (r: (int, int))
    requires 1 <= month <= 12
    ensures 1 <= r.1 <= 12 && r.0 >= year
    ensures MonthIndex(r.0, r.1) == MonthIndex(year, month) + 1
  {
    if month == 12 then (year + 1, 1) else (year, month + 1)
  }

  /** `d.AddMonths(1)`: the same day in the next month, clamped to that month's length. */
  function AddOneMonth(d: Date): (r: Date)
    ensures MonthOf(r) == MonthOf(d) + 1
    ensures r.day == Min(d.day, DaysInMonth(r.year, r.month))
  {
    var (y, m) := NextMonth(d.year, d.month);
    ClampedDate(y, m, d.day)
  }

  /** The window `first <= d && d <= last` of a month, as the queries write it. */
  predicate InMonthWindow(d: Date, year: int, month: int)
    requires 1 <= year && 1 <= month <= 12
  {
    AtOrBefore(FirstOfMonth(year, month), d) && AtOrBefore(d, LastOfMonth(year, month))
  }

  lemma MonthIndexInjective(y1: int, m1: int, y2: int, m2: int)
    requires 1 <= m1 <= 12 && 1 <= m2 <= 12
    ensures MonthIndex(y1, m1) == MonthIndex(y2, m2) <==> y1 == y2 && m1 == m2
  {
    if y1 < y2 {
      assert MonthIndex(y1, m1) < MonthIndex(y2, m2);
    } else if y2 < y1 {
      assert MonthIndex(y2, m2) < MonthIndex(y1, m1);
    }
  }

  /** Dates compare by month first and by day within a month. */
  lemma BeforeByMonth(a: Date, b: Date)
    ensures Before(a, b) <==> MonthOf(a) < MonthOf(b) || (MonthOf(a) == MonthOf(b) && a.day < b.day)
  {
    MonthIndexInjective(a.year, a.month, b.year, b.month);
    if a.year < b.year {
      assert MonthOf(a) < MonthOf(b);
    } else if b.year < a.year {
      assert MonthOf(b) < MonthOf(a);
    }
  }

  /** A date lies in the month window exactly when it is in that month. */
  lemma InMonthWindowIsSameMonth(d: Date, year: int, month: int)
    requires 1 <= year && 1 <= month <= 12
    ensures InMonthWindow(d, year, month) <==> d.year == year && d.month == month
  {
  }

  /** The first of a month is on or before a date exactly when its month is not later. */
  lemma FirstOfMonthAtOrBefore(year: int, month: int, today: Date)
    requires 1 <= year && 1 <= month <= 12
    ensures AtOrBefore(FirstOfMonth(year, month), today) <==> MonthIndex(year, month) <= MonthOf(today)
  {
    BeforeByMonth(today, FirstOfMonth(year, month));
  }
}
