/** The proleptic Gregorian calendar: days since 1970-01-01 to and from year, month and day. */
module CivilDates {

  datatype Date = Date(year: int, month: int, day: int)

  predicate Leap(y: int) {
    y % 4 == 0 && (y % 100 != 0 || y % 400 == 0)
  }

  function MonthLength(y: int, m: int): (n: int)
    requires 1 <= m <= 12
    ensures 28 <= n <= 31
  {
    if m == 2 then if Leap(y) then 29 else 28
    else if m == 4 || m == 6 || m == 9 || m == 11 then 30
    else 31
  }

  predicate ValidDate(d: Date) {
    1 <= d.month <= 12 && 1 <= d.day <= MonthLength(d.year, d.month)
  }

  /** Leap years up to and including year y, from a common origin. */
  function LeapsThrough(y: int): int {
    y / 4 - y / 100 + y / 400
  }

  /** Days from 1970-01-01 to the first day of the year. */
  function DaysBeforeYear(y: int): int {
    365 * (y - 1970) + LeapsThrough(y - 1) - 477
  }

  /** Days from the first day of the year to the first of the month. */
  function DaysBeforeMonth(y: int, m: int): int
    requires 1 <= m <= 13
  {
    var common := if m == 1 then 0 else if m == 2 then 31 else if m == 3 then 59 else if m == 4 then 90
                  else if m == 5 then 120 else if m == 6 then 151 else if m == 7 then 181 else if m == 8 then 212
                  else if m == 9 then 243 else if m == 10 then 273 else if m == 11 then 304 else if m == 12 then 334
                  else 365;
    common + if m > 2 && Leap(y) then 1 else 0
  }

  /** The day number; a day beyond the month counts on into the following months. */
  function DayNumber(y: int, m: int, d: int): int
    requires 1 <= m <= 12
  {
    DaysBeforeYear(y) + DaysBeforeMonth(y, m) + d - 1
  }

  function DayOf(d: Date): int
    requires 1 <= d.month <= 12
  {
    DayNumber(d.year, d.month, d.day)
  }

  /** The calendar's own rule for the next day. */
  function NextDay(d: Date): Date
    requires ValidDate(d)
  {
    if d.day < MonthLength(d.year, d.month) then d.(day := d.day + 1)
    else if d.month < 12 then Date(d.year, d.month + 1, 1)
    else Date(d.year + 1, 1, 1)
  }

  function PreviousDay(d: Date): Date
    requires ValidDate(d)
  {
    if d.day > 1 then d.(day := d.day - 1)
    else if d.month > 1 then Date(d.year, d.month - 1, MonthLength(d.year, d.month - 1))
    else Date(d.year - 1, 12, 31)
  }

  lemma LeapYearCounts(y: int)
    ensures LeapsThrough(y) == LeapsThrough(y - 1) + if Leap(y) then 1 else 0
  {
    QuotientSteps(y, 4);
    QuotientSteps(y, 100);
    QuotientSteps(y, 400);
  }

  lemma QuotientSteps(y: int, k: int)
    requires k == 4 || k == 100 || k == 400
    ensures y / k == (y - 1) / k + if y % k == 0 then 1 else 0
  {
  }

  lemma YearLength(y: int)
    ensures DaysBeforeYear(y + 1) == DaysBeforeYear(y) + if Leap(y) then 366 else 365
    ensures DaysBeforeYear(y + 1) == DaysBeforeYear(y) + DaysBeforeMonth(y, 13)
  {
    LeapYearCounts(y);
  }

  lemma MonthStep(y: int, m: int)
    requires 1 <= m <= 12
    ensures DaysBeforeMonth(y, m + 1) == DaysBeforeMonth(y, m) + MonthLength(y, m)
  {
  }

  /** The day number follows the calendar's rule, forward and backward. */
  lemma NextDayIsNext(d: Date)
    requires ValidDate(d)
    ensures ValidDate(NextDay(d)) && DayOf(NextDay(d)) == DayOf(d) + 1
  {
    hide LeapsThrough;
    YearLength(d.year);
    MonthStep(d.year, d.month);
    hide Leap, DaysBeforeYear;
  }

  lemma PreviousDayIsPrevious(d: Date)
    requires ValidDate(d)
    ensures ValidDate(PreviousDay(d)) && DayOf(PreviousDay(d)) == DayOf(d) - 1
  {
    YearLength(d.year - 1);
    if d.month > 1 {
      MonthStep(d.year, d.month - 1);
    }
    hide Leap, DaysBeforeYear, LeapsThrough;
  }

  /** The date of a day number, stepping day by day from 1970-01-01. */
  function DateOf(n: int): (d: Date)
    ensures ValidDate(d) && DayOf(d) == n
    decreases if n < 0 then -n else n
  {
    if n == 0 then
      assert DayOf(Date(1970, 1, 1)) == 0;
      Date(1970, 1, 1)
    else if n > 0 then
      NextDayIsNext(DateOf(n - 1));
      NextDay(DateOf(n - 1))
    else
      PreviousDayIsPrevious(DateOf(n + 1));
      PreviousDay(DateOf(n + 1))
  }

  /** A date lies within its year. */
  lemma WithinYear(d: Date)
    requires ValidDate(d)
    ensures DaysBeforeYear(d.year) <= DayOf(d) < DaysBeforeYear(d.year + 1)
  {
    YearLength(d.year);
    MonthStep(d.year, d.month);
    hide Leap, DaysBeforeYear;
  }

  lemma {:induction false} YearsAscend(a: int, b: int)
    requires a <= b
    ensures DaysBeforeYear(a) <= DaysBeforeYear(b)
    decreases b - a
  {
  }

  lemma MonthsAscend(y: int, a: int, b: int)
    requires 1 <= a < b <= 12
    ensures DaysBeforeMonth(y, a) + MonthLength(y, a) <= DaysBeforeMonth(y, b)
  {
  }

  lemma EarlierYear(a: Date, b: Date)
    requires ValidDate(a) && ValidDate(b) && a.year < b.year
    ensures DayOf(a) < DayOf(b)
  {
    hide *;
    WithinYear(a);
    WithinYear(b);
    YearsAscend(a.year + 1, b.year);
  }

  lemma EarlierMonth(a: Date, b: Date)
    requires ValidDate(a) && ValidDate(b) && a.year == b.year && a.month < b.month
    ensures DayOf(a) < DayOf(b)
  {
    MonthsAscend(a.year, a.month, b.month);
    hide DaysBeforeYear, DaysBeforeMonth, MonthLength, Leap, LeapsThrough;
  }

  /** Different dates have different day numbers. */
  lemma DayIsInjective(a: Date, b: Date)
    requires ValidDate(a) && ValidDate(b) && DayOf(a) == DayOf(b)
    ensures a == b
  {
    hide DaysBeforeYear, DaysBeforeMonth, MonthLength, Leap, LeapsThrough;
    if a.year != b.year {
      EarlierYear(if a.year < b.year then a else b, if a.year < b.year then b else a);
    } else if a.month != b.month {
      EarlierMonth(if a.month < b.month then a else b, if a.month < b.month then b else a);
    }
  }

  /** Days to dates and back, and dates to days and back, for every integer day and every valid date. */
  lemma DateRoundTrip(d: Date)
    requires ValidDate(d)
    ensures DateOf(DayOf(d)) == d
  {
    DayIsInjective(DateOf(DayOf(d)), d);
  }

  /** A day number within a year has that year's date. */
  lemma YearOfDay(n: int, y: int)
    ensures DateOf(n).year == y <==> DaysBeforeYear(y) <= n < DaysBeforeYear(y + 1)
  {
    hide DaysBeforeYear, DayNumber, DayOf, LeapsThrough;
    YearOfDate(DateOf(n), y);
  }

  lemma YearOfDate(d: Date, y: int)
    requires ValidDate(d)
    ensures d.year == y <==> DaysBeforeYear(y) <= DayOf(d) < DaysBeforeYear(y + 1)
  {
    hide DaysBeforeYear, DayNumber, DayOf, LeapsThrough;
    WithinYear(d);
    if d.year < y {
      YearsAscend(d.year + 1, y);
    } else if d.year > y {
      YearsAscend(y + 1, d.year);
    }
  }

  // ---------------------------------------------------------------------------
  // Weekdays
  // ---------------------------------------------------------------------------

  const MONDAY := 1
  const THURSDAY := 4
  const FRIDAY := 5
  const SATURDAY := 6
  const SUNDAY := 7

  /** Monday is 1 and Sunday is 7; 1970-01-01 was a Thursday. */
  function Weekday(n: int): (w: int)
    ensures 1 <= w <= 7
  {
    (n + 3) % 7 + 1
  }

  lemma WeekdayShifts(n: int, k: int)
    ensures Weekday(n + 7 * k) == Weekday(n)
  {
  }

  lemma WeekdayAdvances(n: int, k: int)
    requires 0 <= k < 7
    ensures Weekday(n + k) == (if Weekday(n) + k <= 7 then Weekday(n) + k else Weekday(n) + k - 7)
  {
  }
}
