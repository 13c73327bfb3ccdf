/** What the rules come to on the calendar page: from a date's month, day and weekday to whether the exchange opens, and
    when. */
module MarketDates {
  import opened Types
  import opened CivilDates
  import opened Timestamps
  import opened Holidays
  import opened Calendars

  // ---------------------------------------------------------------------------
  // Easter and the moon
  // ---------------------------------------------------------------------------

  /** Days from March 21 to the full moon that the lunar cycle and the two century corrections give. */
  function MoonAge(y: nat): nat {
    var century := y / 100;
    (19 * (y % 19) + 15 + century - century / 4 - (8 * century + 13) / 25) % 30
  }

  /** The Paschal full moon: never April 19, and April 18 in the first eleven years of the lunar cycle only. */
  function PaschalMoon(y: nat): int {
    var age := MoonAge(y);
    DayNumber(y, 3, 21) + if age == 29 || (age == 28 && y % 19 >= 11) then age - 1 else age
  }

  lemma CenturyCorrections(b: nat)
    ensures (b - (b + 8) / 25 + 1) / 3 == (8 * b + 13) / 25
  {
    var q, r := b / 25, b % 25;
    assert b == 25 * q + r;
    assert (b + 8) / 25 == q + (r + 8) / 25;
    assert (8 * b + 13) / 25 == 8 * q + (8 * r + 13) / 25;
    assert (b - (b + 8) / 25 + 1) / 3 == 8 * q + (r - (r + 8) / 25 + 1) / 3;
  }

  lemma AgeIsEpactTerm(y: nat)
    ensures EasterH(y) == MoonAge(y)
  {
    CenturyCorrections(y / 100);
    assert y / 400 == y / 100 / 4;
  }

  /** Easter is the first Sunday after the Paschal full moon, in every year. */
  lemma EasterFollowsTheFullMoon(y: nat)
    ensures Weekday(EasterSunday(y)) == SUNDAY
    ensures PaschalMoon(y) < EasterSunday(y) <= PaschalMoon(y) + 7
  {
    EasterIsASunday(y);
    EasterIsAfterMarch22(y);
    AgeIsEpactTerm(y);
    EasterRange(y);
    hide EasterH, EasterL, EasterSunday, MoonAge, Weekday, DaysBeforeYear;
    OneWeekAtMost(y % 19, EasterH(y), EasterL(y));
  }

  lemma OneWeekAtMost(a: nat, h: nat, l: nat)
    requires a < 19 && h < 30 && l < 7
    ensures var early := if h == 29 || (h == 28 && a >= 11) then 1 else 0;
            1 <= l + 1 + early - 7 * ((a + 11 * h + 22 * l) / 451) <= 7
  {
  }

  // ---------------------------------------------------------------------------
  // Dates within their month
  // ---------------------------------------------------------------------------

  lemma OwnYear(d: Date)
    requires ValidDate(d) && d.year >= 0
    ensures YearOf(DayOf(d)) == d.year && RuleYear(DayOf(d)) == d.year
  {
    DateRoundTrip(d);
    hide DateOf, DayOf;
  }

  /** A day number between two of a month's belongs to a date of that month. */
  lemma InTheMonth(d: Date, m: int, first: int, last: int)
    requires ValidDate(d) && 1 <= m <= 12 && 1 <= first <= last <= MonthLength(d.year, m)
    ensures DayNumber(d.year, m, first) <= DayOf(d) <= DayNumber(d.year, m, last)
            <==> d.month == m && first <= d.day <= last
  {
    if d.month < m {
      MonthsAscend(d.year, d.month, m);
    } else if d.month > m {
      MonthsAscend(d.year, m, d.month);
    }
    hide DaysBeforeMonth, DaysBeforeYear, MonthLength;
  }

  /** One weekday falls once in seven days. */
  lemma OnceAWeek(a: int, b: int, w: int)
    requires Weekday(a) == w && Weekday(b) == w && a - 7 < b < a + 7
    ensures a == b
  {
  }

  /** The n-th weekday of a month is the one among seven consecutive dates. */
  lemma NthByDate(d: Date, m: int, w: int, n: int)
    requires ValidDate(d) && 1 <= m <= 12 && 1 <= w <= 7 && 1 <= n <= 4
    ensures DayOf(d) == NthWeekday(d.year, m, w, n)
            <==> d.month == m && 7 * n - 6 <= d.day <= 7 * n && Weekday(DayOf(d)) == w
  {
    NthIsTheNth(d.year, m, w, n);
    InTheMonth(d, m, 7 * n - 6, 7 * n);
    assert DayNumber(d.year, m, 7 * n - 6) == DayNumber(d.year, m, 1) + 7 * (n - 1);
    assert DayNumber(d.year, m, 7 * n) == DayNumber(d.year, m, 1) + 7 * n - 1;
    hide DayNumber, DayOf, Weekday, NthWeekday, CountWeekdays;
    var r := NthWeekday(d.year, m, w, n);
    if d.month == m && 7 * n - 6 <= d.day <= 7 * n && Weekday(DayOf(d)) == w {
      OnceAWeek(DayOf(d), r, w);
    }
  }

  /** The last Monday of May is one of its last seven days. */
  lemma MemorialByDate(d: Date)
    requires ValidDate(d)
    ensures DayOf(d) == NthWeekday(d.year, 5, MONDAY, -1)
            <==> d.month == 5 && 25 <= d.day && Weekday(DayOf(d)) == MONDAY
  {
    NthFromTheBack(d.year, 5, MONDAY, -1);
    InTheMonth(d, 5, 25, 31);
    assert DayNumber(d.year, 5, 31) == DayNumber(d.year, 5, 25) + 6;
    hide DayNumber, DayOf, Weekday, NthWeekday, CountWeekdays;
    var r := NthWeekday(d.year, 5, MONDAY, -1);
    if d.month == 5 && 25 <= d.day && Weekday(DayOf(d)) == MONDAY {
      OnceAWeek(DayOf(d), r, MONDAY);
    }
  }

  // ---------------------------------------------------------------------------
  // Closures and early closes, by date
  // ---------------------------------------------------------------------------

  /** A fixed holiday is kept on its own weekday, on the Friday before a Saturday or on the Monday after a Sunday. */
  predicate Keeps(d: Date, month: int, day: int)
    requires ValidDate(d)
  {
    var w := Weekday(DayOf(d));
    && d.month == month
    && ((d.day == day && w <= FRIDAY) || (d.day == day - 1 && w == FRIDAY) || (d.day == day + 1 && w == MONDAY))
  }

  lemma ObservedByDate(d: Date, month: int, day: int)
    requires ValidDate(d) && 1 <= month <= 12 && 2 <= day <= 27
    ensures DayOf(d) == Observed(DayNumber(d.year, month, day)) <==> Keeps(d, month, day)
  {
    hide DayNumber, DayOf, DaysBeforeYear, DaysBeforeMonth, MonthLength, Leap, LeapsThrough, Weekday;
    InTheMonth(d, month, day, day);
    InTheMonth(d, month, day - 1, day - 1);
    InTheMonth(d, month, day + 1, day + 1);
    SteppingDays(d.year, month, day);
    WeekdayAdvances(DayNumber(d.year, month, day - 1), 1);
    WeekdayAdvances(DayNumber(d.year, month, day), 1);
  }

  lemma SteppingDays(y: int, m: int, day: int)
    requires 1 <= m <= 12
    ensures DayNumber(y, m, day - 1) == DayNumber(y, m, day) - 1
    ensures DayNumber(y, m, day + 1) == DayNumber(y, m, day) + 1
  {
  }

  /** New Year is kept within the year on January 1 or 2, and the coming one on a December 31 that is a Friday. */
  predicate KeepsNewYear(d: Date)
    requires ValidDate(d)
  {
    var w := Weekday(DayOf(d));
    || (d.month == 1 && d.day == 1 && w <= FRIDAY) || (d.month == 1 && d.day == 2 && w == MONDAY)
    || (d.month == 12 && d.day == 31 && w == FRIDAY)
  }

  lemma StartsTheYear(d: Date)
    requires ValidDate(d)
    ensures DayNumber(d.year, 1, 1) <= DayOf(d) < DayNumber(d.year + 1, 1, 1)
  {
    WithinYear(d);
    hide DaysBeforeYear, MonthLength, Leap;
  }

  lemma NewYearsEve(d: Date)
    requires ValidDate(d)
    ensures DayOf(d) == DayNumber(d.year, 12, 31) <==> d.month == 12 && d.day == 31
  {
    InTheMonth(d, 12, 31, 31);
    hide DayNumber, DayOf;
  }

  lemma OwnNewYear(d: Date)
    requires ValidDate(d)
    ensures DayOf(d) == Observed(DayNumber(d.year, 1, 1))
            <==> d.month == 1 && ((d.day == 1 && Weekday(DayOf(d)) <= FRIDAY)
                                  || (d.day == 2 && Weekday(DayOf(d)) == MONDAY))
  {
    hide DayNumber, DayOf, DaysBeforeYear, DaysBeforeMonth, MonthLength, Leap, LeapsThrough, Weekday;
    InTheMonth(d, 1, 1, 1);
    InTheMonth(d, 1, 2, 2);
    StartsTheYear(d);
    SteppingDays(d.year, 1, 1);
    WeekdayAdvances(DayNumber(d.year, 1, 1), 1);
  }

  lemma ComingNewYear(d: Date)
    requires ValidDate(d) && d.year >= 0
    ensures var next := Observed(DayNumber(d.year + 1, 1, 1));
            YearOf(next) == d.year && DayOf(d) == next
            <==> d.month == 12 && d.day == 31 && Weekday(DayOf(d)) == FRIDAY
  {
    hide DayNumber, DayOf, DaysBeforeYear, DaysBeforeMonth, MonthLength, Leap, LeapsThrough, Weekday, YearOf;
    NewYearsEve(d);
    NextNewYear(d.year);
    WeekdayAdvances(DayNumber(d.year, 12, 31), 1);
  }

  /** The exchange's holidays by month, day and weekday. */
  predicate Holiday(d: Date)
    requires ValidDate(d) && d.year >= 0
  {
    var n := DayOf(d);
    var w := Weekday(n);
    || KeepsNewYear(d)
    || (w == MONDAY && (d.month == 1 || d.month == 2) && 15 <= d.day <= 21)
    || n == EasterSunday(d.year) - 2
    || (w == MONDAY && d.month == 5 && 25 <= d.day)
    || (d.year >= 2022 && Keeps(d, 6, 19))
    || Keeps(d, 7, 4)
    || (w == MONDAY && d.month == 9 && d.day <= 7)
    || (w == THURSDAY && d.month == 11 && 22 <= d.day <= 28)
    || Keeps(d, 12, 25)
  }

  /** July 3 and Christmas Eve up to a Thursday, and the Friday after Thanksgiving. */
  predicate EarlyClose(d: Date)
    requires ValidDate(d)
  {
    var w := Weekday(DayOf(d));
    || (w <= THURSDAY && d.month == 7 && d.day == 3)
    || (w == FRIDAY && d.month == 11 && 23 <= d.day <= 29)
    || (w <= THURSDAY && d.month == 12 && d.day == 24)
  }

  /** The rules close exactly these dates. */
  lemma HolidayByDate(d: Date)
    requires ValidDate(d) && d.year >= 0
    ensures DayOf(d) in FullHolidays(d.year) <==> Holiday(d)
  {
    hide FullHolidays, Observed, NthWeekday, EasterSunday, YearOf, DateOf, Keeps,
         DayNumber, DayOf, DaysBeforeYear, DaysBeforeMonth, MonthLength, Leap, LeapsThrough, Weekday;
    FullHolidaysAre(d.year, DayOf(d));
    OwnNewYear(d);
    ComingNewYear(d);
    NthByDate(d, 1, MONDAY, 3);
    NthByDate(d, 2, MONDAY, 3);
    MemorialByDate(d);
    ObservedByDate(d, 6, 19);
    ObservedByDate(d, 7, 4);
    NthByDate(d, 9, MONDAY, 1);
    NthByDate(d, 11, THURSDAY, 4);
    ObservedByDate(d, 12, 25);
  }

  /** And shorten exactly these. */
  lemma EarlyCloseByDate(d: Date)
    requires ValidDate(d) && d.year >= 0
    ensures DayOf(d) in HalfDays(d.year) <==> EarlyClose(d)
  {
    hide FullHolidays, HalfDays, NthWeekday, EasterSunday,
         DayNumber, DayOf, DaysBeforeYear, DaysBeforeMonth, MonthLength, Leap, LeapsThrough, Weekday;
    var n := DayOf(d);
    HalfDaysAre(d.year, n);
    HolidayByDate(d);
    InTheMonth(d, 7, 3, 3);
    InTheMonth(d, 12, 24, 24);
    SteppingDays(d.year, 7, 3);
    DayAfterFourthThursday(d);
    WeekdayAdvances(n, 1);
    if d.month >= 5 {
      EasterIsBeforeMay(d);
    }
  }

  lemma DayAfterFourthThursday(d: Date)
    requires ValidDate(d)
    ensures DayOf(d) == NthWeekday(d.year, 11, THURSDAY, 4) + 1
            <==> d.month == 11 && 23 <= d.day <= 29 && Weekday(DayOf(d)) == FRIDAY
  {
    NthIsTheNth(d.year, 11, THURSDAY, 4);
    InTheMonth(d, 11, 23, 29);
    assert DayNumber(d.year, 11, 23) == DayNumber(d.year, 11, 1) + 22;
    assert DayNumber(d.year, 11, 29) == DayNumber(d.year, 11, 1) + 28;
    AfterThursday(NthWeekday(d.year, 11, THURSDAY, 4));
    hide DayNumber, DayOf, Weekday, NthWeekday, CountWeekdays;
    if d.month == 11 && 23 <= d.day <= 29 && Weekday(DayOf(d)) == FRIDAY {
      OnceAWeek(DayOf(d), NthWeekday(d.year, 11, THURSDAY, 4) + 1, FRIDAY);
    }
  }

  lemma EasterIsBeforeMay(d: Date)
    requires ValidDate(d) && d.year >= 0 && d.month >= 5
    ensures DayOf(d) != EasterSunday(d.year) - 2
  {
    EasterIsASunday(d.year);
    MonthsAscend(d.year, 4, d.month);
    hide EasterSunday, DaysBeforeYear;
  }

  // ---------------------------------------------------------------------------
  // Daylight time and sessions, by date
  // ---------------------------------------------------------------------------

  /** From April to October; in March once the second Sunday has come, in November before the first has. The latest
      Sunday up to a date is as many days back as its weekday counts past Sunday. */
  predicate Summer(d: Date)
    requires ValidDate(d)
  {
    var latestSunday := d.day - Weekday(DayOf(d)) % 7;
    if d.month == 3 then latestSunday >= 8
    else if d.month == 11 then latestSunday < 1
    else 3 < d.month < 11
  }

  /** The n-th Sunday of a month and a date of that month. */
  lemma SundayOrLater(d: Date, n: int)
    requires ValidDate(d) && 1 <= n <= 4
    ensures DayOf(d) >= NthWeekday(d.year, d.month, SUNDAY, n)
            <==> d.day - Weekday(DayOf(d)) % 7 >= 7 * n - 6
  {
    hide NthWeekday, CountWeekdays, DaysBeforeYear, DaysBeforeMonth, MonthLength, Leap, LeapsThrough, Weekday;
    NthIsTheNth(d.year, d.month, SUNDAY, n);
    LatestSunday(DayOf(d));
    SameOrWeeksApart(NthWeekday(d.year, d.month, SUNDAY, n), DayOf(d) - Weekday(DayOf(d)) % 7);
  }

  lemma LatestSunday(n: int)
    ensures Weekday(n - Weekday(n) % 7) == SUNDAY
  {
  }

  lemma SameOrWeeksApart(a: int, b: int)
    requires Weekday(a) == Weekday(b)
    ensures a == b || a - b <= -7 || a - b >= 7
  {
  }

  lemma DaylightByDate(d: Date)
    requires ValidDate(d)
    ensures DaylightTime(DayOf(d), d.year) <==> Summer(d)
  {
    hide NthWeekday, CountWeekdays, DaysBeforeYear, DaysBeforeMonth, MonthLength, Leap, LeapsThrough, Weekday,
         DayNumber, DayOf;
    if d.month == 3 {
      SundayOrLater(d, 2);
    }
    if d.month == 11 {
      SundayOrLater(d, 1);
    }
    MarchSunday(d);
    NovemberSunday(d);
  }

  lemma MarchSunday(d: Date)
    requires ValidDate(d)
    ensures d.month < 3 ==> DayOf(d) < NthWeekday(d.year, 3, SUNDAY, 2)
    ensures d.month > 3 ==> DayOf(d) > NthWeekday(d.year, 3, SUNDAY, 2)
  {
    hide NthWeekday, CountWeekdays, DaysBeforeYear, DaysBeforeMonth, Leap, LeapsThrough, Weekday;
    NthIsTheNth(d.year, 3, SUNDAY, 2);
    BeforeAndAfter(d, 3);
  }

  lemma NovemberSunday(d: Date)
    requires ValidDate(d)
    ensures d.month < 11 ==> DayOf(d) < NthWeekday(d.year, 11, SUNDAY, 1)
    ensures d.month > 11 ==> DayOf(d) > NthWeekday(d.year, 11, SUNDAY, 1)
  {
    hide NthWeekday, CountWeekdays, DaysBeforeYear, DaysBeforeMonth, Leap, LeapsThrough, Weekday;
    NthIsTheNth(d.year, 11, SUNDAY, 1);
    BeforeAndAfter(d, 11);
  }

  lemma BeforeAndAfter(d: Date, m: int)
    requires ValidDate(d) && 1 <= m <= 12
    ensures d.month < m ==> DayOf(d) < DayNumber(d.year, m, 1)
    ensures d.month > m ==> DayOf(d) > DayNumber(d.year, m, 28)
  {
    hide DaysBeforeMonth, DaysBeforeYear, Leap, MonthLength;
    if d.month < m {
      MonthsAscend(d.year, d.month, m);
    } else if d.month > m {
      MonthsAscend(d.year, m, d.month);
    }
  }

  /** The two days of mourning on the list. */
  predicate Mourning(d: Date) {
    d == Date(2018, 12, 5) || d == Date(2025, 1, 9)
  }

  /** What kind of day a date is for US equities. */
  function UsKind(d: Date): SessionKind
    requires ValidDate(d) && d.year >= 0
  {
    if Mourning(d) || Weekday(DayOf(d)) >= SATURDAY || Holiday(d) then Closed
    else if EarlyClose(d) then HalfDay
    else Regular
  }

  /** The first exception for a day is the one that counts. */
  lemma {:induction false} FirstExceptionDecides(exceptions: seq<CalendarException>, n: int, k: nat)
    requires k < |exceptions| && DayOfInstant(exceptions[k].date) == n
    requires forall j :: 0 <= j < k ==> DayOfInstant(exceptions[j].date) != n
    ensures Override(exceptions, n) == Some(exceptions[k].kind)
  {
    if k > 0 {
      assert DayOfInstant(exceptions[0].date) != n;
      FirstExceptionDecides(exceptions[1..], n, k - 1);
    }
  }

  lemma TwoExceptions(a: CalendarException, b: CalendarException, n: int)
    ensures Override([a, b], n)
            == if DayOfInstant(a.date) == n then Some(a.kind)
               else if DayOfInstant(b.date) == n then Some(b.kind)
               else None
  {
    assert [a, b][1..] == [b];
    assert [b][1..] == [];
    assert Override([], n) == None;
  }

  lemma DayStarts(n: int)
    ensures DayOfInstant(n * NANOS_PER_DAY) == n
  {
  }

  lemma UsOverride(d: Date)
    requires ValidDate(d)
    ensures Override(UsEquities().exceptions, DayOf(d)) == if Mourning(d) then Some(Closed) else None
  {
    hide DayNumber, Override, DayOfInstant;
    var a, b := Date(2018, 12, 5), Date(2025, 1, 9);
    assert DayOf(a) == DayNumber(2018, 12, 5) && DayOf(b) == DayNumber(2025, 1, 9);
    hide DayOf;
    TwoExceptions(CalendarException(DayOf(a) * NANOS_PER_DAY, Closed),
                  CalendarException(DayOf(b) * NANOS_PER_DAY, Closed), DayOf(d));
    DayStarts(DayOf(a));
    DayStarts(DayOf(b));
    if DayOf(d) == DayOf(a) {
      DayIsInjective(d, a);
    }
    if DayOf(d) == DayOf(b) {
      DayIsInjective(d, b);
    }
    assert UsEquities().exceptions == [CalendarException(DayOf(a) * NANOS_PER_DAY, Closed),
                                       CalendarException(DayOf(b) * NANOS_PER_DAY, Closed)];
  }

  lemma UsKindByDate(d: Date)
    requires ValidDate(d) && d.year >= 0
    ensures KindOf(UsEquities(), d.year, DayOf(d)) == UsKind(d)
  {
    hide FullHolidays, HalfDays, Holiday, EarlyClose, Override, Mourning, UsEquities, DayOf, Weekday;
    UsOverride(d);
    HolidayByDate(d);
    EarlyCloseByDate(d);
  }

  /** An instant given as hours and minutes of UTC on a date. */
  function At(d: Date, hours: int, minutes: int): Timestamp
    requires ValidDate(d)
  {
    DayOf(d) * NANOS_PER_DAY + hours * NANOS_PER_HOUR + minutes * NANOS_PER_MINUTE
  }

  /** The session of every date: 13:30 to 20:00 UTC in summer and 14:30 to 21:00 in winter, three hours shorter on half
      days, and none on weekends, holidays and days of mourning. */
  lemma UsSessionByDate(d: Date)
    requires ValidDate(d) && d.year >= 0
    ensures var s, later := SessionOf(UsEquities(), DayOf(d)), if Summer(d) then 0 else 1;
            && s.date == At(d, 0, 0) && s.kind == UsKind(d)
            && (s.IsOpen() ==>
                  && s.open == At(d, 13 + later, 30)
                  && s.close == At(d, (if s.kind == HalfDay then 17 else 20) + later, 0))
  {
    hide KindOf, UsKind, Summer, DaylightTime, RuleYear, DayOf;
    OwnYear(d);
    UsKindByDate(d);
    DaylightByDate(d);
    UsHours();
    hide UsEquities;
  }

  lemma UsHours()
    ensures UsEquities().regularOpen == 9 * NANOS_PER_HOUR + 30 * NANOS_PER_MINUTE
    ensures UsEquities().regularClose == 16 * NANOS_PER_HOUR && UsEquities().halfDayClose == 13 * NANOS_PER_HOUR
    ensures UsEquities().standardOffset == -5 && UsEquities().daylightOffset == -4
  {
  }

  /** From April to October the exchange opens at 13:30, from December to February at 14:30, in every year. */
  lemma SummerAndWinterOpens(d: Date)
    requires ValidDate(d) && d.year >= 0 && SessionOf(UsEquities(), DayOf(d)).IsOpen()
    ensures 4 <= d.month <= 10 ==> SessionOf(UsEquities(), DayOf(d)).open == At(d, 13, 30)
    ensures d.month == 12 || d.month <= 2 ==> SessionOf(UsEquities(), DayOf(d)).open == At(d, 14, 30)
  {
    UsSessionByDate(d);
    hide SessionOf, UsEquities, DayOf, UsKind;
  }
}
