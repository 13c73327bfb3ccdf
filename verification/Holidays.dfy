/** US exchange holidays from rules: Easter, the n-th weekday of a month, and observed dates. Dates are day numbers. */
module Holidays {
  import opened CivilDates

  // ---------------------------------------------------------------------------
  // Easter
  // ---------------------------------------------------------------------------

  /** The Gregorian epact term. */
  function EasterH(y: nat): nat {
    var a, b, d := y % 19, y / 100, y / 400;
    var g := (b - (b + 8) / 25 + 1) / 3;
    (19 * a + b - d - g + 15) % 30
  }

  /** The days to the following Sunday. */
  function EasterL(y: nat): nat {
    var e, c := (y / 100) % 4, y % 100;
    (32 + 2 * e + 2 * (c / 4) - EasterH(y) - c % 4) % 7
  }

  /** One when the date would fall a week too late. */
  function EasterM(y: nat): nat {
    (y % 19 + 11 * EasterH(y) + 22 * EasterL(y)) / 451
  }

  /** The month and day by the anonymous Gregorian algorithm. */
  function EasterSunday(y: nat): int {
    var p := EasterH(y) + EasterL(y) - 7 * EasterM(y) + 114;
    EasterRange(y);
    DayNumber(y, p / 31, p % 31 + 1)
  }

  lemma EasterRange(y: nat)
    ensures EasterH(y) < 30 && EasterL(y) < 7 && EasterM(y) <= 1
    ensures 0 <= EasterH(y) + EasterL(y) - 7 * EasterM(y) <= 34
  {
    hide EasterH, EasterL;
    assert EasterH(y) < 30 && EasterL(y) < 7 by { Residues(y); }
    Late(y % 19, EasterH(y), EasterL(y));
  }

  lemma Residues(y: nat)
    ensures EasterH(y) < 30 && EasterL(y) < 7
  {
  }

  lemma Late(a: nat, h: nat, l: nat)
    requires a < 19 && h < 30 && l < 7
    ensures (a + 11 * h + 22 * l) / 451 <= 1
    ensures 0 <= h + l - 7 * ((a + 11 * h + 22 * l) / 451) <= 34
  {
  }

  /** March 22 of a year, in terms of the century and the year within it. */
  lemma March22(y: nat)
    ensures var d, e, i, k := y / 400, (y / 100) % 4, (y % 100) / 4, y % 4;
            DayNumber(y, 3, 22) == 365 * (y - 1970) + (25 * (4 * d + e) + i - (4 * d + e) + d) - 477 + 80
            && y == 100 * (4 * d + e) + 4 * i + k && k == (y % 100) % 4
  {
    LeapYearCounts(y);
    assert y / 4 == 25 * (y / 100) + (y % 100) / 4;
    assert y / 400 == y / 100 / 4;
  }

  /** The weekday arithmetic: 5 e + 5 i + k - 1 days past a multiple of seven. */
  lemma March22Weekday(y: nat)
    ensures var e, i, k := (y / 100) % 4, (y % 100) / 4, y % 4;
            (DayNumber(y, 3, 22) - (5 * e + 5 * i + k - 1)) % 7 == 0
  {
    hide DayNumber;
    March22(y);
    var d, e, i, k := y / 400, (y / 100) % 4, (y % 100) / 4, y % 4;
    WholeWeeks(DayNumber(y, 3, 22), y, d, e, i, k);
  }

  lemma WholeWeeks(n: int, y: int, d: int, e: int, i: int, k: int)
    requires n == 365 * (y - 1970) + (25 * (4 * d + e) + i - (4 * d + e) + d) - 477 + 80
    requires y == 100 * (4 * d + e) + 4 * i + k
    ensures (n - (5 * e + 5 * i + k - 1)) % 7 == 0
  {
    SevenDivides(n - (5 * e + 5 * i + k - 1), 20871 * d + 5217 * e + 208 * i + 52 * k - 102778);
  }

  lemma SevenDivides(n: int, weeks: int)
    requires n == 7 * weeks
    ensures n % 7 == 0
  {
  }

  /** Easter is a Sunday, from March 22 to April 25, in every year. */
  lemma EasterIsASunday(y: nat)
    ensures Weekday(EasterSunday(y)) == SUNDAY
    ensures DayNumber(y, 3, 22) <= EasterSunday(y) <= DayNumber(y, 4, 25)
  {
    EasterRange(y);
    EasterIsAfterMarch22(y);
    March22Weekday(y);
    hide DayNumber, EasterSunday, EasterM, EasterH;
    Cancels(y);
  }

  lemma EasterIsAfterMarch22(y: nat)
    ensures EasterSunday(y) == DayNumber(y, 3, 22) + EasterH(y) + EasterL(y) - 7 * EasterM(y)
    ensures DayNumber(y, 4, 25) == DayNumber(y, 3, 22) + 34
  {
    EasterRange(y);
    hide EasterH, EasterL, EasterM, Leap, DaysBeforeYear;
  }

  /** h + l makes up for the weekday of March 22. */
  lemma Cancels(y: nat)
    ensures var e, i, k := (y / 100) % 4, (y % 100) / 4, y % 4;
            (EasterH(y) + EasterL(y) - (32 + 2 * e + 2 * i - k)) % 7 == 0
  {
    hide EasterH;
    assert y % 4 == (y % 100) % 4;
  }

  // ---------------------------------------------------------------------------
  // The n-th weekday of a month
  // ---------------------------------------------------------------------------

  /** For n > 0 the n-th such weekday counted from the first of the month, else counted back from the last. */
  function NthWeekday(y: int, m: int, w: int, n: int): int
    requires 1 <= m <= 12 && 1 <= w <= 7 && n != 0
  {
    if n > 0 then
      var first := Weekday(DayNumber(y, m, 1));
      DayNumber(y, m, 1 + (w + 7 - first) % 7 + (n - 1) * 7)
    else
      var lastDay := MonthLength(y, m);
      var last := Weekday(DayNumber(y, m, lastDay));
      DayNumber(y, m, lastDay - (last + 7 - w) % 7 - (-n - 1) * 7)
  }

  /** How many of the n days from a day on fall on a weekday. */
  function CountWeekdays(day: int, n: nat, w: int): nat {
    if n == 0 then 0 else CountWeekdays(day, n - 1, w) + if Weekday(day + n - 1) == w then 1 else 0
  }

  lemma {:induction false} NoneBefore(day: int, n: nat, w: int)
    requires 1 <= w <= 7 && n <= (w + 7 - Weekday(day)) % 7
    ensures CountWeekdays(day, n, w) == 0
  {
    if n > 0 {
      NoneBefore(day, n - 1, w);
      WeekdayAdvances(day, n - 1);
    }
  }

  /** Seven days hold every weekday once. */
  lemma OneAWeek(day: int, n: nat, w: int)
    requires 1 <= w <= 7
    ensures CountWeekdays(day, n + 7, w) == CountWeekdays(day, n, w) + 1
  {
    hide Weekday, CountWeekdays;
    var r := day + n;
    WeekdayAdvances(r, 1);
    WeekdayAdvances(r, 2);
    WeekdayAdvances(r, 3);
    WeekdayAdvances(r, 4);
    WeekdayAdvances(r, 5);
    WeekdayAdvances(r, 6);
    OneMore(day, n, w);
    OneMore(day, n + 1, w);
    OneMore(day, n + 2, w);
    OneMore(day, n + 3, w);
    OneMore(day, n + 4, w);
    OneMore(day, n + 5, w);
    OneMore(day, n + 6, w);
  }

  lemma OneMore(day: int, n: nat, w: int)
    ensures CountWeekdays(day, n + 1, w) == CountWeekdays(day, n, w) + if Weekday(day + n) == w then 1 else 0
  {
  }

  lemma {:induction false} CountIncludes(day: int, w: int, n: nat)
    requires 1 <= w <= 7 && n >= 1
    ensures var offset := (w + 7 - Weekday(day)) % 7 + (n - 1) * 7;
            Weekday(day + offset) == w && CountWeekdays(day, offset + 1, w) == n
  {
    var offset := (w + 7 - Weekday(day)) % 7;
    if n == 1 {
      WeekdayAdvances(day, offset);
      NoneBefore(day, offset, w);
    } else {
      CountIncludes(day, w, n - 1);
      WeekdayShifts(day + offset + (n - 2) * 7, 1);
      OneAWeek(day, offset + (n - 2) * 7 + 1, w);
      hide CountWeekdays, Weekday;
      assert offset + (n - 2) * 7 + 1 + 7 == offset + (n - 1) * 7 + 1;
    }
  }

  /** Counted from the front, the result is such a weekday and exactly n of them lie in the month up to it. */
  lemma NthIsTheNth(y: int, m: int, w: int, n: int)
    requires 1 <= m <= 12 && 1 <= w <= 7 && n > 0
    ensures var r, first := NthWeekday(y, m, w, n), DayNumber(y, m, 1);
            && Weekday(r) == w && first + 7 * (n - 1) <= r < first + 7 * n
            && CountWeekdays(first, r - first + 1, w) == n
  {
    CountIncludes(DayNumber(y, m, 1), w, n);
    hide CountWeekdays;
  }

  lemma {:induction false} CountOnFrom(r: int, w: int, n: nat, extra: nat)
    requires Weekday(r) == w && 1 <= extra <= 7
    ensures CountWeekdays(r, 7 * n + extra, w) == n + 1
  {
    if n == 0 {
      SpreadOut(r, extra, w);
    } else {
      CountOnFrom(r, w, n - 1, extra);
      OneAWeek(r, 7 * (n - 1) + extra, w);
      hide CountWeekdays;
      assert 7 * (n - 1) + extra + 7 == 7 * n + extra;
    }
  }

  lemma {:induction false} SpreadOut(r: int, n: nat, w: int)
    requires Weekday(r) == w && 1 <= n <= 7
    ensures CountWeekdays(r, n, w) == 1
  {
    if n > 1 {
      SpreadOut(r, n - 1, w);
      WeekdayAdvances(r, n - 1);
    } else {
      assert CountWeekdays(r, 0, w) == 0;
    }
  }

  /** Counted from the back, the result is such a weekday and exactly -n of them lie in the month from it on. */
  lemma NthFromTheBack(y: int, m: int, w: int, n: int)
    requires 1 <= m <= 12 && 1 <= w <= 7 && n < 0
    ensures var r, last := NthWeekday(y, m, w, n), DayNumber(y, m, MonthLength(y, m));
            && Weekday(r) == w && last - 7 * -n < r <= last - 7 * (-n - 1)
            && CountWeekdays(r, last - r + 1, w) == -n
  {
    var r, last := NthWeekday(y, m, w, n), DayNumber(y, m, MonthLength(y, m));
    var back := (Weekday(last) + 7 - w) % 7;
    assert r == last - back - 7 * (-n - 1);
    BackWeekday(last, w);
    WeekdayShifts(last - back, -(-n - 1));
    hide DayNumber, MonthLength, NthWeekday;
    CountOnFrom(r, w, -n - 1, back + 1);
  }

  lemma BackWeekday(last: int, w: int)
    requires 1 <= w <= 7
    ensures Weekday(last - (Weekday(last) + 7 - w) % 7) == w
  {
  }

  // ---------------------------------------------------------------------------
  // Observed dates, holidays and early closes
  // ---------------------------------------------------------------------------

  /** Saturday holidays move to Friday, Sunday holidays to Monday. */
  function Observed(n: int): int {
    if Weekday(n) == SATURDAY then n - 1
    else if Weekday(n) == SUNDAY then n + 1
    else n
  }

  lemma ObservedIsAWeekday(n: int)
    ensures 1 <= Weekday(Observed(n)) <= 5 && n - 1 <= Observed(n) <= n + 1
  {
  }

  function YearOf(n: int): int {
    DateOf(n).year
  }

  /** Full closures, as observed dates, in the order the rules list them. */
  function FullHolidays(y: nat): seq<int> {
    [Observed(DayNumber(y, 1, 1)), NthWeekday(y, 1, MONDAY, 3), NthWeekday(y, 2, MONDAY, 3), EasterSunday(y) - 2,
     NthWeekday(y, 5, MONDAY, -1)]
    + (if y >= 2022 then [Observed(DayNumber(y, 6, 19))] else [])
    + [Observed(DayNumber(y, 7, 4)), NthWeekday(y, 9, MONDAY, 1), NthWeekday(y, 11, THURSDAY, 4),
       Observed(DayNumber(y, 12, 25))]
    + (if YearOf(Observed(DayNumber(y + 1, 1, 1))) == y then [Observed(DayNumber(y + 1, 1, 1))] else [])
  }

  /** Early closes. */
  function HalfDays(y: nat): seq<int> {
    var closed, july3, dec24 := FullHolidays(y), DayNumber(y, 7, 3), DayNumber(y, 12, 24);
    (if Weekday(july3) <= FRIDAY && Weekday(DayNumber(y, 7, 4)) <= FRIDAY && july3 !in closed then [july3] else [])
    + [NthWeekday(y, 11, THURSDAY, 4) + 1]
    + (if Weekday(dec24) <= FRIDAY && dec24 !in closed then [dec24] else [])
  }

  method ListFullHolidays(y: nat) returns (h: seq<int>)
    ensures h == FullHolidays(y)
  {
    hide Observed, NthWeekday, EasterSunday, DayNumber, YearOf;
    h := [];
    h := h + [Observed(DayNumber(y, 1, 1))];
    h := h + [NthWeekday(y, 1, MONDAY, 3)];
    h := h + [NthWeekday(y, 2, MONDAY, 3)];
    h := h + [EasterSunday(y) - 2];
    h := h + [NthWeekday(y, 5, MONDAY, -1)];
    ghost var spring := h;
    assert spring == [Observed(DayNumber(y, 1, 1)), NthWeekday(y, 1, MONDAY, 3), NthWeekday(y, 2, MONDAY, 3),
                      EasterSunday(y) - 2, NthWeekday(y, 5, MONDAY, -1)];
    if y >= 2022 { h := h + [Observed(DayNumber(y, 6, 19))]; }
    ghost var early := h;
    assert early == spring + if y >= 2022 then [Observed(DayNumber(y, 6, 19))] else [];
    h := h + [Observed(DayNumber(y, 7, 4))];
    h := h + [NthWeekday(y, 9, MONDAY, 1)];
    h := h + [NthWeekday(y, 11, THURSDAY, 4)];
    h := h + [Observed(DayNumber(y, 12, 25))];
    assert h == early + [Observed(DayNumber(y, 7, 4)), NthWeekday(y, 9, MONDAY, 1), NthWeekday(y, 11, THURSDAY, 4),
                         Observed(DayNumber(y, 12, 25))];
    var nextNewYear := Observed(DayNumber(y + 1, 1, 1));
    if YearOf(nextNewYear) == y { h := h + [nextNewYear]; }
  }

  method ListHalfDays(y: nat) returns (h: seq<int>)
    ensures h == HalfDays(y)
  {
    hide Observed, NthWeekday, EasterSunday, DayNumber, YearOf, Weekday, FullHolidays;
    var closed := FullHolidays(y);
    h := [];
    var july3, july4 := DayNumber(y, 7, 3), DayNumber(y, 7, 4);
    if Weekday(july3) <= FRIDAY && Weekday(july4) <= FRIDAY && july3 !in closed { h := h + [july3]; }
    h := h + [NthWeekday(y, 11, THURSDAY, 4) + 1];
    var dec24 := DayNumber(y, 12, 24);
    if Weekday(dec24) <= FRIDAY && dec24 !in closed { h := h + [dec24]; }
  }

  /** The listed closures, one by one. */
  lemma FullHolidaysAre(y: nat, n: int)
    ensures n in FullHolidays(y) <==>
              || n == Observed(DayNumber(y, 1, 1)) || n == NthWeekday(y, 1, MONDAY, 3)
              || n == NthWeekday(y, 2, MONDAY, 3)
              || n == EasterSunday(y) - 2 || n == NthWeekday(y, 5, MONDAY, -1)
              || (y >= 2022 && n == Observed(DayNumber(y, 6, 19))) || n == Observed(DayNumber(y, 7, 4))
              || n == NthWeekday(y, 9, MONDAY, 1) || n == NthWeekday(y, 11, THURSDAY, 4)
              || n == Observed(DayNumber(y, 12, 25))
              || (YearOf(Observed(DayNumber(y + 1, 1, 1))) == y && n == Observed(DayNumber(y + 1, 1, 1)))
  {
    hide Observed, NthWeekday, EasterSunday, DayNumber, YearOf;
  }

  lemma HalfDaysAre(y: nat, n: int)
    ensures n in HalfDays(y) <==>
              || (n == DayNumber(y, 7, 3) && Weekday(n) <= FRIDAY && Weekday(DayNumber(y, 7, 4)) <= FRIDAY
                  && n !in FullHolidays(y))
              || n == NthWeekday(y, 11, THURSDAY, 4) + 1
              || (n == DayNumber(y, 12, 24) && Weekday(n) <= FRIDAY && n !in FullHolidays(y))
  {
    hide NthWeekday, DayNumber, FullHolidays, Weekday;
  }

  predicate Workday(n: int) {
    Weekday(n) <= FRIDAY
  }

  /** Every full closure falls on Monday to Friday. */
  lemma HolidaysAreWorkdays(y: nat, n: int)
    requires n in FullHolidays(y)
    ensures Workday(n)
  {
    hide FullHolidays, Observed, NthWeekday, EasterSunday, DayNumber, YearOf, Weekday, CountWeekdays, MonthLength;
    FullHolidaysAre(y, n);
    NthIsTheNth(y, 1, MONDAY, 3);
    NthIsTheNth(y, 2, MONDAY, 3);
    NthFromTheBack(y, 5, MONDAY, -1);
    NthIsTheNth(y, 9, MONDAY, 1);
    NthIsTheNth(y, 11, THURSDAY, 4);
    EasterIsASunday(y);
    ObservedIsAWeekday(DayNumber(y, 1, 1));
    ObservedIsAWeekday(DayNumber(y, 6, 19));
    ObservedIsAWeekday(DayNumber(y, 7, 4));
    ObservedIsAWeekday(DayNumber(y, 12, 25));
    ObservedIsAWeekday(DayNumber(y + 1, 1, 1));
    TwoBeforeSunday(EasterSunday(y));
  }

  lemma TwoBeforeSunday(n: int)
    requires Weekday(n) == SUNDAY
    ensures Weekday(n - 2) == FRIDAY
  {
  }

  lemma AfterThursday(n: int)
    requires Weekday(n) == THURSDAY
    ensures Weekday(n + 1) == FRIDAY
  {
  }

  /** Every early close falls on Monday to Friday. */
  lemma HalfDaysAreWorkdays(y: nat, n: int)
    requires n in HalfDays(y)
    ensures Workday(n)
  {
    hide HalfDays, NthWeekday, DayNumber, Weekday, FullHolidays;
    HalfDaysAre(y, n);
    DayAfterThanksgiving(y);
  }

  lemma DayAfterThanksgiving(y: nat)
    ensures Weekday(NthWeekday(y, 11, THURSDAY, 4) + 1) == FRIDAY
  {
    NthIsTheNth(y, 11, THURSDAY, 4);
    AfterThursday(NthWeekday(y, 11, THURSDAY, 4));
    hide NthWeekday, DayNumber, Weekday, CountWeekdays;
  }

  /** The dates of a year in order, as far as the rules mention them. */
  lemma RuleDates(y: nat)
    ensures var n := DayNumber(y, 1, 1);
            var leap := if Leap(y) then 1 else 0;
            && DayNumber(y, 2, 1) == n + 31 && DayNumber(y, 3, 22) == n + 80 + leap
            && DayNumber(y, 4, 25) == n + 114 + leap && DayNumber(y, 5, MonthLength(y, 5)) == n + 150 + leap
            && DayNumber(y, 6, 19) == n + 169 + leap && DayNumber(y, 7, 3) == n + 183 + leap
            && DayNumber(y, 7, 4) == n + 184 + leap && DayNumber(y, 9, 1) == n + 243 + leap
            && DayNumber(y, 11, 1) == n + 304 + leap && DayNumber(y, 12, 24) == n + 357 + leap
            && DayNumber(y, 12, 25) == n + 358 + leap && DayNumber(y + 1, 1, 1) == n + 365 + leap
  {
    YearLength(y);
    hide DaysBeforeYear, Leap;
  }

  /** The day after Thanksgiving is no holiday. */
  lemma BlackFridayIsOpen(y: nat)
    ensures NthWeekday(y, 11, THURSDAY, 4) + 1 !in FullHolidays(y)
  {
    FullHolidaysAre(y, NthWeekday(y, 11, THURSDAY, 4) + 1);
    HolidayRanges(y);
    NthIsTheNth(y, 11, THURSDAY, 4);
    ObservedIsAWeekday(DayNumber(y + 1, 1, 1));
    RuleDates(y);
    hide FullHolidays, Observed, NthWeekday, EasterSunday, DayNumber, YearOf, Weekday, CountWeekdays, Leap, MonthLength;
  }

  /** Where in the year each holiday can fall, in days from January 1. */
  lemma HolidayRanges(y: nat)
    ensures var n := DayNumber(y, 1, 1);
            && n - 1 <= Observed(DayNumber(y, 1, 1)) <= n + 1
            && n <= NthWeekday(y, 1, MONDAY, 3) < n + 31 <= NthWeekday(y, 2, MONDAY, 3) < n + 59
            && n + 78 <= EasterSunday(y) - 2 <= n + 113 && n + 140 < NthWeekday(y, 5, MONDAY, -1) <= n + 151
            && n + 168 <= Observed(DayNumber(y, 6, 19)) <= n + 171 && n + 183 <= Observed(DayNumber(y, 7, 4)) <= n + 186
            && n + 243 <= NthWeekday(y, 9, MONDAY, 1) < n + 251 && n + 325 <= NthWeekday(y, 11, THURSDAY, 4) < n + 333
            && n + 357 <= Observed(DayNumber(y, 12, 25)) <= n + 360
  {
    NthIsTheNth(y, 1, MONDAY, 3);
    NthIsTheNth(y, 2, MONDAY, 3);
    NthFromTheBack(y, 5, MONDAY, -1);
    NthIsTheNth(y, 9, MONDAY, 1);
    NthIsTheNth(y, 11, THURSDAY, 4);
    EasterIsASunday(y);
    ObservedIsAWeekday(DayNumber(y, 1, 1));
    ObservedIsAWeekday(DayNumber(y, 6, 19));
    ObservedIsAWeekday(DayNumber(y, 7, 4));
    ObservedIsAWeekday(DayNumber(y, 12, 25));
    RuleDates(y);
    hide Observed, NthWeekday, EasterSunday, DayNumber, Weekday, CountWeekdays, Leap, MonthLength;
  }

  /** In every year no early close is also a full closure. */
  lemma HalfDaysAreNotHolidays(y: nat, n: int)
    requires n in HalfDays(y)
    ensures n !in FullHolidays(y)
  {
    HalfDaysAre(y, n);
    BlackFridayIsOpen(y);
    hide HalfDays, NthWeekday, DayNumber, Weekday, FullHolidays;
  }

  /** December 31 is a closure exactly when the coming New Year falls on a Saturday. */
  lemma NewYearOnSaturday(y: nat)
    ensures DayNumber(y, 12, 31) in FullHolidays(y) <==> Weekday(DayNumber(y + 1, 1, 1)) == SATURDAY
  {
    FullHolidaysAre(y, DayNumber(y, 12, 31));
    HolidayRanges(y);
    NextNewYear(y);
    RuleDates(y);
    hide FullHolidays, NthWeekday, EasterSunday, DayNumber, YearOf, CountWeekdays, Leap, MonthLength;
  }

  /** The observed New Year belongs to the year before exactly when it falls on a Saturday. */
  lemma NextNewYear(y: nat)
    ensures DayNumber(y, 12, 31) == DayNumber(y + 1, 1, 1) - 1
    ensures YearOf(Observed(DayNumber(y + 1, 1, 1))) == y <==> Weekday(DayNumber(y + 1, 1, 1)) == SATURDAY
  {
    var n := DayNumber(y + 1, 1, 1);
    RuleDates(y);
    YearLength(y);
    YearOfDay(Observed(n), y);
    assert n == DaysBeforeYear(y + 1);
    hide DaysBeforeYear, Leap, DateOf;
  }
}
