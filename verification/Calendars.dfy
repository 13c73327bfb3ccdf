/** The trading calendar: sessions generated from rules, and lookups by instant. */
module Calendars {
  import opened Types
  import opened CivilDates
  import opened Timestamps
  import opened Holidays

  datatype SessionKind = Closed | Regular | HalfDay

  /** One exchange date; open and close are instants, half-open. */
  datatype Session = Session(date: Timestamp, open: Timestamp, close: Timestamp, kind: SessionKind)
  {
    predicate IsOpen() { kind != Closed }

    predicate Contains(t: Timestamp) { IsOpen() && open <= t < close }
  }

  datatype CalendarException = CalendarException(date: Timestamp, kind: SessionKind)

  /** The local schedule as offsets from midnight, and the two offsets from UTC in hours. */
  datatype CalendarSpec = CalendarSpec(
    regularOpen: Duration, regularClose: Duration, halfDayClose: Duration, standardOffset: int, daylightOffset: int,
    exceptions: seq<CalendarException>)

  datatype Calendar = Calendar(all: seq<Session>, open: seq<Session>)

  datatype CalendarError = YearsReversed | YearUnsupported | CloseBeforeOpen

  // ---------------------------------------------------------------------------
  // Rules for one date
  // ---------------------------------------------------------------------------

  /** The first exception listed for a day. */
  function Override(exceptions: seq<CalendarException>, n: int): Option<SessionKind> {
    if exceptions == [] then None
    else if DayOfInstant(exceptions[0].date) == n then Some(exceptions[0].kind)
    else Override(exceptions[1..], n)
  }

  /** From the second Sunday in March to the first in November. */
  predicate DaylightTime(n: int, y: int) {
    NthWeekday(y, 3, SUNDAY, 2) <= n < NthWeekday(y, 11, SUNDAY, 1)
  }

  /** An exception decides; otherwise weekends and closures are closed and early closes are half days. */
  function KindFrom(spec: CalendarSpec, closed: seq<int>, early: seq<int>, n: int): SessionKind {
    match Override(spec.exceptions, n)
    case Some(kind) => kind
    case None =>
      if Weekday(n) >= SATURDAY || n in closed then Closed
      else if n in early then HalfDay
      else Regular
  }

  function KindOf(spec: CalendarSpec, y: nat, n: int): SessionKind {
    KindFrom(spec, FullHolidays(y), HalfDays(y), n)
  }

  function Timed(spec: CalendarSpec, y: nat, n: int, kind: SessionKind): Session {
    var date := n * NANOS_PER_DAY;
    if kind == Closed then Session(date, NO_TIMESTAMP, NO_TIMESTAMP, Closed)
    else
      var toUtc := -(if DaylightTime(n, y) then spec.daylightOffset else spec.standardOffset) * NANOS_PER_HOUR;
      Session(date, date + spec.regularOpen + toUtc,
              date + (if kind == HalfDay then spec.halfDayClose else spec.regularClose) + toUtc, kind)
  }

  /** The year whose rules apply to a day; calendars start in 2008. */
  function RuleYear(n: int): nat {
    if YearOf(n) < 0 then 0 else YearOf(n)
  }

  /** The session of day n, by the rules of its own year. */
  function SessionOf(spec: CalendarSpec, n: int): Session {
    Timed(spec, RuleYear(n), n, KindOf(spec, RuleYear(n), n))
  }

  function OpenOnes(all: seq<Session>): seq<Session> {
    if all == [] then []
    else
      var s := all[|all| - 1];
      OpenOnes(all[..|all| - 1]) + if s.IsOpen() then [s] else []
  }

  /** Every date from one day on, in order, with its rules applied. */
  predicate Covers(spec: CalendarSpec, first: int, all: seq<Session>) {
    forall k :: 0 <= k < |all| ==> all[k] == SessionOf(spec, first + k)
  }

  predicate Buildable(spec: CalendarSpec, firstYear: int, lastYear: int) {
    && firstYear <= lastYear && firstYear >= 2008
    && spec.regularOpen < spec.regularClose && spec.regularOpen < spec.halfDayClose
  }

  // ---------------------------------------------------------------------------
  // Building
  // ---------------------------------------------------------------------------

  /** Generates every date of the years, year by year and day by day. */
  method Build(spec: CalendarSpec, firstYear: int, lastYear: int) returns (r: Result<Calendar, CalendarError>)
    ensures r.Ok? <==> Buildable(spec, firstYear, lastYear)
    ensures r.Ok? ==>
              && |r.value.all| == DaysBeforeYear(lastYear + 1) - DaysBeforeYear(firstYear)
              && Covers(spec, DaysBeforeYear(firstYear), r.value.all)
              && r.value.open == OpenOnes(r.value.all)
  {
    hide DaysBeforeYear, Covers, OpenOnes;
    if lastYear < firstYear { return Err(YearsReversed); }
    if firstYear < 2008 { return Err(YearUnsupported); }
    if spec.regularClose <= spec.regularOpen || spec.halfDayClose <= spec.regularOpen { return Err(CloseBeforeOpen); }
    var all: seq<Session>, open: seq<Session> := [], [];
    var y := firstYear;
    NothingCovered(spec, DaysBeforeYear(firstYear));
    while y <= lastYear
      invariant firstYear <= y <= lastYear + 1
      invariant |all| == DaysBeforeYear(y) - DaysBeforeYear(firstYear)
      invariant Covers(spec, DaysBeforeYear(firstYear), all) && open == OpenOnes(all)
    {
      all, open := AddYear(spec, firstYear, y, all, open);
      y := y + 1;
    }
    return Ok(Calendar(all, open));
  }

  lemma NothingCovered(spec: CalendarSpec, first: int)
    ensures Covers(spec, first, []) && OpenOnes([]) == []
  {
  }

  /** Generates the dates of one year. */
  method AddYear(spec: CalendarSpec, firstYear: int, y: int, all: seq<Session>, open: seq<Session>)
    returns (all': seq<Session>, open': seq<Session>)
    requires 2008 <= firstYear <= y && |all| == DaysBeforeYear(y) - DaysBeforeYear(firstYear)
    requires Covers(spec, DaysBeforeYear(firstYear), all) && open == OpenOnes(all)
    ensures |all'| == DaysBeforeYear(y + 1) - DaysBeforeYear(firstYear)
    ensures Covers(spec, DaysBeforeYear(firstYear), all') && open' == OpenOnes(all')
  {
    hide DaysBeforeYear, DayNumber, Covers, OpenOnes, FullHolidays, HalfDays, Timed, KindFrom, SessionOf;
    var closed := ListFullHolidays(y);
    var early := ListHalfDays(y);
    all', open' := all, open;
    var d, end := DayNumber(y, 1, 1), DayNumber(y + 1, 1, 1);
    YearBounds(y);
    while d < end
      invariant DaysBeforeYear(y) <= d <= end && |all'| == d - DaysBeforeYear(firstYear)
      invariant Covers(spec, DaysBeforeYear(firstYear), all') && open' == OpenOnes(all')
    {
      var s := Timed(spec, y, d, KindFrom(spec, closed, early, d));
      SessionInYear(spec, y, d);
      CoverOneMore(spec, DaysBeforeYear(firstYear), all', s);
      all' := all' + [s];
      if s.IsOpen() { open' := open' + [s]; }
      d := d + 1;
    }
  }

  lemma YearBounds(y: int)
    ensures DayNumber(y, 1, 1) == DaysBeforeYear(y) && DayNumber(y + 1, 1, 1) == DaysBeforeYear(y + 1)
    ensures DaysBeforeYear(y) < DaysBeforeYear(y + 1)
  {
  }

  /** The rules of the year being generated are those of the day's own year. */
  lemma SessionInYear(spec: CalendarSpec, y: nat, d: int)
    requires DaysBeforeYear(y) <= d < DaysBeforeYear(y + 1)
    ensures SessionOf(spec, d) == Timed(spec, y, d, KindFrom(spec, FullHolidays(y), HalfDays(y), d))
  {
    hide DateOf, DaysBeforeYear, Timed, KindFrom;
    YearOfDay(d, y);
  }

  lemma CoverOneMore(spec: CalendarSpec, first: int, all: seq<Session>, s: Session)
    requires Covers(spec, first, all) && s == SessionOf(spec, first + |all|)
    ensures Covers(spec, first, all + [s])
    ensures OpenOnes(all + [s]) == OpenOnes(all) + if s.IsOpen() then [s] else []
  {
    hide SessionOf;
    assert (all + [s])[..|all|] == all;
    forall k | 0 <= k < |all + [s]|
      ensures (all + [s])[k] == SessionOf(spec, first + k)
    {
      if k < |all| {
        assert all[k] == SessionOf(spec, first + k);
      }
    }
  }

  // ---------------------------------------------------------------------------
  // Sessions within their dates
  // ---------------------------------------------------------------------------

  /** Under both offsets every session lies within its own UTC date. */
  predicate WithinTheDay(spec: CalendarSpec) {
    && spec.regularOpen < spec.regularClose && spec.regularOpen < spec.halfDayClose
    && FitsAt(spec, spec.standardOffset) && FitsAt(spec, spec.daylightOffset)
  }

  predicate FitsAt(spec: CalendarSpec, offset: int) {
    && 0 <= spec.regularOpen - offset * NANOS_PER_HOUR
    && spec.regularClose - offset * NANOS_PER_HOUR <= NANOS_PER_DAY
    && spec.halfDayClose - offset * NANOS_PER_HOUR <= NANOS_PER_DAY
  }

  /** The US equities schedule: 9:30 to 16:00, 13:00 on half days, five hours behind UTC, four in summer. */
  function UsEquities(): CalendarSpec {
    CalendarSpec(9 * NANOS_PER_HOUR + 30 * NANOS_PER_MINUTE, 16 * NANOS_PER_HOUR, 13 * NANOS_PER_HOUR, -5, -4,
                 [CalendarException(DayNumber(2018, 12, 5) * NANOS_PER_DAY, Closed),
                  CalendarException(DayNumber(2025, 1, 9) * NANOS_PER_DAY, Closed)])
  }

  lemma UsSessionsAreWithinTheDay()
    ensures WithinTheDay(UsEquities())
  {
  }

  /** The dates ascend one by one and every open session lies within its date. */
  ghost predicate Regularly(all: seq<Session>, first: int) {
    forall k :: 0 <= k < |all| ==>
      && all[k].date == (first + k) * NANOS_PER_DAY
      && (all[k].IsOpen() ==> all[k].date <= all[k].open < all[k].close <= all[k].date + NANOS_PER_DAY)
  }

  lemma CoveredIsRegular(spec: CalendarSpec, first: int, all: seq<Session>)
    requires Covers(spec, first, all) && WithinTheDay(spec)
    ensures Regularly(all, first)
  {
    hide SessionOf;
    forall k | 0 <= k < |all|
      ensures all[k].date == (first + k) * NANOS_PER_DAY
      ensures all[k].IsOpen() ==> all[k].date <= all[k].open < all[k].close <= all[k].date + NANOS_PER_DAY
    {
      SessionFitsItsDay(spec, first + k);
    }
  }

  lemma SessionFitsItsDay(spec: CalendarSpec, n: int)
    requires WithinTheDay(spec)
    ensures var s := SessionOf(spec, n);
            && s.date == n * NANOS_PER_DAY
            && (s.IsOpen() ==> s.date <= s.open < s.close <= s.date + NANOS_PER_DAY)
  {
    hide KindOf, DaylightTime, RuleYear;
  }

  /** Open sessions follow each other without overlap. */
  predicate Disjoint(open: seq<Session>) {
    && (forall i :: 0 <= i < |open| ==> open[i].IsOpen() && open[i].open < open[i].close)
    && forall i, j :: 0 <= i < j < |open| ==> open[i].date < open[j].date && open[i].close <= open[j].open
  }

  lemma {:induction false} OpenOnesAreFromAll(all: seq<Session>, s: Session)
    ensures s in OpenOnes(all) <==> s in all && s.IsOpen()
  {
    if all != [] {
      var front := all[..|all| - 1];
      assert all == front + [all[|all| - 1]];
      OpenOnesAreFromAll(front, s);
    }
  }

  lemma {:induction false} OpenOnesAreDisjoint(all: seq<Session>, first: int)
    requires Regularly(all, first)
    ensures Disjoint(OpenOnes(all))
    ensures forall i :: 0 <= i < |OpenOnes(all)| ==>
              OpenOnes(all)[i].date + NANOS_PER_DAY <= (first + |all|) * NANOS_PER_DAY
              && OpenOnes(all)[i].close <= (first + |all|) * NANOS_PER_DAY
  {
    if all != [] {
      var n := |all| - 1;
      var front := all[..n];
      assert Regularly(front, first);
      OpenOnesAreDisjoint(front, first);
      hide OpenOnes, Regularly;
      OpenOneMore(all, first);
    }
  }

  lemma OpenOneMore(all: seq<Session>, first: int)
    requires all != [] && Regularly(all, first)
    requires var front := OpenOnes(all[..|all| - 1]);
             Disjoint(front) && forall i :: 0 <= i < |front| ==>
               front[i].date + NANOS_PER_DAY <= (first + |all| - 1) * NANOS_PER_DAY
               && front[i].close <= (first + |all| - 1) * NANOS_PER_DAY
    ensures Disjoint(OpenOnes(all))
    ensures forall i :: 0 <= i < |OpenOnes(all)| ==>
              OpenOnes(all)[i].date + NANOS_PER_DAY <= (first + |all|) * NANOS_PER_DAY
              && OpenOnes(all)[i].close <= (first + |all|) * NANOS_PER_DAY
  {
    var s := all[|all| - 1];
    assert s.date == (first + |all| - 1) * NANOS_PER_DAY;
    assert (first + |all|) * NANOS_PER_DAY == s.date + NANOS_PER_DAY;
  }

  /** Sessions built for any range of years under a within-the-day schedule, the US one in particular, are sorted and
      pairwise disjoint. */
  lemma BuiltSessionsAreDisjoint(spec: CalendarSpec, first: int, cal: Calendar)
    requires Covers(spec, first, cal.all) && cal.open == OpenOnes(cal.all) && WithinTheDay(spec)
    ensures Disjoint(cal.open) && Regularly(cal.all, first)
    ensures WithinTheDay(UsEquities())
  {
    CoveredIsRegular(spec, first, cal.all);
    OpenOnesAreDisjoint(cal.all, first);
    UsSessionsAreWithinTheDay();
  }

  // ---------------------------------------------------------------------------
  // Lookups
  // ---------------------------------------------------------------------------

  /** The first session not dated before, as a binary search finds it. */
  function FirstNotBefore(s: seq<Session>, date: Timestamp): (i: nat)
    ensures i <= |s| && (i < |s| ==> s[i].date >= date)
    ensures forall k :: 0 <= k < i ==> s[k].date < date
  {
    if s == [] || s[0].date >= date then 0
    else
      assert s == [s[0]] + s[1..];
      1 + FirstNotBefore(s[1..], date)
  }

  function FindByDate(all: seq<Session>, date: Timestamp): Option<Session> {
    var i := FirstNotBefore(all, date);
    if i == |all| || all[i].date != date then None else Some(all[i])
  }

  /** Looks at the date of the instant and at its two neighbours. */
  method SessionContaining(cal: Calendar, t: Timestamp) returns (r: Option<Session>)
    ensures r == Containing(cal, t)
  {
    hide FindByDate, UtcDateFloor;
    var offset := -1;
    while offset <= 1
      invariant -1 <= offset <= 2
      invariant Containing(cal, t) == ContainingFrom(cal, t, offset)
    {
      var s := FindByDate(cal.all, UtcDateFloor(t) + offset * NANOS_PER_DAY);
      if s.Some? && s.value.Contains(t) { return s; }
      offset := offset + 1;
    }
    return None;
  }

  function ContainingFrom(cal: Calendar, t: Timestamp, offset: int): Option<Session>
    requires -1 <= offset <= 2
    decreases 2 - offset
  {
    if offset == 2 then None
    else
      var s := FindByDate(cal.all, UtcDateFloor(t) + offset * NANOS_PER_DAY);
      if s.Some? && s.value.Contains(t) then s else ContainingFrom(cal, t, offset + 1)
  }

  function Containing(cal: Calendar, t: Timestamp): Option<Session> {
    ContainingFrom(cal, t, -1)
  }

  /** A calendar as built. */
  ghost predicate Sound(cal: Calendar, first: int) {
    Regularly(cal.all, first) && cal.open == OpenOnes(cal.all)
  }

  lemma DayIsFound(all: seq<Session>, first: int, k: nat)
    requires Regularly(all, first) && k < |all|
    ensures FindByDate(all, all[k].date) == Some(all[k])
  {
  }

  lemma FoundIsThere(all: seq<Session>, date: Timestamp)
    ensures FindByDate(all, date).Some? ==> FindByDate(all, date).value in all
  {
  }

  lemma InstantInItsDay(t: Timestamp, date: Timestamp, n: int)
    requires date == n * NANOS_PER_DAY && date <= t < date + NANOS_PER_DAY
    ensures UtcDateFloor(t) == date
  {
  }

  /** The three-date lookup equals a scan over all open sessions. */
  lemma ContainingIsTheScan(cal: Calendar, first: int, t: Timestamp, s: Session)
    requires Sound(cal, first)
    ensures Containing(cal, t) == Some(s) <==> s in cal.open && s.open <= t < s.close
  {
    OpenOnesAreFromAll(cal.all, s);
    ThreeDates(cal, t);
    var date := UtcDateFloor(t);
    FoundIsThere(cal.all, date - NANOS_PER_DAY);
    FoundIsThere(cal.all, date);
    FoundIsThere(cal.all, date + NANOS_PER_DAY);
    OtherDatesMiss(cal, first, t);
    hide FindByDate, UtcDateFloor, OpenOnes, Containing, Regularly;
    if s in cal.open && s.open <= t < s.close {
      FoundOnItsDate(cal, first, t, s);
    }
  }

  /** The lookup's result, date by date. */
  lemma ThreeDates(cal: Calendar, t: Timestamp)
    ensures var date := UtcDateFloor(t);
            var before, on, after := FindByDate(cal.all, date - NANOS_PER_DAY), FindByDate(cal.all, date),
                                     FindByDate(cal.all, date + NANOS_PER_DAY);
            Containing(cal, t)
            == if before.Some? && before.value.Contains(t) then before
               else if on.Some? && on.value.Contains(t) then on
               else if after.Some? && after.value.Contains(t) then after
               else None
  {
  }

  /** A session that holds the instant is the one of the instant's own date. */
  lemma FoundOnItsDate(cal: Calendar, first: int, t: Timestamp, s: Session)
    requires Sound(cal, first) && s in cal.all && s.Contains(t)
    ensures FindByDate(cal.all, UtcDateFloor(t)) == Some(s)
  {
    hide FindByDate, UtcDateFloor, OpenOnes;
    var k :| 0 <= k < |cal.all| && cal.all[k] == s;
    InstantInItsDay(t, s.date, first + k);
    DayIsFound(cal.all, first, k);
  }

  /** No session dated the day before holds the instant. */
  lemma OtherDatesMiss(cal: Calendar, first: int, t: Timestamp)
    requires Sound(cal, first)
    ensures var s := FindByDate(cal.all, UtcDateFloor(t) - NANOS_PER_DAY); s.Some? ==> !s.value.Contains(t)
  {
  }

  function NextSession(cal: Calendar, t: Timestamp): Option<Session> {
    var i := FirstNotBefore(cal.open, UtcDateFloor(t) + 1);
    if i == |cal.open| then None else Some(cal.open[i])
  }

  function PreviousSession(cal: Calendar, t: Timestamp): Option<Session> {
    var i := FirstNotBefore(cal.open, UtcDateFloor(t));
    if i == 0 then None else Some(cal.open[i - 1])
  }

  /** The next session is the earliest open one dated after the instant's date. */
  lemma NextIsTheScan(cal: Calendar, first: int, t: Timestamp)
    requires Sound(cal, first)
    ensures var n, date := NextSession(cal, t), UtcDateFloor(t);
            && (n.Some? ==> n.value in cal.open && n.value.date > date
                            && forall s :: s in cal.open && s.date > date ==> n.value.date <= s.date)
            && (n.None? ==> forall s :: s in cal.open ==> s.date <= date)
  {
    hide UtcDateFloor, OpenOnes, FirstNotBefore, Regularly;
    OpenOnesAreDisjoint(cal.all, first);
    var open, date := cal.open, UtcDateFloor(t);
    var i := FirstNotBefore(open, date + 1);
    forall s | s in open && s.date > date
      ensures i < |open| && open[i].date <= s.date
    {
      var k :| 0 <= k < |open| && open[k] == s;
      assert i <= k;
      DatesAscend(open, i, k);
    }
  }

  /** The previous session is the latest open one dated before it. */
  lemma PreviousIsTheScan(cal: Calendar, first: int, t: Timestamp)
    requires Sound(cal, first)
    ensures var p, date := PreviousSession(cal, t), UtcDateFloor(t);
            && (p.Some? ==> p.value in cal.open && p.value.date < date
                            && forall s :: s in cal.open && s.date < date ==> s.date <= p.value.date)
            && (p.None? ==> forall s :: s in cal.open ==> s.date >= date)
  {
    hide UtcDateFloor, OpenOnes, FirstNotBefore, Regularly;
    OpenOnesAreDisjoint(cal.all, first);
    var open, date := cal.open, UtcDateFloor(t);
    var j := FirstNotBefore(open, date);
    forall s | s in open && s.date < date
      ensures j > 0 && s.date <= open[j - 1].date
    {
      var k :| 0 <= k < |open| && open[k] == s;
      AscendingFrom(open, j, k, date);
      DatesAscend(open, k, j - 1);
    }
  }

  lemma DatesAscend(open: seq<Session>, i: nat, k: nat)
    requires Disjoint(open) && i <= k < |open|
    ensures open[i].date <= open[k].date
  {
  }

  lemma AscendingFrom(open: seq<Session>, j: nat, k: nat, date: Timestamp)
    requires Disjoint(open) && j <= |open| && (j < |open| ==> open[j].date >= date)
    requires k < |open| && open[k].date < date
    ensures k < j
  {
  }
}
