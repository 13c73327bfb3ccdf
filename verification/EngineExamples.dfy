/** Two short engine runs: one strands a record by a residue, one loses a fill to a failing update. */
module EngineExamples {
  import opened Types
  import opened TimeChain
  import opened Orders
  import opened OrderManagement
  import opened Venue
  import opened Positions
  import opened Portfolios
  import opened Agreement
  import opened Engines
  import opened EngineRuns

  /** No costs, and one nanosecond of flight. */
  const FREE: Models := Models((q, p) => 0.0, st => 0.0, (q, st) => 0.0, n => 0.0, n => 1)

  const LONG_OR_SHORT := PortfolioConfig(1000.0, Liquidation, true)

  function TenBar(at: Timestamp): MarketEvent {
    Bar(0, 10.0, 10.0, 10.0, 100.0, at)
  }

  const ONE_BAR := MarketState(10.0, 10.0, 0.0, 0.0, 100.0, 0.0, false, true)

  /** A bar or a quote that the strategy does not react to is only matched. */
  function Matched(s: EngineState, u: Setup, e: MarketEvent): Outcome
    requires e.Bar? || e.Quote?
  {
    match e
    case Bar(i, _, _, close, _, at) =>
      var st := BarState(MarketOf(s, i), u, e);
      MatchingAt(Marking(s, i, st, close, close), u, i, st, at)
    case Quote(i, bid, ask, _, _, at) =>
      var st := QuoteState(MarketOf(s, i), e);
      MatchingAt(Marking(s, i, st, bid, ask), u, i, st, at)
  }

  lemma UnwatchedIsMatched(s: EngineState, u: Setup, e: MarketEvent)
    requires e.Bar? || e.Quote?
    ensures Handling(s, u, e, []) == Matched(s, u, e)
  {
    hide MatchingAt, Marking, BarState, QuoteState;
    var (t, r) := Matched(s, u, e);
    assert Scripted(t, u, []) == t;
    assert r.Ok? ==> r == Ok(true) by {
      MatchedIsTrue(s, u, e);
    }
  }

  lemma MatchedIsTrue(s: EngineState, u: Setup, e: MarketEvent)
    requires e.Bar? || e.Quote?
    ensures Matched(s, u, e).1.Ok? ==> Matched(s, u, e).1.value
  {
    hide Marketing, Marking, BarState, QuoteState;
    match e
    case Bar(i, _, _, close, _, at) =>
      var st := BarState(MarketOf(s, i), u, e);
      var t := Marking(s, i, st, close, close);
      var (venue, fills) := Marketing(t.venue, i, st, at, u.fills, u.models);
      if fills.Ok? { DispatchingIsTrue(t.(venue := venue), u, fills.value); }
    case Quote(i, bid, ask, _, _, at) =>
      var st := QuoteState(MarketOf(s, i), e);
      var t := Marking(s, i, st, bid, ask);
      var (venue, fills) := Marketing(t.venue, i, st, at, u.fills, u.models);
      if fills.Ok? { DispatchingIsTrue(t.(venue := venue), u, fills.value); }
  }

  lemma {:induction false} DispatchingIsTrue(s: EngineState, u: Setup, fills: seq<Fill>)
    ensures Dispatching(s, u, fills).1.Ok? ==> Dispatching(s, u, fills).1.value
    decreases |fills|
  {
    hide DispatchOne;
    if fills != [] {
      DispatchingIsTrue(DispatchOne(s, u, fills[0]).0, u, fills[1..]);
    }
  }

  lemma LastIsMatched(u: Setup, start: Timestamp, ds: seq<Delivery>)
    requires ds != [] && Running(u, start, ds[..|ds| - 1]).1.Ok?
    requires var d := ds[|ds| - 1]; (d.event.Bar? || d.event.Quote?) && d.script == []
    requires Running(u, start, ds[..|ds| - 1]).0.now <= ds[|ds| - 1].received
    ensures var d := ds[|ds| - 1];
            Running(u, start, ds) == Matched(Running(u, start, ds[..|ds| - 1]).0.(now := d.received), u, d.event)
  {
    var s, d := Running(u, start, ds[..|ds| - 1]).0, ds[|ds| - 1];
    hide Matched, Handling;
    UnwatchedIsMatched(s.(now := d.received), u, d.event);
  }

  // ---------------------------------------------------------------------------
  // A lost fill
  // ---------------------------------------------------------------------------

  const THIN := Setup(FREE, FillConfig(0.01, true), LONG_OR_SHORT, 0.0)

  const PATIENT: OrderData := SAMPLE_ORDER.(quantity := 2.0)
  const STALE: OrderData := SAMPLE_ORDER.(id := 2, times := NO_TIMES.(decision := 0, ack := 1))

  const ARRIVED := NO_TIMES.(decision := 0, arrival := 1)
  const FIRST := PendingOrder(PATIENT.(times := ARRIVED), 1, 0.0, false)
  const SECOND := PendingOrder(STALE.(times := ARRIVED.(ack := 1)), 1, 0.0, false)

  /** Two orders are sent, one with an old acknowledgement stamp; one bar then meets both. */
  const LOSING_RUN: seq<Delivery> := [Delivery(TradePrint, 0, BothOrders()), Delivery(TenBar(5), 5, [])]

  function BothOrders(): seq<SinkCall> {
    assert ChainOk(STALE.times);
    [SubmitOrder(PATIENT, true), SubmitOrder(STALE, true)]
  }

  lemma FirstTradesHalf()
    ensures var visit := VisitOrder(FIRST, 0, ONE_BAR, 5, THIN.fills, FREE, 1.0, 0);
            visit.Trade? && visit.fill.quantity == 1.0 && visit.left == Some(FIRST.(filled := 1.0))
  {
  }

  lemma SecondIsRefused()
    ensures VisitOrder(SECOND, 0, ONE_BAR, 5, THIN.fills, FREE, 0.0, 1) == Refuse(SECOND, FillBreaksChain)
  {
    assert EdgeBroken(ARRIVED.(ack := 1, fill := 5), 6);
  }

  /** The first trades half and rests, the second fails the update. */
  lemma MatchesBoth(stats: ExecutionStats)
    ensures var m := MatchFrom([FIRST, SECOND], 0, ONE_BAR, 5, THIN.fills, FREE, 1.0, 0, stats);
            m.error == Some(FillBreaksChain) && m.kept == [FIRST.(filled := 1.0), SECOND]
  {
    FirstTradesHalf();
    SecondIsRefused();
    hide VisitOrder, StatsAfter;
    var stats' := StatsAfter(stats, VisitOrder(FIRST, 0, ONE_BAR, 5, THIN.fills, FREE, 1.0, 0));
    assert [FIRST, SECOND][1..] == [SECOND];
    assert [SECOND] + [SECOND][1..] == [SECOND];
    assert MatchFrom([SECOND], 0, ONE_BAR, 5, THIN.fills, FREE, 0.0, 1, stats').kept == [SECOND];
  }

  /** An order sent at instant zero to an engine without prices. */
  lemma SendsOne(s: EngineState, u: Setup, o: Order)
    requires s.now == 0 && s.market == map[] && u.models == FREE && o.times.decision == 0 
    requires ChainOk(o.times.(arrival := 1))
    requires o.id !in s.oms.records && o.parent == NO_ORDER
    ensures var t := Calling(s, u, SubmitOrder(o, true));
            && t.now == 0 && t.market == map[] && t.venue.slips == s.venue.slips
            && t.venue.pending == s.venue.pending + [PendingOrder(o.(times := o.times.(arrival := 1)), 1, 0.0, false)]
            && t.oms.records == s.oms.records[o.id := OrderRecord(o, Working, 0.0, 0.0, 0.0)]
  {
    assert Accepting(s.venue, u.models, s.now, o).1.Ok?;
    SubmittingBooks(s, u, o);
  }

  lemma ScriptOfTwo(s: EngineState, u: Setup, first: SinkCall, second: SinkCall)
    ensures Scripted(s, u, [first, second]) == Calling(Calling(s, u, first), u, second)
  {
    hide Calling;
    var script := [first, second];
    assert script[..1] == [first] && [first][..0] == [];
    assert Scripted(s, u, [first]) == Calling(s, u, first);
  }

  lemma BothAreSent()
    ensures var s := Scripted(Begin(THIN, 0), THIN, BothOrders());
            && s.now == 0 && s.market == map[] && s.venue.slips == 0 && s.venue.pending == [FIRST, SECOND]
            && s.oms.records == map[1 := OrderRecord(PATIENT, Working, 0.0, 0.0, 0.0),
                                    2 := OrderRecord(STALE, Working, 0.0, 0.0, 0.0)]
  {
    var s := Begin(THIN, 0);
    assert ChainOk(STALE.times) && ChainOk(SECOND.order.times) && ChainOk(FIRST.order.times);
    hide Calling, Scripted, ChainOk;
    ScriptOfTwo(s, THIN, SubmitOrder(PATIENT, true), SubmitOrder(STALE, true));
    SendsOne(s, THIN, PATIENT);
    SendsOne(Calling(s, THIN, SubmitOrder(PATIENT, true)), THIN, STALE);
    assert [] + [FIRST] + [SECOND] == [FIRST, SECOND];
  }

  lemma BothAreWorking()
    ensures var (s, r) := Running(THIN, 0, LOSING_RUN[..1]);
            && r.Ok? && s.now == 0 && s.market == map[] && s.venue.slips == 0 && s.venue.pending == [FIRST, SECOND]
            && s.oms.records == map[1 := OrderRecord(PATIENT, Working, 0.0, 0.0, 0.0),
                                    2 := OrderRecord(STALE, Working, 0.0, 0.0, 0.0)]
  {
    BothAreSent();
    hide Scripted;
    assert LOSING_RUN[..1] == [LOSING_RUN[0]] && LOSING_RUN[..1][..0] == [];
    assert Begin(THIN, 0).(now := 0) == Begin(THIN, 0);
  }

  lemma BarLosesAFill(s: EngineState)
    requires s.market == map[] && s.venue.slips == 0 && s.venue.pending == [FIRST, SECOND]
    ensures var (t, r) := Matched(s, THIN, TenBar(5));
            && r == Err(VenueRefused(FillBreaksChain)) && t.oms == s.oms
            && t.venue.pending == [FIRST.(filled := 1.0), SECOND]
  {
    assert BarState(MarketOf(s, 0), THIN, TenBar(5)) == ONE_BAR;
    assert Participation(ONE_BAR, THIN.fills) == 1.0;
    MatchesBoth(Marking(s, 0, ONE_BAR, 10.0, 10.0).venue.stats);
    hide MatchFrom, BarState, Participation;
  }

  lemma HalfIsUnknown(ps: seq<PendingOrder>, oms: OmsState, stamps: map<OrderId, Timestamp>)
    requires FIRST.(filled := 1.0) in ps && 1 in oms.records && oms.records[1].filled == 0.0
    ensures !Agree(ps, oms, stamps)
  {
    assert !Backed(FIRST.(filled := 1.0), oms, stamps);
  }

  /** The venue has bought one of the two shares, the run has failed, and the order manager never hears of it. */
  lemma LostFillRun()
    ensures var (s, r) := Running(THIN, 0, LOSING_RUN);
            && r == Err(VenueRefused(FillBreaksChain))
            && s.venue.pending == [FIRST.(filled := 1.0), SECOND]
            && 1 in s.oms.records && s.oms.records[1].filled == 0.0
            && !Agree(s.venue.pending, s.oms, s.stamps)
  {
    hide Running, Matched, Agree;
    BothAreWorking();
    LastIsMatched(THIN, 0, LOSING_RUN);
    BarLosesAFill(Running(THIN, 0, LOSING_RUN[..1]).0.(now := 5));
    var s := Running(THIN, 0, LOSING_RUN).0;
    assert s.venue.pending[0] == FIRST.(filled := 1.0);
    HalfIsUnknown(s.venue.pending, s.oms, s.stamps);
  }

  // ---------------------------------------------------------------------------
  // A stranded record
  // ---------------------------------------------------------------------------

  const AT_WILL := Setup(FREE, FillConfig(1.0, true), LONG_OR_SHORT, 0.0)

  /** Half a tolerance less than one share. */
  const NEARLY_ONE := 1.0 - 0.5 * TOLERANCE

  const ONE_SHARE := PendingOrder(SAMPLE_ORDER.(times := ARRIVED), 1, 0.0, false)

  function OneOrder(): seq<SinkCall> {
    [SubmitOrder(SAMPLE_ORDER, true)]
  }

  /** One share is ordered; a bar comes before the order arrives, then a quote shows nearly one share. */
  const STRANDING_RUN: seq<Delivery> :=
    [Delivery(TradePrint, 0, OneOrder()), Delivery(TenBar(0), 0, []),
     Delivery(Quote(0, 10.0, 10.0, 1.0, NEARLY_ONE, 5), 5, [])]

  const SHORT_QUOTE := MarketState(10.0, 10.0, 1.0, NEARLY_ONE, 100.0, 0.0, true, true)

  lemma OneIsSent()
    ensures var (s, r) := Running(AT_WILL, 0, STRANDING_RUN[..1]);
            && r.Ok? && s.now == 0 && s.market == map[] && s.venue.slips == 0 && s.venue.pending == [ONE_SHARE]
            && s.oms.records == map[1 := OrderRecord(SAMPLE_ORDER, Working, 0.0, 0.0, 0.0)]
  {
    var s, script := Begin(AT_WILL, 0), OneOrder();
    assert STRANDING_RUN[..1] == [STRANDING_RUN[0]] && STRANDING_RUN[..1][..0] == [];
    assert script[..0] == [] && s.(now := 0) == s;
    hide Calling;
    assert Scripted(s, AT_WILL, script) == Calling(s, AT_WILL, SubmitOrder(SAMPLE_ORDER, true));
    SendsOne(s, AT_WILL, SAMPLE_ORDER);
    assert [] + [ONE_SHARE] == [ONE_SHARE];
  }

  lemma TooEarlyToFill(stats: ExecutionStats)
    ensures MatchFrom([ONE_SHARE], 0, ONE_BAR, 0, AT_WILL.fills, FREE, 100.0, 0, stats)
            == Matching([ONE_SHARE], [], 0, stats, None)
  {
    assert [ONE_SHARE][1..] == [] && [ONE_SHARE] + [] == [ONE_SHARE];
  }

  /** The bar only sets the volume. */
  lemma BarRests()
    ensures var (s, r) := Running(AT_WILL, 0, STRANDING_RUN[..2]);
            && r.Ok? && s.now == 0 && s.market == map[0 := ONE_BAR] && s.venue.slips == 0
            && s.venue.pending == [ONE_SHARE]
            && s.oms.records == map[1 := OrderRecord(SAMPLE_ORDER, Working, 0.0, 0.0, 0.0)]
  {
    OneIsSent();
    var run := STRANDING_RUN[..2];
    assert run[..1] == STRANDING_RUN[..1] && run[1] == STRANDING_RUN[1];
    var s := Running(AT_WILL, 0, run[..1]).0;
    assert s.(now := 0) == s;
    assert BarState(MarketOf(s, 0), AT_WILL, TenBar(0)) == ONE_BAR;
    var s2 := Marking(s, 0, ONE_BAR, 10.0, 10.0);
    TooEarlyToFill(s2.venue.stats);
    assert Participation(ONE_BAR, AT_WILL.fills) == 100.0;
    LastIsMatched(AT_WILL, 0, run);
    hide MatchFrom, BarState, Marking, Running;
    var (t, r) := MatchingAt(s2, AT_WILL, 0, ONE_BAR, 0);
    assert Running(AT_WILL, 0, run) == (t, r);
  }

  lemma NearlyOneTrades(stats: ExecutionStats)
    ensures var m := MatchFrom([ONE_SHARE], 0, SHORT_QUOTE, 5, AT_WILL.fills, FREE, 100.0, 0, stats);
            && m.error.None? && m.kept == []
            && m.fills == [NEARLY_FILLED]
  {
    assert ChainOk(ARRIVED.(fill := 5));
    var visit := VisitOrder(ONE_SHARE, 0, SHORT_QUOTE, 5, AT_WILL.fills, FREE, 100.0, 0);
    assert visit.Trade? && visit.left == None;
    assert [ONE_SHARE][1..] == [];
  }

  const NEARLY_FILLED := Fill(1, 0, 0, Buy, 10.0, NEARLY_ONE, 0.0, 0.0, Taker, ARRIVED.(fill := 5), 10.0)

  lemma QuoteStrands(s: EngineState)
    requires s.market == map[0 := ONE_BAR] && s.venue.slips == 0 && s.venue.pending == [ONE_SHARE]
    requires s.oms.records == map[1 := OrderRecord(SAMPLE_ORDER, Working, 0.0, 0.0, 0.0)]
    ensures var (t, r) := Matched(s, AT_WILL, Quote(0, 10.0, 10.0, 1.0, NEARLY_ONE, 5));
            && r.Ok? && t.venue.pending == [] && 1 in t.oms.records && t.oms.records[1].state == PartiallyFilled
            && t.oms.records[1].filled == NEARLY_ONE
  {
    assert QuoteState(MarketOf(s, 0), Quote(0, 10.0, 10.0, 1.0, NEARLY_ONE, 5)) == SHORT_QUOTE;
    var s2 := Marking(s, 0, SHORT_QUOTE, 10.0, 10.0);
    NearlyOneTrades(s2.venue.stats);
    assert Participation(SHORT_QUOTE, AT_WILL.fills) == 100.0;
    hide MatchFrom, QuoteState, DispatchOne, Participation;
    var booked := s2.(venue := Marketing(s2.venue, 0, SHORT_QUOTE, 5, AT_WILL.fills, FREE).0);
    BuysNearlyOne(booked, NEARLY_FILLED);
    assert [NEARLY_FILLED][1..] == [];
    assert Dispatching(booked, AT_WILL, [NEARLY_FILLED]) == DispatchOne(booked, AT_WILL, NEARLY_FILLED) by {
      DispatchOneIsTrue(booked, AT_WILL, NEARLY_FILLED);
    }
  }

  lemma DispatchOneIsTrue(s: EngineState, u: Setup, f: Fill)
    ensures DispatchOne(s, u, f).1.Ok? ==> DispatchOne(s, u, f).1 == Ok(true)
  {
    hide Filling, Booking;
  }

  lemma NothingToCancel(s: EngineState)
    requires s.venue.pending == []
    ensures CancellingAt(s, 1).1.Err?
  {
  }

  /** The run succeeds, the venue has nothing left, and the record stays partly filled for ever. */
  lemma StrandingRun()
    ensures var (s, r) := Running(AT_WILL, 0, STRANDING_RUN);
            && r.Ok? && s.venue.pending == [] && 1 in s.oms.records && s.oms.records[1].state == PartiallyFilled
            && s.oms.records[1].filled == NEARLY_ONE && CancellingAt(s, 1).1.Err?
  {
    hide Running, Matched, CancellingAt;
    BarRests();
    LastIsMatched(AT_WILL, 0, STRANDING_RUN);
    var s := Running(AT_WILL, 0, STRANDING_RUN[..2]).0;
    QuoteStrands(s.(now := 5));
    NothingToCancel(Running(AT_WILL, 0, STRANDING_RUN).0);
  }

  lemma BuysNearlyOne(s: EngineState, f: Fill)
    requires s.oms.records == map[1 := OrderRecord(SAMPLE_ORDER, Working, 0.0, 0.0, 0.0)]
    requires f == NEARLY_FILLED
    ensures var (t, r) := DispatchOne(s, AT_WILL, f);
            && r.Ok? && t.venue == s.venue && 1 in t.oms.records && t.oms.records[1].state == PartiallyFilled
            && t.oms.records[1].filled == NEARLY_ONE
  {
    hide Applied;
  }
}
