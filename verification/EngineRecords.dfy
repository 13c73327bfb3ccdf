/** What an engine run leaves on record: the market it shows, the marks, the money traded, and the price at which an
    order was decided. */
module EngineRecords {
  import opened Types
  import opened TimeChain
  import opened Orders
  import opened OrderManagement
  import opened Venue
  import opened Portfolios
  import opened Journals
  import opened Engines
  import opened EngineLedgers
  import B = Bookkeeping
  import V = VenueTrades

  // ---------------------------------------------------------------------------
  // The data of a run
  // ---------------------------------------------------------------------------

  /** The events a run has taken in: up to the first failure, that one included unless it came with a clock that moved
      back. */
  function TakenIn(u: Setup, start: Timestamp, ds: seq<Delivery>): seq<MarketEvent> {
    if ds == [] then []
    else
      var front, d := ds[..|ds| - 1], ds[|ds| - 1];
      var (s, r) := Running(u, start, front);
      TakenIn(u, start, front) + if r.Ok? && d.received >= s.now then [d.event] else []
  }

  function LastQuote(es: seq<MarketEvent>, i: InstrumentId): Option<MarketEvent>
    ensures LastQuote(es, i).Some? ==> LastQuote(es, i).value.Quote?
  {
    if es == [] then None
    else
      var e := es[|es| - 1];
      if e.Quote? && e.instrument == i then Some(e) else LastQuote(es[..|es| - 1], i)
  }

  function LastBar(es: seq<MarketEvent>, i: InstrumentId): Option<MarketEvent>
    ensures LastBar(es, i).Some? ==> LastBar(es, i).value.Bar?
  {
    if es == [] then None
    else
      var e := es[|es| - 1];
      if e.Bar? && e.instrument == i then Some(e) else LastBar(es[..|es| - 1], i)
  }

  /** The mark that bars and quotes set and later splits divide. */
  function MarkFrom(es: seq<MarketEvent>, i: InstrumentId): Option<MarkPair> {
    if es == [] then None
    else
      var e, before := es[|es| - 1], MarkFrom(es[..|es| - 1], i);
      match e
      case Bar(k, _, _, close, _, _) => if k == i then Some(MarkPair(close, close)) else before
      case Quote(k, bid, ask, _, _, _) => if k == i then Some(MarkPair(bid, ask)) else before
      case SplitAction(k, ratio) =>
        if k == i && ratio > 0.0 && before.Some?
        then Some(MarkPair(before.value.bid / ratio, before.value.ask / ratio)) else before
      case _ => before
  }

  /** The touch is the last quote's; until there is one both sides are the last bar's close. The volume of the interval,
      unless the setup fixes one, and the spread of its prices are the last bar's. */
  predicate Shows(st: MarketState, quote: Option<MarketEvent>, bar: Option<MarketEvent>, defaultVolume: real)
    requires (quote.Some? ==> quote.value.Quote?) && (bar.Some? ==> bar.value.Bar?)
  {
    && st.volumeKnown && (st.hasQuote <==> quote.Some?)
    && (quote.Some? ==>
          && st.bid == quote.value.bid && st.ask == quote.value.ask
          && st.bidSize == quote.value.bidSize && st.askSize == quote.value.askSize)
    && (quote.None? && bar.Some? ==> st.bid == st.ask == bar.value.close)
    && (quote.None? ==> st.bidSize == st.askSize == 0.0)
    && (quote.None? && bar.None? ==> st.bid == st.ask == 0.0)
    && (bar.Some? ==>
          && st.intervalVolume == (if defaultVolume > 0.0 then defaultVolume else bar.value.volume)
          && st.intradayVolatility
             == (if bar.value.close > 0.0 then Abs(bar.value.high - bar.value.low) / bar.value.close else 0.0))
    && (bar.None? ==> st.intervalVolume == st.intradayVolatility == 0.0)
  }

  predicate ShowsData(s: EngineState, u: Setup, es: seq<MarketEvent>, i: InstrumentId) {
    && (i in s.market <==> LastQuote(es, i).Some? || LastBar(es, i).Some?)
    && Shows(MarketOf(s, i), LastQuote(es, i), LastBar(es, i), u.defaultVolume)
    && (if i in s.portfolio.marks then Some(s.portfolio.marks[i]) else None) == MarkFrom(es, i)
  }

  // ---------------------------------------------------------------------------
  // What matching, dispatching and the strategy leave alone
  // ---------------------------------------------------------------------------

  lemma {:induction false} ScriptLeavesMarket(s: EngineState, u: Setup, script: seq<SinkCall>)
    ensures var t := Scripted(s, u, script);
            t.market == s.market && t.portfolio == s.portfolio && t.dispatched == s.dispatched
            && t.turnover == s.turnover && t.now == s.now
  {
    if script != [] {
      ScriptLeavesMarket(s, u, script[..|script| - 1]);
      hide Submitted, Accepting, Transitioned, Cancelling;
    }
  }

  lemma {:induction false} DispatchLeavesMarket(s: EngineState, u: Setup, fills: seq<Fill>)
    ensures var t := Dispatching(s, u, fills).0; t.market == s.market && t.portfolio.marks == s.portfolio.marks
    decreases |fills|
  {
    if fills != [] {
      DispatchLeavesMarket(DispatchOne(s, u, fills[0]).0, u, fills[1..]);
      hide Filling;
    }
  }

  lemma MatchLeavesMarket(s: EngineState, u: Setup, i: InstrumentId, st: MarketState, at: Timestamp)
    ensures var t := MatchingAt(s, u, i, st, at).0; t.market == s.market && t.portfolio.marks == s.portfolio.marks
  {
    hide Marketing, Dispatching;
    var (venue, fills) := Marketing(s.venue, i, st, at, u.fills, u.models);
    if fills.Ok? {
      DispatchLeavesMarket(s.(venue := venue), u, fills.value);
    }
  }

  /** The market and the marks after one event. */
  lemma HandlingShows(s: EngineState, u: Setup, e: MarketEvent, script: seq<SinkCall>)
    ensures var t := Handling(s, u, e, script).0;
            && t.market == (match e
                            case Bar(i, _, _, _, _, _) => s.market[i := BarState(MarketOf(s, i), u, e)]
                            case Quote(i, _, _, _, _, _) => s.market[i := QuoteState(MarketOf(s, i), e)]
                            case _ => s.market)
            && t.portfolio.marks == (match e
                                     case Bar(i, _, _, close, _, _) => s.portfolio.marks[i := MarkPair(close, close)]
                                     case Quote(i, bid, ask, _, _, _) => s.portfolio.marks[i := MarkPair(bid, ask)]
                                     case SplitAction(i, ratio) => Splitting(s.portfolio, i, ratio).0.marks
                                     case _ => s.portfolio.marks)
  {
    hide MatchingAt, Scripted, BarState, QuoteState, Splitting;
    match e {
      case Bar(i, _, _, close, _, closeTime) =>
        var st := BarState(MarketOf(s, i), u, e);
        MatchLeavesMarket(Marking(s, i, st, close, close), u, i, st, closeTime);
        ScriptLeavesMarket(MatchingAt(Marking(s, i, st, close, close), u, i, st, closeTime).0, u, script);
      case Quote(i, bid, ask, _, _, exchangeTime) =>
        var st := QuoteState(MarketOf(s, i), e);
        MatchLeavesMarket(Marking(s, i, st, bid, ask), u, i, st, exchangeTime);
        ScriptLeavesMarket(MatchingAt(Marking(s, i, st, bid, ask), u, i, st, exchangeTime).0, u, script);
      case TradePrint => ScriptLeavesMarket(s, u, script);
      case SplitAction(_, _) =>
      case DividendAction(_, _) =>
      case SessionOpen => ScriptLeavesMarket(s.(turnover := 0.0), u, script);
      case SessionClose => ScriptLeavesMarket(s, u, script);
    }
  }

  lemma HandlingKeepsData(s: EngineState, u: Setup, es: seq<MarketEvent>, e: MarketEvent, script: seq<SinkCall>,
                          i: InstrumentId)
    requires ShowsData(s, u, es, i)
    ensures ShowsData(Handling(s, u, e, script).0, u, es + [e], i)
  {
    hide Handling;
    HandlingShows(s, u, e, script);
    assert (es + [e])[..|es|] == es;
  }

  /** Over every run, a failed one included, the market shows the last quote and bar of each instrument, and its mark is
      what the last of them set, divided by the splits since. */
  lemma {:induction false} MarketShowsData(u: Setup, start: Timestamp, ds: seq<Delivery>, i: InstrumentId)
    ensures ShowsData(Running(u, start, ds).0, u, TakenIn(u, start, ds), i)
  {
    hide ShowsData, Handling;
    if ds == [] {
      NothingShown(u, start, i);
    } else {
      var front, d := ds[..|ds| - 1], ds[|ds| - 1];
      var (s, r) := Running(u, start, front);
      MarketShowsData(u, start, front, i);
      var es := TakenIn(u, start, front);
      if r.Ok? && d.received >= s.now {
        OnlyTheClock(s, u, es, i, d.received);
        HandlingKeepsData(s.(now := d.received), u, es, d.event, d.script, i);
      } else {
        assert es + [] == es;
      }
    }
  }

  lemma OnlyTheClock(s: EngineState, u: Setup, es: seq<MarketEvent>, i: InstrumentId, now: Timestamp)
    requires ShowsData(s, u, es, i)
    ensures ShowsData(s.(now := now), u, es, i)
  {
  }

  lemma NothingShown(u: Setup, start: Timestamp, i: InstrumentId)
    ensures ShowsData(Begin(u, start), u, [], i)
  {
  }

  // ---------------------------------------------------------------------------
  // The price at decision
  // ---------------------------------------------------------------------------

  /** The mid of the last quote, or else the last close, or nothing. */
  function DecisionPrice(es: seq<MarketEvent>, i: InstrumentId): real {
    match LastQuote(es, i)
    case Some(q) => (q.bid + q.ask) / 2.0
    case None => match LastBar(es, i) case Some(b) => b.close case None => 0.0
  }

  function Decided(o: Order, price: real): OrderData {
    if price > 0.0 then o.(arrivalPrice := price) else o
  }

  /** The order stands in the book and last in the venue's queue, and the journal gets an entry for it. */
  predicate Stands(s: EngineState, t: EngineState, o: Order, price: real) {
    && o.id in t.oms.records
    && t.oms.records[o.id] == OrderRecord(Decided(o, price), OrderState.Working, 0.0, 0.0, 0.0)
    && |t.venue.pending| == |s.venue.pending| + 1
    && (var p := t.venue.pending[|s.venue.pending|];
        && p.order == Decided(o, price).(times := o.times.(arrival := p.arrivalTime))
        && p.filled == 0.0 && p.arrivalTime > s.now)
    && t.journal.entries
       == s.journal.entries
          + (if s.journal.entries == [] || s.journal.entries[|s.journal.entries| - 1].ts <= s.now
             then [JournalEntry(s.now, OrderSubmitted, o.id, o.instrument, o.side, o.quantity, price, 0.0, 0.0)]
             else [])
  }

  /** After any run, an order that the sink accepts is a working one with the price of the last data as its arrival
      price, in the book, at the venue and in the journal. */
  lemma AcceptedOrderIsPriced(u: Setup, start: Timestamp, ds: seq<Delivery>, o: Order)
    requires Submitting(Running(u, start, ds).0, u, o, true).1.Ok?
    ensures var s := Running(u, start, ds).0;
            Stands(s, Submitting(s, u, o, true).0, o, DecisionPrice(TakenIn(u, start, ds), o.instrument))
  {
    hide Running, TakenIn, ShowsData, DecisionPrice, ReferencePrice, Submitting, Stands;
    var s, es := Running(u, start, ds).0, TakenIn(u, start, ds);
    MarketShowsData(u, start, ds, o.instrument);
    ReferenceIsDecisionPrice(s, u, es, o.instrument);
    AcceptedOrderStands(s, u, o, DecisionPrice(es, o.instrument));
  }

  lemma AcceptedOrderStands(s: EngineState, u: Setup, o: Order, price: real)
    requires Submitting(s, u, o, true).1.Ok? && price == ReferencePrice(s.market, o.instrument)
    ensures Stands(s, Submitting(s, u, o, true).0, o, price)
  {
    hide Submitted, Transitioned, ReferencePrice, Accepting, WithArrivalPrice;
    PricedIsDecided(o, price);
    var priced := Priced(o, price);
    AcceptedWorks(s.oms, priced);
    VenueTakes(s.venue, u.models, s.now, priced);
    assert s.journal.entries + [] == s.journal.entries;
  }

  lemma PricedIsDecided(o: Order, price: real)
    ensures Priced(o, price) == Decided(o, price)
  {
  }

  lemma AcceptedWorks(oms: OmsState, o: Order)
    requires Submitted(oms, o).1.Ok?
    ensures var working := Transitioned(Transitioned(Submitted(oms, o).0, o.id, PendingNew).0, o.id,
                                        OrderState.Working).0;
            o.id in working.records && working.records[o.id] == OrderRecord(o, OrderState.Working, 0.0, 0.0, 0.0)
  {
  }

  lemma VenueTakes(v: VenueState, m: Models, now: Timestamp, o: Order)
    requires Accepting(v, m, now, o).1.Ok?
    ensures var after := Accepting(v, m, now, o).0;
            && |after.pending| == |v.pending| + 1
            && var p := after.pending[|v.pending|];
               p.order == o.(times := o.times.(arrival := p.arrivalTime)) && p.filled == 0.0 && p.arrivalTime > now
  {
    hide ChainOk;
  }

  lemma ReferenceIsDecisionPrice(s: EngineState, u: Setup, es: seq<MarketEvent>, i: InstrumentId)
    requires ShowsData(s, u, es, i)
    ensures ReferencePrice(s.market, i) == DecisionPrice(es, i)
  {
    hide LastQuote, LastBar, MarkFrom;
  }

  /** A submission that risk refuses leaves one entry in the journal and changes nothing else. */
  lemma RefusedOrderIsNoted(s: EngineState, u: Setup, o: Order)
    ensures Submitting(s, u, o, false).1 == Err(RiskRefused)
    ensures Submitting(s, u, o, false).0
            == s.(journal := s.journal.(entries :=
                    s.journal.entries
                    + if s.journal.entries == [] || s.journal.entries[|s.journal.entries| - 1].ts <= s.now
                      then [JournalEntry(s.now, RiskRejection, 0, o.instrument, Buy, 0.0, 0.0, 0.0, 0.0)] else []))
  {
    assert s.journal.entries + [] == s.journal.entries;
  }

  // ---------------------------------------------------------------------------
  // The money traded
  // ---------------------------------------------------------------------------

  /** How many fills had been dispatched when the last session opened. */
  function SessionStart(u: Setup, start: Timestamp, ds: seq<Delivery>): nat {
    if ds == [] then 0
    else
      var front, d := ds[..|ds| - 1], ds[|ds| - 1];
      var (s, r) := Running(u, start, front);
      if r.Ok? && d.received >= s.now && d.event.SessionOpen? then |s.dispatched| else SessionStart(u, start, front)
  }

  /** Cash, costs and turnover are those of the dispatched fills, the session's turnover of those from one on. */
  predicate Booked(s: EngineState, u: Setup, dividends: real, from: nat) {
    && s.portfolio.cash == u.portfolio.initialCash + B.AllPaidIn(s.dispatched) + dividends
    && s.portfolio.costs == B.Charged(s.dispatched) && s.portfolio.turnover == B.Traded(s.dispatched)
    && from <= |s.dispatched| && s.turnover == B.Traded(s.dispatched[from..])
  }

  lemma DispatchOneKeepsBooked(s: EngineState, u: Setup, f: Fill, dividends: real, from: nat)
    requires Booked(s, u, dividends, from)
    ensures Booked(DispatchOne(s, u, f).0, u, dividends, from)
    ensures |s.dispatched| <= |DispatchOne(s, u, f).0.dispatched|
  {
    hide Filling, Booking, Recording, B.AllPaidIn, B.Charged, B.Traded;
    B.BookingIs(s.portfolio, u.portfolio, f);
    B.Single(f);
    B.OneMore(s.dispatched, f);
    B.OneMore(s.dispatched[from..], f);
    assert (s.dispatched + [f])[from..] == s.dispatched[from..] + [f];
  }

  lemma {:induction false} DispatchKeepsBooked(s: EngineState, u: Setup, fills: seq<Fill>, dividends: real, from: nat)
    requires Booked(s, u, dividends, from)
    ensures Booked(Dispatching(s, u, fills).0, u, dividends, from)
    decreases |fills|
  {
    if fills != [] {
      DispatchOneKeepsBooked(s, u, fills[0], dividends, from);
      hide DispatchOne, Booked;
      DispatchKeepsBooked(DispatchOne(s, u, fills[0]).0, u, fills[1..], dividends, from);
    }
  }

  lemma MatchKeepsBooked(s: EngineState, u: Setup, i: InstrumentId, st: MarketState, at: Timestamp, dividends: real,
                         from: nat)
    requires Booked(s, u, dividends, from)
    ensures Booked(MatchingAt(s, u, i, st, at).0, u, dividends, from)
  {
    hide Marketing, Dispatching, B.AllPaidIn, B.Charged, B.Traded;
    var (venue, fills) := Marketing(s.venue, i, st, at, u.fills, u.models);
    if fills.Ok? {
      DispatchKeepsBooked(s.(venue := venue), u, fills.value, dividends, from);
    }
  }

  lemma HandlingKeepsBooked(s: EngineState, u: Setup, e: MarketEvent, script: seq<SinkCall>, dividends: real,
                            total: real, from: nat, since: nat)
    requires Booked(s, u, dividends, from)
    requires total == dividends + if e.DividendAction?
                                  then e.perShare * PositionOf(s.portfolio, e.instrument).quantity else 0.0
    requires since == if e.SessionOpen? then |s.dispatched| else from
    ensures Booked(Handling(s, u, e, script).0, u, total, since)
  {
    hide MatchingAt, Scripted, BarState, QuoteState, B.AllPaidIn, B.Charged, B.Traded;
    match e {
      case Bar(i, _, _, close, _, closeTime) =>
        var st := BarState(MarketOf(s, i), u, e);
        MatchKeepsBooked(Marking(s, i, st, close, close), u, i, st, closeTime, dividends, from);
        ScriptLeavesMarket(MatchingAt(Marking(s, i, st, close, close), u, i, st, closeTime).0, u, script);
      case Quote(i, bid, ask, _, _, exchangeTime) =>
        var st := QuoteState(MarketOf(s, i), e);
        MatchKeepsBooked(Marking(s, i, st, bid, ask), u, i, st, exchangeTime, dividends, from);
        ScriptLeavesMarket(MatchingAt(Marking(s, i, st, bid, ask), u, i, st, exchangeTime).0, u, script);
      case TradePrint => ScriptLeavesMarket(s, u, script);
      case SplitAction(_, _) =>
      case DividendAction(_, _) =>
      case SessionOpen =>
        ScriptLeavesMarket(s.(turnover := 0.0), u, script);
        NothingSince(s.dispatched);
      case SessionClose => ScriptLeavesMarket(s, u, script);
    }
  }

  lemma NothingSince(fills: seq<Fill>)
    ensures B.Traded(fills[|fills|..]) == 0.0 && B.AllPaidIn([]) == 0.0 && B.Charged([]) == 0.0
  {
  }

  /** Over every run, the portfolio's cash, costs and turnover are those of the fills dispatched, with the dividends
      paid, and the engine's turnover is that of the fills since the session opened. */
  lemma {:induction false} MoneyIsWhatWasTraded(u: Setup, start: Timestamp, ds: seq<Delivery>)
    ensures var s := Running(u, start, ds).0;
            && s.portfolio.cash
               == u.portfolio.initialCash + B.AllPaidIn(s.dispatched) + DividendsOf(u, start, ds)
            && s.portfolio.costs == B.Charged(s.dispatched) && s.portfolio.turnover == B.Traded(s.dispatched)
            && SessionStart(u, start, ds) <= |s.dispatched|
            && s.turnover == B.Traded(s.dispatched[SessionStart(u, start, ds)..])
  {
    BookedOverRuns(u, start, ds);
    hide Running, DividendsOf, SessionStart;
  }

  lemma {:induction false} BookedOverRuns(u: Setup, start: Timestamp, ds: seq<Delivery>)
    ensures Booked(Running(u, start, ds).0, u, DividendsOf(u, start, ds), SessionStart(u, start, ds))
  {
    hide Handling, Booked, PositionOf;
    if ds == [] {
      NothingBooked(u, start);
    } else {
      var front, d := ds[..|ds| - 1], ds[|ds| - 1];
      var (s, r) := Running(u, start, front);
      BookedOverRuns(u, start, front);
      if r.Ok? && d.received >= s.now {
        var from, dividends := SessionStart(u, start, front), DividendsOf(u, start, front);
        ClockKeepsBooked(s, u, dividends, from, d.received);
        var since := if d.event.SessionOpen? then |s.dispatched| else from;
        HandlingKeepsBooked(s.(now := d.received), u, d.event, d.script, dividends, DividendsOf(u, start, ds), from,
                            since);
      }
    }
  }

  lemma NothingBooked(u: Setup, start: Timestamp)
    ensures Booked(Begin(u, start), u, 0.0, 0)
  {
  }

  lemma ClockKeepsBooked(s: EngineState, u: Setup, dividends: real, from: nat, now: Timestamp)
    requires Booked(s, u, dividends, from)
    ensures Booked(s.(now := now), u, dividends, from)
  {
  }

  // ---------------------------------------------------------------------------
  // The fills of an event
  // ---------------------------------------------------------------------------

  lemma {:induction false} DispatchedAreOfThese(s: EngineState, u: Setup, fills: seq<Fill>, f: Fill)
    requires f in Dispatching(s, u, fills).0.dispatched
    ensures f in s.dispatched || f in fills
    decreases |fills|
  {
    if fills != [] {
      hide Filling, Booking, Recording;
      var (t, r) := DispatchOne(s, u, fills[0]);
      if r.Ok? {
        DispatchedAreOfThese(t, u, fills[1..], f);
      }
    }
  }

  lemma MatchedAreOfTheMarket(s: EngineState, u: Setup, i: InstrumentId, st: MarketState, at: Timestamp, f: Fill)
    requires f in MatchingAt(s, u, i, st, at).0.dispatched && f !in s.dispatched
    ensures f.instrument == i && f.times.fill == at
  {
    hide MatchFrom, Dispatching, V.Priced;
    var (venue, fills) := Marketing(s.venue, i, st, at, u.fills, u.models);
    DispatchedAreOfThese(s.(venue := venue), u, fills.value, f);
    var js := V.FillsAreDeals(s.venue.pending, i, st, at, u.fills, u.models, Participation(st, u.fills), s.venue.slips,
                              s.venue.stats);
    var k :| 0 <= k < |fills.value| && fills.value[k] == f;
    assert V.DealOf(f, s.venue.pending[js[k]], i, st, at, u.models, s.venue.slips + k);
  }

  /** Only bars and quotes bring fills: of their own instrument and at the exchange's own time, a bar's at its close. */
  lemma FillsAreOfTheEvent(s: EngineState, u: Setup, e: MarketEvent, script: seq<SinkCall>, f: Fill)
    requires f in Handling(s, u, e, script).0.dispatched && f !in s.dispatched
    ensures e.Bar? || e.Quote?
    ensures f.instrument == e.instrument && f.times.fill == if e.Bar? then e.closeTime else e.exchangeTime
  {
    hide MatchingAt, Scripted, BarState, QuoteState, Splitting;
    match e {
      case Bar(i, _, _, close, _, closeTime) =>
        var s1, st := Marking(s, i, BarState(MarketOf(s, i), u, e), close, close), BarState(MarketOf(s, i), u, e);
        ScriptLeavesMarket(MatchingAt(s1, u, i, st, closeTime).0, u, script);
        MatchedAreOfTheMarket(s1, u, i, st, closeTime, f);
      case Quote(i, bid, ask, _, _, exchangeTime) =>
        var s1, st := Marking(s, i, QuoteState(MarketOf(s, i), e), bid, ask), QuoteState(MarketOf(s, i), e);
        ScriptLeavesMarket(MatchingAt(s1, u, i, st, exchangeTime).0, u, script);
        MatchedAreOfTheMarket(s1, u, i, st, exchangeTime, f);
      case TradePrint => ScriptLeavesMarket(s, u, script);
      case SplitAction(_, _) =>
      case DividendAction(_, _) =>
      case SessionOpen => ScriptLeavesMarket(s.(turnover := 0.0), u, script);
      case SessionClose => ScriptLeavesMarket(s, u, script);
    }
  }
}
