/** The event loop: market updates, fills, the order sink and the strategy's calls through it. */
module Engines {
  import opened Types
  import opened Orders
  import opened OrderManagement
  import opened Venue
  import opened Portfolios
  import opened Journals
  import opened Agreement

  /** The configuration and borrowed models of one engine. */
  datatype Setup = Setup(models: Models, fills: FillConfig, portfolio: PortfolioConfig, defaultVolume: real)

  /** What a strategy may ask of the sink, with the risk gate's verdict as an oracle. */
  datatype SinkCall =
    | NextOrderId
    | SubmitOrder(order: Order, approved: bool)
    | CancelOrder(id: OrderId)

  datatype MarketEvent =
    | Bar(instrument: InstrumentId, high: real, low: real, close: real, volume: real, closeTime: Timestamp)
    | Quote(instrument: InstrumentId, bid: real, ask: real, bidSize: real, askSize: real, exchangeTime: Timestamp)
    | TradePrint
    | SplitAction(instrument: InstrumentId, ratio: real)
    | DividendAction(instrument: InstrumentId, perShare: real)
    | SessionOpen
    | SessionClose

  /** An event as the source hands it over: when it was received, and what the strategy then does. */
  datatype Delivery = Delivery(event: MarketEvent, received: Timestamp, script: seq<SinkCall>)

  datatype EngineError =
    | RiskRefused
    | OmsRefused(oms: OmsError)
    | VenueRefused(venue: VenueError)
    | PortfolioRefused(portfolio: PortfolioError)
    | ClockMovedBack

  /** `stamps` and `dispatched` are the history of accepted submissions and dispatched fills. */
  datatype EngineState = EngineState(
    now: Timestamp, market: map<InstrumentId, MarketState>, oms: OmsState, venue: VenueState,
    portfolio: PortfolioState, journal: JournalState, turnover: real, stamps: Stamps, dispatched: seq<Fill>)

  type Outcome = (EngineState, Result<bool, EngineError>)

  const NO_MARKET := MarketState(0.0, 0.0, 0.0, 0.0, 0.0, 0.0, false, true)

  function Begin(u: Setup, start: Timestamp): EngineState {
    EngineState(start, map[], OmsState(map[], 1), VenueState([], 0, 0, FRESH_STATS), Initial(u.portfolio),
                JournalState([], [], []), 0.0, map[], [])
  }

  // ---------------------------------------------------------------------------
  // The order sink
  // ---------------------------------------------------------------------------

  /** The price at decision time: the mid of a quote, or a bar's close, or nothing. */
  function ReferencePrice(market: map<InstrumentId, MarketState>, i: InstrumentId): real {
    if i !in market then 0.0
    else if market[i].hasQuote then (market[i].bid + market[i].ask) * 0.5
    else market[i].bid
  }

  function Priced(o: Order, reference: real): Order {
    if reference > 0.0 then WithArrivalPrice(o, reference) else o
  }

  function RejectionEntry(now: Timestamp, o: Order): JournalEntry {
    JournalEntry(now, RiskRejection, NO_ORDER, o.instrument, Buy, 0.0, 0.0, 0.0, 0.0)
  }

  function SubmissionEntry(now: Timestamp, o: Order, reference: real): JournalEntry {
    JournalEntry(now, OrderSubmitted, o.id, o.instrument, o.side, o.quantity, reference, 0.0, 0.0)
  }

  /** Risk first, then the book of record, then the venue; a venue refusal rejects the record. */
  function Submitting(s: EngineState, u: Setup, o: Order, approved: bool): Outcome {
    if !approved then (s.(journal := Appending(s.journal, RejectionEntry(s.now, o))), Err(RiskRefused))
    else
      var reference := ReferencePrice(s.market, o.instrument);
      var priced := Priced(o, reference);
      var (booked, booking) := Submitted(s.oms, priced);
      if booking.Err? then (s, Err(OmsRefused(booking.error)))
      else
        var (venue, arrival) := Accepting(s.venue, u.models, s.now, priced);
        if arrival.Err? then
          (s.(oms := Transitioned(booked, o.id, Rejected).0, venue := venue), Err(VenueRefused(arrival.error)))
        else
          var working := Transitioned(Transitioned(booked, o.id, PendingNew).0, o.id, Working).0;
          (s.(oms := working, venue := venue, stamps := s.stamps[o.id := s.now],
              journal := Appending(s.journal, SubmissionEntry(s.now, priced, reference))), Ok(true))
  }

  function CancellingAt(s: EngineState, id: OrderId): Outcome {
    var (venue, gone) := Cancelling(s.venue, id);
    if gone.Err? then (s, Err(VenueRefused(gone.error)))
    else
      var (oms, r) := Transitioned(s.oms, id, Cancelled);
      (s.(venue := venue, oms := oms), if r.Err? then Err(OmsRefused(r.error)) else Ok(true))
  }

  /** A refused call is the strategy's to handle: it does not stop the engine. */
  function Calling(s: EngineState, u: Setup, call: SinkCall): EngineState {
    match call
    case NextOrderId => s.(oms := s.oms.(next := s.oms.next + 1))
    case SubmitOrder(o, approved) => Submitting(s, u, o, approved).0
    case CancelOrder(id) => CancellingAt(s, id).0
  }

  function Scripted(s: EngineState, u: Setup, script: seq<SinkCall>): EngineState {
    if script == [] then s
    else Calling(Scripted(s, u, script[..|script| - 1]), u, script[|script| - 1])
  }

  // ---------------------------------------------------------------------------
  // Fills
  // ---------------------------------------------------------------------------

  function DispatchOne(s: EngineState, u: Setup, f: Fill): Outcome {
    var (oms, booking) := Filling(s.oms, f);
    if booking.Err? then (s.(oms := oms), Err(OmsRefused(booking.error)))
    else
      var (portfolio, applied) := Booking(s.portfolio, u.portfolio, f);
      if applied.Err? then (s.(oms := oms, portfolio := portfolio), Err(PortfolioRefused(applied.error)))
      else (s.(oms := oms, portfolio := portfolio, journal := Recording(s.journal, f),
               turnover := s.turnover + Abs(f.price * f.quantity), dispatched := s.dispatched + [f]), Ok(true))
  }

  function Dispatching(s: EngineState, u: Setup, fills: seq<Fill>): Outcome
    decreases |fills|
  {
    if fills == [] then (s, Ok(true))
    else
      var (t, r) := DispatchOne(s, u, fills[0]);
      if r.Err? then (t, r) else Dispatching(t, u, fills[1..])
  }

  /** Matches the pending orders of one instrument, then dispatches what filled. */
  function MatchingAt(s: EngineState, u: Setup, i: InstrumentId, st: MarketState, at: Timestamp): Outcome {
    var (venue, fills) := Marketing(s.venue, i, st, at, u.fills, u.models);
    var t := s.(venue := venue);
    if fills.Err? then (t, Err(VenueRefused(fills.error))) else Dispatching(t, u, fills.value)
  }

  // ---------------------------------------------------------------------------
  // Events
  // ---------------------------------------------------------------------------

  function MarketOf(s: EngineState, i: InstrumentId): MarketState {
    if i in s.market then s.market[i] else NO_MARKET
  }

  /** A bar stands in for the quote when there is none, and carries the interval's volume. */
  function BarState(old_: MarketState, u: Setup, e: MarketEvent): MarketState
    requires e.Bar?
  {
    var st := if old_.hasQuote then old_ else old_.(bid := e.close, ask := e.close);
    st.(intervalVolume := if u.defaultVolume > 0.0 then u.defaultVolume else e.volume,
        intradayVolatility := if e.close > 0.0 then Abs(e.high - e.low) / e.close else 0.0)
  }

  function QuoteState(old_: MarketState, e: MarketEvent): MarketState
    requires e.Quote?
  {
    old_.(bid := e.bid, ask := e.ask, bidSize := e.bidSize, askSize := e.askSize, hasQuote := true)
  }

  function Marking(s: EngineState, i: InstrumentId, st: MarketState, bid: real, ask: real): EngineState {
    s.(market := s.market[i := st],
       portfolio := s.portfolio.(marks := s.portfolio.marks[i := MarkPair(bid, ask)]))
  }

  /** Fills come first: orders resting from earlier events are matched before the strategy acts. */
  function Handling(s: EngineState, u: Setup, e: MarketEvent, script: seq<SinkCall>): Outcome {
    match e
    case Bar(i, _, _, close, _, closeTime) =>
      var st := BarState(MarketOf(s, i), u, e);
      var (t, r) := MatchingAt(Marking(s, i, st, close, close), u, i, st, closeTime);
      if r.Err? then (t, r) else (Scripted(t, u, script), Ok(true))
    case Quote(i, bid, ask, _, _, exchangeTime) =>
      var st := QuoteState(MarketOf(s, i), e);
      var (t, r) := MatchingAt(Marking(s, i, st, bid, ask), u, i, st, exchangeTime);
      if r.Err? then (t, r) else (Scripted(t, u, script), Ok(true))
    case TradePrint => (Scripted(s, u, script), Ok(true))
    case SplitAction(i, ratio) =>
      var (p, r) := Splitting(s.portfolio, i, ratio);
      (s.(portfolio := p), if r.Err? then Err(PortfolioRefused(r.error)) else Ok(true))
    case DividendAction(i, perShare) => (s.(portfolio := Paying(s.portfolio, i, perShare)), Ok(true))
    case SessionOpen => (Scripted(s.(turnover := 0.0), u, script), Ok(true))
    case SessionClose => (Scripted(s, u, script), Ok(true))
  }

  /** The simulated clock moves to the receive time, and refuses to move back. */
  function Delivering(s: EngineState, u: Setup, d: Delivery): Outcome {
    if d.received < s.now then (s, Err(ClockMovedBack))
    else Handling(s.(now := d.received), u, d.event, d.script)
  }

  /** A whole run: it stops at the first event that fails. */
  function Running(u: Setup, start: Timestamp, ds: seq<Delivery>): Outcome {
    if ds == [] then (Begin(u, start), Ok(true))
    else
      var (s, r) := Running(u, start, ds[..|ds| - 1]);
      if r.Err? then (s, r) else Delivering(s, u, ds[|ds| - 1])
  }

  // ---------------------------------------------------------------------------
  // The engine object
  // ---------------------------------------------------------------------------

  class Engine {
    const setup: Setup
    const oms: OrderManager
    const broker: BrokerSimulator
    const portfolio: Portfolio
    const journal: Journal
    var now: Timestamp
    var market: map<InstrumentId, MarketState>
    var turnover: real
    ghost var stamps: Stamps
    ghost var dispatched: seq<Fill>

    ghost predicate Valid() {
      broker.models == setup.models && broker.cfg == setup.fills && portfolio.cfg == setup.portfolio
    }

    ghost function State(): EngineState
      reads this, oms, broker, portfolio, journal
    {
      EngineState(now, market, oms.State(), broker.State(), portfolio.State(), journal.State(),
                  turnover, stamps, dispatched)
    }

    constructor (setup: Setup, start: Timestamp)
      ensures Valid() && this.setup == setup
      ensures fresh(oms) && fresh(broker) && fresh(portfolio) && fresh(journal)
      ensures State() == Begin(setup, start)
    {
      this.setup := setup;
      oms := new OrderManager();
      broker := new BrokerSimulator(setup.models, setup.fills);
      portfolio := new Portfolio(setup.portfolio);
      journal := new Journal();
      now, market, turnover := start, map[], 0.0;
      stamps, dispatched := map[], [];
    }

    method SinkSubmit(o: Order, approved: bool) returns (r: Result<bool, EngineError>)
      requires Valid()
      modifies this, oms, broker, journal
      ensures (State(), r) == Submitting(old(State()), setup, o, approved)
    {
      if !approved {
        var _ := journal.Append(RejectionEntry(now, o));
        return Err(RiskRefused);
      }
      var reference := ReferencePrice(market, o.instrument);
      var priced := Priced(o, reference);
      var submitted := oms.Submit(priced);
      if submitted.Err? { return Err(OmsRefused(submitted.error)); }
      var arrival := broker.Submit(now, priced);
      if arrival.Err? {
        var _ := oms.Transition(o.id, Rejected);
        return Err(VenueRefused(arrival.error));
      }
      var _ := oms.Transition(o.id, PendingNew);
      var _ := oms.Transition(o.id, Working);
      stamps := stamps[o.id := now];
      var _ := journal.Append(SubmissionEntry(now, priced, reference));
      return Ok(true);
    }

    /** The venue first: an order it no longer works is left alone in the book. */
    method SinkCancel(id: OrderId) returns (r: Result<bool, EngineError>)
      requires Valid()
      modifies oms, broker
      ensures (State(), r) == CancellingAt(old(State()), id)
    {
      var gone := broker.Cancel(id);
      if gone.Err? { return Err(VenueRefused(gone.error)); }
      var c := oms.Transition(id, Cancelled);
      if c.Err? { return Err(OmsRefused(c.error)); }
      return Ok(true);
    }

    /** The strategy's calls, one after the other. */
    method RunScript(script: seq<SinkCall>)
      requires Valid()
      modifies this, oms, broker, journal
      ensures State() == Scripted(old(State()), setup, script)
    {
      ghost var s := State();
      hide Submitting, CancellingAt;
      var n := 0;
      while n < |script|
        invariant 0 <= n <= |script|
        invariant State() == Scripted(s, setup, script[..n])
      {
        assert script[..n + 1][..n] == script[..n];
        match script[n] {
          case NextOrderId =>
            var _ := oms.NextId();
          case SubmitOrder(o, approved) =>
            var _ := SinkSubmit(o, approved);
          case CancelOrder(id) =>
            var _ := SinkCancel(id);
        }
        n := n + 1;
      }
      assert script[..n] == script;
    }

    method DispatchFill(f: Fill) returns (r: Result<bool, EngineError>)
      requires Valid()
      modifies this, oms, portfolio, journal
      ensures (State(), r) == DispatchOne(old(State()), setup, f)
    {
      hide Filling, Booking, Recording;
      var booked := oms.ApplyFill(f);
      if booked.Err? { return Err(OmsRefused(booked.error)); }
      var applied := portfolio.Apply(f);
      if applied.Err? { return Err(PortfolioRefused(applied.error)); }
      journal.RecordFill(f);
      turnover := turnover + Abs(f.price * f.quantity);
      dispatched := dispatched + [f];
      return Ok(true);
    }

    method DispatchFills(fills: seq<Fill>) returns (r: Result<bool, EngineError>)
      requires Valid()
      modifies this, oms, portfolio, journal
      ensures (State(), r) == Dispatching(old(State()), setup, fills)
    {
      ghost var goal := Dispatching(State(), setup, fills);
      hide DispatchOne;
      var n := 0;
      assert fills[n..] == fills;
      while n < |fills|
        invariant 0 <= n <= |fills|
        invariant Dispatching(State(), setup, fills[n..]) == goal
      {
        assert fills[n..][0] == fills[n] && fills[n..][1..] == fills[n + 1..];
        r := DispatchFill(fills[n]);
        if r.Err? { return; }
        n := n + 1;
      }
      return Ok(true);
    }

    method MatchAndDispatch(i: InstrumentId, st: MarketState, at: Timestamp) returns (r: Result<bool, EngineError>)
      requires Valid()
      modifies this, oms, broker, portfolio, journal
      ensures (State(), r) == MatchingAt(old(State()), setup, i, st, at)
    {
      hide Marketing, Dispatching;
      var fills := broker.OnMarket(i, st, at);
      if fills.Err? { return Err(VenueRefused(fills.error)); }
      r := DispatchFills(fills.value);
    }

    method HandleBar(e: MarketEvent, script: seq<SinkCall>) returns (r: Result<bool, EngineError>)
      requires Valid() && e.Bar?
      modifies this, oms, broker, portfolio, journal
      ensures (State(), r) == Handling(old(State()), setup, e, script)
    {
      hide MatchingAt, Scripted;
      var i := e.instrument;
      var st := BarState(if i in market then market[i] else NO_MARKET, setup, e);
      market := market[i := st];
      portfolio.Mark(i, e.close, e.close);
      r := MatchAndDispatch(i, st, e.closeTime);
      if r.Ok? {
        RunScript(script);
        r := Ok(true);
      }
    }

    method HandleQuote(e: MarketEvent, script: seq<SinkCall>) returns (r: Result<bool, EngineError>)
      requires Valid() && e.Quote?
      modifies this, oms, broker, portfolio, journal
      ensures (State(), r) == Handling(old(State()), setup, e, script)
    {
      hide MatchingAt, Scripted;
      var i := e.instrument;
      var st := QuoteState(if i in market then market[i] else NO_MARKET, e);
      market := market[i := st];
      portfolio.Mark(i, e.bid, e.ask);
      r := MatchAndDispatch(i, st, e.exchangeTime);
      if r.Ok? {
        RunScript(script);
        r := Ok(true);
      }
    }

    method Deliver(d: Delivery) returns (r: Result<bool, EngineError>)
      requires Valid()
      modifies this, oms, broker, portfolio, journal
      ensures (State(), r) == Delivering(old(State()), setup, d)
    {
      hide MatchingAt, Scripted, Splitting, Paying;
      if d.received < now { return Err(ClockMovedBack); }
      now := d.received;
      match d.event {
        case Bar(_, _, _, _, _, _) =>
          r := HandleBar(d.event, d.script);
        case Quote(_, _, _, _, _, _) =>
          r := HandleQuote(d.event, d.script);
        case TradePrint =>
          RunScript(d.script);
          r := Ok(true);
        case SplitAction(i, ratio) =>
          var p := portfolio.ApplySplit(i, ratio);
          r := if p.Err? then Err(PortfolioRefused(p.error)) else Ok(true);
        case DividendAction(i, perShare) =>
          portfolio.ApplyDividend(i, perShare);
          r := Ok(true);
        case SessionOpen =>
          turnover := 0.0;
          RunScript(d.script);
          r := Ok(true);
        case SessionClose =>
          RunScript(d.script);
          r := Ok(true);
      }
    }
  }

  /** A run from a fresh engine: one delivery after the other until one fails. */
  method Run(setup: Setup, start: Timestamp, ds: seq<Delivery>) returns (e: Engine, r: Result<bool, EngineError>)
    ensures fresh(e) && e.setup == setup
    ensures (e.State(), r) == Running(setup, start, ds)
  {
    e := new Engine(setup, start);
    r := Ok(true);
    var n := 0;
    while n < |ds| && r.Ok?
      invariant 0 <= n <= |ds| && e.Valid() && e.setup == setup
      invariant fresh(e) && fresh(e.oms) && fresh(e.broker) && fresh(e.portfolio) && fresh(e.journal)
      invariant (e.State(), r) == Running(setup, start, ds[..n])
    {
      hide Delivering, Running;
      RunOneMore(setup, start, ds, n);
      r := e.Deliver(ds[n]);
      n := n + 1;
    }
    FailedRunStops(setup, start, ds, n);
    assert ds[..|ds|] == ds;
  }

  lemma RunOneMore(u: Setup, start: Timestamp, ds: seq<Delivery>, n: nat)
    requires n < |ds| && Running(u, start, ds[..n]).1.Ok?
    ensures Running(u, start, ds[..n + 1]) == Delivering(Running(u, start, ds[..n]).0, u, ds[n])
  {
    hide Delivering;
    assert ds[..n + 1][..n] == ds[..n];
  }

  /** Nothing after the first failing event changes the outcome of a run. */
  lemma {:induction false} FailedRunStops(u: Setup, start: Timestamp, ds: seq<Delivery>, n: nat)
    requires n <= |ds|
    ensures Running(u, start, ds[..n]).1.Err? ==> Running(u, start, ds) == Running(u, start, ds[..n])
    decreases |ds|
  {
    if n == |ds| {
      assert ds[..n] == ds;
    } else {
      var prefix := ds[..|ds| - 1];
      assert prefix[..n] == ds[..n];
      FailedRunStops(u, start, prefix, n);
    }
  }
}
