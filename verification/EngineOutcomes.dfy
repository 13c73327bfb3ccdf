/** Exactly when an engine run fails: what each market update attempts to trade, and what can refuse it. */
module EngineOutcomes {
  import opened Types
  import opened TimeChain
  import opened Orders
  import opened OrderManagement
  import opened Venue
  import opened Positions
  import opened Portfolios
  import opened Agreement
  import opened Engines
  import opened EngineRuns
  import opened EngineFailures

  // ---------------------------------------------------------------------------
  // What an update attempts
  // ---------------------------------------------------------------------------

  /** How much of a pending order an update would trade; neither costs nor time stamps matter yet. */
  function Tries(p: PendingOrder, i: InstrumentId, st: MarketState, at: Timestamp, cfg: FillConfig, budget: real)
    : Option<real>
  {
    var o := p.order;
    var touch := st.Reference(o.side);
    if o.instrument != i || at < p.arrivalTime then None
    else if o.NeedsStop() && !p.stopTriggered && !StopTriggers(o, touch) then None
    else if !o.MarketableAgainst(touch) || p.Remaining() <= 0.0 then None
    else
      var allowance := Allowance(p.Remaining(), o.side, st, cfg, budget);
      if allowance.Some? && o.tif == FillOrKill && allowance.value + TOLERANCE < p.Remaining() then None
      else allowance
  }

  datatype Attempt = Attempt(p: PendingOrder, quantity: real, slips: nat)
  {
    function Signed(): real { quantity * SignOf(p.order.side) }
  }

  /** The trades of an update in order, each drawing on the budget that the ones before it leave. */
  function Attempts(ps: Pendings, i: InstrumentId, st: MarketState, at: Timestamp, cfg: FillConfig, budget: real,
                    slips: nat): seq<Attempt>
  {
    if ps == [] then []
    else
      match Tries(ps[0], i, st, at, cfg, budget)
      case None => Attempts(ps[1..], i, st, at, cfg, budget, slips)
      case Some(q) =>
        [Attempt(ps[0], q, slips)] + Attempts(ps[1..], i, st, at, cfg, Max(0.0, budget - q), slips + 1)
  }

  function BpsOf(x: Attempt, st: MarketState, m: Models): real {
    TotalBps(x.quantity, st, m, x.slips)
  }

  function PriceOf(x: Attempt, st: MarketState, m: Models): real {
    ApplyBps(st.Reference(x.p.order.side), BpsOf(x, st, m), SignOf(x.p.order.side))
  }

  /** An acknowledgement stamped before the update. */
  predicate StaleAck(p: PendingOrder, at: Timestamp) {
    IsSet(at) && IsSet(p.order.times.ack) && p.order.times.ack < at
  }

  predicate RefusedBy(x: Attempt, st: MarketState, at: Timestamp, m: Models) {
    PriceOf(x, st, m) <= 0.0 || StaleAck(x.p, at)
  }

  predicate SomeRefused(xs: seq<Attempt>, st: MarketState, at: Timestamp, m: Models) {
    exists x :: x in xs && RefusedBy(x, st, at, m)
  }

  /** Some trade, counted with those before it, takes the position below zero by more than the tolerance. */
  predicate GoesShort(held: real, xs: seq<Attempt>)
    decreases |xs|
  {
    xs != [] && (held + xs[0].Signed() < -TOLERANCE || GoesShort(held + xs[0].Signed(), xs[1..]))
  }

  function AttemptsOf(s: EngineState, u: Setup, i: InstrumentId, st: MarketState, at: Timestamp): seq<Attempt> {
    Attempts(s.venue.pending, i, st, at, u.fills, Participation(st, u.fills), s.venue.slips)
  }

  predicate UpdateFails(s: EngineState, u: Setup, i: InstrumentId, st: MarketState, at: Timestamp) {
    var xs := AttemptsOf(s, u, i, st, at);
    || SomeRefused(xs, st, at, u.models)
    || (!u.portfolio.allowShort && GoesShort(PositionOf(s.portfolio, i).quantity, xs))
  }

  // ---------------------------------------------------------------------------
  // One update
  // ---------------------------------------------------------------------------

  lemma MadeUnlessRefused(p: PendingOrder, oms: OmsState, stamps: Stamps, price: real, quantity: real,
                          commission: real, at: Timestamp)
    requires Backed(p, oms, stamps) && p.arrivalTime <= at && quantity > 0.0
    ensures MakeFill(p.order, price, quantity, commission, at).Err? <==> price <= 0.0 || StaleAck(p, at)
  {
    if IsSet(at) {
      FillRefusedExactly(p, oms, stamps, price, quantity, commission, at);
    } else {
      UnstampedFillIsInOrder(p.order.times, at);
    }
  }

  lemma UnstampedFillIsInOrder(t: LifecycleTimes, at: Timestamp)
    requires ChainOk(t) && !IsSet(at)
    ensures ChainOk(t.(fill := at))
  {
    forall i: nat | i + 1 < |STAGES|
      ensures !EdgeBroken(t.(fill := at), i)
    {
      assert !EdgeBroken(t, i);
    }
  }

  /** A visit trades, refuses or neither, as its attempt says. */
  lemma VisitFollowsAttempt(p: PendingOrder, i: InstrumentId, st: MarketState, at: Timestamp, cfg: FillConfig,
                            m: Models, budget: real, slips: nat, oms: OmsState, stamps: Stamps)
    requires Backed(p, oms, stamps)
    ensures var visit, tries := VisitOrder(p, i, st, at, cfg, m, budget, slips), Tries(p, i, st, at, cfg, budget);
            match tries
            case None => visit.Rest? || visit.Discard?
            case Some(q) =>
              if RefusedBy(Attempt(p, q, slips), st, at, m) then visit.Refuse?
              else
                && visit.Trade? && visit.fill.quantity == q
                && visit.fill.instrument == i && visit.fill.side == p.order.side
  {
    var tries := Tries(p, i, st, at, cfg, budget);
    if tries.Some? {
      var q := tries.value;
      AllowanceIsWithinWant(p.Remaining(), p.order.side, st, cfg, budget);
      var price := PriceOf(Attempt(p, q, slips), st, m);
      MadeUnlessRefused(p, oms, stamps, price, q, m.commission(q, price), at);
      assert FillOf(Awake(p), q, st, at, m, slips) == MakeFill(p.order, price, q, m.commission(q, price), at);
      hide ChainOk, Backed, ApplyBps, TotalBps, Allowance, StopTriggers;
    }
  }

  /** The fills are those attempted. */
  predicate Fulfils(fills: seq<Fill>, xs: seq<Attempt>, i: InstrumentId) {
    |fills| == |xs| && forall k :: 0 <= k < |fills| ==>
      fills[k].instrument == i && fills[k].SignedQuantity() == xs[k].Signed()
  }

  /** A matching fails when some attempt is refused, and otherwise fills what was attempted. */
  predicate Follows(r: Matching, xs: seq<Attempt>, i: InstrumentId, st: MarketState, at: Timestamp, m: Models) {
    && (r.error.Some? <==> SomeRefused(xs, st, at, m))
    && (r.error.None? ==> Fulfils(r.fills, xs, i))
  }

  lemma {:induction false} MatchingFailsIff(ps: Pendings, i: InstrumentId, st: MarketState, at: Timestamp,
                                            cfg: FillConfig, m: Models, budget: real, slips: nat,
                                            stats: ExecutionStats, oms: OmsState, stamps: Stamps)
    requires AllBacked(ps, oms, stamps)
    ensures Follows(MatchFrom(ps, i, st, at, cfg, m, budget, slips, stats), Attempts(ps, i, st, at, cfg, budget, slips),
                    i, st, at, m)
  {
    hide VisitOrder, StatsAfter, Tries, Backed, RefusedBy, Fulfils, SomeRefused;
    if ps == [] {
      NothingAttempted(st, at, m, i);
    } else {
      var p, tail := ps[0], ps[1..];
      assert p in ps && forall q :: q in tail ==> q in ps;
      var visit := VisitOrder(p, i, st, at, cfg, m, budget, slips);
      var stats' := StatsAfter(stats, visit);
      VisitFollowsAttempt(p, i, st, at, cfg, m, budget, slips, oms, stamps);
      hide AllBacked;
      match Tries(p, i, st, at, cfg, budget)
      case None =>
        MatchingFailsIff(tail, i, st, at, cfg, m, budget, slips, stats', oms, stamps);
      case Some(q) =>
        var x, xs := Attempt(p, q, slips), Attempts(tail, i, st, at, cfg, Max(0.0, budget - q), slips + 1);
        RefusedFirst(x, xs, st, at, m);
        if !RefusedBy(x, st, at, m) {
          var rest := MatchFrom(tail, i, st, at, cfg, m, Max(0.0, budget - q), slips + 1, stats');
          MatchingFailsIff(tail, i, st, at, cfg, m, Max(0.0, budget - q), slips + 1, stats', oms, stamps);
          FulfilsOneMore(visit.fill, rest.fills, x, xs, i);
        }
    }
  }

  lemma NothingAttempted(st: MarketState, at: Timestamp, m: Models, i: InstrumentId)
    ensures !SomeRefused([], st, at, m) && Fulfils([], [], i)
  {
  }

  lemma RefusedFirst(x: Attempt, xs: seq<Attempt>, st: MarketState, at: Timestamp, m: Models)
    ensures SomeRefused([x] + xs, st, at, m) <==> RefusedBy(x, st, at, m) || SomeRefused(xs, st, at, m)
  {
    hide RefusedBy;
    assert x in [x] + xs && forall y :: y in xs ==> y in [x] + xs;
  }

  lemma FulfilsOneMore(f: Fill, fills: seq<Fill>, x: Attempt, xs: seq<Attempt>, i: InstrumentId)
    requires f.instrument == i && f.quantity == x.quantity && f.side == x.p.order.side
    ensures Fulfils(fills, xs, i) ==> Fulfils([f] + fills, [x] + xs, i)
  {
  }

  /** Dispatching refuses a fill of the update exactly when the position would go short without permission. */
  lemma {:induction false} DispatchFailsIff(s: EngineState, u: Setup, fills: seq<Fill>, xs: seq<Attempt>,
                                            i: InstrumentId)
    requires Fulfils(fills, xs, i)
    requires var r := Dispatching(s, u, fills).1; r.Err? ==> !r.error.OmsRefused?
    ensures Dispatching(s, u, fills).1.Err?
            <==> !u.portfolio.allowShort && GoesShort(PositionOf(s.portfolio, i).quantity, xs)
    decreases |fills|
  {
    if fills != [] {
      hide Filling, Applied, PositionOf;
      DispatchOneFailsIff(s, u, fills[0]);
      var (t, r) := DispatchOne(s, u, fills[0]);
      hide DispatchOne;
      if r.Ok? {
        DispatchFailsIff(t, u, fills[1..], xs[1..], i);
      }
    }
  }

  lemma DispatchOneFailsIff(s: EngineState, u: Setup, f: Fill)
    ensures var (t, r) := DispatchOne(s, u, f);
            var held := PositionOf(s.portfolio, f.instrument).quantity;
            && (r.Err? && !r.error.OmsRefused? ==>
                  !u.portfolio.allowShort && held + f.SignedQuantity() < -TOLERANCE)
            && (r.Ok? ==>
                  && (u.portfolio.allowShort || held + f.SignedQuantity() >= -TOLERANCE)
                  && PositionOf(t.portfolio, f.instrument).quantity == held + f.SignedQuantity())
  {
    hide Filling;
  }

  /** A market update fails exactly when one of its attempts has no positive price or a stale acknowledgement, or takes
      a position short without permission. */
  lemma UpdateFailsIff(s: EngineState, u: Setup, i: InstrumentId, st: MarketState, at: Timestamp)
    requires Invariant(s)
    ensures MatchingAt(s, u, i, st, at).1.Err? <==> UpdateFails(s, u, i, st, at)
  {
    hide Attempts, AllBacked, Agree, MatchFrom, Dispatching, SomeRefused, GoesShort, Fulfils;
    assert AllBacked(s.venue.pending, s.oms, s.stamps) by {
      BackedByInvariant(s);
    }
    MatchingKeepsInvariant(s, u, i, st, at);
    MatchingFailsIff(s.venue.pending, i, st, at, u.fills, u.models, Participation(st, u.fills), s.venue.slips,
                     s.venue.stats, s.oms, s.stamps);
    var m := MatchAll(s.venue, i, st, at, u.fills, u.models);
    hide Invariant, Participation;
    if m.error.None? {
      var t := s.(venue := Marketing(s.venue, i, st, at, u.fills, u.models).0);
      assert MatchingAt(s, u, i, st, at) == Dispatching(t, u, m.fills);
      DispatchFailsIff(t, u, m.fills, AttemptsOf(s, u, i, st, at), i);
    }
  }

  lemma BackedByInvariant(s: EngineState)
    requires Invariant(s)
    ensures AllBacked(s.venue.pending, s.oms, s.stamps)
  {
  }

  // ---------------------------------------------------------------------------
  // Runs
  // ---------------------------------------------------------------------------

  predicate DeliveryFails(s: EngineState, u: Setup, d: Delivery) {
    d.received < s.now ||
    match d.event
    case Bar(i, _, _, _, _, at) => UpdateFails(s, u, i, BarState(MarketOf(s, i), u, d.event), at)
    case Quote(i, _, _, _, _, at) => UpdateFails(s, u, i, QuoteState(MarketOf(s, i), d.event), at)
    case SplitAction(_, ratio) => ratio <= 0.0
    case _ => false
  }

  lemma DeliveryFailsIff(s: EngineState, u: Setup, d: Delivery)
    requires Invariant(s)
    ensures Delivering(s, u, d).1.Err? <==> DeliveryFails(s, u, d)
  {
    if d.received >= s.now {
      var s1 := s.(now := d.received);
      assert Invariant(s1);
      hide MatchingAt, Scripted, Invariant, Attempts, SomeRefused, GoesShort, BarState, QuoteState;
      match d.event {
        case Bar(i, _, _, close, _, at) =>
          var st := BarState(MarketOf(s1, i), u, d.event);
          MarkingKeepsInvariant(s1, i, st, close, close);
          UpdateFailsIff(Marking(s1, i, st, close, close), u, i, st, at);
        case Quote(i, bid, ask, _, _, at) =>
          var st := QuoteState(MarketOf(s1, i), d.event);
          MarkingKeepsInvariant(s1, i, st, bid, ask);
          UpdateFailsIff(Marking(s1, i, st, bid, ask), u, i, st, at);
        case _ =>
      }
    }
  }

  /** The n-th delivery fails in the state that the ones before it lead to. */
  predicate FailsAt(u: Setup, start: Timestamp, ds: seq<Delivery>, n: nat)
    requires n < |ds|
  {
    DeliveryFails(Running(u, start, ds[..n]).0, u, ds[n])
  }

  /** A run fails exactly when one of its deliveries moves the clock back, carries a split ratio that is not positive,
      or is a market update in which an attempted trade has no positive price, a stale acknowledgement, or goes short
      without permission. */
  lemma {:induction false} RunFailsIff(u: Setup, start: Timestamp, ds: seq<Delivery>)
    ensures Running(u, start, ds).1.Err? <==> exists n: nat :: n < |ds| && FailsAt(u, start, ds, n)
  {
    hide DeliveryFails, Delivering;
    if ds != [] {
      var front, last := ds[..|ds| - 1], |ds| - 1;
      RunFailsIff(u, start, front);
      AgreementOverRuns(u, start, front);
      var (s, r) := Running(u, start, front);
      if r.Err? {
        var n: nat :| n < |front| && FailsAt(u, start, front, n);
        assert front[..n] == ds[..n];
        assert FailsAt(u, start, ds, n);
      } else {
        DeliveryFailsIff(s, u, ds[last]);
        assert FailsAt(u, start, ds, last) <==> DeliveryFails(s, u, ds[last]);
        forall n: nat | n < last
          ensures !FailsAt(u, start, ds, n)
        {
          assert front[..n] == ds[..n];
          assert !FailsAt(u, start, front, n);
        }
      }
    }
  }

  // ---------------------------------------------------------------------------
  // Runs on sane data
  // ---------------------------------------------------------------------------

  predicate NoAck(call: SinkCall) {
    call.SubmitOrder? ==> !IsSet(call.order.times.ack)
  }

  /** A delivery that real sources produce: positive prices, positive split ratios, stamped times, and
      orders that do not claim to be acknowledged before they are sent. */
  predicate Sane(d: Delivery) {
    && (forall call :: call in d.script ==> NoAck(call))
    && match d.event
       case Bar(_, _, _, close, _, closeTime) => close > 0.0 && IsSet(closeTime)
       case Quote(_, bid, ask, _, _, exchangeTime) => bid > 0.0 && ask > 0.0 && IsSet(exchangeTime)
       case SplitAction(_, ratio) => ratio > 0.0
       case _ => true
  }

  predicate Ticking(start: Timestamp, ds: seq<Delivery>) {
    && (ds != [] ==> start <= ds[0].received)
    && forall k :: 0 < k < |ds| ==> ds[k - 1].received <= ds[k].received
  }

  predicate PositiveQuotes(market: map<InstrumentId, MarketState>) {
    forall i :: i in market && market[i].hasQuote ==> market[i].bid > 0.0 && market[i].ask > 0.0
  }

  predicate NoAcks(ps: Pendings) {
    forall p :: p in ps ==> !IsSet(p.order.times.ack)
  }

  predicate Healthy(s: EngineState) {
    Invariant(s) && PositiveQuotes(s.market) && NoAcks(s.venue.pending)
  }

  /** Costs of ten thousand basis points take a seller the whole price; a buyer's cannot, unless they are negative. */
  predicate TakesThePrice(x: Attempt, st: MarketState, m: Models) {
    if x.p.order.side == Buy then BpsOf(x, st, m) <= -10000.0 else BpsOf(x, st, m) >= 10000.0
  }

  predicate SomeTakesThePrice(xs: seq<Attempt>, st: MarketState, m: Models) {
    exists x :: x in xs && TakesThePrice(x, st, m)
  }

  predicate CostsFail(s: EngineState, u: Setup, d: Delivery) {
    match d.event
    case Bar(i, _, _, _, _, at) =>
      var st := BarState(MarketOf(s, i), u, d.event);
      SomeTakesThePrice(AttemptsOf(s, u, i, st, at), st, u.models)
    case Quote(i, _, _, _, _, at) =>
      var st := QuoteState(MarketOf(s, i), d.event);
      SomeTakesThePrice(AttemptsOf(s, u, i, st, at), st, u.models)
    case _ => false
  }

  lemma {:induction false} AttemptsArePending(ps: Pendings, i: InstrumentId, st: MarketState, at: Timestamp,
                                              cfg: FillConfig, budget: real, slips: nat)
    ensures forall x :: x in Attempts(ps, i, st, at, cfg, budget, slips) ==> x.p in ps
  {
    hide Tries;
    if ps != [] {
      assert ps[0] in ps && forall q :: q in ps[1..] ==> q in ps;
      match Tries(ps[0], i, st, at, cfg, budget)
      case None => AttemptsArePending(ps[1..], i, st, at, cfg, budget, slips);
      case Some(q) => AttemptsArePending(ps[1..], i, st, at, cfg, Max(0.0, budget - q), slips + 1);
    }
  }

  lemma PriceIsTaken(reference: real, bps: real, side: Side)
    requires reference > 0.0
    ensures ApplyBps(reference, bps, SignOf(side)) <= 0.0 <==> if side == Buy then bps <= -10000.0 else bps >= 10000.0
  {
    var factor := 1.0 + SignOf(side) * bps * 0.0001;
    assert ApplyBps(reference, bps, SignOf(side)) == reference * factor;
  }

  lemma SaneUpdateFailsIff(s: EngineState, u: Setup, i: InstrumentId, st: MarketState, at: Timestamp)
    requires NoAcks(s.venue.pending) && u.portfolio.allowShort
    requires st.bid > 0.0 && (st.hasQuote ==> st.ask > 0.0)
    ensures UpdateFails(s, u, i, st, at) <==> SomeTakesThePrice(AttemptsOf(s, u, i, st, at), st, u.models)
  {
    var xs := AttemptsOf(s, u, i, st, at);
    AttemptsArePending(s.venue.pending, i, st, at, u.fills, Participation(st, u.fills), s.venue.slips);
    hide Attempts, ApplyBps, BpsOf;
    forall x | x in xs
      ensures RefusedBy(x, st, at, u.models) <==> TakesThePrice(x, st, u.models)
    {
      PriceIsTaken(st.Reference(x.p.order.side), BpsOf(x, st, u.models), x.p.order.side);
    }
  }

  /** Matching keeps orders as they are. */
  lemma {:induction false} KeptWithoutAcks(ps: Pendings, i: InstrumentId, st: MarketState, at: Timestamp,
                                           cfg: FillConfig, m: Models, budget: real, slips: nat, stats: ExecutionStats)
    requires NoAcks(ps)
    ensures NoAcks(MatchFrom(ps, i, st, at, cfg, m, budget, slips, stats).kept)
  {
    hide VisitOrder, StatsAfter, FillFor, ChainOk;
    if ps != [] {
      var visit := VisitOrder(ps[0], i, st, at, cfg, m, budget, slips);
      var stats' := StatsAfter(stats, visit);
      TradeFillsItsOrder(ps[0], i, st, at, cfg, m, budget, slips);
      match visit {
        case Rest(_) => KeptWithoutAcks(ps[1..], i, st, at, cfg, m, budget, slips, stats');
        case Discard(_) => KeptWithoutAcks(ps[1..], i, st, at, cfg, m, budget, slips, stats');
        case Trade(f, _, _) =>
          KeptWithoutAcks(ps[1..], i, st, at, cfg, m, Max(0.0, budget - f.quantity), slips + 1, stats');
        case Refuse(_, _) =>
      }
    }
  }

  lemma {:induction false} DispatchLeavesVenue(s: EngineState, u: Setup, fills: seq<Fill>)
    requires u.portfolio.allowShort
    ensures var (t, r) := Dispatching(s, u, fills);
            t.venue == s.venue && t.market == s.market && t.now == s.now && (r.Err? ==> r.error.OmsRefused?)
    decreases |fills|
  {
    if fills != [] {
      hide Filling, Applied;
      DispatchLeavesVenue(DispatchOne(s, u, fills[0]).0, u, fills[1..]);
    }
  }

  lemma SucceedingUpdateKeepsHealth(s: EngineState, u: Setup, i: InstrumentId, st: MarketState, at: Timestamp)
    requires Healthy(s) && u.portfolio.allowShort && MatchingAt(s, u, i, st, at).1.Ok?
    ensures var t := MatchingAt(s, u, i, st, at).0; Healthy(t) && t.now == s.now
  {
    MatchingKeepsInvariant(s, u, i, st, at);
    KeptWithoutAcks(s.venue.pending, i, st, at, u.fills, u.models, Participation(st, u.fills), s.venue.slips,
                    s.venue.stats);
    hide Invariant, MatchFrom, Dispatching;
    var (venue, fills) := Marketing(s.venue, i, st, at, u.fills, u.models);
    DispatchLeavesVenue(s.(venue := venue), u, fills.value);
  }

  lemma {:induction false} ScriptStaysHealthy(s: EngineState, u: Setup, script: seq<SinkCall>)
    requires Healthy(s) && forall call :: call in script ==> NoAck(call)
    ensures Healthy(Scripted(s, u, script)) && Scripted(s, u, script).now == s.now
  {
    if script != [] {
      var prefix, call := script[..|script| - 1], script[|script| - 1];
      assert call in script && forall c :: c in prefix ==> c in script;
      ScriptStaysHealthy(s, u, prefix);
      ScriptKeepsInvariant(s, u, script);
      CallKeepsHealth(Scripted(s, u, prefix), u, call);
    }
  }

  lemma CallKeepsHealth(s: EngineState, u: Setup, call: SinkCall)
    requires PositiveQuotes(s.market) && NoAcks(s.venue.pending) && NoAck(call)
    ensures var t := Calling(s, u, call);
            t.market == s.market && t.now == s.now && NoAcks(t.venue.pending)
  {
    if call.SubmitOrder? {
      var priced := Priced(call.order, ReferencePrice(s.market, call.order.instrument));
      if Accepting(s.venue, u.models, s.now, priced).1.Ok? {
        AcceptedOrderArrivesLater(s.venue, u.models, s.now, priced);
      }
    }
  }

  lemma SaneDeliveryFailsIff(s: EngineState, u: Setup, d: Delivery)
    requires Healthy(s) && u.portfolio.allowShort && Sane(d) && s.now <= d.received
    ensures Delivering(s, u, d).1.Err? <==> CostsFail(s, u, d)
  {
    DeliveryFailsIff(s, u, d);
    hide Delivering, Invariant, UpdateFails, SomeTakesThePrice, AttemptsOf;
    match d.event {
      case Bar(i, _, _, _, _, at) => SaneUpdateFailsIff(s, u, i, BarState(MarketOf(s, i), u, d.event), at);
      case Quote(i, _, _, _, _, at) => SaneUpdateFailsIff(s, u, i, QuoteState(MarketOf(s, i), d.event), at);
      case _ =>
    }
  }

  lemma SaneMarketDataKeepsHealth(s: EngineState, u: Setup, e: MarketEvent, script: seq<SinkCall>)
    requires Healthy(s) && u.portfolio.allowShort && (e.Bar? || e.Quote?) && Sane(Delivery(e, s.now, script))
    ensures var (t, r) := Handling(s, u, e, script); r.Ok? ==> Healthy(t) && t.now == s.now
  {
    hide MatchingAt, Scripted, Invariant, Marking, NoAcks;
    match e {
      case Bar(i, _, _, close, _, at) =>
        var st := BarState(MarketOf(s, i), u, e);
        assert st.hasQuote ==> st.bid > 0.0 && st.ask > 0.0;
        hide PositiveQuotes, BarState;
        var s2 := Marking(s, i, st, close, close);
        SaneMatch(s2, s, u, i, st, close, close, at, script);
        var (t, r) := MatchingAt(s2, u, i, st, at);
        assert Handling(s, u, e, script) == if r.Err? then (t, r) else (Scripted(t, u, script), Ok(true));
      case Quote(i, bid, ask, _, _, at) =>
        var st := QuoteState(MarketOf(s, i), e);
        assert st.bid > 0.0 && st.ask > 0.0;
        hide PositiveQuotes, QuoteState;
        var s2 := Marking(s, i, st, bid, ask);
        SaneMatch(s2, s, u, i, st, bid, ask, at, script);
        var (t, r) := MatchingAt(s2, u, i, st, at);
        assert Handling(s, u, e, script) == if r.Err? then (t, r) else (Scripted(t, u, script), Ok(true));
    }
  }

  lemma SaneDeliveryKeepsHealth(s: EngineState, u: Setup, d: Delivery)
    requires Healthy(s) && u.portfolio.allowShort && Sane(d) && s.now <= d.received
    ensures var (t, r) := Delivering(s, u, d); r.Ok? ==> Healthy(t) && t.now == d.received
  {
    var s1 := s.(now := d.received);
    assert Healthy(s1);
    if d.event.Bar? || d.event.Quote? {
      hide Handling, Healthy;
      assert Sane(Delivery(d.event, s1.now, d.script));
      SaneMarketDataKeepsHealth(s1, u, d.event, d.script);
    } else {
      hide MatchingAt, Scripted, Invariant, Marking, PositiveQuotes, NoAcks;
      match d.event {
        case SplitAction(i, ratio) => OtherFieldsKeepInvariant(s1, Splitting(s1.portfolio, i, ratio).0, s1.turnover);
        case DividendAction(i, perShare) =>
          OtherFieldsKeepInvariant(s1, Paying(s1.portfolio, i, perShare), s1.turnover);
        case SessionOpen =>
          OtherFieldsKeepInvariant(s1, s1.portfolio, 0.0);
          assert s1.(portfolio := s1.portfolio, turnover := 0.0) == s1.(turnover := 0.0);
          ScriptStaysHealthy(s1.(turnover := 0.0), u, d.script);
        case _ => ScriptStaysHealthy(s1, u, d.script);
      }
    }
  }

  lemma SaneMatch(s2: EngineState, s1: EngineState, u: Setup, i: InstrumentId, st: MarketState, bid: real, ask: real,
                  at: Timestamp, script: seq<SinkCall>)
    requires Healthy(s1) && s2 == Marking(s1, i, st, bid, ask) && u.portfolio.allowShort
    requires st.hasQuote ==> st.bid > 0.0 && st.ask > 0.0
    requires forall call :: call in script ==> NoAck(call)
    ensures var (t, r) := MatchingAt(s2, u, i, st, at);
            r.Ok? ==> Healthy(Scripted(t, u, script)) && Scripted(t, u, script).now == s1.now
  {
    hide MatchingAt, Scripted;
    MarkingKeepsInvariant(s1, i, st, bid, ask);
    var (t, r) := MatchingAt(s2, u, i, st, at);
    if r.Ok? {
      SucceedingUpdateKeepsHealth(s2, u, i, st, at);
      ScriptStaysHealthy(t, u, script);
    }
  }

  predicate CostsFailAt(u: Setup, start: Timestamp, ds: seq<Delivery>, n: nat)
    requires n < |ds|
  {
    CostsFail(Running(u, start, ds[..n]).0, u, ds[n])
  }

  /** On sane data, with short selling allowed and a clock that does not go back, a run fails exactly when the costs of
      some attempted trade take the whole price, whatever the strategy and the risk gate do. */
  lemma {:induction false} SaneRunFailsIff(u: Setup, start: Timestamp, ds: seq<Delivery>)
    requires u.portfolio.allowShort && Ticking(start, ds) && forall d :: d in ds ==> Sane(d)
    ensures Running(u, start, ds).1.Err? <==> exists n: nat :: n < |ds| && CostsFailAt(u, start, ds, n)
    ensures Running(u, start, ds).1.Ok? ==>
              Healthy(Running(u, start, ds).0)
              && Running(u, start, ds).0.now == if ds == [] then start else ds[|ds| - 1].received
  {
    hide CostsFail, Delivering, Sane;
    if ds == [] {
      AgreementOverRuns(u, start, ds);
    } else {
      var front, last := ds[..|ds| - 1], |ds| - 1;
      assert forall d :: d in front ==> d in ds;
      assert ds[last] in ds;
      SaneRunFailsIff(u, start, front);
      hide Healthy;
      var (s, r) := Running(u, start, front);
      if r.Err? {
        var n: nat :| n < |front| && CostsFailAt(u, start, front, n);
        assert front[..n] == ds[..n];
        assert CostsFailAt(u, start, ds, n);
      } else {
        SaneDeliveryFailsIff(s, u, ds[last]);
        SaneDeliveryKeepsHealth(s, u, ds[last]);
        assert CostsFailAt(u, start, ds, last) <==> CostsFail(s, u, ds[last]);
        forall n: nat | n < last
          ensures !CostsFailAt(u, start, ds, n)
        {
          assert front[..n] == ds[..n];
          assert !CostsFailAt(u, start, front, n);
        }
      }
    }
  }
}
