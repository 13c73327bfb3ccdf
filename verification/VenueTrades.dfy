/** What the venue trades: at which market, how much, at what price, and what never waits. */
module VenueTrades {
  import opened Types
  import opened Orders
  import opened Venue

  // ---------------------------------------------------------------------------
  // One visit, in terms of the quote
  // ---------------------------------------------------------------------------

  // Without a quote both sides meet the one price of a bar, which the bid holds.

  /** The ask is no more than a buyer's limit, the bid no less than a seller's. */
  predicate AtLimit(o: Order, st: MarketState) {
    o.limit.Some? ==>
      if o.side == Buy then (if st.hasQuote then st.ask else st.bid) <= o.limit.value else st.bid >= o.limit.value
  }

  /** The ask has risen to a buyer's stop, the bid has fallen to a seller's. */
  predicate AtStop(o: Order, st: MarketState) {
    o.stop.Some? ==>
      if o.side == Buy then (if st.hasQuote then st.ask else st.bid) >= o.stop.value else st.bid <= o.stop.value
  }

  /** The order has arrived, is for this instrument, no longer waits for its stop and is at its limit. */
  predicate Due(p: PendingOrder, i: InstrumentId, st: MarketState, now: Timestamp) {
    && p.order.instrument == i && p.arrivalTime <= now
    && (p.order.stop.Some? ==> p.stopTriggered || AtStop(p.order, st)) && AtLimit(p.order, st)
  }

  function Shown(o: Order, st: MarketState): real {
    if o.side == Buy then st.askSize else st.bidSize
  }

  predicate ShownBinds(st: MarketState, cfg: FillConfig) {
    st.hasQuote && cfg.respectDisplayedSize
  }

  function Supply(p: PendingOrder, st: MarketState, cfg: FillConfig): real {
    if ShownBinds(st, cfg) then Min(p.Remaining(), Shown(p.order, st)) else p.Remaining()
  }

  /** What is left of the order, no more than is displayed and no more than the budget while there is any. */
  function Taken(p: PendingOrder, st: MarketState, cfg: FillConfig, budget: real): real {
    if budget > 0.0 then Min(Supply(p, st, cfg), budget) else Supply(p, st, cfg)
  }

  /** Nothing is displayed for it, or nothing traded in the interval and no budget cuts it down. */
  predicate Starved(p: PendingOrder, st: MarketState, cfg: FillConfig, budget: real) {
    || (ShownBinds(st, cfg) && Shown(p.order, st) <= 0.0)
    || (st.volumeKnown && st.intervalVolume <= 0.0 && !(0.0 < budget < Supply(p, st, cfg)))
  }

  predicate Unfillable(p: PendingOrder, st: MarketState, cfg: FillConfig, budget: real) {
    p.order.tif == FillOrKill && Taken(p, st, cfg, budget) + TOLERANCE < p.Remaining()
  }

  /** An order rests exactly when it is not due, or is due, open and starved. */
  lemma RestsIff(p: PendingOrder, i: InstrumentId, st: MarketState, now: Timestamp, cfg: FillConfig, m: Models,
                 budget: real, slips: nat)
    ensures VisitOrder(p, i, st, now, cfg, m, budget, slips).Rest?
            <==> !Due(p, i, st, now) || (p.Remaining() > 0.0 && Starved(p, st, cfg, budget))
  {
    hide FillOf;
  }

  /** It leaves without a trade exactly when it is due and has nothing left, or must be filled whole and cannot be. */
  lemma DiscardsIff(p: PendingOrder, i: InstrumentId, st: MarketState, now: Timestamp, cfg: FillConfig, m: Models,
                    budget: real, slips: nat)
    ensures VisitOrder(p, i, st, now, cfg, m, budget, slips).Discard?
            <==> Due(p, i, st, now)
                 && (p.Remaining() <= 0.0 || (!Starved(p, st, cfg, budget) && Unfillable(p, st, cfg, budget)))
  {
    hide FillOf;
  }

  /** The fill carries the price of its side of the quote, moved against the trader by impact and slippage, and on a bar
      by half the spread as well. */
  predicate Priced(f: Fill, st: MarketState, m: Models, draw: nat) {
    var moved := (m.impact(f.quantity, st) + m.slippage(draw)) * 0.0001;
    var spread := m.halfSpread(st) * 0.0001;
    && (if st.hasQuote then f.price == (if f.side == Buy then st.ask * (1.0 + moved) else st.bid * (1.0 - moved))
        else f.price == (if f.side == Buy then st.bid * (1.0 + spread + moved) else st.bid * (1.0 - spread - moved)))
    && f.commission == m.commission(f.quantity, f.price) && f.exchangeFee == 0.0
  }

  /** The fill is one of this order, due at this market. */
  predicate DealOf(f: Fill, p: PendingOrder, i: InstrumentId, st: MarketState, now: Timestamp, m: Models, draw: nat) {
    && f.orderId == p.order.id && f.parentId == p.order.parent && f.instrument == p.order.instrument
    && f.side == p.order.side && f.times == p.order.times.(fill := now)
    && f.arrivalPrice == (if p.order.arrivalPrice > 0.0 then p.order.arrivalPrice else f.price)
    && Due(p, i, st, now) && 0.0 < f.quantity <= p.Remaining() && f.price > 0.0 && Priced(f, st, m, draw)
  }

  /** Every trade is at the market it claims, for all that the market offers, and is priced by it. */
  lemma TradeIsADeal(p: PendingOrder, i: InstrumentId, st: MarketState, now: Timestamp, cfg: FillConfig, m: Models,
                     budget: real, slips: nat)
    ensures var visit := VisitOrder(p, i, st, now, cfg, m, budget, slips);
            visit.Trade? ==>
              DealOf(visit.fill, p, i, st, now, m, slips) && visit.fill.quantity == Taken(p, st, cfg, budget)
  {
    var visit := VisitOrder(p, i, st, now, cfg, m, budget, slips);
    if visit.Trade? {
      RestsIff(p, i, st, now, cfg, m, budget, slips);
      DiscardsIff(p, i, st, now, cfg, m, budget, slips);
      TradedQuantity(p, i, st, now, cfg, m, budget, slips);
      var q := visit.fill.quantity;
      hide VisitOrder, Due, Taken, Starved, Unfillable;
      FillCarries(p, q, st, now, m, slips);
    }
  }

  lemma TradedQuantity(p: PendingOrder, i: InstrumentId, st: MarketState, now: Timestamp, cfg: FillConfig, m: Models,
                       budget: real, slips: nat)
    requires VisitOrder(p, i, st, now, cfg, m, budget, slips).Trade?
    ensures var f := VisitOrder(p, i, st, now, cfg, m, budget, slips).fill;
            && f.quantity == Taken(p, st, cfg, budget) && 0.0 < f.quantity <= p.Remaining()
            && FillOf(Awake(p), f.quantity, st, now, m, slips) == Ok(f)
  {
    hide ApplyBps, TotalBps;
  }

  lemma FillCarries(p: PendingOrder, q: real, st: MarketState, now: Timestamp, m: Models, slips: nat)
    ensures var made := FillOf(Awake(p), q, st, now, m, slips);
            made.Ok? ==>
              var f := made.value;
              && f.orderId == p.order.id && f.parentId == p.order.parent && f.instrument == p.order.instrument
              && f.side == p.order.side && f.times == p.order.times.(fill := now)
              && f.arrivalPrice == (if p.order.arrivalPrice > 0.0 then p.order.arrivalPrice else f.price)
              && f.quantity == q && f.price > 0.0 && Priced(f, st, m, slips)
  {
  }

  /** At a quote a limit is never bettered by the trade: a buy needs an ask no higher, a sell a bid no lower, and a stop
      an ask or bid that has reached it, now or before. */
  lemma QuotedTradeIsAtLimit(p: PendingOrder, i: InstrumentId, st: MarketState, now: Timestamp, cfg: FillConfig,
                             m: Models, budget: real, slips: nat)
    requires st.hasQuote && VisitOrder(p, i, st, now, cfg, m, budget, slips).Trade?
    ensures p.order.limit.Some? ==>
              (p.order.side == Buy ==> st.ask <= p.order.limit.value)
              && (p.order.side == Sell ==> st.bid >= p.order.limit.value)
    ensures p.order.stop.Some? && !p.stopTriggered ==>
              (p.order.side == Buy ==> st.ask >= p.order.stop.value)
              && (p.order.side == Sell ==> st.bid <= p.order.stop.value)
  {
    TradeIsADeal(p, i, st, now, cfg, m, budget, slips);
    hide VisitOrder;
  }

  /** Costs that are not negative never let a trade better the quote. */
  lemma NeverBetterThanTheQuote(p: PendingOrder, i: InstrumentId, st: MarketState, now: Timestamp, cfg: FillConfig,
                                m: Models, budget: real, slips: nat)
    requires st.hasQuote && st.bid >= 0.0 && st.ask >= 0.0
    requires VisitOrder(p, i, st, now, cfg, m, budget, slips).Trade?
    requires m.impact(VisitOrder(p, i, st, now, cfg, m, budget, slips).fill.quantity, st) + m.slippage(slips) >= 0.0
    ensures var f := VisitOrder(p, i, st, now, cfg, m, budget, slips).fill;
            if f.side == Buy then f.price >= st.ask else f.price <= st.bid
  {
    TradeIsADeal(p, i, st, now, cfg, m, budget, slips);
    var f := VisitOrder(p, i, st, now, cfg, m, budget, slips).fill;
    hide VisitOrder;
    var moved := (m.impact(f.quantity, st) + m.slippage(slips)) * 0.0001;
    Against(st.ask, moved);
    Against(st.bid, moved);
  }

  lemma Against(price: real, moved: real)
    requires price >= 0.0 && moved >= 0.0
    ensures price * (1.0 - moved) <= price <= price * (1.0 + moved)
  {
  }

  // ---------------------------------------------------------------------------
  // One update
  // ---------------------------------------------------------------------------

  /** Positions in a list, in order. */
  predicate Rising(js: seq<nat>, n: nat) {
    (forall k :: 0 <= k < |js| ==> js[k] < n) && forall k, l :: 0 <= k < l < |js| ==> js[k] < js[l]
  }

  predicate AllDeals(fills: seq<Fill>, ps: seq<PendingOrder>, js: seq<nat>, i: InstrumentId, st: MarketState,
                     now: Timestamp, m: Models, draw: nat)
  {
    && |js| == |fills| && Rising(js, |ps|)
    && forall k :: 0 <= k < |fills| ==> DealOf(fills[k], ps[js[k]], i, st, now, m, draw + k)
  }

  lemma DealsFurtherOn(fills: seq<Fill>, ps: seq<PendingOrder>, js: seq<nat>, i: InstrumentId, st: MarketState,
                       now: Timestamp, m: Models, draw: nat) returns (ks: seq<nat>)
    requires ps != [] && AllDeals(fills, ps[1..], js, i, st, now, m, draw)
    ensures AllDeals(fills, ps, ks, i, st, now, m, draw) && forall k :: 0 <= k < |ks| ==> ks[k] > 0
  {
    hide DealOf;
    ks := seq(|js|, k requires 0 <= k < |js| => js[k] + 1);
    forall k | 0 <= k < |fills|
      ensures DealOf(fills[k], ps[ks[k]], i, st, now, m, draw + k)
    {
      assert ps[ks[k]] == ps[1..][js[k]];
    }
  }

  lemma OneMoreDeal(f: Fill, fills: seq<Fill>, ps: seq<PendingOrder>, js: seq<nat>, i: InstrumentId, st: MarketState,
                    now: Timestamp, m: Models, draw: nat)
    requires ps != [] && DealOf(f, ps[0], i, st, now, m, draw) && AllDeals(fills, ps, js, i, st, now, m, draw + 1)
    requires forall k :: 0 <= k < |js| ==> js[k] > 0
    ensures AllDeals([f] + fills, ps, [0] + js, i, st, now, m, draw)
  {
    hide DealOf;
    forall k | 0 <= k < |fills| + 1
      ensures DealOf(([f] + fills)[k], ps[([0] + js)[k]], i, st, now, m, draw + k)
    {
      if k > 0 {
        assert DealOf(fills[k - 1], ps[js[k - 1]], i, st, now, m, draw + 1 + (k - 1));
      }
    }
  }

  /** The fills of an update are deals of different pending orders, in their order, each priced with its own draw. */
  lemma {:induction false} FillsAreDeals(ps: seq<PendingOrder>, i: InstrumentId, st: MarketState, now: Timestamp,
                                         cfg: FillConfig, m: Models, budget: real, slips: nat, stats: ExecutionStats)
    returns (js: seq<nat>)
    ensures var r := MatchFrom(ps, i, st, now, cfg, m, budget, slips, stats);
            AllDeals(r.fills, ps, js, i, st, now, m, slips)
            && r.slips == slips + |r.fills| + if r.error.Some? then 1 else 0
  {
    hide VisitOrder, StatsAfter, DealOf;
    if ps == [] {
      js := [];
    } else {
      var visit := VisitOrder(ps[0], i, st, now, cfg, m, budget, slips);
      var stats' := StatsAfter(stats, visit);
      match visit {
        case Rest(_) =>
          js := FillsAreDeals(ps[1..], i, st, now, cfg, m, budget, slips, stats');
          js := DealsFurtherOn(MatchFrom(ps[1..], i, st, now, cfg, m, budget, slips, stats').fills, ps, js,
                               i, st, now, m, slips);
        case Discard(_) =>
          js := FillsAreDeals(ps[1..], i, st, now, cfg, m, budget, slips, stats');
          js := DealsFurtherOn(MatchFrom(ps[1..], i, st, now, cfg, m, budget, slips, stats').fills, ps, js,
                               i, st, now, m, slips);
        case Trade(f, _, _) =>
          var less := Max(0.0, budget - f.quantity);
          var rest := MatchFrom(ps[1..], i, st, now, cfg, m, less, slips + 1, stats');
          TradeIsADeal(ps[0], i, st, now, cfg, m, budget, slips);
          js := FillsAreDeals(ps[1..], i, st, now, cfg, m, less, slips + 1, stats');
          js := DealsFurtherOn(rest.fills, ps, js, i, st, now, m, slips + 1);
          OneMoreDeal(f, rest.fills, ps, js, i, st, now, m, slips);
          js := [0] + js;
        case Refuse(_, _) =>
          js := [];
      }
    }
  }

  /** There is size displayed for the order, and something traded in the interval, as far as these are known. */
  predicate Plenty(o: Order, st: MarketState, cfg: FillConfig) {
    (ShownBinds(st, cfg) ==> Shown(o, st) > 0.0) && (st.volumeKnown ==> st.intervalVolume > 0.0)
  }

  /** No due order waits where there is plenty: an update that does not fail fills some of it, unless it must be filled
      whole. */
  lemma {:induction false} NoDueOrderWaits(ps: seq<PendingOrder>, j: nat, i: InstrumentId, st: MarketState,
                                           now: Timestamp, cfg: FillConfig, m: Models, budget: real, slips: nat,
                                           stats: ExecutionStats)
    requires MatchFrom(ps, i, st, now, cfg, m, budget, slips, stats).error.None?
    requires j < |ps| && Due(ps[j], i, st, now) && ps[j].Remaining() > 0.0 && ps[j].order.tif != FillOrKill
    requires Plenty(ps[j].order, st, cfg)
    ensures exists f :: f in MatchFrom(ps, i, st, now, cfg, m, budget, slips, stats).fills
                        && f.orderId == ps[j].order.id && f.quantity > 0.0
  {
    hide VisitOrder, StatsAfter, Due, DealOf;
    var visit := VisitOrder(ps[0], i, st, now, cfg, m, budget, slips);
    var stats' := StatsAfter(stats, visit);
    var r := MatchFrom(ps, i, st, now, cfg, m, budget, slips, stats);
    if j == 0 {
      DueTrades(ps[0], i, st, now, cfg, m, budget, slips);
      assert visit.fill in r.fills;
    } else {
      assert ps[1..][j - 1] == ps[j];
      match visit {
        case Rest(_) => NoDueOrderWaits(ps[1..], j - 1, i, st, now, cfg, m, budget, slips, stats');
        case Discard(_) => NoDueOrderWaits(ps[1..], j - 1, i, st, now, cfg, m, budget, slips, stats');
        case Trade(f, _, _) =>
          var less := Max(0.0, budget - f.quantity);
          NoDueOrderWaits(ps[1..], j - 1, i, st, now, cfg, m, less, slips + 1, stats');
          var g :| g in MatchFrom(ps[1..], i, st, now, cfg, m, less, slips + 1, stats').fills
                   && g.orderId == ps[j].order.id && g.quantity > 0.0;
          assert g in r.fills;
        case Refuse(_, _) =>
      }
    }
  }

  lemma DueTrades(p: PendingOrder, i: InstrumentId, st: MarketState, now: Timestamp, cfg: FillConfig, m: Models,
                  budget: real, slips: nat)
    requires Due(p, i, st, now) && p.Remaining() > 0.0 && p.order.tif != FillOrKill && Plenty(p.order, st, cfg)
    ensures var visit := VisitOrder(p, i, st, now, cfg, m, budget, slips);
            visit.Refuse? || (visit.Trade? && visit.fill.orderId == p.order.id && visit.fill.quantity > 0.0)
  {
    RestsIff(p, i, st, now, cfg, m, budget, slips);
    DiscardsIff(p, i, st, now, cfg, m, budget, slips);
    TradeIsADeal(p, i, st, now, cfg, m, budget, slips);
    hide VisitOrder, Due;
  }

  // ---------------------------------------------------------------------------
  // The participation budget
  // ---------------------------------------------------------------------------

  function Volume(fills: seq<Fill>): real {
    if fills == [] then 0.0 else fills[0].quantity + Volume(fills[1..])
  }

  /** Some fill came when those before it had used up exactly the budget. */
  predicate TradesBeyond(fills: seq<Fill>, budget: real) {
    fills != [] && (budget == 0.0 || TradesBeyond(fills[1..], budget - fills[0].quantity))
  }

  lemma {:induction false} FillsHaveVolume(ps: seq<PendingOrder>, i: InstrumentId, st: MarketState, now: Timestamp,
                                           cfg: FillConfig, m: Models, budget: real, slips: nat,
                                           stats: ExecutionStats)
    ensures var fills := MatchFrom(ps, i, st, now, cfg, m, budget, slips, stats).fills;
            Volume(fills) >= 0.0 && (fills != [] ==> Volume(fills) > 0.0)
  {
    hide VisitOrder, StatsAfter, DealOf;
    if ps != [] {
      var visit := VisitOrder(ps[0], i, st, now, cfg, m, budget, slips);
      var stats' := StatsAfter(stats, visit);
      match visit {
        case Rest(_) => FillsHaveVolume(ps[1..], i, st, now, cfg, m, budget, slips, stats');
        case Discard(_) => FillsHaveVolume(ps[1..], i, st, now, cfg, m, budget, slips, stats');
        case Trade(f, _, _) =>
          var less := Max(0.0, budget - f.quantity);
          FillsHaveVolume(ps[1..], i, st, now, cfg, m, less, slips + 1, stats');
          TradedQuantity(ps[0], i, st, now, cfg, m, budget, slips);
          FirstVolume(f, MatchFrom(ps[1..], i, st, now, cfg, m, less, slips + 1, stats').fills);
        case Refuse(_, _) =>
      }
    }
  }

  lemma FirstVolume(f: Fill, fills: seq<Fill>)
    ensures Volume([f] + fills) == f.quantity + Volume(fills)
    ensures forall b :: TradesBeyond([f] + fills, b) <==> b == 0.0 || TradesBeyond(fills, b - f.quantity)
  {
    assert ([f] + fills)[1..] == fills;
  }

  /** The orders of an update share its budget: together they go beyond it exactly when some of them trades after it
      has been used up to the last share, for the budget then binds no more. */
  lemma {:induction false} BudgetBrokenIff(ps: seq<PendingOrder>, i: InstrumentId, st: MarketState, now: Timestamp,
                                           cfg: FillConfig, m: Models, budget: real, slips: nat,
                                           stats: ExecutionStats)
    requires budget >= 0.0
    ensures var fills := MatchFrom(ps, i, st, now, cfg, m, budget, slips, stats).fills;
            Volume(fills) > budget <==> TradesBeyond(fills, budget)
  {
    hide VisitOrder, StatsAfter, DealOf, Volume, TradesBeyond;
    NoFills(budget);
    if ps != [] {
      var visit := VisitOrder(ps[0], i, st, now, cfg, m, budget, slips);
      var stats' := StatsAfter(stats, visit);
      match visit {
        case Rest(_) => BudgetBrokenIff(ps[1..], i, st, now, cfg, m, budget, slips, stats');
        case Discard(_) => BudgetBrokenIff(ps[1..], i, st, now, cfg, m, budget, slips, stats');
        case Trade(f, _, _) =>
          var less := Max(0.0, budget - f.quantity);
          var rest := MatchFrom(ps[1..], i, st, now, cfg, m, less, slips + 1, stats').fills;
          TradeIsWithinBudget(ps[0], i, st, now, cfg, m, budget, slips);
          BudgetBrokenIff(ps[1..], i, st, now, cfg, m, less, slips + 1, stats');
          FillsHaveVolume(ps[1..], i, st, now, cfg, m, less, slips + 1, stats');
          FirstVolume(f, rest);
        case Refuse(_, _) =>
      }
    }
  }

  lemma NoFills(budget: real)
    ensures Volume([]) == 0.0 && !TradesBeyond([], budget)
  {
  }

  lemma TradeIsWithinBudget(p: PendingOrder, i: InstrumentId, st: MarketState, now: Timestamp, cfg: FillConfig,
                            m: Models, budget: real, slips: nat)
    requires VisitOrder(p, i, st, now, cfg, m, budget, slips).Trade?
    ensures var q := VisitOrder(p, i, st, now, cfg, m, budget, slips).fill.quantity;
            q > 0.0 && (budget > 0.0 ==> q <= budget)
  {
    TradedQuantity(p, i, st, now, cfg, m, budget, slips);
    hide VisitOrder, FillOf;
  }

  // ---------------------------------------------------------------------------
  // Stops over whole runs
  // ---------------------------------------------------------------------------

  /** What can happen to the venue. */
  datatype VenueEvent =
    | Sent(now: Timestamp, order: Order)
    | Withdrawn(id: OrderId)
    | Updated(i: InstrumentId, st: MarketState, now: Timestamp)
    | Reported(report: ExternalFillReport)

  function VenueStep(v: VenueState, cfg: FillConfig, m: Models, e: VenueEvent): VenueState {
    match e
    case Sent(now, o) => Accepting(v, m, now, o).0
    case Withdrawn(id) => Cancelling(v, id).0
    case Updated(i, st, now) => Marketing(v, i, st, now, cfg, m).0
    case Reported(report) => Ingesting(v, report).0
  }

  function VenueAfter(cfg: FillConfig, m: Models, es: seq<VenueEvent>): VenueState {
    if es == [] then VenueState([], 0, 0, FRESH_STATS)
    else VenueStep(VenueAfter(cfg, m, es[..|es| - 1]), cfg, m, es[|es| - 1])
  }

  /** This event brought the market to the order's stop after the order had arrived. */
  predicate Wakes(o: Order, arrival: Timestamp, e: VenueEvent) {
    e.Updated? && e.i == o.instrument && arrival <= e.now && AtStop(o, e.st)
  }

  predicate WokenIn(o: Order, arrival: Timestamp, es: seq<VenueEvent>) {
    exists k :: 0 <= k < |es| && Wakes(o, arrival, es[k])
  }

  predicate WokenRightly(p: PendingOrder, es: seq<VenueEvent>) {
    p.stopTriggered ==> WokenIn(p.order, p.arrivalTime, es)
  }

  lemma WokenLater(p: PendingOrder, es: seq<VenueEvent>)
    requires es != [] && WokenRightly(p, es[..|es| - 1])
    ensures WokenRightly(p, es)
  {
    hide Wakes;
    if p.stopTriggered {
      var k :| 0 <= k < |es| - 1 && Wakes(p.order, p.arrivalTime, es[..|es| - 1][k]);
      assert Wakes(p.order, p.arrivalTime, es[k]);
    }
  }

  /** What a visit leaves is the same order, awake only if it was or is at its stop. */
  predicate LeftFrom(q: PendingOrder, p: PendingOrder, i: InstrumentId, st: MarketState, now: Timestamp) {
    && q.order == p.order && q.arrivalTime == p.arrivalTime
    && (q.stopTriggered ==> p.stopTriggered || Wakes(p.order, p.arrivalTime, Updated(i, st, now)))
  }

  lemma VisitWakesRightly(p: PendingOrder, i: InstrumentId, st: MarketState, now: Timestamp, cfg: FillConfig,
                          m: Models, budget: real, slips: nat)
    ensures forall q :: q in LeftBy(VisitOrder(p, i, st, now, cfg, m, budget, slips)) ==> LeftFrom(q, p, i, st, now)
  {
    hide FillOf, Allowance;
  }

  lemma {:induction false} MatchWakesRightly(ps: seq<PendingOrder>, i: InstrumentId, st: MarketState, now: Timestamp,
                                             cfg: FillConfig, m: Models, budget: real, slips: nat,
                                             stats: ExecutionStats, q: PendingOrder) returns (p: PendingOrder)
    requires q in MatchFrom(ps, i, st, now, cfg, m, budget, slips, stats).kept
    ensures p in ps && LeftFrom(q, p, i, st, now)
  {
    hide VisitOrder, StatsAfter, Wakes;
    var visit := VisitOrder(ps[0], i, st, now, cfg, m, budget, slips);
    var stats' := StatsAfter(stats, visit);
    VisitWakesRightly(ps[0], i, st, now, cfg, m, budget, slips);
    if q in LeftBy(visit) {
      p := ps[0];
    } else {
      match visit {
        case Rest(_) => p := MatchWakesRightly(ps[1..], i, st, now, cfg, m, budget, slips, stats', q);
        case Discard(_) => p := MatchWakesRightly(ps[1..], i, st, now, cfg, m, budget, slips, stats', q);
        case Trade(f, _, _) =>
          p := MatchWakesRightly(ps[1..], i, st, now, cfg, m, Max(0.0, budget - f.quantity), slips + 1, stats', q);
        case Refuse(_, _) =>
          p := q;
      }
    }
  }

  /** Over every run of the venue an order whose stop has triggered has seen an update at or through it since it
      arrived. */
  lemma {:induction false} TriggeredMeansReached(cfg: FillConfig, m: Models, es: seq<VenueEvent>, p: PendingOrder)
    requires p in VenueAfter(cfg, m, es).pending
    ensures WokenRightly(p, es)
  {
    hide Accepting, Ingesting, MatchFrom, WokenRightly, Wakes;
    var front, e := es[..|es| - 1], es[|es| - 1];
    var v := VenueAfter(cfg, m, front);
    match e {
      case Updated(i, st, now) =>
        var was := MatchWakesRightly(v.pending, i, st, now, cfg, m, Participation(st, cfg), v.slips, v.stats, p);
        TriggeredMeansReached(cfg, m, front, was);
        WokenByLast(p, was, es);
      case Sent(now, o) =>
        if p in v.pending {
          TriggeredMeansReached(cfg, m, front, p);
          WokenLater(p, es);
        } else {
          SentIsAsleep(v, m, now, o, p, es);
        }
      case Withdrawn(id) =>
        TriggeredMeansReached(cfg, m, front, p);
        WokenLater(p, es);
      case Reported(report) =>
        var was := ReportedFrom(v, report, p);
        TriggeredMeansReached(cfg, m, front, was);
        WokenLater(was, es);
        SameWaking(was, p, es);
    }
  }

  lemma WokenByLast(p: PendingOrder, was: PendingOrder, es: seq<VenueEvent>)
    requires es != [] && es[|es| - 1].Updated? && WokenRightly(was, es[..|es| - 1])
    requires LeftFrom(p, was, es[|es| - 1].i, es[|es| - 1].st, es[|es| - 1].now)
    ensures WokenRightly(p, es)
  {
    WokenLater(was, es);
    hide Wakes;
    if p.stopTriggered && !was.stopTriggered {
      assert Wakes(p.order, p.arrivalTime, es[|es| - 1]);
    }
  }

  lemma SentIsAsleep(v: VenueState, m: Models, now: Timestamp, o: Order, p: PendingOrder, es: seq<VenueEvent>)
    requires p in Accepting(v, m, now, o).0.pending && p !in v.pending
    ensures WokenRightly(p, es)
  {
  }

  lemma ReportedFrom(v: VenueState, report: ExternalFillReport, p: PendingOrder) returns (was: PendingOrder)
    requires p in Ingesting(v, report).0.pending
    ensures was in v.pending
    ensures was.order == p.order && was.arrivalTime == p.arrivalTime && was.stopTriggered == p.stopTriggered
  {
    if p in v.pending {
      was := p;
    } else {
      was := v.pending[IndexOf(v.pending, report.orderId)];
    }
  }

  lemma SameWaking(was: PendingOrder, p: PendingOrder, es: seq<VenueEvent>)
    requires WokenRightly(was, es)
    requires was.order == p.order && was.arrivalTime == p.arrivalTime && was.stopTriggered == p.stopTriggered
    ensures WokenRightly(p, es)
  {
  }

  /** Over every run of the venue, each fill of an update is a deal of an order pending before it, and if that has a
      stop, this update or one since its arrival was at or through it. */
  lemma StopsTradeOnlyOnceReached(cfg: FillConfig, m: Models, es: seq<VenueEvent>, k: nat) returns (p: PendingOrder)
    requires es != [] && es[|es| - 1].Updated?
    requires var v, e := VenueAfter(cfg, m, es[..|es| - 1]), es[|es| - 1];
             k < |MatchAll(v, e.i, e.st, e.now, cfg, m).fills|
    ensures var v, e := VenueAfter(cfg, m, es[..|es| - 1]), es[|es| - 1];
            && p in v.pending
            && DealOf(MatchAll(v, e.i, e.st, e.now, cfg, m).fills[k], p, e.i, e.st, e.now, m, v.slips + k)
            && (p.order.stop.Some? ==> WokenIn(p.order, p.arrivalTime, es))
  {
    hide MatchFrom, VenueAfter, Priced;
    var front, e := es[..|es| - 1], es[|es| - 1];
    var v := VenueAfter(cfg, m, front);
    var js := FillsAreDeals(v.pending, e.i, e.st, e.now, cfg, m, Participation(e.st, cfg), v.slips, v.stats);
    p := v.pending[js[k]];
    TriggeredMeansReached(cfg, m, front, p);
    WokenLater(p, es);
    if p.order.stop.Some? && !p.stopTriggered {
      assert Wakes(p.order, p.arrivalTime, es[|es| - 1]);
    }
  }
}
