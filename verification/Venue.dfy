/** The simulated venue: pending orders, matching against a market state, and external fills. */
module Venue {
  import opened Types
  import opened TimeChain
  import opened Orders

  datatype MarketState = MarketState(
    bid: real, ask: real, bidSize: real, askSize: real, intervalVolume: real,
    intradayVolatility: real, hasQuote: bool, volumeKnown: bool)
  {
    function Touch(side: Side): real { if side == Buy then ask else bid }

    function Displayed(side: Side): real { if side == Buy then askSize else bidSize }

    /** The price an order of this side is matched against. */
    function Reference(side: Side): real { if hasQuote then Touch(side) else bid }
  }

  datatype FillConfig = FillConfig(maxParticipationRate: real, respectDisplayedSize: bool)

  /** The borrowed cost and latency models, as arbitrary functions; the two random ones are
      functions of the number of draws already made. */
  datatype Models = Models(
    commission: (real, real) -> real,
    halfSpread: MarketState -> real,
    impact: (real, MarketState) -> real,
    slippage: nat -> real,
    flight: nat -> Duration)

  datatype PendingOrder = PendingOrder(order: Order, arrivalTime: Timestamp, filled: real, stopTriggered: bool)
  {
    function Remaining(): real { order.quantity - filled }
  }

  datatype ExecutionStats = ExecutionStats(
    accepted: nat, rejected: nat, fills: nat, partialFills: nat, fokKilled: nat, commission: real)

  datatype VenueState = VenueState(pending: seq<PendingOrder>, flights: nat, slips: nat, stats: ExecutionStats)

  datatype VenueError =
    | ClockUnset | DecisionInFuture | ArrivalBreaksChain | NotPending
    | BadFillPrice | BadFillQuantity | FillBreaksChain | ExceedsRemaining

  const FRESH_STATS := ExecutionStats(0, 0, 0, 0, 0, 0.0)

  // ---------------------------------------------------------------------------
  // Submission and cancellation
  // ---------------------------------------------------------------------------

  /** A flight time of zero or less still costs one nanosecond. */
  function Effective(flight: Duration): Duration {
    if flight > 0 then flight else 1
  }

  function Accepting(v: VenueState, m: Models, now: Timestamp, o: Order): (VenueState, Result<Timestamp, VenueError>) {
    var refused := v.stats.(rejected := v.stats.rejected + 1);
    if !IsSet(now) then (v, Err(ClockUnset))
    else if o.times.decision > now then (v.(stats := refused), Err(DecisionInFuture))
    else
      var arrival := now + Effective(m.flight(v.flights));
      var stamped := WithArrival(o, arrival);
      if stamped.None?
      then (v.(flights := v.flights + 1, stats := refused), Err(ArrivalBreaksChain))
      else (v.(pending := v.pending + [PendingOrder(stamped.value, arrival, 0.0, false)],
               flights := v.flights + 1,
               stats := v.stats.(accepted := v.stats.accepted + 1)), Ok(arrival))
  }

  /** The first position of an order id in the pending list, or its length. */
  function IndexOf(ps: seq<PendingOrder>, id: OrderId): (i: nat)
    ensures i <= |ps|
    ensures i < |ps| ==> ps[i].order.id == id
    ensures forall j :: 0 <= j < i ==> ps[j].order.id != id
  {
    if ps == [] then 0 else if ps[0].order.id == id then 0 else 1 + IndexOf(ps[1..], id)
  }

  function Cancelling(v: VenueState, id: OrderId): (VenueState, Result<OrderId, VenueError>) {
    var i := IndexOf(v.pending, id);
    if i == |v.pending| then (v, Err(NotPending))
    else (v.(pending := v.pending[..i] + v.pending[i + 1..]), Ok(id))
  }

  // ---------------------------------------------------------------------------
  // Matching
  // ---------------------------------------------------------------------------

  function MakeFill(o: Order, price: real, quantity: real, commission: real, now: Timestamp): Result<Fill, VenueError> {
    if price <= 0.0 then Err(BadFillPrice)
    else if quantity <= 0.0 then Err(BadFillQuantity)
    else
      var times := o.times.(fill := now);
      if ChainOk(times)
      then Ok(Fill(o.id, o.parent, o.instrument, o.side, price, quantity, commission, 0.0, Taker, times,
                   if o.arrivalPrice > 0.0 then o.arrivalPrice else price))
      else Err(FillBreaksChain)
  }

  /** A dormant stop order wakes when the market trades to or through its stop price. */
  predicate StopTriggers(o: Order, touch: real) {
    o.stop.Some? && if o.side == Buy then touch >= o.stop.value else touch <= o.stop.value
  }

  /** What the displayed size permits: nothing known, an empty touch, or a cap. */
  function DisplayCap(want: real, side: Side, st: MarketState, cfg: FillConfig): Option<real> {
    if !st.hasQuote then Some(want)
    else if st.Displayed(side) > 0.0 then
      Some(if cfg.respectDisplayedSize && st.Displayed(side) < want then st.Displayed(side) else want)
    else if cfg.respectDisplayedSize then None
    else Some(want)
  }

  /** The quantity this order may take now, or None when it must rest. */
  function Allowance(want: real, side: Side, st: MarketState, cfg: FillConfig, budget: real): Option<real> {
    var displayed := DisplayCap(want, side, st, cfg);
    if displayed.None? then None
    else
      var allowed := displayed.value;
      if budget > 0.0 && budget < allowed then Some(budget)
      else if st.volumeKnown && st.intervalVolume <= 0.0 then None
      else if allowed <= 0.0 then None
      else Some(allowed)
  }

  function TotalBps(allowed: real, st: MarketState, m: Models, slips: nat): real {
    (if st.hasQuote then 0.0 else m.halfSpread(st)) + m.impact(allowed, st) + m.slippage(slips)
  }

  /** What happens to one pending order on one market update. */
  datatype Visit =
    | Rest(p: PendingOrder)
    | Discard(killed: bool)
    | Trade(fill: Fill, partial: bool, left: Option<PendingOrder>)
    | Refuse(p: PendingOrder, error: VenueError)

  function FillOf(p: PendingOrder, allowed: real, st: MarketState, now: Timestamp, m: Models, slips: nat)
    : Result<Fill, VenueError>
  {
    var price := ApplyBps(st.Reference(p.order.side), TotalBps(allowed, st, m, slips), SignOf(p.order.side));
    MakeFill(p.order, price, allowed, m.commission(allowed, price), now)
  }

  predicate Done(p: PendingOrder) {
    p.filled + TOLERANCE >= p.order.quantity
  }

  /** The order after a fill: gone when complete or immediate-or-cancel, otherwise still resting. */
  function LeftAfter(p: PendingOrder, allowed: real): Option<PendingOrder> {
    var q := p.(filled := p.filled + allowed);
    if Done(q) || q.order.tif == ImmediateOrCancel then None else Some(q)
  }

  /** The order once its stop, if it has one, no longer holds it back. */
  function Awake(p: PendingOrder): PendingOrder {
    p.(stopTriggered := p.stopTriggered || p.order.NeedsStop())
  }

  function VisitOrder(p0: PendingOrder, instrument: InstrumentId, st: MarketState, now: Timestamp,
                      cfg: FillConfig, m: Models, budget: real, slips: nat): Visit
  {
    var o := p0.order;
    var touch := st.Reference(o.side);
    if o.instrument != instrument || now < p0.arrivalTime then Rest(p0)
    else if o.NeedsStop() && !p0.stopTriggered && !StopTriggers(o, touch) then Rest(p0)
    else
      var p := Awake(p0);
      if !o.MarketableAgainst(touch) then Rest(p)
      else if p.Remaining() <= 0.0 then Discard(false)
      else
        var allowance := Allowance(p.Remaining(), o.side, st, cfg, budget);
        if allowance.None? then Rest(p)
        else if o.tif == FillOrKill && allowance.value + TOLERANCE < p.Remaining() then Discard(true)
        else
          var made := FillOf(p, allowance.value, st, now, m, slips);
          if made.Err? then Refuse(p, made.error)
          else
            Trade(made.value, !Done(p.(filled := p.filled + allowance.value)), LeftAfter(p, allowance.value))
  }

  /** The result of one pass over the pending orders. On an error the fills listed are those that
      the pass had already taken from the book. */
  datatype Matching = Matching(
    kept: seq<PendingOrder>, fills: seq<Fill>, slips: nat, stats: ExecutionStats, error: Option<VenueError>)

  function StatsAfter(stats: ExecutionStats, visit: Visit): ExecutionStats {
    match visit
    case Discard(killed) => if killed then stats.(fokKilled := stats.fokKilled + 1) else stats
    case Trade(f, partial, _) =>
      stats.(fills := stats.fills + 1, commission := stats.commission + f.commission,
             partialFills := if partial then stats.partialFills + 1 else stats.partialFills)
    case _ => stats
  }

  function OptionSeq<T>(x: Option<T>): seq<T> {
    if x.Some? then [x.value] else []
  }

  /** What a visit leaves in the visited order's place. */
  function LeftBy(visit: Visit): (r: seq<PendingOrder>)
    ensures |r| <= 1
  {
    match visit
    case Rest(p) => [p]
    case Discard(_) => []
    case Trade(_, _, left) => OptionSeq(left)
    case Refuse(p, _) => [p]
  }

  function MatchFrom(ps: seq<PendingOrder>, instrument: InstrumentId, st: MarketState, now: Timestamp,
                     cfg: FillConfig, m: Models, budget: real, slips: nat, stats: ExecutionStats): Matching
  {
    if ps == [] then Matching([], [], slips, stats, None)
    else
      var visit := VisitOrder(ps[0], instrument, st, now, cfg, m, budget, slips);
      var stats' := StatsAfter(stats, visit);
      match visit
      case Rest(p) =>
        var rest := MatchFrom(ps[1..], instrument, st, now, cfg, m, budget, slips, stats');
        rest.(kept := [p] + rest.kept)
      case Discard(_) =>
        MatchFrom(ps[1..], instrument, st, now, cfg, m, budget, slips, stats')
      case Trade(f, _, left) =>
        var rest := MatchFrom(ps[1..], instrument, st, now, cfg, m, Max(0.0, budget - f.quantity), slips + 1, stats');
        rest.(kept := OptionSeq(left) + rest.kept, fills := [f] + rest.fills)
      case Refuse(p, e) => Matching([p] + ps[1..], [], slips + 1, stats', Some(e))
  }

  /** The volume that one market update may trade in all. */
  function Participation(st: MarketState, cfg: FillConfig): real {
    st.intervalVolume * cfg.maxParticipationRate
  }

  function MatchAll(v: VenueState, instrument: InstrumentId, st: MarketState, now: Timestamp,
                    cfg: FillConfig, m: Models): Matching
  {
    MatchFrom(v.pending, instrument, st, now, cfg, m, Participation(st, cfg), v.slips, v.stats)
  }

  function Marketing(v: VenueState, instrument: InstrumentId, st: MarketState, now: Timestamp,
                     cfg: FillConfig, m: Models): (VenueState, Result<seq<Fill>, VenueError>)
  {
    var r := MatchAll(v, instrument, st, now, cfg, m);
    (v.(pending := r.kept, slips := r.slips, stats := r.stats),
     if r.error.Some? then Err(r.error.value) else Ok(r.fills))
  }

  // ---------------------------------------------------------------------------
  // External fills
  // ---------------------------------------------------------------------------

  /** A fill as a real venue reports it: untrusted until checked against the pending order. */
  datatype ExternalFillReport = ExternalFillReport(
    orderId: OrderId, quantity: real, price: real, fillTime: Timestamp,
    commission: real, exchangeFee: real, liquidity: Liquidity)

  function ReportedFill(o: Order, report: ExternalFillReport): Fill {
    Fill(o.id, o.parent, o.instrument, o.side, report.price, report.quantity, report.commission, report.exchangeFee,
         report.liquidity, o.times.(fill := report.fillTime),
         if o.arrivalPrice > 0.0 then o.arrivalPrice else report.price)
  }

  function Ingesting(v: VenueState, report: ExternalFillReport): (VenueState, Result<Fill, VenueError>) {
    var i := IndexOf(v.pending, report.orderId);
    if i == |v.pending| then (v, Err(NotPending))
    else
      var p := v.pending[i];
      if report.quantity <= 0.0 then (v, Err(BadFillQuantity))
      else if report.price <= 0.0 then (v, Err(BadFillPrice))
      else if report.quantity > p.Remaining() + TOLERANCE then (v, Err(ExceedsRemaining))
      else
        var o := p.order;
        var times := o.times.(fill := report.fillTime);
        if !ChainOk(times) then (v, Err(FillBreaksChain))
        else
          var f := ReportedFill(o, report);
          var q := p.(filled := p.filled + report.quantity);
          var pending := if q.filled >= o.quantity - TOLERANCE
                         then v.pending[..i] + v.pending[i + 1..] else v.pending[i := q];
          (v.(pending := pending,
              stats := v.stats.(fills := v.stats.fills + 1, commission := v.stats.commission + f.commission)), Ok(f))
  }

  // ---------------------------------------------------------------------------
  // The venue object
  // ---------------------------------------------------------------------------

  class BrokerSimulator {
    const models: Models
    const cfg: FillConfig
    var pending: seq<PendingOrder>
    var flights: nat
    var slips: nat
    var stats: ExecutionStats

    ghost function State(): VenueState
      reads this
    {
      VenueState(pending, flights, slips, stats)
    }

    constructor (models: Models, cfg: FillConfig)
      ensures this.models == models && this.cfg == cfg
      ensures State() == VenueState([], 0, 0, FRESH_STATS)
    {
      this.models, this.cfg := models, cfg;
      pending, flights, slips, stats := [], 0, 0, FRESH_STATS;
    }

    method Submit(now: Timestamp, o: Order) returns (r: Result<Timestamp, VenueError>)
      modifies this
      ensures (State(), r) == Accepting(old(State()), models, now, o)
    {
      if !IsSet(now) { return Err(ClockUnset); }
      if o.times.decision > now {
        stats := stats.(rejected := stats.rejected + 1);
        return Err(DecisionInFuture);
      }
      var flight := models.flight(flights);
      flights := flights + 1;
      var arrival := now + Effective(flight);
      var stamped := WithArrival(o, arrival);
      if stamped.None? {
        stats := stats.(rejected := stats.rejected + 1);
        return Err(ArrivalBreaksChain);
      }
      pending := pending + [PendingOrder(stamped.value, arrival, 0.0, false)];
      stats := stats.(accepted := stats.accepted + 1);
      return Ok(arrival);
    }

    method Cancel(id: OrderId) returns (r: Result<OrderId, VenueError>)
      modifies this
      ensures (State(), r) == Cancelling(old(State()), id)
    {
      var i := IndexOf(pending, id);
      if i == |pending| { return Err(NotPending); }
      pending := pending[..i] + pending[i + 1..];
      return Ok(id);
    }

    /** Replaces or erases the order at position i in place; returns where the walk goes on. */
    method Settle(i: nat, visit: Visit) returns (next: nat)
      requires i < |pending|
      modifies this`pending
      ensures next == i + |LeftBy(visit)| <= |pending|
      ensures pending[..next] == old(pending)[..i] + LeftBy(visit) && pending[next..] == old(pending)[i + 1..]
    {
      if LeftBy(visit) == [] {
        pending := pending[..i] + pending[i + 1..];
        next := i;
      } else {
        pending := pending[i := LeftBy(visit)[0]];
        next := i + 1;
      }
    }

    /** Walks the pending list, erasing in place and spending the participation budget. */
    method MatchPending(instrument: InstrumentId, st: MarketState, now: Timestamp, participation: real)
      returns (fills: seq<Fill>, error: Option<VenueError>)
      modifies this
      ensures flights == old(flights)
      ensures Matching(pending, fills, slips, stats, error)
              == MatchFrom(old(pending), instrument, st, now, cfg, models, participation, old(slips), old(stats))
    {
      hide *;
      fills := [];
      var budget := participation;
      var i := 0;
      ghost var goal := MatchFrom(pending, instrument, st, now, cfg, models, budget, slips, stats);
      ResumeStart(goal);
      assert pending[..i] == [] && pending[i..] == pending;
      while i < |pending|
        invariant 0 <= i <= |pending| && flights == old(flights)
        invariant Resumes(goal, pending[..i], fills,
                          MatchFrom(pending[i..], instrument, st, now, cfg, models, budget, slips, stats))
        decreases |pending| - i
      {
        ghost var kept, tail := pending[..i], pending[i..];
        assert tail[0] == pending[i] && tail[1..] == pending[i + 1..];
        ResumeOne(goal, kept, fills, tail, instrument, st, now, cfg, models, budget, slips, stats);
        var visit := VisitOrder(pending[i], instrument, st, now, cfg, models, budget, slips);
        stats := StatsAfter(stats, visit);
        i := Settle(i, visit);
        if visit.Refuse? {
          slips := slips + 1;
          assert pending == pending[..i] + pending[i..];
          return fills, Some(visit.error);
        }
        if visit.Trade? {
          slips := slips + 1;
          budget := Max(0.0, budget - visit.fill.quantity);
          fills := fills + [visit.fill];
        }
      }
      assert pending[..i] == pending && pending[i..] == [];
      ResumeEnd(goal, pending, fills, instrument, st, now, cfg, models, budget, slips, stats);
      error := None;
    }

    /** One market update. The participation budget is shared by all orders of the interval; on an
        error the fills already taken from the book are not returned. */
    method OnMarket(instrument: InstrumentId, st: MarketState, now: Timestamp)
      returns (r: Result<seq<Fill>, VenueError>)
      modifies this
      ensures (State(), r) == Marketing(old(State()), instrument, st, now, cfg, models)
    {
      var fills, error := MatchPending(instrument, st, now, Participation(st, cfg));
      if error.Some? {
        return Err(error.value);
      }
      return Ok(fills);
    }

    method IngestExternalFill(report: ExternalFillReport) returns (r: Result<Fill, VenueError>)
      modifies this
      ensures (State(), r) == Ingesting(old(State()), report)
    {
      hide ChainOk, SameBar, IndexOf;
      var i := IndexOf(pending, report.orderId);
      if i == |pending| { return Err(NotPending); }
      var p := pending[i];
      if report.quantity <= 0.0 { return Err(BadFillQuantity); }
      if report.price <= 0.0 { return Err(BadFillPrice); }
      if report.quantity > p.Remaining() + TOLERANCE { return Err(ExceedsRemaining); }
      var o := p.order;
      var times := o.times.(fill := report.fillTime);
      var violation := ValidateChain(times);
      if violation.Some? { return Err(FillBreaksChain); }
      var f := ReportedFill(o, report);
      p := p.(filled := p.filled + report.quantity);
      if p.filled >= o.quantity - TOLERANCE {
        pending := pending[..i] + pending[i + 1..];
      } else {
        pending := pending[i := p];
      }
      stats := stats.(commission := stats.commission + f.commission);
      stats := stats.(fills := stats.fills + 1);
      return Ok(f);
    }
  }

  /** The goal is reached by what is done so far followed by the matching of the rest. */
  ghost predicate Resumes(goal: Matching, kept: seq<PendingOrder>, fills: seq<Fill>, rest: Matching) {
    goal == rest.(kept := kept + rest.kept, fills := fills + rest.fills)
  }

  lemma ResumeStart(goal: Matching)
    ensures Resumes(goal, [], [], goal)
  {
    assert [] + goal.kept == goal.kept && [] + goal.fills == goal.fills;
  }

  lemma ResumeEnd(goal: Matching, kept: seq<PendingOrder>, fills: seq<Fill>, instrument: InstrumentId, st: MarketState,
                  now: Timestamp, cfg: FillConfig, m: Models, budget: real, slips: nat, stats: ExecutionStats)
    requires Resumes(goal, kept, fills, MatchFrom([], instrument, st, now, cfg, m, budget, slips, stats))
    ensures goal == Matching(kept, fills, slips, stats, None)
  {
    assert kept + [] == kept && fills + [] == fills;
  }

  /** One visit moves one order from the rest to what is done. */
  lemma ResumeOne(goal: Matching, kept: seq<PendingOrder>, fills: seq<Fill>, tail: seq<PendingOrder>,
                  instrument: InstrumentId, st: MarketState, now: Timestamp, cfg: FillConfig, m: Models,
                  budget: real, slips: nat, stats: ExecutionStats)
    requires tail != []
    requires Resumes(goal, kept, fills, MatchFrom(tail, instrument, st, now, cfg, m, budget, slips, stats))
    ensures var visit := VisitOrder(tail[0], instrument, st, now, cfg, m, budget, slips);
            var stats' := StatsAfter(stats, visit);
            match visit
            case Rest(_) =>
              Resumes(goal, kept + LeftBy(visit), fills,
                      MatchFrom(tail[1..], instrument, st, now, cfg, m, budget, slips, stats'))
            case Discard(_) =>
              Resumes(goal, kept + LeftBy(visit), fills,
                      MatchFrom(tail[1..], instrument, st, now, cfg, m, budget, slips, stats'))
            case Trade(f, _, _) =>
              Resumes(goal, kept + LeftBy(visit), fills + [f],
                      MatchFrom(tail[1..], instrument, st, now, cfg, m, Max(0.0, budget - f.quantity), slips + 1,
                                stats'))
            case Refuse(p, e) =>
              goal == Matching(kept + LeftBy(visit) + tail[1..], fills, slips + 1, stats', Some(e))
  {
    hide VisitOrder, StatsAfter;
    var visit := VisitOrder(tail[0], instrument, st, now, cfg, m, budget, slips);
    var stats' := StatsAfter(stats, visit);
    match visit
    case Rest(p) =>
      var rest := MatchFrom(tail[1..], instrument, st, now, cfg, m, budget, slips, stats');
      assert kept + ([p] + rest.kept) == kept + [p] + rest.kept;
    case Discard(_) =>
      assert kept + [] == kept;
    case Trade(f, _, left) =>
      var rest := MatchFrom(tail[1..], instrument, st, now, cfg, m, Max(0.0, budget - f.quantity), slips + 1, stats');
      assert kept + (OptionSeq(left) + rest.kept) == kept + OptionSeq(left) + rest.kept;
      assert fills + ([f] + rest.fills) == fills + [f] + rest.fills;
    case Refuse(p, e) =>
      assert fills + [] == fills && kept + ([p] + tail[1..]) == kept + [p] + tail[1..];
  }
}
