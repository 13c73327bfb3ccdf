/** Trading against a real venue: submission, order updates, validated fill ingestion and reconciliation. */
module LiveBrokers {
  import opened Types
  import opened Orders
  import opened Venue
  import C = Connections

  /** `symbol` is the instrument table: the empty string for an instrument it does not know. */
  datatype LiveConfig = LiveConfig(
    prefix: string, allowFractional: bool, maxOrderNotional: real, symbol: InstrumentId -> string)

  datatype LiveState = LiveState(
    link: C.LinkState, venue: VenueState, listener: map<string, OrderId>, working: set<OrderId>,
    venueIds: map<OrderId, string>)

  datatype LiveError =
    | NotPermitted | NotionalTooLarge | NotExpressible | SimulatorRefused(venue: VenueError)
    | EmptyClientId | BadOrderId | ClientIdTaken | SendFailed
    | Untracked | BadReportedQuantity | BadReportedPrice | FillRefused(refusal: VenueError)

  // ---------------------------------------------------------------------------
  // Client order ids
  // ---------------------------------------------------------------------------

  function Digit(d: nat): char
    requires d < 10
  {
    '0' + d as char
  }

  /** Decimal digits without leading zeros. */
  function Decimal(n: nat): string {
    if n < 10 then [Digit(n)] else Decimal(n / 10) + [Digit(n % 10)]
  }

  function ClientId(cfg: LiveConfig, id: OrderId): string {
    cfg.prefix + Decimal(id)
  }

  lemma {:induction false} DecimalIsInjective(m: nat, n: nat)
    requires Decimal(m) == Decimal(n)
    ensures m == n
  {
    var s, t := Decimal(m), Decimal(n);
    assert s[|s| - 1] == Digit(m % 10) && t[|t| - 1] == Digit(n % 10);
    DecimalLength(m);
    DecimalLength(n);
    if m >= 10 && n >= 10 {
      assert s[..|s| - 1] == Decimal(m / 10) && t[..|t| - 1] == Decimal(n / 10);
      DecimalIsInjective(m / 10, n / 10);
    }
  }

  lemma DecimalLength(n: nat)
    ensures |Decimal(n)| >= 1 && (n >= 10 <==> |Decimal(n)| > 1)
  {
  }

  /** Distinct orders never share a client order id. */
  lemma ClientIdsAreDistinct(cfg: LiveConfig, a: OrderId, b: OrderId)
    requires ClientId(cfg, a) == ClientId(cfg, b)
    ensures a == b
  {
    assert ClientId(cfg, a)[|cfg.prefix|..] == Decimal(a);
    assert ClientId(cfg, b)[|cfg.prefix|..] == Decimal(b);
    DecimalIsInjective(a, b);
  }

  // ---------------------------------------------------------------------------
  // Submitting
  // ---------------------------------------------------------------------------

  /** Rounds half away from zero. */
  function Round(x: real): int {
    if x >= 0.0 then (x + 0.5).Floor else -((-x) + 0.5).Floor
  }

  /** Whether the venue can express the order at all; an order's prices are already valid. */
  predicate Expressible(cfg: LiveConfig, o: Order) {
    && (cfg.allowFractional || Abs(o.quantity - Round(o.quantity) as real) <= TOLERANCE)
    && !((o.tif == ImmediateOrCancel || o.tif == FillOrKill) && o.orderType == Market)
    && cfg.symbol(o.instrument) != ""
  }

  /** Registers a client id; the same order may register again. */
  function Tracking(listener: map<string, OrderId>, key: string, id: OrderId): Result<map<string, OrderId>, LiveError> {
    if key == "" then Err(EmptyClientId)
    else if id == NO_ORDER then Err(BadOrderId)
    else if key in listener then if listener[key] == id then Ok(listener) else Err(ClientIdTaken)
    else Ok(listener[key := id])
  }

  type LiveOutcome = (LiveState, Result<bool, LiveError>)

  function Submitting(s: LiveState, cfg: LiveConfig, m: Models, now: Timestamp, o: Order, accepts: bool): LiveOutcome {
    var reference := if o.limit.Some? then o.limit.value else o.arrivalPrice;
    if s.link.state != C.Ready then (s, Err(NotPermitted))
    else if cfg.maxOrderNotional > 0.0 && o.quantity * reference > cfg.maxOrderNotional then (s, Err(NotionalTooLarge))
    else if !Expressible(cfg, o) then (s, Err(NotExpressible))
    else
      var (venue, registered) := Accepting(s.venue, m, now, o);
      var key := ClientId(cfg, o.id);
      if registered.Err? then (s.(venue := venue), Err(SimulatorRefused(registered.error)))
      else
        match Tracking(s.listener, key, o.id)
        case Err(e) => (s.(venue := venue), Err(e))
        case Ok(listener) =>
          if C.Sends(s.link, accepts).Err?
          then (s.(listener := listener - {key}, venue := Cancelling(venue, o.id).0), Err(SendFailed))
          else (s.(venue := venue, listener := listener, working := s.working + {o.id}), Ok(true))
  }

  // ---------------------------------------------------------------------------
  // Messages from the venue
  // ---------------------------------------------------------------------------

  /** The order a message concerns, or why it cannot be attributed; None for a message that is not about an order. */
  function Interpreting(listener: map<string, OrderId>, m: C.Message): Result<Option<OrderId>, LiveError> {
    if m.kind == C.Heartbeat || m.kind == C.AccountUpdate || m.kind == C.Quote || m.kind == C.TradePrint
       || m.kind == C.Unknown
    then Ok(None)
    else if m.clientOrderId !in listener then Err(Untracked)
    else if (m.kind == C.PartialFill || m.kind == C.FilledWhole) && m.quantity <= 0.0 then Err(BadReportedQuantity)
    else if (m.kind == C.PartialFill || m.kind == C.FilledWhole) && m.price <= 0.0 then Err(BadReportedPrice)
    else Ok(Some(listener[m.clientOrderId]))
  }

  function ReportOf(m: C.Message, id: OrderId, now: Timestamp): ExternalFillReport {
    ExternalFillReport(id, m.quantity, m.price, if IsSet(m.venueTime) then m.venueTime else now,
                       m.commission, m.exchangeFee, Taker)
  }

  type Handled = (LiveState, Result<Option<Fill>, LiveError>)

  /** Applies one accepted message; a fill is built by the simulator after it has checked the report. */
  function Handling(s: LiveState, cfg: LiveConfig, m: C.Message, now: Timestamp): Handled {
    match Interpreting(s.listener, m)
    case Err(e) => (s, Err(e))
    case Ok(None) => (s, Ok(None))
    case Ok(Some(id)) =>
      if m.kind == C.OrderAccepted || m.kind == C.OrderReplaced then
        (if m.venueOrderId != "" then s.(venueIds := s.venueIds[id := m.venueOrderId]) else s, Ok(None))
      else if m.kind == C.OrderRejected || m.kind == C.OrderCancelled then
        (Closing(s, cfg, id).(venue := Cancelling(s.venue, id).0), Ok(None))
      else
        var (venue, fill) := Ingesting(s.venue, ReportOf(m, id, now));
        var after := s.(venue := venue);
        if fill.Err? then (after, Err(FillRefused(fill.error)))
        else (if m.kind == C.FilledWhole then Closing(after, cfg, id) else after, Ok(Some(fill.value)))
  }

  /** The order is no longer worked, and updates about it are no longer attributed. */
  function Closing(s: LiveState, cfg: LiveConfig, id: OrderId): LiveState {
    s.(working := s.working - {id}, listener := s.listener - {ClientId(cfg, id)})
  }

  /** A batch so far: what was ingested, from which messages, and the error that stopped it. */
  datatype Batch = Batch(state: LiveState, fills: seq<Fill>, from_: seq<C.Message>, error: Option<LiveError>)

  function HandlingAll(s: LiveState, cfg: LiveConfig, ms: seq<C.Message>, now: Timestamp): Batch {
    if ms == [] then Batch(s, [], [], None)
    else
      var front := HandlingAll(s, cfg, ms[..|ms| - 1], now);
      if front.error.Some? then front
      else
        var m := ms[|ms| - 1];
        var (after, r) := Handling(front.state, cfg, m, now);
        match r
        case Err(e) => front.(state := after, error := Some(e))
        case Ok(None) => front.(state := after)
        case Ok(Some(f)) => front.(state := after, fills := front.fills + [f], from_ := front.from_ + [m])
  }

  /** Drains the connection and applies what it accepts. On an error the fills of the batch are not returned. */
  function Polling(s: LiveState, cfg: LiveConfig, isOpen: bool, inbox: seq<C.Message>, now: Timestamp)
    : (LiveState, Result<seq<Fill>, LiveError>) {
    var (link, accepted) := C.Polls(s.link, isOpen, inbox, now);
    var batch := HandlingAll(s.(link := link), cfg, accepted, now);
    (batch.state, if batch.error.Some? then Err(batch.error.value) else Ok(batch.fills))
  }

  // ---------------------------------------------------------------------------
  // The broker object
  // ---------------------------------------------------------------------------

  class LiveBroker {
    const cfg: LiveConfig
    const link: C.LiveConnection
    const simulator: BrokerSimulator
    var listener: map<string, OrderId>
    var working: set<OrderId>
    var venueIds: map<OrderId, string>

    ghost function State(): LiveState
      reads this, link, simulator
    {
      LiveState(link.State(), simulator.State(), listener, working, venueIds)
    }

    constructor (cfg: LiveConfig, link: C.LiveConnection, simulator: BrokerSimulator)
      ensures this.link == link && this.simulator == simulator && this.cfg == cfg
      ensures State() == LiveState(link.State(), simulator.State(), map[], {}, map[])
    {
      this.cfg, this.link, this.simulator := cfg, link, simulator;
      listener, working, venueIds := map[], {}, map[];
    }

    method Track(key: string, id: OrderId) returns (r: Option<LiveError>)
      modifies this`listener
      ensures match Tracking(old(listener), key, id)
              case Ok(m) => r.None? && listener == m
              case Err(e) => r == Some(e) && listener == old(listener)
    {
      if key == "" { return Some(EmptyClientId); }
      if id == NO_ORDER { return Some(BadOrderId); }
      if key in listener {
        if listener[key] == id { return None; }
        return Some(ClientIdTaken);
      }
      listener := listener[key := id];
      return None;
    }

    method Submit(now: Timestamp, o: Order, accepts: bool) returns (r: Result<bool, LiveError>)
      modifies this, simulator
      ensures (State(), r) == Submitting(old(State()), cfg, simulator.models, now, o, accepts)
    {
      hide Accepting, Cancelling, Expressible;
      if link.state != C.Ready { return Err(NotPermitted); }
      var reference := if o.limit.Some? then o.limit.value else o.arrivalPrice;
      if cfg.maxOrderNotional > 0.0 && o.quantity * reference > cfg.maxOrderNotional { return Err(NotionalTooLarge); }
      if !Expressible(cfg, o) { return Err(NotExpressible); }
      var registered := simulator.Submit(now, o);
      if registered.Err? { return Err(SimulatorRefused(registered.error)); }
      var key := ClientId(cfg, o.id);
      var refused := Track(key, o.id);
      if refused.Some? { return Err(refused.value); }
      var sent := link.Send(accepts);
      if sent.Err? {
        listener := listener - {key};
        var _ := simulator.Cancel(o.id);
        return Err(SendFailed);
      }
      working := working + {o.id};
      return Ok(true);
    }

    /** Applies one message. */
    method Handle(m: C.Message, now: Timestamp) returns (r: Result<Option<Fill>, LiveError>)
      modifies this, simulator
      ensures (State(), r) == Handling(old(State()), cfg, m, now)
    {
      hide Ingesting, Cancelling;
      var update := Interpreting(listener, m);
      if update.Err? { return Err(update.error); }
      if update.value.None? { return Ok(None); }
      var id := update.value.value;
      if m.kind == C.OrderAccepted || m.kind == C.OrderReplaced {
        if m.venueOrderId != "" { venueIds := venueIds[id := m.venueOrderId]; }
        return Ok(None);
      }
      if m.kind == C.OrderRejected || m.kind == C.OrderCancelled {
        working := working - {id};
        listener := listener - {ClientId(cfg, id)};
        var _ := simulator.Cancel(id);
        return Ok(None);
      }
      var fill := simulator.IngestExternalFill(ReportOf(m, id, now));
      if fill.Err? { return Err(FillRefused(fill.error)); }
      if m.kind == C.FilledWhole {
        working := working - {id};
        listener := listener - {ClientId(cfg, id)};
      }
      return Ok(Some(fill.value));
    }

    method Poll(isOpen: bool, inbox: seq<C.Message>, now: Timestamp) returns (r: Result<seq<Fill>, LiveError>)
      modifies this, link, simulator
      ensures (State(), r) == Polling(old(State()), cfg, isOpen, inbox, now)
    {
      hide Handling, C.Polls;
      var accepted := link.Poll(isOpen, inbox, now);
      ghost var start := State();
      ghost var target := HandlingAll(start, cfg, accepted, now);
      ghost var used: seq<C.Message> := [];
      var fills: seq<Fill>, k := [], 0;
      while k < |accepted|
        invariant 0 <= k <= |accepted|
        invariant HandlingAll(start, cfg, accepted[..k], now) == Batch(State(), fills, used, None)
      {
        var m := accepted[k];
        assert accepted[..k + 1][..k] == accepted[..k];
        var handled := Handle(m, now);
        if handled.Err? {
          StoppedBatch(start, cfg, accepted, now, k + 1);
          return Err(handled.error);
        }
        if handled.value.Some? {
          fills, used := fills + [handled.value.value], used + [m];
        }
        k := k + 1;
      }
      assert accepted[..k] == accepted;
      return Ok(fills);
    }
  }

  /** Once a batch has stopped, the rest of it is never looked at. */
  lemma {:induction false} StoppedBatch(s: LiveState, cfg: LiveConfig, ms: seq<C.Message>, now: Timestamp, k: nat)
    requires k <= |ms| && HandlingAll(s, cfg, ms[..k], now).error.Some?
    ensures HandlingAll(s, cfg, ms, now) == HandlingAll(s, cfg, ms[..k], now)
    decreases |ms| - k
  {
    if k == |ms| {
      assert ms[..k] == ms;
    } else {
      assert ms[..k + 1][..k] == ms[..k];
      StoppedBatch(s, cfg, ms, now, k + 1);
    }
  }

  // ---------------------------------------------------------------------------
  // Reconciliation
  // ---------------------------------------------------------------------------

  datatype Report = Report(cashDrift: real, cashMatches: bool, positionsMatch: bool, drift: map<InstrumentId, real>)

  function Held(positions: map<InstrumentId, real>, i: InstrumentId): real {
    if i in positions then positions[i] else 0.0
  }

  /** Our holding less theirs. */
  function Difference(ours: map<InstrumentId, real>, theirs: map<InstrumentId, real>, i: InstrumentId): real {
    Held(ours, i) - Held(theirs, i)
  }

  /** The differences beyond the tolerance, among some instruments. */
  function DriftAmong(keys: set<InstrumentId>, ours: map<InstrumentId, real>, theirs: map<InstrumentId, real>,
                      tolerance: real): map<InstrumentId, real> {
    map i | i in keys && Abs(Difference(ours, theirs, i)) > tolerance :: Difference(ours, theirs, i)
  }

  lemma DriftOneMore(keys: set<InstrumentId>, ours: map<InstrumentId, real>, theirs: map<InstrumentId, real>,
                     tolerance: real, key: InstrumentId)
    ensures var drift := DriftAmong(keys, ours, theirs, tolerance);
            DriftAmong(keys + {key}, ours, theirs, tolerance)
            == if Abs(Difference(ours, theirs, key)) > tolerance then drift[key := Difference(ours, theirs, key)]
               else drift
  {
  }

  /** Compares our cash and positions with the venue's, in two passes: over ours, then over theirs that we lack. */
  method Reconcile(cash: real, ours: map<InstrumentId, real>, theirCash: real, theirs: map<InstrumentId, real>,
                   cashTolerance: real, positionTolerance: real) returns (r: Report)
    ensures r.cashDrift == cash - theirCash && (r.cashMatches <==> Abs(cash - theirCash) <= cashTolerance)
    ensures forall i :: i in r.drift <==>
                          (i in ours || i in theirs) && Abs(Difference(ours, theirs, i)) > positionTolerance
    ensures forall i :: i in r.drift ==> r.drift[i] == Difference(ours, theirs, i)
    ensures r.positionsMatch <==> r.drift == map[]
  {
    var cashDrift := cash - theirCash;
    var drift := CompareOurs(ours, theirs, positionTolerance);
    drift := AddTheirs(ours, theirs, positionTolerance, drift);
    return Report(cashDrift, Abs(cashDrift) <= cashTolerance, drift == map[], drift);
  }

  /** The first pass: every position of ours against theirs. */
  method CompareOurs(ours: map<InstrumentId, real>, theirs: map<InstrumentId, real>, tolerance: real)
    returns (drift: map<InstrumentId, real>)
    ensures drift == DriftAmong(ours.Keys, ours, theirs, tolerance)
  {
    hide Abs, DriftAmong;
    drift := map[];
    var rest := ours.Keys;
    NothingDrifts(ours, theirs, tolerance);
    while rest != {}
      invariant rest <= ours.Keys && drift == DriftAmong(ours.Keys - rest, ours, theirs, tolerance)
      decreases |rest|
    {
      var key :| key in rest;
      DriftOneMore(ours.Keys - rest, ours, theirs, tolerance, key);
      assert ours.Keys - rest + {key} == ours.Keys - (rest - {key});
      if Abs(ours[key] - Held(theirs, key)) > tolerance {
        drift := drift[key := ours[key] - Held(theirs, key)];
      }
      rest := rest - {key};
    }
    assert ours.Keys - {} == ours.Keys;
  }

  lemma NothingDrifts(ours: map<InstrumentId, real>, theirs: map<InstrumentId, real>, tolerance: real)
    ensures ours.Keys - ours.Keys == {} && DriftAmong({}, ours, theirs, tolerance) == map[]
  {
  }

  /** The second pass: positions the venue holds and we do not. */
  method AddTheirs(ours: map<InstrumentId, real>, theirs: map<InstrumentId, real>, tolerance: real,
                   before: map<InstrumentId, real>) returns (drift: map<InstrumentId, real>)
    requires before == DriftAmong(ours.Keys, ours, theirs, tolerance)
    ensures drift == DriftAmong(ours.Keys + theirs.Keys, ours, theirs, tolerance)
  {
    hide Abs, DriftAmong;
    drift := before;
    var rest := theirs.Keys;
    ghost var known := ours.Keys;
    while rest != {}
      invariant rest <= theirs.Keys && drift == DriftAmong(known, ours, theirs, tolerance)
      invariant forall k :: k in known <==> k in ours || (k in theirs && k !in rest)
      decreases |rest|
    {
      var key :| key in rest;
      TheirStep(ours, theirs, tolerance, drift, known, key);
      if key !in drift && key !in ours && Abs(theirs[key]) > tolerance {
        drift := drift[key := -theirs[key]];
      }
      known := known + {key};
      rest := rest - {key};
    }
    assert known == ours.Keys + theirs.Keys;
  }

  lemma TheirStep(ours: map<InstrumentId, real>, theirs: map<InstrumentId, real>, tolerance: real,
                  drift: map<InstrumentId, real>, known: set<InstrumentId>, key: InstrumentId)
    requires drift == DriftAmong(known, ours, theirs, tolerance) && ours.Keys <= known
    requires key in theirs && (key in known ==> key in ours)
    ensures DriftAmong(known + {key}, ours, theirs, tolerance)
            == if key !in drift && key !in ours && Abs(theirs[key]) > tolerance then drift[key := -theirs[key]]
               else drift
  {
    DriftOneMore(known, ours, theirs, tolerance, key);
    NegatedMagnitude(theirs[key]);
    hide Abs;
    if key in known {
      assert known + {key} == known;
    }
  }

  lemma NegatedMagnitude(x: real)
    ensures Abs(0.0 - x) == Abs(x) && Abs(-x) == Abs(x)
  {
  }
}
