/** What a live submission needs to succeed, and by which name the venue then knows the order. */
module LiveSubmissions {
  import opened Types
  import opened TimeChain
  import opened Orders
  import opened Venue
  import C = Connections
  import opened LiveBrokers
  import opened LiveRuns

  // ---------------------------------------------------------------------------
  // Submission
  // ---------------------------------------------------------------------------

  predicate NearTo(q: real, n: int) {
    -0.000000001 <= q - n as real <= 0.000000001
  }

  /** A whole number of shares, to a billionth. */
  ghost predicate Whole(q: real) {
    exists n :: NearTo(q, n)
  }

  lemma RoundsToTheNearest(q: real)
    ensures -0.5 <= q - Round(q) as real <= 0.5
  {
    var x := if q >= 0.0 then q + 0.5 else -q + 0.5;
    assert x.Floor as real <= x < x.Floor as real + 1.0;
  }

  lemma WholeIff(q: real)
    ensures Abs(q - Round(q) as real) <= TOLERANCE <==> Whole(q)
  {
    RoundsToTheNearest(q);
    hide Round;
    if Abs(q - Round(q) as real) <= TOLERANCE {
      assert NearTo(q, Round(q));
    }
    if Whole(q) {
      var n :| NearTo(q, n);
      OnlyInteger(q, n, Round(q));
    }
  }

  lemma OnlyInteger(q: real, n: int, r: int)
    requires NearTo(q, n) && -0.5 <= q - r as real <= 0.5
    ensures r == n
  {
    assert -0.6 < r as real - n as real < 0.6;
    assert (r - n) as real == r as real - n as real;
  }

  /** The venue takes no market order that must trade at once, fractions only where allowed, and no unknown name. */
  ghost predicate Acceptable(cfg: LiveConfig, o: Order) {
    && (o.orderType == Market ==> o.tif == Day || o.tif == GoodTillCancel)
    && (cfg.allowFractional || Whole(o.quantity)) && cfg.symbol(o.instrument) != ""
  }

  /** The order is worth no more than the limit on one order, at its own limit price or else at its arrival price. */
  predicate Affordable(cfg: LiveConfig, o: Order) {
    var price := if o.limit.Some? then o.limit.value else o.arrivalPrice;
    cfg.maxOrderNotional <= 0.0 || o.quantity * price <= cfg.maxOrderNotional
  }

  /** After every run a submission succeeds exactly when the link is ready and the transport takes it, the order is
      affordable and acceptable, and it was decided by now and can arrive after that. */
  lemma SubmitSucceedsIff(u: Setup, es: seq<LiveEvent>, now: Timestamp, o: Order, accepts: bool)
    ensures var s := After(u, es).state;
            var arrival := now + MaxInt(1, u.models.flight(s.venue.flights));
            Submitting(s, u.cfg, u.models, now, o, accepts).1.Ok?
            <==> && s.link.state == C.Ready && accepts && Affordable(u.cfg, o) && Acceptable(u.cfg, o)
                 && IsSet(now) && o.times.decision <= now && ChainOk(o.times.(arrival := arrival))
  {
    TrackingNeverRefuses(u, es, now, o, accepts);
    WholeIff(o.quantity);
    RegisteredIff(After(u, es).state.venue, u.models, now, o);
    hide After, Accepting, Cancelling, Whole, Round, ChainOk, Abs, ClientId;
  }

  lemma RegisteredIff(v: VenueState, m: Models, now: Timestamp, o: Order)
    ensures Accepting(v, m, now, o).1.Ok?
            <==> IsSet(now) && o.times.decision <= now
                 && ChainOk(o.times.(arrival := now + MaxInt(1, m.flight(v.flights))))
  {
    hide ChainOk;
  }

  // ---------------------------------------------------------------------------
  // The venue's own name for an order
  // ---------------------------------------------------------------------------

  /** The message acknowledges an order, or its replacement, under a name of the venue's own. */
  predicate Names(cfg: LiveConfig, m: C.Message, id: OrderId) {
    && (m.kind == C.OrderAccepted || m.kind == C.OrderReplaced)
    && m.clientOrderId == ClientId(cfg, id) && m.venueOrderId != ""
  }

  function LatestName(cfg: LiveConfig, ms: seq<C.Message>, id: OrderId): Option<string> {
    if ms == [] then None
    else
      var m := ms[|ms| - 1];
      if Names(cfg, m, id) then Some(m.venueOrderId) else LatestName(cfg, ms[..|ms| - 1], id)
  }

  predicate Knows(names: map<OrderId, string>, id: OrderId, name: Option<string>) {
    if name.Some? then id in names && names[id] == name.value else id !in names
  }

  lemma HandlingNames(s: LiveState, cfg: LiveConfig, m: C.Message, now: Timestamp, id: OrderId, name: Option<string>)
    requires Attributed(cfg, s.listener) && Knows(s.venueIds, id, name) && Handling(s, cfg, m, now).1.Ok?
    ensures Knows(Handling(s, cfg, m, now).0.venueIds, id, if Names(cfg, m, id) then Some(m.venueOrderId) else name)
  {
    hide Ingesting, Cancelling, ClientId;
    if m.clientOrderId in s.listener && m.clientOrderId == ClientId(cfg, id) {
      ClientIdsAreDistinct(cfg, id, s.listener[m.clientOrderId]);
    }
  }

  /** After a batch that did not fail, the venue's name of an order is the one in its latest acknowledgement, or what it
      was before if there is none. */
  lemma {:induction false} NameIsTheLatest(s: LiveState, cfg: LiveConfig, ms: seq<C.Message>, now: Timestamp,
                                           id: OrderId, name: Option<string>)
    requires Attributed(cfg, s.listener) && Knows(s.venueIds, id, name)
    requires HandlingAll(s, cfg, ms, now).error.None?
    ensures var latest := LatestName(cfg, ms, id);
            Knows(HandlingAll(s, cfg, ms, now).state.venueIds, id, if latest.Some? then latest else name)
  {
    hide Handling, Names, Knows, Attributed;
    if ms != [] {
      var front := ms[..|ms| - 1];
      NameIsTheLatest(s, cfg, front, now, id, name);
      BatchKeepsAttributed(s, cfg, front, now);
      var latest := LatestName(cfg, front, id);
      HandlingNames(HandlingAll(s, cfg, front, now).state, cfg, ms[|ms| - 1], now, id,
                    if latest.Some? then latest else name);
    }
  }

  // ---------------------------------------------------------------------------
  // Orders being worked
  // ---------------------------------------------------------------------------

  /** Exactly the orders being worked are listened for. */
  ghost predicate WorksWhatItHears(cfg: LiveConfig, s: LiveState) {
    forall id: OrderId :: id in s.working <==> ClientId(cfg, id) in s.listener
  }

  /** No order of the run is submitted while its id is being worked. */
  ghost predicate SubmitsIdle(u: Setup, es: seq<LiveEvent>) {
    forall k :: 0 <= k < |es| && es[k].SubmitOrder? ==> es[k].order.id !in After(u, es[..k]).state.working
  }

  lemma ClosingWorks(s: LiveState, cfg: LiveConfig, id: OrderId)
    requires WorksWhatItHears(cfg, s)
    ensures WorksWhatItHears(cfg, Closing(s, cfg, id))
  {
    hide ClientId;
    forall other: OrderId
      ensures other in Closing(s, cfg, id).working <==> ClientId(cfg, other) in Closing(s, cfg, id).listener
    {
      if ClientId(cfg, other) == ClientId(cfg, id) {
        ClientIdsAreDistinct(cfg, other, id);
      }
    }
  }

  lemma HandlingWorks(s: LiveState, cfg: LiveConfig, m: C.Message, now: Timestamp)
    requires WorksWhatItHears(cfg, s)
    ensures WorksWhatItHears(cfg, Handling(s, cfg, m, now).0)
  {
    hide ClientId, Closing, Ingesting, Cancelling, WorksWhatItHears;
    if m.clientOrderId in s.listener {
      var id := s.listener[m.clientOrderId];
      var after := s.(venue := Ingesting(s.venue, ReportOf(m, id, now)).0);
      OtherFieldsWork(s, cfg, after);
      ClosingWorks(after, cfg, id);
      ClosingWorks(s, cfg, id);
      var closed := Closing(s, cfg, id);
      OtherFieldsWork(closed, cfg, closed.(venue := Cancelling(s.venue, id).0));
      OtherFieldsWork(s, cfg, s.(venueIds := s.venueIds[id := m.venueOrderId]));
    }
  }

  lemma OtherFieldsWork(s: LiveState, cfg: LiveConfig, t: LiveState)
    requires WorksWhatItHears(cfg, s) && t.working == s.working && t.listener == s.listener
    ensures WorksWhatItHears(cfg, t)
  {
  }

  lemma {:induction false} BatchWorks(s: LiveState, cfg: LiveConfig, ms: seq<C.Message>, now: Timestamp)
    requires WorksWhatItHears(cfg, s)
    ensures WorksWhatItHears(cfg, HandlingAll(s, cfg, ms, now).state)
  {
    hide WorksWhatItHears, Handling;
    if ms != [] {
      var front := ms[..|ms| - 1];
      BatchWorks(s, cfg, front, now);
      HandlingWorks(HandlingAll(s, cfg, front, now).state, cfg, ms[|ms| - 1], now);
    }
  }

  lemma SubmittingWorks(s: LiveState, u: Setup, now: Timestamp, o: Order, accepts: bool)
    requires WorksWhatItHears(u.cfg, s) && o.id !in s.working
    ensures WorksWhatItHears(u.cfg, Submitting(s, u.cfg, u.models, now, o, accepts).0)
  {
    hide ClientId, Accepting, Cancelling, Expressible;
    var t := Submitting(s, u.cfg, u.models, now, o, accepts).0;
    forall id: OrderId
      ensures id in t.working <==> ClientId(u.cfg, id) in t.listener
    {
      if ClientId(u.cfg, id) == ClientId(u.cfg, o.id) {
        ClientIdsAreDistinct(u.cfg, id, o.id);
      }
    }
  }

  lemma {:induction false} WorksOverRuns(u: Setup, es: seq<LiveEvent>)
    requires SubmitsIdle(u, es)
    ensures WorksWhatItHears(u.cfg, After(u, es).state)
  {
    hide WorksWhatItHears, HandlingAll, Submitting, Registers, C.Draining;
    if es == [] {
      NothingWorks(u);
    } else {
      var front, e := es[..|es| - 1], es[|es| - 1];
      assert forall k :: 0 <= k < |front| ==> front[k] == es[k] && front[..k] == es[..k];
      WorksOverRuns(u, front);
      var s := After(u, front).state;
      match e
      case SubmitOrder(now, o, accepts) => SubmittingWorks(s, u, now, o, accepts);
      case PollVenue(now, isOpen, inbox) =>
        var (link, accepted) := C.Polls(s.link, isOpen, inbox, now);
        OtherFieldsWork(s, u.cfg, s.(link := link));
        BatchWorks(s.(link := link), u.cfg, accepted, now);
      case OnLink(_) => OtherFieldsWork(s, u.cfg, After(u, es).state);
    }
  }

  lemma NothingWorks(u: Setup)
    ensures WorksWhatItHears(u.cfg, Begun(u).state)
  {
  }

  /** Over every run that submits no order while its id is being worked, the orders being worked are exactly those whose
      updates are still attributed, each to itself. */
  lemma WorkedIsAttributed(u: Setup, es: seq<LiveEvent>, id: OrderId)
    requires SubmitsIdle(u, es)
    ensures var s, key := After(u, es).state, ClientId(u.cfg, id);
            id in s.working <==> key in s.listener && s.listener[key] == id
  {
    WorksOverRuns(u, es);
    AttributedOverRuns(u, es);
    hide After, ClientId;
    var s, key := After(u, es).state, ClientId(u.cfg, id);
    if key in s.listener {
      ClientIdsAreDistinct(u.cfg, id, s.listener[key]);
    }
  }
}
