/** What an ingested fill carries, and what a venue's cancel leaves: read off the messages and the orders sent. */
module LiveFills {
  import opened Types
  import opened TimeChain
  import opened Orders
  import opened Venue
  import C = Connections
  import opened LiveBrokers
  import opened LiveBatches
  import opened LiveRuns
  import opened LiveOrders

  // ---------------------------------------------------------------------------
  // One fill
  // ---------------------------------------------------------------------------

  /** The fill has the message's quantity, price, costs and venue time, or the clock's where the message has none. */
  predicate Repeats(f: Fill, m: C.Message, clock: Timestamp) {
    && f.quantity == m.quantity && f.price == m.price
    && f.commission == m.commission && f.exchangeFee == m.exchangeFee
    && f.times.fill == (if IsSet(m.venueTime) then m.venueTime else clock)
  }

  /** The fill is one of this order, on its side and instrument, decided when it was and measured against its arrival
      price. */
  predicate IsOf(f: Fill, o: Order) {
    && f.orderId == o.id && f.parentId == o.parent && f.instrument == o.instrument && f.side == o.side
    && f.times.decision == o.times.decision
    && f.arrivalPrice == (if o.arrivalPrice > 0.0 then o.arrivalPrice else f.price)
  }

  lemma HandledFill(s: LiveState, cfg: LiveConfig, m: C.Message, now: Timestamp)
    requires Handling(s, cfg, m, now).1.Ok? && Handling(s, cfg, m, now).1.value.Some?
    ensures IsFill(m) && m.clientOrderId in s.listener
    ensures var f, i := Handling(s, cfg, m, now).1.value.value, IndexOf(s.venue.pending, s.listener[m.clientOrderId]);
            && i < |s.venue.pending| && f.orderId == s.listener[m.clientOrderId]
            && Repeats(f, m, now) && IsOf(f, s.venue.pending[i].order)
  {
    hide ChainOk, IndexOf, Cancelling;
  }

  // ---------------------------------------------------------------------------
  // One batch
  // ---------------------------------------------------------------------------

  /** The messages that report fills, in order. */
  function FillMessages(ms: seq<C.Message>): seq<C.Message> {
    if ms == [] then []
    else
      var m := ms[|ms| - 1];
      FillMessages(ms[..|ms| - 1]) + if IsFill(m) then [m] else []
  }

  /** Each fill repeats its message, carries the client id of its order, and is of an order that was submitted. */
  predicate Faithful(cfg: LiveConfig, orders: seq<Order>, f: Fill, m: C.Message) {
    && IsFill(m) && Repeats(f, m, m.receivedTime) && m.clientOrderId == ClientId(cfg, f.orderId)
    && exists k :: 0 <= k < |orders| && IsOf(f, orders[k])
  }

  predicate AllFaithful(cfg: LiveConfig, orders: seq<Order>, fills: seq<Fill>, ms: seq<C.Message>) {
    |fills| == |ms| && forall k :: 0 <= k < |fills| ==> Faithful(cfg, orders, fills[k], ms[k])
  }

  /** Every pending order is one of these, with its arrival stamped. */
  predicate ComesFrom(p: PendingOrder, orders: seq<Order>) {
    exists k :: 0 <= k < |orders| && p.order == orders[k].(times := orders[k].times.(arrival := p.arrivalTime))
  }

  predicate AllComeFrom(ps: seq<PendingOrder>, orders: seq<Order>) {
    forall k :: 0 <= k < |ps| ==> ComesFrom(ps[k], orders)
  }

  lemma OfPendingIsOfSent(f: Fill, p: PendingOrder, orders: seq<Order>)
    requires ComesFrom(p, orders) && IsOf(f, p.order)
    ensures exists k :: 0 <= k < |orders| && IsOf(f, orders[k])
  {
    var k :| 0 <= k < |orders| && p.order == orders[k].(times := orders[k].times.(arrival := p.arrivalTime));
    assert IsOf(f, orders[k]);
  }

  lemma HandledFillIsFaithful(s: LiveState, cfg: LiveConfig, m: C.Message, orders: seq<Order>)
    requires Attributed(cfg, s.listener) && AllComeFrom(s.venue.pending, orders)
    requires var r := Handling(s, cfg, m, m.receivedTime).1; r.Ok? && r.value.Some?
    ensures Faithful(cfg, orders, Handling(s, cfg, m, m.receivedTime).1.value.value, m)
  {
    HandledFill(s, cfg, m, m.receivedTime);
    var i := IndexOf(s.venue.pending, s.listener[m.clientOrderId]);
    hide Handling, IsOf, Repeats, IndexOf;
    OfPendingIsOfSent(Handling(s, cfg, m, m.receivedTime).1.value.value, s.venue.pending[i], orders);
  }

  lemma CancelKeepsSource(v: VenueState, id: OrderId, orders: seq<Order>)
    requires AllComeFrom(v.pending, orders)
    ensures AllComeFrom(Cancelling(v, id).0.pending, orders)
  {
    hide ComesFrom;
  }

  lemma IngestKeepsSource(v: VenueState, report: ExternalFillReport, orders: seq<Order>)
    requires AllComeFrom(v.pending, orders)
    ensures AllComeFrom(Ingesting(v, report).0.pending, orders)
  {
    hide ChainOk, IndexOf;
    var i := IndexOf(v.pending, report.orderId);
    if i < |v.pending| {
      assert ComesFrom(v.pending[i], orders);
    }
    var after := Ingesting(v, report).0.pending;
    forall k | 0 <= k < |after|
      ensures ComesFrom(after[k], orders)
    {
      var was := IngestedFrom(v, report, k);
      SameSource(v.pending[was], after[k], orders);
    }
  }

  lemma IngestedFrom(v: VenueState, report: ExternalFillReport, k: nat) returns (was: nat)
    requires k < |Ingesting(v, report).0.pending|
    ensures was < |v.pending|
    ensures var p, q := v.pending[was], Ingesting(v, report).0.pending[k];
            q.order == p.order && q.arrivalTime == p.arrivalTime
  {
    hide ChainOk;
    var i, after := IndexOf(v.pending, report.orderId), Ingesting(v, report).0.pending;
    was := if |after| < |v.pending| && k >= i then k + 1 else k;
  }

  lemma SameSource(p: PendingOrder, q: PendingOrder, orders: seq<Order>)
    requires ComesFrom(p, orders) && q.order == p.order && q.arrivalTime == p.arrivalTime
    ensures ComesFrom(q, orders)
  {
    var k :| 0 <= k < |orders| && p.order == orders[k].(times := orders[k].times.(arrival := p.arrivalTime));
    assert q.order == orders[k].(times := orders[k].times.(arrival := q.arrivalTime));
  }

  lemma HandleKeepsSource(s: LiveState, cfg: LiveConfig, m: C.Message, now: Timestamp, orders: seq<Order>)
    requires AllComeFrom(s.venue.pending, orders)
    ensures AllComeFrom(Handling(s, cfg, m, now).0.venue.pending, orders)
  {
    hide AllComeFrom, Ingesting, Cancelling;
    if m.clientOrderId in s.listener {
      CancelKeepsSource(s.venue, s.listener[m.clientOrderId], orders);
      IngestKeepsSource(s.venue, ReportOf(m, s.listener[m.clientOrderId], now), orders);
    }
  }

  /** All messages carry the time of the poll. */
  predicate StampedAt(ms: seq<C.Message>, now: Timestamp) {
    forall k :: 0 <= k < |ms| ==> ms[k].receivedTime == now
  }

  lemma FaithfulOneMore(cfg: LiveConfig, orders: seq<Order>, fills: seq<Fill>, ms: seq<C.Message>, f: Fill,
                        m: C.Message)
    requires AllFaithful(cfg, orders, fills, ms) && Faithful(cfg, orders, f, m)
    ensures AllFaithful(cfg, orders, fills + [f], ms + [m])
  {
    hide Faithful;
  }

  /** The fills of a batch are faithful to the messages they came from, which are all its fill messages when it does not
      fail. */
  lemma {:induction false} BatchIsFaithful(s: LiveState, cfg: LiveConfig, ms: seq<C.Message>, now: Timestamp,
                                           orders: seq<Order>)
    requires Attributed(cfg, s.listener) && AllComeFrom(s.venue.pending, orders) && StampedAt(ms, now)
    ensures var batch := HandlingAll(s, cfg, ms, now);
            && AllFaithful(cfg, orders, batch.fills, batch.from_)
            && (batch.error.None? ==> batch.from_ == FillMessages(ms))
            && AllComeFrom(batch.state.venue.pending, orders) && Attributed(cfg, batch.state.listener)
  {
    hide Handling, Faithful, AllComeFrom, Attributed;
    if ms != [] {
      var before, m := ms[..|ms| - 1], ms[|ms| - 1];
      assert m.receivedTime == now && forall k :: 0 <= k < |before| ==> before[k] == ms[k];
      BatchIsFaithful(s, cfg, before, now, orders);
      var front := HandlingAll(s, cfg, before, now);
      if front.error.None? {
        HandleKeepsSource(front.state, cfg, m, now, orders);
        HandleKeepsAttributed(front.state, cfg, m, now);
        HandleFailsIff(front.state, cfg, m, now);
        var r := Handling(front.state, cfg, m, now).1;
        if r.Ok? && r.value.Some? {
          HandledFillIsFaithful(front.state, cfg, m, orders);
          FaithfulOneMore(cfg, orders, front.fills, front.from_, r.value.value, m);
        }
      }
    }
  }

  // ---------------------------------------------------------------------------
  // Runs
  // ---------------------------------------------------------------------------

  lemma SiftedIsStamped(l: C.LinkState, m: C.Message, now: Timestamp)
    ensures StampedAt(C.Sifting(l, m, now).1, now)
  {
  }

  lemma {:induction false} DrainedIsStamped(l: C.LinkState, inbox: seq<C.Message>, now: Timestamp)
    ensures StampedAt(C.Draining(l, inbox, now).1, now)
  {
    hide C.Sifting;
    if inbox != [] {
      DrainedIsStamped(l, inbox[..|inbox| - 1], now);
      SiftedIsStamped(C.Draining(l, inbox[..|inbox| - 1], now).0, inbox[|inbox| - 1], now);
    }
  }

  lemma PolledIsStamped(l: C.LinkState, isOpen: bool, inbox: seq<C.Message>, now: Timestamp)
    ensures StampedAt(C.Polls(l, isOpen, inbox, now).1, now)
  {
    DrainedIsStamped(l, inbox, now);
  }

  lemma RegisteredComesFrom(v: VenueState, m: Models, now: Timestamp, o: Order, orders: seq<Order>)
    requires AllComeFrom(v.pending, orders)
    ensures var (venue, r) := Accepting(v, m, now, o);
            AllComeFrom(venue.pending, if r.Ok? then orders + [o] else orders)
  {
    var (venue, r) := Accepting(v, m, now, o);
    if r.Ok? {
      forall k | 0 <= k < |venue.pending|
        ensures ComesFrom(venue.pending[k], orders + [o])
      {
        if k < |v.pending| {
          StillComesFrom(v.pending[k], orders, o);
        } else {
          assert (orders + [o])[|orders|] == o;
        }
      }
    }
  }

  lemma StillComesFrom(p: PendingOrder, orders: seq<Order>, o: Order)
    requires ComesFrom(p, orders)
    ensures ComesFrom(p, orders + [o])
  {
    var k :| 0 <= k < |orders| && p.order == orders[k].(times := orders[k].times.(arrival := p.arrivalTime));
    assert (orders + [o])[k] == orders[k];
  }

  lemma SubmitKeepsSource(h: History, u: Setup, e: LiveEvent)
    requires e.SubmitOrder? && AllComeFrom(h.state.venue.pending, h.orders)
    ensures AllComeFrom(Stepping(h, u, e).state.venue.pending, Stepping(h, u, e).orders)
  {
    hide AllComeFrom, Accepting, Cancelling, Expressible, ClientId, Tracking;
    RegisteredComesFrom(h.state.venue, u.models, e.now, e.order, h.orders);
    if Accepting(h.state.venue, u.models, e.now, e.order).1.Ok? {
      CancelKeepsSource(Accepting(h.state.venue, u.models, e.now, e.order).0, e.order.id, h.orders + [e.order]);
    }
  }

  lemma FaithfulWithMore(cfg: LiveConfig, orders: seq<Order>, more: seq<Order>, fills: seq<Fill>, ms: seq<C.Message>)
    requires AllFaithful(cfg, orders, fills, ms) && orders <= more
    ensures AllFaithful(cfg, more, fills, ms)
  {
    forall k | 0 <= k < |fills|
      ensures Faithful(cfg, more, fills[k], ms[k])
    {
      assert Faithful(cfg, orders, fills[k], ms[k]);
      var j :| 0 <= j < |orders| && IsOf(fills[k], orders[j]);
      assert more[j] == orders[j];
    }
  }

  lemma FaithfulJoin(cfg: LiveConfig, orders: seq<Order>, fills: seq<Fill>, ms: seq<C.Message>, fills': seq<Fill>,
                     ms': seq<C.Message>)
    requires AllFaithful(cfg, orders, fills, ms) && AllFaithful(cfg, orders, fills', ms')
    ensures AllFaithful(cfg, orders, fills + fills', ms + ms')
  {
    hide Faithful;
  }

  /** Over any run with drops, reconnects and failed polls, the ingested fills match the messages they came from one by
      one: quantity, price, commission, fee and venue time of the message, side and instrument of a submitted order
      whose client id the message carries. */
  lemma {:induction false} FillsAreFaithful(u: Setup, es: seq<LiveEvent>)
    ensures var h := After(u, es);
            AllFaithful(u.cfg, h.orders, h.fills, h.from_) && AllComeFrom(h.state.venue.pending, h.orders)
  {
    if es != [] {
      hide AllFaithful, AllComeFrom, HandlingAll, Submitting, Registers, Attributed;
      var front, e := es[..|es| - 1], es[|es| - 1];
      FillsAreFaithful(u, front);
      AttributedOverRuns(u, front);
      var h := After(u, front);
      match e
      case SubmitOrder(now, o, accepts) =>
        SubmitKeepsSource(h, u, e);
        FaithfulWithMore(u.cfg, h.orders, Stepping(h, u, e).orders, h.fills, h.from_);
      case PollVenue(now, isOpen, inbox) =>
        var (link, accepted) := C.Polls(h.state.link, isOpen, inbox, now);
        PolledIsStamped(h.state.link, isOpen, inbox, now);
        BatchIsFaithful(h.state.(link := link), u.cfg, accepted, now, h.orders);
        var batch := HandlingAll(h.state.(link := link), u.cfg, accepted, now);
        FaithfulJoin(u.cfg, h.orders, h.fills, h.from_, batch.fills, batch.from_);
      case OnLink(_) =>
    }
  }

  /** The cash that one reported fill moves: bought shares are paid for, sold ones received, and costs paid. */
  function CashOfMessage(m: C.Message, side: Side): real {
    (if side == Buy then -(m.price * m.quantity) else m.price * m.quantity) - m.commission - m.exchangeFee
  }

  /** The cash that the reported fills move, from the messages and the sides of their orders. */
  function CashReported(ms: seq<C.Message>, sides: seq<Side>): real
    requires |ms| == |sides|
  {
    if ms == [] then 0.0
    else
      var n := |ms| - 1;
      CashReported(ms[..n], sides[..n]) + CashOfMessage(ms[n], sides[n])
  }

  function CashOf(fills: seq<Fill>): real {
    if fills == [] then 0.0 else CashOf(fills[..|fills| - 1]) + fills[|fills| - 1].CashDelta()
  }

  function SidesOf(fills: seq<Fill>): seq<Side> {
    seq(|fills|, k requires 0 <= k < |fills| => fills[k].side)
  }

  lemma {:induction false} CashIsReported(cfg: LiveConfig, orders: seq<Order>, fills: seq<Fill>, ms: seq<C.Message>)
    requires AllFaithful(cfg, orders, fills, ms)
    ensures CashOf(fills) == CashReported(ms, SidesOf(fills))
  {
    if fills != [] {
      var n := |fills| - 1;
      CashIsReported(cfg, orders, fills[..n], ms[..n]);
      assert SidesOf(fills)[..n] == SidesOf(fills[..n]);
      assert Faithful(cfg, orders, fills[n], ms[n]);
      OneFillCash(fills[n], ms[n]);
      hide Faithful, AllFaithful, Fill.CashDelta, CashOfMessage;
    }
  }

  lemma OneFillCash(f: Fill, m: C.Message)
    requires f.quantity == m.quantity && f.price == m.price
    requires f.commission == m.commission && f.exchangeFee == m.exchangeFee
    ensures f.CashDelta() == CashOfMessage(m, f.side)
  {
  }

  /** After any run, a poll that succeeds returns one fill for each fill message it accepts, in order, each faithful to
      its message; and the cash they move is the cash that the messages report. */
  lemma PollReturnsWhatWasReported(u: Setup, es: seq<LiveEvent>, isOpen: bool, inbox: seq<C.Message>, now: Timestamp)
    requires Polling(After(u, es).state, u.cfg, isOpen, inbox, now).1.Ok?
    ensures var h := After(u, es);
            var fills := Polling(h.state, u.cfg, isOpen, inbox, now).1.value;
            var reported := FillMessages(C.Polls(h.state.link, isOpen, inbox, now).1);
            && AllFaithful(u.cfg, h.orders, fills, reported)
            && CashOf(fills) == CashReported(reported, SidesOf(fills))
  {
    hide After, AllFaithful, HandlingAll, C.Polls, CashOf, CashReported, AllComeFrom, Attributed;
    var h := After(u, es);
    FillsAreFaithful(u, es);
    AttributedOverRuns(u, es);
    var (link, accepted) := C.Polls(h.state.link, isOpen, inbox, now);
    PolledIsStamped(h.state.link, isOpen, inbox, now);
    BatchIsFaithful(h.state.(link := link), u.cfg, accepted, now, h.orders);
    var batch := HandlingAll(h.state.(link := link), u.cfg, accepted, now);
    CashIsReported(u.cfg, h.orders, batch.fills, batch.from_);
  }

  // ---------------------------------------------------------------------------
  // Cancels and rejects
  // ---------------------------------------------------------------------------

  predicate IdsDiffer(ps: seq<PendingOrder>) {
    forall i, j :: 0 <= i < j < |ps| ==> ps[i].order.id != ps[j].order.id
  }

  lemma UnusedIff(ps: seq<PendingOrder>, id: OrderId)
    ensures Unused(ps, id) <==> forall j :: 0 <= j < |ps| ==> ps[j].order.id != id
  {
    hide IndexOf;
  }

  /** Where each entry of the second list comes from in the first, in order. */
  predicate Thins(ps: seq<PendingOrder>, qs: seq<PendingOrder>, from_: seq<nat>) {
    && |from_| == |qs| && (forall j :: 0 <= j < |qs| ==> from_[j] < |ps| && qs[j].order == ps[from_[j]].order)
    && forall i, j :: 0 <= i < j < |qs| ==> from_[i] < from_[j]
  }

  lemma ThinnedIds(ps: seq<PendingOrder>, qs: seq<PendingOrder>, from_: seq<nat>)
    requires IdsDiffer(ps) && Thins(ps, qs, from_)
    ensures IdsDiffer(qs) && forall k :: Unused(ps, k) ==> Unused(qs, k)
  {
    forall k | Unused(ps, k)
      ensures Unused(qs, k)
    {
      UnusedIff(ps, k);
      UnusedIff(qs, k);
    }
  }

  /** Skips position i. */
  function Without(n: nat, i: nat): seq<nat> {
    seq(n, j => if j < i then j else j + 1)
  }

  lemma CancelRemovesId(v: VenueState, id: OrderId)
    requires IdsDiffer(v.pending)
    ensures var after := Cancelling(v, id).0.pending;
            IdsDiffer(after) && Unused(after, id) && forall k :: Unused(v.pending, k) ==> Unused(after, k)
  {
    var ps, after := v.pending, Cancelling(v, id).0.pending;
    var i := IndexOf(ps, id);
    hide IndexOf;
    UnusedIff(after, id);
    if i < |ps| {
      assert Thins(ps, after, Without(|after|, i));
      ThinnedIds(ps, after, Without(|after|, i));
    }
  }

  lemma IngestKeepsIds(v: VenueState, report: ExternalFillReport)
    requires IdsDiffer(v.pending)
    ensures var after := Ingesting(v, report).0.pending;
            IdsDiffer(after) && forall k :: Unused(v.pending, k) ==> Unused(after, k)
  {
    var ps, after := v.pending, Ingesting(v, report).0.pending;
    var i := IndexOf(ps, report.orderId);
    hide IndexOf, ChainOk;
    var from_ := Without(|after|, if |after| < |ps| then i else |after|);
    assert Thins(ps, after, from_);
    hide Ingesting;
    ThinnedIds(ps, after, from_);
  }

  lemma HandleKeepsIds(s: LiveState, cfg: LiveConfig, m: C.Message, now: Timestamp)
    requires IdsDiffer(s.venue.pending)
    ensures var after := Handling(s, cfg, m, now).0.venue.pending;
            IdsDiffer(after) && forall k :: Unused(s.venue.pending, k) ==> Unused(after, k)
  {
    hide IdsDiffer, Unused, Ingesting, Cancelling;
    if m.clientOrderId in s.listener {
      CancelRemovesId(s.venue, s.listener[m.clientOrderId]);
      IngestKeepsIds(s.venue, ReportOf(m, s.listener[m.clientOrderId], now));
    }
  }

  lemma {:induction false} BatchKeepsIds(s: LiveState, cfg: LiveConfig, ms: seq<C.Message>, now: Timestamp)
    requires IdsDiffer(s.venue.pending)
    ensures var after := HandlingAll(s, cfg, ms, now).state.venue.pending;
            IdsDiffer(after) && forall k :: Unused(s.venue.pending, k) ==> Unused(after, k)
  {
    hide IdsDiffer, Unused, Handling;
    if ms != [] {
      BatchKeepsIds(s, cfg, ms[..|ms| - 1], now);
      var front := HandlingAll(s, cfg, ms[..|ms| - 1], now);
      HandleKeepsIds(front.state, cfg, ms[|ms| - 1], now);
    }
  }

  predicate Closes(m: C.Message) {
    m.kind == C.OrderRejected || m.kind == C.OrderCancelled
  }

  /** A cancel or reject from the venue takes the order out of the simulator, the working orders and the listener. */
  lemma ClosingRemoves(s: LiveState, cfg: LiveConfig, m: C.Message, now: Timestamp)
    requires IdsDiffer(s.venue.pending) && Closes(m) && m.clientOrderId in s.listener
    ensures var (after, r) := Handling(s, cfg, m, now);
            var id := s.listener[m.clientOrderId];
            && r == Ok(None) && Unused(after.venue.pending, id) && id !in after.working
            && ClientId(cfg, id) !in after.listener
  {
    CancelRemovesId(s.venue, s.listener[m.clientOrderId]);
    hide Unused, Cancelling, IdsDiffer;
  }

  /** Over every run that never submits a pending id, no id is ever pending twice. */
  lemma {:induction false} IdsDifferOverRuns(u: Setup, es: seq<LiveEvent>)
    requires NeverPendingTwice(u, es)
    ensures IdsDiffer(After(u, es).state.venue.pending)
  {
    if es != [] {
      hide IdsDiffer, HandlingAll, Submitting, Registers;
      var front, e := es[..|es| - 1], es[|es| - 1];
      IdsDifferOverRuns(u, front);
      var h := After(u, front);
      match e
      case SubmitOrder(now, o, accepts) =>
        UnusedSubmit(u, front, now, o, accepts);
        if Submitting(h.state, u.cfg, u.models, now, o, accepts).1.Ok? {
          NewIdDiffers(h.state.venue.pending, Registered(h.state.venue, u.models, now, o));
        }
      case PollVenue(now, isOpen, inbox) =>
        var (link, accepted) := C.Polls(h.state.link, isOpen, inbox, now);
        BatchKeepsIds(h.state.(link := link), u.cfg, accepted, now);
      case OnLink(_) =>
    } else {
      NothingDiffers();
    }
  }

  lemma NothingDiffers()
    ensures IdsDiffer([])
  {
  }

  lemma NewIdDiffers(ps: seq<PendingOrder>, p: PendingOrder)
    requires IdsDiffer(ps) && Unused(ps, p.order.id)
    ensures IdsDiffer(ps + [p])
  {
    hide IndexOf;
  }

  /** After any run that never submits a pending id, once a poll has come to a venue's cancel or reject of an order it
      tracks, that order is not pending when the poll ends, whatever followed in the batch. */
  lemma {:induction false} ClosedIsGone(u: Setup, es: seq<LiveEvent>, e: LiveEvent, k: nat)
    requires NeverPendingTwice(u, es) && e.PollVenue?
    requires var s := After(u, es).state;
             var (link, accepted) := C.Polls(s.link, e.isOpen, e.inbox, e.now);
             && k < |accepted| && Closes(accepted[k])
             && var before := HandlingAll(s.(link := link), u.cfg, accepted[..k], e.now);
                before.error.None? && accepted[k].clientOrderId in before.state.listener
    ensures var s := After(u, es).state;
            var (link, accepted) := C.Polls(s.link, e.isOpen, e.inbox, e.now);
            var before := HandlingAll(s.(link := link), u.cfg, accepted[..k], e.now).state;
            Unused(Stepping(After(u, es), u, e).state.venue.pending, before.listener[accepted[k].clientOrderId])
  {
    hide After, IdsDiffer, Unused, Handling, C.Polls, NeverPendingTwice;
    var s := After(u, es).state;
    var (link, accepted) := C.Polls(s.link, e.isOpen, e.inbox, e.now);
    var start := s.(link := link);
    IdsDifferOverRuns(u, es);
    BatchKeepsIds(start, u.cfg, accepted[..k], e.now);
    var before := HandlingAll(start, u.cfg, accepted[..k], e.now).state;
    ClosingRemoves(before, u.cfg, accepted[k], e.now);
    assert accepted[..k + 1][..k] == accepted[..k];
    var id := before.listener[accepted[k].clientOrderId];
    assert HandlingAll(start, u.cfg, accepted[..k + 1], e.now).state == Handling(before, u.cfg, accepted[k], e.now).0;
    BatchKeepsIds(start, u.cfg, accepted[..k + 1], e.now);
    StaysUnused(start, u.cfg, accepted, e.now, k + 1, id);
    assert accepted[..|accepted|] == accepted;
  }

  lemma {:induction false} StaysUnused(s: LiveState, cfg: LiveConfig, ms: seq<C.Message>, now: Timestamp, n: nat,
                                       id: OrderId)
    requires n <= |ms| && IdsDiffer(s.venue.pending)
    requires Unused(HandlingAll(s, cfg, ms[..n], now).state.venue.pending, id)
    ensures Unused(HandlingAll(s, cfg, ms, now).state.venue.pending, id)
    decreases |ms|
  {
    hide IdsDiffer, Unused, Handling;
    if n == |ms| {
      assert ms[..n] == ms;
    } else {
      var front := ms[..|ms| - 1];
      assert front[..n] == ms[..n];
      StaysUnused(s, cfg, front, now, n, id);
      BatchKeepsIds(s, cfg, front, now);
      HandleKeepsIds(HandlingAll(s, cfg, front, now).state, cfg, ms[|ms| - 1], now);
    }
  }
}
