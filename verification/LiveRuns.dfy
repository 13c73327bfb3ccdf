/** Live trading over whole runs: how much is ingested, how often, and what is never refused. */
module LiveRuns {
  import opened Types
  import opened TimeChain
  import opened Orders
  import opened Venue
  import C = Connections
  import R = ConnectionRuns
  import opened LiveBrokers

  datatype LiveEvent =
    | SubmitOrder(now: Timestamp, order: Order, accepts: bool)
    | PollVenue(now: Timestamp, isOpen: bool, inbox: seq<C.Message>)
    | OnLink(e: R.LinkEvent)

  /** A submission that succeeded, and how many fills had been ingested before it. */
  datatype Sending = Sending(order: Order, before: nat)

  /** What a run has led to: the state, the orders the simulator registered, the submissions that succeeded, and the
      fills ingested with the messages they came from. */
  datatype History = History(
    state: LiveState, orders: seq<Order>, sent: seq<Sending>, fills: seq<Fill>, from_: seq<C.Message>)

  datatype Setup = Setup(cfg: LiveConfig, link: C.LinkConfig, models: Models)

  predicate Registers(s: LiveState, u: Setup, e: LiveEvent)
    requires e.SubmitOrder?
  {
    && s.link.state == C.Ready && Expressible(u.cfg, e.order) && Accepting(s.venue, u.models, e.now, e.order).1.Ok?
    && var reference := if e.order.limit.Some? then e.order.limit.value else e.order.arrivalPrice;
       !(u.cfg.maxOrderNotional > 0.0 && e.order.quantity * reference > u.cfg.maxOrderNotional)
  }

  function Stepping(h: History, u: Setup, e: LiveEvent): History {
    match e
    case SubmitOrder(now, o, accepts) =>
      h.(state := Submitting(h.state, u.cfg, u.models, now, o, accepts).0,
         orders := if Registers(h.state, u, e) then h.orders + [o] else h.orders,
         sent := if Submitting(h.state, u.cfg, u.models, now, o, accepts).1.Ok? then h.sent + [Sending(o, |h.fills|)]
                 else h.sent)
    case PollVenue(now, isOpen, inbox) =>
      var (link, accepted) := C.Polls(h.state.link, isOpen, inbox, now);
      var batch := HandlingAll(h.state.(link := link), u.cfg, accepted, now);
      h.(state := batch.state, fills := h.fills + batch.fills, from_ := h.from_ + batch.from_)
    case OnLink(e) =>
      if e.Poll? then h else h.(state := h.state.(link := R.Stepping(u.link, h.state.link, e)))
  }

  function Begun(u: Setup): History {
    History(LiveState(C.NewLink(u.link), VenueState([], 0, 0, FRESH_STATS), map[], {}, map[]), [], [], [], [])
  }

  function After(u: Setup, es: seq<LiveEvent>): History {
    if es == [] then Begun(u) else Stepping(After(u, es[..|es| - 1]), u, es[|es| - 1])
  }

  // ---------------------------------------------------------------------------
  // Quantities
  // ---------------------------------------------------------------------------

  function Ingested(fills: seq<Fill>, id: OrderId): real {
    if fills == [] then 0.0
    else
      var f := fills[|fills| - 1];
      Ingested(fills[..|fills| - 1], id) + if f.orderId == id then f.quantity else 0.0
  }

  /** What all registrations of an id together may fill. */
  function Budget(orders: seq<Order>, id: OrderId): real {
    if orders == [] then 0.0
    else
      var o := orders[|orders| - 1];
      Budget(orders[..|orders| - 1], id) + if o.id == id then o.quantity + TOLERANCE else 0.0
  }

  function RoomOf(p: PendingOrder, id: OrderId): real {
    if p.order.id == id then p.Remaining() + TOLERANCE else 0.0
  }

  /** What the pending orders of an id may still fill. */
  function Room(ps: seq<PendingOrder>, id: OrderId): real {
    if ps == [] then 0.0 else Room(ps[..|ps| - 1], id) + RoomOf(ps[|ps| - 1], id)
  }

  lemma {:induction false} RoomAppend(ps: seq<PendingOrder>, qs: seq<PendingOrder>, id: OrderId)
    ensures Room(ps + qs, id) == Room(ps, id) + Room(qs, id)
    decreases |qs|
  {
    if qs == [] {
      assert ps + qs == ps;
    } else {
      assert (ps + qs)[..|ps + qs| - 1] == ps + qs[..|qs| - 1];
      RoomAppend(ps, qs[..|qs| - 1], id);
    }
  }

  lemma RoomWithout(ps: seq<PendingOrder>, i: nat, id: OrderId)
    requires i < |ps|
    ensures Room(ps[..i] + ps[i + 1..], id) == Room(ps, id) - RoomOf(ps[i], id)
  {
    assert ps == ps[..i] + ([ps[i]] + ps[i + 1..]);
    RoomAppend(ps[..i], [ps[i]] + ps[i + 1..], id);
    RoomAppend([ps[i]], ps[i + 1..], id);
    RoomAppend(ps[..i], ps[i + 1..], id);
    RoomOfOne(ps[i], id);
  }

  lemma RoomOfOne(p: PendingOrder, id: OrderId)
    ensures Room([p], id) == RoomOf(p, id)
  {
  }

  lemma RoomChanged(ps: seq<PendingOrder>, i: nat, q: PendingOrder, id: OrderId)
    requires i < |ps|
    ensures Room(ps[i := q], id) == Room(ps, id) - RoomOf(ps[i], id) + RoomOf(q, id)
  {
    var qs := ps[i := q];
    assert qs == ps[..i] + ([q] + ps[i + 1..]) && ps == ps[..i] + ([ps[i]] + ps[i + 1..]);
    RoomAppend(ps[..i], [q] + ps[i + 1..], id);
    RoomAppend(ps[..i], [ps[i]] + ps[i + 1..], id);
    RoomAppend([q], ps[i + 1..], id);
    RoomAppend([ps[i]], ps[i + 1..], id);
    RoomOfOne(q, id);
    RoomOfOne(ps[i], id);
  }

  /** A pending order always has something left to fill. */
  predicate Open(ps: seq<PendingOrder>) {
    forall i :: 0 <= i < |ps| ==> ps[i].Remaining() > 0.0
  }

  lemma {:induction false} RoomIsNatural(ps: seq<PendingOrder>, id: OrderId)
    requires Open(ps)
    ensures Room(ps, id) >= 0.0
    ensures Room(ps, id) == 0.0 <==> forall i :: 0 <= i < |ps| ==> ps[i].order.id != id
  {
    if ps != [] {
      RoomIsNatural(ps[..|ps| - 1], id);
    }
  }

  // ---------------------------------------------------------------------------
  // The ingestion bound
  // ---------------------------------------------------------------------------

  /** What was ingested for an id and what may still be ingested stay within a cap. */
  predicate Covered(pending: seq<PendingOrder>, fills: seq<Fill>, id: OrderId, cap: real) {
    Open(pending) && Ingested(fills, id) + Room(pending, id) <= cap
  }

  lemma CancelKeepsCovered(v: VenueState, fills: seq<Fill>, id: OrderId, cap: real, cancelled: OrderId)
    requires Covered(v.pending, fills, id, cap)
    ensures Covered(Cancelling(v, cancelled).0.pending, fills, id, cap)
  {
    var i := IndexOf(v.pending, cancelled);
    if i < |v.pending| {
      RoomWithout(v.pending, i, id);
    }
  }

  lemma RegisterCovers(v: VenueState, m: Models, now: Timestamp, o: Order, fills: seq<Fill>, id: OrderId, cap: real)
    requires Covered(v.pending, fills, id, cap)
    ensures var (venue, r) := Accepting(v, m, now, o);
            Covered(venue.pending, fills, id, if r.Ok? && o.id == id then cap + o.quantity + TOLERANCE else cap)
  {
    hide Ingested;
  }

  lemma IngestedOneMore(fills: seq<Fill>, f: Fill, id: OrderId)
    ensures Ingested(fills + [f], id) == Ingested(fills, id) + if f.orderId == id then f.quantity else 0.0
  {
  }

  lemma IngestKeepsCovered(v: VenueState, report: ExternalFillReport, fills: seq<Fill>, id: OrderId, cap: real)
    requires Covered(v.pending, fills, id, cap)
    ensures var (venue, r) := Ingesting(v, report);
            Covered(venue.pending, if r.Ok? then fills + [r.value] else fills, id, cap)
  {
    hide Room, Ingested, ChainOk;
    var (venue, r) := Ingesting(v, report);
    if r.Ok? {
      var i := IndexOf(v.pending, report.orderId);
      var p := v.pending[i];
      var q := p.(filled := p.filled + report.quantity);
      IngestedOneMore(fills, r.value, id);
      RoomWithout(v.pending, i, id);
      RoomChanged(v.pending, i, q, id);
    }
  }

  lemma HandleKeepsCovered(s: LiveState, cfg: LiveConfig, m: C.Message, now: Timestamp, fills: seq<Fill>, id: OrderId,
                           cap: real)
    requires Covered(s.venue.pending, fills, id, cap)
    ensures var (after, r) := Handling(s, cfg, m, now);
            Covered(after.venue.pending, if r.Ok? && r.value.Some? then fills + [r.value.value] else fills, id, cap)
  {
    hide Covered, Ingesting, Cancelling;
    var update := Interpreting(s.listener, m);
    if update.Ok? && update.value.Some? {
      CancelKeepsCovered(s.venue, fills, id, cap, update.value.value);
      IngestKeepsCovered(s.venue, ReportOf(m, update.value.value, now), fills, id, cap);
      var (after, r) := Handling(s, cfg, m, now);
      if m.kind == C.PartialFill || m.kind == C.FilledWhole {
        assert after.venue == Ingesting(s.venue, ReportOf(m, update.value.value, now)).0;
      } else {
        assert r == Ok(None);
      }
    }
  }

  lemma {:induction false} BatchKeepsCovered(s: LiveState, cfg: LiveConfig, ms: seq<C.Message>, now: Timestamp,
                                             fills: seq<Fill>, id: OrderId, cap: real)
    requires Covered(s.venue.pending, fills, id, cap)
    ensures var batch := HandlingAll(s, cfg, ms, now); Covered(batch.state.venue.pending, fills + batch.fills, id, cap)
  {
    hide Covered, Handling;
    if ms == [] {
      assert fills + [] == fills;
    } else {
      BatchKeepsCovered(s, cfg, ms[..|ms| - 1], now, fills, id, cap);
      var front := HandlingAll(s, cfg, ms[..|ms| - 1], now);
      if front.error.None? {
        HandleKeepsCovered(front.state, cfg, ms[|ms| - 1], now, fills + front.fills, id, cap);
        var r := Handling(front.state, cfg, ms[|ms| - 1], now).1;
        if r.Ok? && r.value.Some? {
          assert fills + front.fills + [r.value.value] == fills + (front.fills + [r.value.value]);
        }
      }
    }
  }

  /** What a submission leaves pending is covered by what was covered before and the order, if it was registered. */
  lemma SubmitCovers(h: History, u: Setup, e: LiveEvent, id: OrderId)
    requires e.SubmitOrder? && Covered(h.state.venue.pending, h.fills, id, Budget(h.orders, id))
    ensures var after := Stepping(h, u, e);
            Covered(after.state.venue.pending, after.fills, id, Budget(after.orders, id))
  {
    hide Covered, Accepting, Cancelling, Expressible, Budget, ClientId, Tracking;
    RegisterCovers(h.state.venue, u.models, e.now, e.order, h.fills, id, Budget(h.orders, id));
    var (venue, r) := Accepting(h.state.venue, u.models, e.now, e.order);
    if r.Ok? {
      BudgetOneMore(h.orders, e.order, id);
      CancelKeepsCovered(venue, h.fills, id, Budget(h.orders + [e.order], id), e.order.id);
    }
  }

  lemma BudgetOneMore(orders: seq<Order>, o: Order, id: OrderId)
    ensures Budget(orders + [o], id) == Budget(orders, id) + if o.id == id then o.quantity + TOLERANCE else 0.0
  {
  }

  /** Over every run with drops and reconnects, what was ingested for an id and what is pending of it are covered by
      all registrations of the id, whatever became of them. */
  lemma {:induction false} CoveredOverRuns(u: Setup, es: seq<LiveEvent>, id: OrderId)
    ensures var h := After(u, es); Covered(h.state.venue.pending, h.fills, id, Budget(h.orders, id))
  {
    if es != [] {
      hide Covered, HandlingAll, Submitting, Registers;
      var front, e := es[..|es| - 1], es[|es| - 1];
      CoveredOverRuns(u, front, id);
      var h := After(u, front);
      match e
      case SubmitOrder(now, o, accepts) => SubmitCovers(h, u, e, id);
      case PollVenue(now, isOpen, inbox) =>
        var (link, accepted) := C.Polls(h.state.link, isOpen, inbox, now);
        BatchKeepsCovered(h.state.(link := link), u.cfg, accepted, now, h.fills, id, Budget(h.orders, id));
      case OnLink(_) =>
    }
  }

  // ---------------------------------------------------------------------------
  // At most once
  // ---------------------------------------------------------------------------

  /** A batch ingests some of its messages. */
  lemma {:induction false} BatchUsesItsMessages(s: LiveState, cfg: LiveConfig, ms: seq<C.Message>, now: Timestamp)
    ensures var batch := HandlingAll(s, cfg, ms, now);
            |batch.from_| == |batch.fills| && forall m :: m in batch.from_ ==> m in ms
  {
    hide Handling;
    if ms != [] {
      var front := ms[..|ms| - 1];
      assert ms == front + [ms[|ms| - 1]];
      BatchUsesItsMessages(s, cfg, front, now);
    }
  }

  lemma ClimbOneMore(used: seq<C.Message>, ms: seq<C.Message>, m: C.Message, low: nat, high: nat)
    requires R.Climbing(ms + [m], low, high) && R.Climbing(used, low, high) && forall u :: u in used ==> u in ms
    ensures R.Climbing(used + [m], low, high)
  {
    var all := ms + [m];
    assert all[|ms|] == m;
    forall i | 0 <= i < |used| && used[i].sequence != 0 && m.sequence != 0
      ensures used[i].sequence < m.sequence
    {
      assert used[i] in used;
      var j :| 0 <= j < |ms| && ms[j] == used[i];
      assert all[j] == used[i];
    }
  }

  lemma ClimbPrefix(ms: seq<C.Message>, m: C.Message, low: nat, high: nat)
    requires R.Climbing(ms + [m], low, high)
    ensures R.Climbing(ms, low, high)
  {
    var all := ms + [m];
    forall i | 0 <= i < |ms|
      ensures all[i] == ms[i]
    {
    }
  }

  /** What a batch ingests keeps the order of its messages. */
  lemma {:induction false} BatchClimbs(s: LiveState, cfg: LiveConfig, ms: seq<C.Message>, now: Timestamp, low: nat,
                                       high: nat)
    requires R.Climbing(ms, low, high)
    ensures R.Climbing(HandlingAll(s, cfg, ms, now).from_, low, high)
  {
    hide Handling, R.Climbing;
    if ms != [] {
      var front, m := ms[..|ms| - 1], ms[|ms| - 1];
      assert ms == front + [m];
      ClimbPrefix(front, m, low, high);
      BatchClimbs(s, cfg, front, now, low, high);
      BatchUsesItsMessages(s, cfg, front, now);
      ClimbOneMore(HandlingAll(s, cfg, front, now).from_, front, m, low, high);
    } else {
      NothingClimbs(low, high);
    }
  }

  lemma NothingClimbs(low: nat, high: nat)
    ensures R.Climbing([], low, high)
  {
  }

  lemma {:induction false} BatchKeepsLink(s: LiveState, cfg: LiveConfig, ms: seq<C.Message>, now: Timestamp)
    ensures HandlingAll(s, cfg, ms, now).state.link == s.link
  {
    hide Handling;
    if ms != [] {
      BatchKeepsLink(s, cfg, ms[..|ms| - 1], now);
      HandleKeepsLink(HandlingAll(s, cfg, ms[..|ms| - 1], now).state, cfg, ms[|ms| - 1], now);
    }
  }

  lemma HandleKeepsLink(s: LiveState, cfg: LiveConfig, m: C.Message, now: Timestamp)
    ensures Handling(s, cfg, m, now).0.link == s.link
  {
    hide Ingesting, Cancelling, Interpreting;
  }

  /** One poll carries the climb on. */
  lemma PollClimbs(h: History, u: Setup, e: LiveEvent)
    requires e.PollVenue? && R.Climbing(h.from_, 0, h.state.link.lastSequence) && |h.from_| == |h.fills|
    ensures var t := Stepping(h, u, e);
            R.Climbing(t.from_, 0, t.state.link.lastSequence) && |t.from_| == |t.fills|
  {
    hide HandlingAll, R.Climbing, C.Draining, Accepting, Expressible, Cancelling;
    var (link, accepted) := C.Polls(h.state.link, e.isOpen, e.inbox, e.now);
    var start, low := h.state.(link := link), h.state.link.lastSequence;
    R.DrainClimbs(h.state.link, e.inbox, e.now);
    NothingClimbs(low, low);
    BatchUsesItsMessages(start, u.cfg, accepted, e.now);
    BatchClimbs(start, u.cfg, accepted, e.now, low, link.lastSequence);
    BatchKeepsLink(start, u.cfg, accepted, e.now);
    R.ClimbingJoin(h.from_, HandlingAll(start, u.cfg, accepted, e.now).from_, 0, low, link.lastSequence);
  }

  lemma {:induction false} IngestedClimb(u: Setup, es: seq<LiveEvent>)
    ensures var h := After(u, es);
            R.Climbing(h.from_, 0, h.state.link.lastSequence) && |h.from_| == |h.fills|
  {
    hide HandlingAll, Registers, R.Climbing, C.Draining, Accepting, Expressible, Cancelling;
    if es != [] {
      var front, e := es[..|es| - 1], es[|es| - 1];
      IngestedClimb(u, front);
      if e.PollVenue? {
        hide Stepping;
        PollClimbs(After(u, front), u, e);
      }
    } else {
      NothingClimbs(0, 0);
    }
  }

  /** Over every run with drops and reconnects, the sequenced messages whose fills were ingested carry strictly
      increasing sequence numbers, so each is ingested at most once. */
  lemma SequencedFillsIngestedOnce(u: Setup, es: seq<LiveEvent>, i: nat, j: nat)
    requires var used := After(u, es).from_;
             i < j < |used| && used[i].sequence != 0 && used[j].sequence != 0
    ensures After(u, es).from_[i].sequence < After(u, es).from_[j].sequence
    ensures |After(u, es).from_| == |After(u, es).fills|
  {
    IngestedClimb(u, es);
  }

  // ---------------------------------------------------------------------------
  // Attribution
  // ---------------------------------------------------------------------------

  /** Every tracked client id is the id of the order it stands for. */
  ghost predicate Attributed(cfg: LiveConfig, listener: map<string, OrderId>) {
    forall key :: key in listener ==> listener[key] != NO_ORDER && key == ClientId(cfg, listener[key])
  }

  lemma HandleKeepsAttributed(s: LiveState, cfg: LiveConfig, m: C.Message, now: Timestamp)
    requires Attributed(cfg, s.listener)
    ensures Attributed(cfg, Handling(s, cfg, m, now).0.listener)
  {
    hide Ingesting, Cancelling, ClientId;
  }

  lemma {:induction false} BatchKeepsAttributed(s: LiveState, cfg: LiveConfig, ms: seq<C.Message>, now: Timestamp)
    requires Attributed(cfg, s.listener)
    ensures Attributed(cfg, HandlingAll(s, cfg, ms, now).state.listener)
  {
    hide Handling, Attributed;
    if ms != [] {
      BatchKeepsAttributed(s, cfg, ms[..|ms| - 1], now);
      HandleKeepsAttributed(HandlingAll(s, cfg, ms[..|ms| - 1], now).state, cfg, ms[|ms| - 1], now);
    }
  }

  lemma TrackingSucceeds(cfg: LiveConfig, listener: map<string, OrderId>, id: OrderId)
    requires Attributed(cfg, listener) && id != NO_ORDER
    ensures Tracking(listener, ClientId(cfg, id), id) == Ok(listener[ClientId(cfg, id) := id])
  {
    var key := ClientId(cfg, id);
    DecimalLength(id);
    if key in listener {
      ClientIdsAreDistinct(cfg, listener[key], id);
      assert listener[key := id] == listener;
    }
  }

  lemma SubmitKeepsAttributed(s: LiveState, u: Setup, now: Timestamp, o: Order, accepts: bool)
    requires Attributed(u.cfg, s.listener)
    ensures Attributed(u.cfg, Submitting(s, u.cfg, u.models, now, o, accepts).0.listener)
  {
    TrackingSucceeds(u.cfg, s.listener, o.id);
    hide Accepting, Cancelling, Expressible, ClientId, Tracking;
  }

  lemma {:induction false} AttributedOverRuns(u: Setup, es: seq<LiveEvent>)
    ensures Attributed(u.cfg, After(u, es).state.listener)
  {
    if es != [] {
      hide Attributed, HandlingAll, Submitting, Registers, C.Draining;
      var front, e := es[..|es| - 1], es[|es| - 1];
      AttributedOverRuns(u, front);
      var s := After(u, front).state;
      match e
      case SubmitOrder(now, o, accepts) => SubmitKeepsAttributed(s, u, now, o, accepts);
      case PollVenue(now, isOpen, inbox) =>
        var (link, accepted) := C.Polls(s.link, isOpen, inbox, now);
        BatchKeepsAttributed(s.(link := link), u.cfg, accepted, now);
      case OnLink(_) =>
    }
  }

  /** In every reachable state the listener takes a submitted order: the refusals that would leave an order registered
      with the simulator but unknown to the listener cannot occur. */
  lemma TrackingNeverRefuses(u: Setup, es: seq<LiveEvent>, now: Timestamp, o: Order, accepts: bool)
    ensures var r := Submitting(After(u, es).state, u.cfg, u.models, now, o, accepts).1;
            r.Err? ==> r.error != EmptyClientId && r.error != BadOrderId && r.error != ClientIdTaken
  {
    hide After, Accepting, Cancelling, Expressible, ClientId, Tracking;
    AttributedOverRuns(u, es);
    TrackingSucceeds(u.cfg, After(u, es).state.listener, o.id);
  }

  /** The pending order that an accepted registration adds. */
  function Registered(v: VenueState, m: Models, now: Timestamp, o: Order): (p: PendingOrder)
    requires Accepting(v, m, now, o).1.Ok?
    ensures p.order == o.(times := p.order.times) && p.order.times == o.times.(arrival := p.arrivalTime)
            && p.filled == 0.0
    ensures Accepting(v, m, now, o).0.pending == v.pending + [p]
  {
    Accepting(v, m, now, o).0.pending[|v.pending|]
  }

  /** What registering an order and cancelling its id leaves: the book as it was when the id was not pending, and
      otherwise the new order in place of the one that was. */
  lemma RegisterThenCancel(v: VenueState, m: Models, now: Timestamp, o: Order)
    requires Accepting(v, m, now, o).1.Ok?
    ensures var i := IndexOf(v.pending, o.id);
            Cancelling(Accepting(v, m, now, o).0, o.id).0.pending
            == if i == |v.pending| then v.pending
               else v.pending[..i] + v.pending[i + 1..] + [Registered(v, m, now, o)]
  {
    var venue, p := Accepting(v, m, now, o).0, Registered(v, m, now, o);
    var i := IndexOf(v.pending, o.id);
    FirstIsFound(v.pending, p, o.id);
    hide IndexOf, Accepting, Registered;
    if i == |v.pending| {
      assert venue.pending[..i] + venue.pending[i + 1..] == v.pending;
    } else {
      assert venue.pending[..i] + venue.pending[i + 1..] == v.pending[..i] + v.pending[i + 1..] + [p];
    }
  }

  lemma {:induction false} FirstIsFound(ps: seq<PendingOrder>, p: PendingOrder, id: OrderId)
    requires p.order.id == id
    ensures IndexOf(ps + [p], id) == IndexOf(ps, id)
  {
    if ps != [] {
      assert (ps + [p])[0] == ps[0] && (ps + [p])[1..] == ps[1..] + [p];
      FirstIsFound(ps[1..], p, id);
    }
  }

  /** A submission that is refused leaves the working orders alone, and leaves the simulator and the listener alone too
      unless the transport failed. Then the id is no longer listened for; and if it was pending, the order that was
      pending is gone and the refused one is pending instead. */
  lemma RefusedSubmitLeaves(u: Setup, es: seq<LiveEvent>, now: Timestamp, o: Order, accepts: bool)
    ensures var s := After(u, es).state;
            var (after, r) := Submitting(s, u.cfg, u.models, now, o, accepts);
            var i := IndexOf(s.venue.pending, o.id);
            && (r.Err? ==> after.working == s.working)
            && (r.Err? && r.error != SendFailed ==>
                  after.venue.pending == s.venue.pending && after.listener == s.listener)
            && (r == Err(SendFailed) ==>
                  && after.listener == s.listener - {ClientId(u.cfg, o.id)}
                  && Accepting(s.venue, u.models, now, o).1.Ok?
                  && after.venue.pending
                     == if i == |s.venue.pending| then s.venue.pending
                        else s.venue.pending[..i] + s.venue.pending[i + 1..] + [Registered(s.venue, u.models, now, o)])
  {
    hide After, Cancelling, Expressible, ClientId, Tracking, IndexOf, Registered, Accepting;
    var s := After(u, es).state;
    AttributedOverRuns(u, es);
    TrackingSucceeds(u.cfg, s.listener, o.id);
    hide Attributed;
    RefusedIsUnregistered(s.venue, u.models, now, o);
    if Accepting(s.venue, u.models, now, o).1.Ok? {
      RegisterThenCancel(s.venue, u.models, now, o);
    }
    TrackedKeyIsDropped(s.listener, ClientId(u.cfg, o.id), o.id);
  }

  lemma TrackedKeyIsDropped(listener: map<string, OrderId>, key: string, id: OrderId)
    ensures listener[key := id] - {key} == listener - {key}
  {
  }

  lemma RefusedIsUnregistered(v: VenueState, m: Models, now: Timestamp, o: Order)
    ensures var (venue, r) := Accepting(v, m, now, o); r.Err? ==> venue.pending == v.pending
  {
  }
}
