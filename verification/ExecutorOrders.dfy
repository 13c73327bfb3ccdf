/** What the executor hands to the sink, and when it counts a parent as done. */
module ExecutorOrders {
  import opened Types
  import opened TimeChain
  import opened Orders
  import opened Algorithms
  import opened Executors

  // ---------------------------------------------------------------------------
  // The order that is sent
  // ---------------------------------------------------------------------------

  /** The child as an order: decided now, for its parent, with the parent's arrival price, and no stop. */
  function Sent(p: Plan, c: ChildOrder, id: OrderId, now: Timestamp): OrderData {
    var never := -0x8000_0000_0000_0000;
    OrderData(id, p.parentId, c.instrument, c.side, c.quantity, c.orderType, c.tif, c.limit, None,
              LifecycleTimes(never, never, never, now, never, never, never, never), p.arrivalPrice)
  }

  /** What a child must be to be sent: for something, of a real instrument, and at the market without a limit or at a
      positive one. */
  predicate Proper(c: ChildOrder) {
    && c.quantity > 0.0 && c.instrument != 0xFFFF_FFFF
    && match c.orderType
       case Market => c.limit == None
       case Limit => c.limit.Some? && c.limit.value > 0.0
       case _ => false
  }

  lemma ProperIsValid(c: ChildOrder)
    ensures Proper(c) <==> c.Valid()
  {
  }

  /** A proper child makes a well-formed order once the clock is set and ids are drawn. */
  lemma SentIsValidIff(p: Plan, c: ChildOrder, id: OrderId, now: Timestamp)
    requires Proper(c)
    ensures Sent(p, c, id, now).Valid() <==> id != NO_ORDER && IsSet(now)
  {
  }

  /** A plan is still worked: it is of the instrument, unfinished, and has no child out. */
  predicate Idle(p: Plan, i: InstrumentId) {
    && p.state != Completed && p.state != ExecutionState.Cancelled && p.state != ExecutionState.Expired
    && p.request.parent.instrument == i && p.working.None?
    && p.request.parent.quantity - p.progress.filled > 0.000000001
  }

  /** At a market event a plan sends exactly when it is idle, its algorithm asks for a proper child, and the sink
      approves just the order that the child makes. Then that child is its one working child, live with its quantity. */
  lemma SendsIff(a: Algorithm, p: Plan, i: InstrumentId, ctx: Context, sink: SinkState, approves: OrderData -> bool)
    ensures var v, c := Visiting(a, p, i, ctx, sink, approves), NextChild(a, p.request, p.schedule, p.progress, ctx);
            && (v.sent <==>
                  && Idle(p, i) && c.Some? && Proper(c.value) && sink.next != 0 && IsSet(ctx.now)
                  && approves(Sent(p, c.value, sink.next, ctx.now)))
            && (v.sent ==>
                  && v.plan.working == Some(sink.next) && v.plan.children == p.children + [sink.next]
                  && v.plan.state == ExecutionState.Working
                  && v.plan.progress == p.progress.(released := p.progress.released + 1)
                  && v.sink == SinkState(sink.next + 1, sink.live[sink.next := c.value.quantity]))
  {
    hide NextChild, ChildOrder.Valid, OrderData.Valid, Proper;
    var c := NextChild(a, p.request, p.schedule, p.progress, ctx);
    if c.Some? {
      ProperIsValid(c.value);
      if Proper(c.value) {
        SentIsOrderFor(p, c.value, sink.next, ctx.now);
        SentIsValidIff(p, c.value, sink.next, ctx.now);
      }
    }
  }

  lemma SentIsOrderFor(p: Plan, c: ChildOrder, id: OrderId, now: Timestamp)
    ensures Sent(p, c, id, now) == OrderFor(p, c, id, now)
  {
  }

  // ---------------------------------------------------------------------------
  // The end of a parent
  // ---------------------------------------------------------------------------

  /** A fill goes to the parent it names, whoever sent the order. It adds to what is filled, and it completes the parent
      exactly when no more than a billionth of a share is left; the parent is then finished at the fill's time. */
  lemma FillGoesToItsParent(e: ExecutorState, f: Fill, k: nat)
    requires k < |e.plans| && e.plans[k].parentId == f.parentId != NO_ORDER && f.quantity > 0.0
    requires forall j :: 0 <= j < k ==> e.plans[j].parentId != f.parentId
    ensures var (after, r) := OnFilling(e, f);
            && r.Ok? && |after.plans| == |e.plans| && after.parentOf == e.parentOf
            && (forall j :: 0 <= j < |e.plans| && j != k ==> after.plans[j] == e.plans[j])
            && var p, q := e.plans[k], after.plans[k];
               var left := p.request.parent.quantity - p.progress.filled - f.quantity;
               && q.progress.filled == p.progress.filled + f.quantity
               && q.progress.remaining == (if left > 0.0 then left else 0.0)
               && q.progress.notional - p.progress.notional == f.price * f.quantity
               && q.progress.costs - p.progress.costs == f.commission + f.exchangeFee
               && q.working == (if p.working == Some(f.orderId) then None else p.working)
               && (left <= 0.000000001 ==> q.state == ExecutionState.Completed && q.finished == f.times.fill)
               && (left > 0.000000001 ==> q.state == p.state && q.finished == p.finished)
  {
  }

  /** The plans that are over by now, because their window has closed. */
  predicate Over(p: Plan, now: Timestamp) {
    && p.state != Completed && p.state != ExecutionState.Cancelled && p.state != ExecutionState.Expired
    && p.request.windowEnd <= now
  }

  predicate WorkedBy(plans: seq<Plan>, now: Timestamp, child: OrderId) {
    exists k :: 0 <= k < |plans| && Over(plans[k], now) && plans[k].working == Some(child)
  }

  /** Expiry ends exactly the unfinished plans whose window has closed, now, without a child, and takes exactly their
      children back. */
  lemma {:induction false} ExpiryIs(plans: seq<Plan>, sink: SinkState, now: Timestamp)
    ensures var (after, s) := Expiring(plans, sink, now);
            && |after| == |plans|
            && (forall k :: 0 <= k < |plans| ==>
                  after[k] == if Over(plans[k], now)
                              then plans[k].(working := None, state := ExecutionState.Expired, finished := now)
                              else plans[k])
            && s.next == sink.next
            && (forall id :: id in s.live <==> id in sink.live && !WorkedBy(plans, now, id))
            && (forall id :: id in s.live ==> s.live[id] == sink.live[id])
  {
    if plans != [] {
      var front, p := plans[..|plans| - 1], plans[|plans| - 1];
      ExpiryIs(front, sink, now);
      forall id: OrderId
        ensures WorkedBy(plans, now, id) <==> WorkedBy(front, now, id) || (Over(p, now) && p.working == Some(id))
      {
        WorkedByOneMore(plans, now, id);
      }
      hide WorkedBy;
    }
  }

  lemma WorkedByOneMore(plans: seq<Plan>, now: Timestamp, id: OrderId)
    requires plans != []
    ensures var front, p := plans[..|plans| - 1], plans[|plans| - 1];
            WorkedBy(plans, now, id) <==> WorkedBy(front, now, id) || (Over(p, now) && p.working == Some(id))
  {
    hide Over;
    var front, n := plans[..|plans| - 1], |plans| - 1;
    if WorkedBy(front, now, id) {
      var k :| 0 <= k < |front| && Over(front[k], now) && front[k].working == Some(id);
      assert plans[k] == front[k];
    }
    if WorkedBy(plans, now, id) {
      var k :| 0 <= k < |plans| && Over(plans[k], now) && plans[k].working == Some(id);
      assert k < n ==> plans[k] == front[k];
    }
  }
}
