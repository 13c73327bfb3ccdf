/** Working parent orders: each live plan sends at most one child at a time through the order sink. */
module Executors {
  import opened Types
  import opened TimeChain
  import opened Orders
  import opened Schedules
  import opened Algorithms

  datatype ExecutionState = Pending | Working | Completed | Cancelled | Expired

  predicate IsFinal(s: ExecutionState) {
    s == Completed || s == Cancelled || s == Expired
  }

  datatype Plan = Plan(
    parentId: OrderId, request: Request, schedule: Schedule, progress: Progress, state: ExecutionState,
    finished: Timestamp, arrivalPrice: real, children: seq<OrderId>, working: Option<OrderId>)
  {
    function Quantity(): real { request.parent.quantity }
  }

  /** Plans in ascending order of parent id, as the ordered map iterates them. */
  datatype ExecutorState = ExecutorState(plans: seq<Plan>, parentOf: map<OrderId, OrderId>)

  /** The far side of the sink: the next id and what each accepted child may still fill. */
  datatype SinkState = SinkState(next: OrderId, live: map<OrderId, real>)

  datatype ExecutorError =
    | NoParentId | Duplicate | CannotPlan | UnknownChild | UnknownParent | NoQuantity | AlreadyFinal

  // ---------------------------------------------------------------------------
  // Transitions
  // ---------------------------------------------------------------------------

  function IndexOfPlan(ps: seq<Plan>, id: OrderId): (i: nat)
    ensures i <= |ps| && (i < |ps| ==> ps[i].parentId == id)
    ensures forall k :: 0 <= k < i ==> ps[k].parentId != id
  {
    if ps == [] then 0
    else if ps[0].parentId == id then 0
    else
      assert ps == [ps[0]] + ps[1..];
      1 + IndexOfPlan(ps[1..], id)
  }

  /** Where a new parent id belongs. */
  function PlaceFor(ps: seq<Plan>, id: OrderId): (i: nat)
    ensures i <= |ps| && (i < |ps| ==> id < ps[i].parentId)
    ensures forall k :: 0 <= k < i ==> ps[k].parentId <= id
  {
    if ps == [] || id < ps[0].parentId then 0
    else
      assert ps == [ps[0]] + ps[1..];
      1 + PlaceFor(ps[1..], id)
  }

  function NewPlan(r: Request, s: Schedule, id: OrderId, arrivalPrice: real): Plan {
    Plan(id, r, s, Progress(0.0, r.parent.quantity, 0.0, 0.0, 0, 0), Pending, NO_TIMESTAMP, arrivalPrice, [], None)
  }

  function Admitting(e: ExecutorState, p: Plan): ExecutorState {
    var i := PlaceFor(e.plans, p.parentId);
    e.(plans := e.plans[..i] + [p] + e.plans[i..])
  }

  /** The child as an order decided now, on behalf of the parent. */
  function OrderFor(p: Plan, c: ChildOrder, id: OrderId, now: Timestamp): OrderData {
    OrderData(id, p.parentId, c.instrument, c.side, c.quantity, c.orderType, c.tif, c.limit, None,
              NO_TIMES.(decision := now), p.arrivalPrice)
  }

  datatype Visited = Visited(plan: Plan, sink: SinkState, sent: bool)

  /** One plan's turn at a market event. */
  function Visiting(a: Algorithm, p: Plan, i: InstrumentId, ctx: Context, sink: SinkState,
                    approves: OrderData -> bool): Visited
  {
    if IsFinal(p.state) || p.request.parent.instrument != i then Visited(p, sink, false)
    else if p.progress.Complete(p.Quantity()) then Visited(p.(state := Completed, finished := ctx.now), sink, false)
    else if p.working.Some? then Visited(p, sink, false)
    else
      match NextChild(a, p.request, p.schedule, p.progress, ctx)
      case None => Visited(p, sink, false)
      case Some(c) => Emitting(p, c, ctx.now, sink, approves)
  }

  /** An ill-formed child is refused. Then the id is drawn, and the order must be well formed and pass the sink. */
  function Emitting(p: Plan, c: ChildOrder, now: Timestamp, sink: SinkState, approves: OrderData -> bool): Visited {
    var id := sink.next;
    var drawn := sink.(next := id + 1);
    var order := OrderFor(p, c, id, now);
    if !c.Valid() then Visited(p, sink, false)
    else if order.Valid() && approves(order) then
      Visited(p.(children := p.children + [id], working := Some(id), state := Working,
                 progress := p.progress.(released := p.progress.released + 1)),
              drawn.(live := drawn.live[id := c.quantity]), true)
    else Visited(p, drawn, false)
  }

  datatype Swept = Swept(plans: seq<Plan>, parentOf: map<OrderId, OrderId>, sink: SinkState, emitted: nat)

  /** Every plan's turn, in order. */
  function Sweeping(a: Algorithm, plans: seq<Plan>, parentOf: map<OrderId, OrderId>, i: InstrumentId, ctx: Context,
                    sink: SinkState, approves: OrderData -> bool): Swept {
    if plans == [] then Swept([], parentOf, sink, 0)
    else
      var front := Sweeping(a, plans[..|plans| - 1], parentOf, i, ctx, sink, approves);
      var p := plans[|plans| - 1];
      var v := Visiting(a, p, i, ctx, front.sink, approves);
      Swept(front.plans + [v.plan],
            if v.sent then front.parentOf[front.sink.next := p.parentId] else front.parentOf,
            v.sink, front.emitted + if v.sent then 1 else 0)
  }

  /** One plan absorbs a fill; any fill of the working child releases it, a partial one too. */
  function Absorbing(p: Plan, f: Fill): Plan {
    var filled := p.progress.filled + f.quantity;
    var progress := p.progress.(
      filled := filled, remaining := Max(0.0, p.Quantity() - filled),
      notional := p.progress.notional + f.price * f.quantity, costs := p.progress.costs + f.TotalCost(),
      slicesFilled := p.progress.slicesFilled + 1);
    var q := p.(progress := progress, working := if p.working == Some(f.orderId) then None else p.working);
    if progress.Complete(p.Quantity()) then q.(state := Completed, finished := f.times.fill) else q
  }

  /** The parent a fill is attributed to: its own parent id when it carries one, else the child's. */
  function ParentOf(e: ExecutorState, f: Fill): Option<OrderId> {
    if f.parentId != NO_ORDER then Some(f.parentId)
    else if f.orderId in e.parentOf then Some(e.parentOf[f.orderId])
    else None
  }

  function OnFilling(e: ExecutorState, f: Fill): (ExecutorState, Result<bool, ExecutorError>) {
    match ParentOf(e, f)
    case None => (e, Err(UnknownChild))
    case Some(key) =>
      var i := IndexOfPlan(e.plans, key);
      if i == |e.plans| then (e, Err(UnknownParent))
      else if f.quantity <= 0.0 then (e, Err(NoQuantity))
      else (e.(plans := e.plans[i := Absorbing(e.plans[i], f)]), Ok(true))
  }

  function WithoutChild(sink: SinkState, child: Option<OrderId>): SinkState {
    if child.Some? then sink.(live := sink.live - {child.value}) else sink
  }

  function Abandoning(e: ExecutorState, sink: SinkState, id: OrderId)
    : (ExecutorState, SinkState, Result<bool, ExecutorError>)
  {
    var i := IndexOfPlan(e.plans, id);
    if i == |e.plans| then (e, sink, Err(UnknownParent))
    else if IsFinal(e.plans[i].state) then (e, sink, Err(AlreadyFinal))
    else
      (e.(plans := e.plans[i := e.plans[i].(working := None, state := Cancelled)]),
       WithoutChild(sink, e.plans[i].working), Ok(true))
  }

  predicate Stale(p: Plan, now: Timestamp) {
    !IsFinal(p.state) && now >= p.request.windowEnd
  }

  /** Stale plans give up their child and what is outstanding. */
  function Expiring(plans: seq<Plan>, sink: SinkState, now: Timestamp): (seq<Plan>, SinkState) {
    if plans == [] then ([], sink)
    else
      var (front, s) := Expiring(plans[..|plans| - 1], sink, now);
      var p := plans[|plans| - 1];
      if Stale(p, now) then
        (front + [p.(working := None, state := Expired, finished := now)], WithoutChild(s, p.working))
      else (front + [p], s)
  }

  // ---------------------------------------------------------------------------
  // The objects
  // ---------------------------------------------------------------------------

  /** The order sink as the executor sees it: it hands out ids and accepts, refuses and cancels children. */
  class OrderSink {
    var next: OrderId
    var live: map<OrderId, real>
    const approves: OrderData -> bool

    function State(): SinkState
      reads this
    {
      SinkState(next, live)
    }

    constructor (approves: OrderData -> bool)
      ensures State() == SinkState(1, map[]) && this.approves == approves
    {
      this.next, this.live, this.approves := 1, map[], approves;
    }

    method NextOrderId() returns (id: OrderId)
      modifies this
      ensures id == old(next) && State() == old(State()).(next := id + 1)
    {
      id := next;
      next := next + 1;
    }

    method Submit(o: Order) returns (accepted: bool)
      modifies this
      ensures accepted == approves(o)
      ensures State() == if accepted then old(State()).(live := old(live)[o.id := o.quantity]) else old(State())
    {
      accepted := approves(o);
      if accepted { live := live[o.id := o.quantity]; }
    }

    method Cancel(id: OrderId)
      modifies this
      ensures State() == WithoutChild(old(State()), Some(id))
    {
      live := live - {id};
    }
  }

  class Executor {
    const algorithm: Algorithm
    var plans: seq<Plan>
    var parentOf: map<OrderId, OrderId>

    function State(): ExecutorState
      reads this
    {
      ExecutorState(plans, parentOf)
    }

    constructor (algorithm: Algorithm)
      ensures State() == ExecutorState([], map[]) && this.algorithm == algorithm
    {
      this.algorithm, plans, parentOf := algorithm, [], map[];
    }

    /** Begins working a parent; the parent itself is never sent. */
    method Submit(r: Request, id: OrderId, arrivalPrice: real) returns (result: Result<bool, ExecutorError>)
      modifies this
      ensures result.Ok?
              <==> id != NO_ORDER && (forall p :: p in old(plans) ==> p.parentId != id) && CanPlan(algorithm, r)
      ensures result.Err? ==> State() == old(State())
      ensures result.Ok? ==> exists s ::
                && IsSchedule(s, r.parent.quantity, r.windowBegin, r.windowEnd)
                && State() == Admitting(old(State()), NewPlan(r, s, id, arrivalPrice))
    {
      if id == NO_ORDER { return Err(NoParentId); }
      var at := IndexOfPlan(plans, id);
      if at < |plans| {
        assert plans[at] in plans;
        return Err(Duplicate);
      }
      var s := PlanSchedule(algorithm, r);
      if s.Err? { return Err(CannotPlan); }
      var i := PlaceFor(plans, id);
      plans := plans[..i] + [NewPlan(r, s.value, id, arrivalPrice)] + plans[i..];
      return Ok(true);
    }

    /** Sends one child of a plan. */
    method EmitChild(p: Plan, c: ChildOrder, now: Timestamp, sink: OrderSink) returns (r: Plan, sent: bool)
      modifies sink
      ensures Visited(r, sink.State(), sent) == Emitting(p, c, now, old(sink.State()), sink.approves)
      ensures sent ==> r.working == Some(old(sink.next))
    {
      r, sent := p, false;
      if !c.Valid() { return; }
      var id := sink.NextOrderId();
      var order := OrderFor(p, c, id, now);
      if order.Valid() {
        sent := sink.Submit(order);
        if sent {
          r := p.(children := p.children + [id], working := Some(id), state := Working,
                  progress := p.progress.(released := p.progress.released + 1));
        }
      }
    }

    /** One plan's turn: it completes, waits, or sends what its algorithm asks for. */
    method Visit(p: Plan, i: InstrumentId, ctx: Context, sink: OrderSink) returns (r: Plan, sent: bool)
      modifies sink
      ensures Visited(r, sink.State(), sent) == Visiting(algorithm, p, i, ctx, old(sink.State()), sink.approves)
      ensures sent ==> r.working == Some(old(sink.next))
    {
      hide NextChild, Emitting;
      r, sent := p, false;
      if IsFinal(p.state) || p.request.parent.instrument != i { return; }
      if p.progress.Complete(p.Quantity()) {
        r := p.(state := Completed, finished := ctx.now);
      } else if p.working.None? {
        var c := NextChild(algorithm, p.request, p.schedule, p.progress, ctx);
        if c.Some? {
          r, sent := EmitChild(p, c.value, ctx.now, sink);
        }
      }
    }

    /** Advances every live plan of the instrument and emits the children that are due. */
    method OnMarket(i: InstrumentId, ctx: Context, sink: OrderSink) returns (emitted: nat)
      modifies this, sink
      ensures Swept(plans, parentOf, sink.State(), emitted)
              == Sweeping(algorithm, old(plans), old(parentOf), i, ctx, old(sink.State()), sink.approves)
    {
      hide Visiting;
      emitted := 0;
      ghost var all := plans;
      var k := 0;
      while k < |plans|
        invariant 0 <= k <= |plans| == |all| && plans[k..] == all[k..]
        invariant Swept(plans[..k], parentOf, sink.State(), emitted)
                  == Sweeping(algorithm, all[..k], old(parentOf), i, ctx, old(sink.State()), sink.approves)
      {
        assert plans[k] == plans[k..][0] == all[k];
        assert all[..k + 1][..k] == all[..k];
        var p, sent := Visit(plans[k], i, ctx, sink);
        if sent {
          parentOf := parentOf[p.working.value := plans[k].parentId];
          emitted := emitted + 1;
        }
        ghost var before := plans;
        plans := plans[k := p];
        assert plans[..k + 1] == before[..k] + [p];
        assert plans[k + 1..] == before[k..][1..] == all[k..][1..] == all[k + 1..];
        k := k + 1;
      }
      assert plans[..k] == plans && all[..k] == all;
    }

    /** Attributes a fill to its parent. */
    method OnFill(f: Fill) returns (r: Result<bool, ExecutorError>)
      modifies this
      ensures (State(), r) == OnFilling(old(State()), f)
    {
      var key := f.parentId;
      if key == NO_ORDER {
        if f.orderId !in parentOf { return Err(UnknownChild); }
        key := parentOf[f.orderId];
      }
      var i := IndexOfPlan(plans, key);
      if i == |plans| { return Err(UnknownParent); }
      if f.quantity <= 0.0 { return Err(NoQuantity); }
      var p := plans[i];
      var filled := p.progress.filled + f.quantity;
      p := p.(progress := p.progress.(filled := filled, remaining := Max(0.0, p.Quantity() - filled)));
      p := p.(progress := p.progress.(notional := p.progress.notional + f.price * f.quantity,
                                      costs := p.progress.costs + f.TotalCost(),
                                      slicesFilled := p.progress.slicesFilled + 1));
      if p.working == Some(f.orderId) { p := p.(working := None); }
      if p.progress.Complete(p.Quantity()) { p := p.(state := Completed, finished := f.times.fill); }
      assert p == Absorbing(plans[i], f);
      plans := plans[i := p];
      return Ok(true);
    }

    /** Cancels the resting child first and then the execution. */
    method Cancel(id: OrderId, sink: OrderSink) returns (r: Result<bool, ExecutorError>)
      modifies this, sink
      ensures (State(), sink.State(), r) == Abandoning(old(State()), old(sink.State()), id)
    {
      var i := IndexOfPlan(plans, id);
      if i == |plans| { return Err(UnknownParent); }
      if IsFinal(plans[i].state) { return Err(AlreadyFinal); }
      if plans[i].working.Some? {
        sink.Cancel(plans[i].working.value);
        plans := plans[i := plans[i].(working := None)];
      }
      plans := plans[i := plans[i].(state := Cancelled)];
      assert plans == old(plans)[i := old(plans)[i].(working := None, state := Cancelled)];
      return Ok(true);
    }

    /** Expires the plans whose window has closed. */
    method ExpireStale(now: Timestamp, sink: OrderSink)
      modifies this, sink
      ensures (plans, sink.State()) == Expiring(old(plans), old(sink.State()), now)
      ensures parentOf == old(parentOf)
    {
      ghost var all := plans;
      var k := 0;
      while k < |plans|
        invariant 0 <= k <= |plans| == |all| && plans[k..] == all[k..] && parentOf == old(parentOf)
        invariant (plans[..k], sink.State()) == Expiring(all[..k], old(sink.State()), now)
      {
        var p := plans[k];
        assert p == plans[k..][0] == all[k];
        assert all[..k + 1][..k] == all[..k];
        if Stale(p, now) {
          if p.working.Some? { sink.Cancel(p.working.value); }
          p := p.(working := None, state := Expired, finished := now);
        }
        ghost var before := plans;
        plans := plans[k := p];
        assert plans[..k + 1] == before[..k] + [p];
        assert plans[k + 1..] == before[k..][1..] == all[k..][1..] == all[k + 1..];
        k := k + 1;
      }
      assert plans[..k] == plans && all[..k] == all;
    }
  }
}
