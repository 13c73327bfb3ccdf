/** When a parent can be overfilled: what is filled and what all of its children may still fill, over every run. */
module ExecutorOverfills {
  import opened Types
  import opened TimeChain
  import opened Orders
  import opened Schedules
  import opened Algorithms
  import opened Executors
  import opened ExecutorRuns
  import opened Sums

  // ---------------------------------------------------------------------------
  // What is committed to a parent
  // ---------------------------------------------------------------------------

  function FilledOf(ps: seq<Plan>, id: OrderId): real {
    var i := IndexOfPlan(ps, id);
    if i < |ps| then ps[i].progress.filled else 0.0
  }

  function QuantityOf(ps: seq<Plan>, id: OrderId): real {
    var i := IndexOfPlan(ps, id);
    if i < |ps| then ps[i].Quantity() else 0.0
  }

  function LiveTerm(parentOf: map<OrderId, OrderId>, live: map<OrderId, real>, id: OrderId, c: OrderId): real {
    if c in live && c in parentOf && parentOf[c] == id then live[c] else 0.0
  }

  ghost function LiveTerms(parentOf: map<OrderId, OrderId>, live: map<OrderId, real>, id: OrderId): nat -> real {
    (c: nat) => LiveTerm(parentOf, live, id, c)
  }

  /** What all live children of a parent may still fill, whether the plan still knows them or not. */
  ghost function LiveOf(parentOf: map<OrderId, OrderId>, live: map<OrderId, real>, id: OrderId): real {
    SumOver(live.Keys, LiveTerms(parentOf, live, id))
  }

  ghost function Committed(ps: seq<Plan>, parentOf: map<OrderId, OrderId>, live: map<OrderId, real>,
                           id: OrderId): real
  {
    FilledOf(ps, id) + LiveOf(parentOf, live, id)
  }

  ghost function CommittedIn(w: World, id: OrderId): real {
    Committed(w.executor.plans, w.executor.parentOf, w.sink.live, id)
  }

  /** More may be filled than the parent is for. */
  ghost predicate Overcommitted(w: World, id: OrderId) {
    CommittedIn(w, id) > QuantityOf(w.executor.plans, id)
  }

  predicate Overfilled(w: World, id: OrderId) {
    FilledOf(w.executor.plans, id) > QuantityOf(w.executor.plans, id)
  }

  /** The quantity sent for a parent at one market event. */
  function Sent(a: Algorithm, plans: seq<Plan>, parentOf: map<OrderId, OrderId>, i: InstrumentId, ctx: Context,
                sink: SinkState, approves: OrderData -> bool, id: OrderId): real
  {
    if plans == [] then 0.0
    else
      var front := plans[..|plans| - 1];
      var before := Sweeping(a, front, parentOf, i, ctx, sink, approves);
      var p := plans[|plans| - 1];
      var v := Visiting(a, p, i, ctx, before.sink, approves);
      Sent(a, front, parentOf, i, ctx, sink, approves, id) + SentBy(v, before.sink.next, p, id)
  }

  function SentBy(v: Visited, child: OrderId, p: Plan, id: OrderId): real {
    if v.sent && p.parentId == id && child in v.sink.live then v.sink.live[child] else 0.0
  }

  function SentIn(a: Algorithm, w: World, e: Event, id: OrderId): real {
    match e
    case MarketUpdate(i, ctx, approves) => Sent(a, w.executor.plans, w.executor.parentOf, i, ctx, w.sink, approves, id)
    case _ => 0.0
  }

  // ---------------------------------------------------------------------------
  // Live quantities
  // ---------------------------------------------------------------------------

  lemma LiveRemoved(parentOf: map<OrderId, OrderId>, live: map<OrderId, real>, id: OrderId, c: OrderId)
    ensures LiveOf(parentOf, live - {c}, id) == LiveOf(parentOf, live, id) - LiveTerm(parentOf, live, id, c)
  {
    var less := live - {c};
    if c in live {
      SumTakeOut(live.Keys, LiveTerms(parentOf, live, id), c);
      assert less.Keys == live.Keys - {c};
      SumCongruent(less.Keys, LiveTerms(parentOf, less, id), LiveTerms(parentOf, live, id));
    } else {
      assert less == live;
    }
  }

  lemma LiveReduced(parentOf: map<OrderId, OrderId>, live: map<OrderId, real>, id: OrderId, c: OrderId, x: real)
    requires c in live && c in parentOf
    ensures LiveOf(parentOf, live[c := x], id)
            == LiveOf(parentOf, live, id) - (if parentOf[c] == id then live[c] - x else 0.0)
  {
    SumChangeOne(live.Keys, LiveTerms(parentOf, live, id), LiveTerms(parentOf, live[c := x], id), c);
    assert live.Keys + {c} == live[c := x].Keys && live.Keys + {c} == live.Keys;
  }

  lemma LiveSent(parentOf: map<OrderId, OrderId>, live: map<OrderId, real>, id: OrderId, c: OrderId, owner: OrderId,
                 x: real)
    requires c !in live
    ensures LiveOf(parentOf[c := owner], live[c := x], id)
            == LiveOf(parentOf, live, id) + (if owner == id then x else 0.0)
  {
    SumChangeOne(live.Keys, LiveTerms(parentOf, live, id), LiveTerms(parentOf[c := owner], live[c := x], id), c);
    assert live.Keys + {c} == live[c := x].Keys;
  }

  lemma LiveIsNatural(parentOf: map<OrderId, OrderId>, live: map<OrderId, real>, id: OrderId)
    requires forall c :: c in live ==> live[c] > 0.0
    ensures LiveOf(parentOf, live, id) >= 0.0
  {
    SumIsNatural(live.Keys, LiveTerms(parentOf, live, id));
  }

  lemma NothingLive(parentOf: map<OrderId, OrderId>, live: map<OrderId, real>, id: OrderId)
    requires forall c :: c in live && c in parentOf ==> parentOf[c] != id
    ensures LiveOf(parentOf, live, id) == 0.0
  {
    SumZero(live.Keys, LiveTerms(parentOf, live, id));
  }

  // ---------------------------------------------------------------------------
  // What every possible run keeps
  // ---------------------------------------------------------------------------

  predicate PlanTidy(a: Algorithm, p: Plan) {
    && CanPlan(a, p.request) && p.progress.filled >= 0.0
    && p.progress.remaining == Max(0.0, p.Quantity() - p.progress.filled)
  }

  predicate ChildTidy(ps: seq<Plan>, parentOf: map<OrderId, OrderId>, sink: SinkState, c: OrderId) {
    && c in sink.live && sink.live[c] > 0.0 && c < sink.next
    && c in parentOf && IndexOfPlan(ps, parentOf[c]) < |ps|
  }

  /** Live children belong to plans; nothing is said of how much they may fill. */
  predicate Tidy(a: Algorithm, ps: seq<Plan>, parentOf: map<OrderId, OrderId>, sink: SinkState) {
    && Ascending(ps) && (forall i :: 0 <= i < |ps| ==> PlanTidy(a, ps[i]))
    && forall c :: c in sink.live ==> ChildTidy(ps, parentOf, sink, c)
  }

  predicate WorldTidy(a: Algorithm, w: World) {
    Tidy(a, w.executor.plans, w.executor.parentOf, w.sink)
  }

  /** A plan changes but keeps its id and its request. */
  lemma PlanReplaced(ps: seq<Plan>, j: nat, q: Plan, id: OrderId)
    requires Ascending(ps) && j < |ps| && q.parentId == ps[j].parentId && q.request == ps[j].request
    ensures IndexOfPlan(ps[j := q], id) == IndexOfPlan(ps, id)
    ensures QuantityOf(ps[j := q], id) == QuantityOf(ps, id)
    ensures FilledOf(ps[j := q], id)
            == FilledOf(ps, id) + if ps[j].parentId == id then q.progress.filled - ps[j].progress.filled else 0.0
    ensures Ascending(ps[j := q])
  {
    var i, k := IndexOfPlan(ps, id), IndexOfPlan(ps[j := q], id);
    var qs := ps[j := q];
    assert |qs| == |ps|;
    assert forall n :: 0 <= n < |ps| ==> qs[n].parentId == ps[n].parentId && qs[n].request == ps[n].request;
    assert i == k;
    IdsDistinct(ps);
  }

  lemma ReplaceKeepsTidy(a: Algorithm, ps: seq<Plan>, parentOf: map<OrderId, OrderId>, sink: SinkState, j: nat, q: Plan)
    requires Tidy(a, ps, parentOf, sink) && j < |ps| && q.parentId == ps[j].parentId && q.request == ps[j].request
    requires PlanTidy(a, q)
    ensures Tidy(a, ps[j := q], parentOf, sink)
  {
    hide PlanTidy, IndexOfPlan;
    PlanReplaced(ps, j, q, 0);
    forall c | c in sink.live
      ensures ChildTidy(ps[j := q], parentOf, sink, c)
    {
      assert ChildTidy(ps, parentOf, sink, c);
      PlanReplaced(ps, j, q, parentOf[c]);
    }
  }

  lemma DropKeepsTidy(a: Algorithm, ps: seq<Plan>, parentOf: map<OrderId, OrderId>, sink: SinkState,
                      child: Option<OrderId>)
    requires Tidy(a, ps, parentOf, sink)
    ensures Tidy(a, ps, parentOf, WithoutChild(sink, child))
  {
    hide PlanTidy, IndexOfPlan;
    forall c | c in WithoutChild(sink, child).live
      ensures ChildTidy(ps, parentOf, WithoutChild(sink, child), c)
    {
      assert ChildTidy(ps, parentOf, sink, c);
    }
  }

  /** Dropping a child commits no more. */
  lemma DropCommits(a: Algorithm, ps: seq<Plan>, parentOf: map<OrderId, OrderId>, sink: SinkState,
                    child: Option<OrderId>, id: OrderId)
    requires Tidy(a, ps, parentOf, sink)
    ensures Committed(ps, parentOf, WithoutChild(sink, child).live, id) <= Committed(ps, parentOf, sink.live, id)
  {
    hide PlanTidy, IndexOfPlan;
    if child.Some? {
      LiveRemoved(parentOf, sink.live, id, child.value);
      if child.value in sink.live {
        assert ChildTidy(ps, parentOf, sink, child.value);
      }
    }
  }

  // ---------------------------------------------------------------------------
  // A market event
  // ---------------------------------------------------------------------------

  lemma VisitCommits(a: Algorithm, ps: seq<Plan>, parentOf: map<OrderId, OrderId>, sink: SinkState, j: nat,
                     i: InstrumentId, ctx: Context, approves: OrderData -> bool, id: OrderId)
    requires Tidy(a, ps, parentOf, sink) && j < |ps|
    ensures var v := Visiting(a, ps[j], i, ctx, sink, approves);
            var owner := if v.sent then parentOf[sink.next := ps[j].parentId] else parentOf;
            && Tidy(a, ps[j := v.plan], owner, v.sink)
            && QuantityOf(ps[j := v.plan], id) == QuantityOf(ps, id)
            && Committed(ps[j := v.plan], owner, v.sink.live, id)
               == Committed(ps, parentOf, sink.live, id) + SentBy(v, sink.next, ps[j], id)
  {
    hide NextChild, Tidy, Committed, QuantityOf, IndexOfPlan, CanPlan, ChainOk, PlanTidy;
    var p := ps[j];
    var v := Visiting(a, p, i, ctx, sink, approves);
    PlanIsTidy(a, ps, parentOf, sink, j);
    if v.sent {
      var c := NextChild(a, p.request, p.schedule, p.progress, ctx).value;
      CanPlanOf(a, p);
      ChildFitsParent(a, p.request, p.schedule, p.progress, ctx);
      hide FitsParent;
      assert c.quantity > 0.0;
      SendCommits(a, ps, parentOf, sink, j, v.plan, c.quantity, id);
    } else {
      DrawKeepsTidy(a, ps, parentOf, sink, j, v.plan, v.sink.next, id);
    }
  }

  lemma PlanIsTidy(a: Algorithm, ps: seq<Plan>, parentOf: map<OrderId, OrderId>, sink: SinkState, j: nat)
    requires Tidy(a, ps, parentOf, sink) && j < |ps|
    ensures PlanTidy(a, ps[j])
  {
  }

  lemma CanPlanOf(a: Algorithm, p: Plan)
    requires PlanTidy(a, p)
    ensures CanPlan(a, p.request)
  {
  }

  lemma SendCommits(a: Algorithm, ps: seq<Plan>, parentOf: map<OrderId, OrderId>, sink: SinkState, j: nat, q: Plan,
                    size: real, id: OrderId)
    requires Tidy(a, ps, parentOf, sink) && j < |ps| && size > 0.0
    requires q.parentId == ps[j].parentId && q.request == ps[j].request
    requires q.progress.filled == ps[j].progress.filled && q.progress.remaining == ps[j].progress.remaining
    ensures var owner, live := parentOf[sink.next := q.parentId], sink.live[sink.next := size];
            && Tidy(a, ps[j := q], owner, SinkState(sink.next + 1, live))
            && QuantityOf(ps[j := q], id) == QuantityOf(ps, id)
            && Committed(ps[j := q], owner, live, id)
               == Committed(ps, parentOf, sink.live, id) + if q.parentId == id then size else 0.0
  {
    hide IndexOfPlan, PlanTidy, LiveOf, QuantityOf, FilledOf;
    var owner, live := parentOf[sink.next := q.parentId], sink.live[sink.next := size];
    var qs, more := ps[j := q], SinkState(sink.next + 1, live);
    SamePlanIsTidy(a, ps[j], q);
    assert sink.next in sink.live ==> ChildTidy(ps, parentOf, sink, sink.next);
    LiveSent(parentOf, sink.live, id, sink.next, q.parentId, size);
    PlanReplaced(ps, j, q, id);
    hide Ascending;
    forall c | c in live
      ensures ChildTidy(qs, owner, more, c)
    {
      PlansAscend(a, ps, parentOf, sink);
      if c == sink.next {
        PlanReplaced(ps, j, q, q.parentId);
        assert ps[j].parentId == q.parentId;
      } else {
        assert ChildTidy(ps, parentOf, sink, c);
        PlanReplaced(ps, j, q, parentOf[c]);
      }
    }
  }

  lemma SamePlanIsTidy(a: Algorithm, p: Plan, q: Plan)
    requires PlanTidy(a, p) && q.request == p.request
    requires q.progress.filled == p.progress.filled && q.progress.remaining == p.progress.remaining
    ensures PlanTidy(a, q)
  {
    hide CanPlan;
  }

  lemma DrawKeepsTidy(a: Algorithm, ps: seq<Plan>, parentOf: map<OrderId, OrderId>, sink: SinkState, j: nat, q: Plan,
                      next: OrderId, id: OrderId)
    requires Tidy(a, ps, parentOf, sink) && j < |ps| && next >= sink.next
    requires q.parentId == ps[j].parentId && q.request == ps[j].request && q.progress == ps[j].progress
    ensures Tidy(a, ps[j := q], parentOf, sink.(next := next))
    ensures QuantityOf(ps[j := q], id) == QuantityOf(ps, id)
    ensures Committed(ps[j := q], parentOf, sink.live, id) == Committed(ps, parentOf, sink.live, id)
  {
    hide IndexOfPlan, CanPlan, LiveOf;
    PlanIsTidy(a, ps, parentOf, sink, j);
    ReplaceKeepsTidy(a, ps, parentOf, sink, j, q);
    PlanReplaced(ps, j, q, id);
    forall c | c in sink.live
      ensures ChildTidy(ps[j := q], parentOf, sink.(next := next), c)
    {
      assert ChildTidy(ps[j := q], parentOf, sink, c);
    }
  }

  lemma SweepOneMore(a: Algorithm, ps: seq<Plan>, parentOf: map<OrderId, OrderId>, i: InstrumentId, ctx: Context,
                     sink: SinkState, approves: OrderData -> bool, k: nat, id: OrderId)
    requires 0 < k <= |ps|
    ensures var front := Sweeping(a, ps[..k - 1], parentOf, i, ctx, sink, approves);
            var v := Visiting(a, ps[k - 1], i, ctx, front.sink, approves);
            var swept := Sweeping(a, ps[..k], parentOf, i, ctx, sink, approves);
            && swept.plans == front.plans + [v.plan] && swept.sink == v.sink
            && swept.parentOf
               == (if v.sent then front.parentOf[front.sink.next := ps[k - 1].parentId] else front.parentOf)
            && Sent(a, ps[..k], parentOf, i, ctx, sink, approves, id)
               == Sent(a, ps[..k - 1], parentOf, i, ctx, sink, approves, id) + SentBy(v, front.sink.next, ps[k - 1], id)
  {
    hide Visiting, SentBy;
    assert ps[..k][..k - 1] == ps[..k - 1];
  }

  lemma {:induction false} SweepCommits(a: Algorithm, ps: seq<Plan>, parentOf: map<OrderId, OrderId>, sink: SinkState,
                                        i: InstrumentId, ctx: Context, approves: OrderData -> bool, k: nat, id: OrderId)
    requires Tidy(a, ps, parentOf, sink) && k <= |ps|
    ensures var swept := Sweeping(a, ps[..k], parentOf, i, ctx, sink, approves);
            var qs := swept.plans + ps[k..];
            && |swept.plans| == k && Tidy(a, qs, swept.parentOf, swept.sink)
            && QuantityOf(qs, id) == QuantityOf(ps, id)
            && Committed(qs, swept.parentOf, swept.sink.live, id)
               == Committed(ps, parentOf, sink.live, id) + Sent(a, ps[..k], parentOf, i, ctx, sink, approves, id)
  {
    if k == 0 {
      hide Tidy, Committed, QuantityOf;
      assert [] + ps[0..] == ps;
    } else {
      hide *;
      SweepCommits(a, ps, parentOf, sink, i, ctx, approves, k - 1, id);
      SweepOneMore(a, ps, parentOf, i, ctx, sink, approves, k, id);
      var front := Sweeping(a, ps[..k - 1], parentOf, i, ctx, sink, approves);
      var v := Visiting(a, ps[k - 1], i, ctx, front.sink, approves);
      OneMoreVisited(front.plans, ps, k, v.plan);
      VisitCommits(a, front.plans + ps[k - 1..], front.parentOf, front.sink, k - 1, i, ctx, approves, id);
    }
  }

  // ---------------------------------------------------------------------------
  // The other events
  // ---------------------------------------------------------------------------

  lemma AdmitCommits(a: Algorithm, w: World, r: Request, s: Schedule, key: OrderId, price: real, id: OrderId)
    requires WorldTidy(a, w) && IndexOfPlan(w.executor.plans, key) == |w.executor.plans| && CanPlan(a, r)
    ensures var after := w.(executor := Admitting(w.executor, NewPlan(r, s, key, price)));
            && WorldTidy(a, after) && (Overcommitted(after, id) ==> Overcommitted(w, id))
  {
    hide CanPlan, LiveOf, Tidy, PlaceFor, FilledOf, QuantityOf, IndexOfPlan;
    var ps, p := w.executor.plans, NewPlan(r, s, key, price);
    NewPlanIsTidy(a, r, s, key, price);
    AdmitKeepsTidy(a, ps, w.executor.parentOf, w.sink, PlaceFor(ps, key), p);
    Inserted(ps, PlaceFor(ps, key), p, id);
    if id == key {
      NobodysChildren(a, w, id);
    }
  }

  lemma AdmitKeepsTidy(a: Algorithm, ps: seq<Plan>, parentOf: map<OrderId, OrderId>, sink: SinkState, i: nat, p: Plan)
    requires Tidy(a, ps, parentOf, sink) && PlanTidy(a, p) && IndexOfPlan(ps, p.parentId) == |ps|
    requires i <= |ps| && (i < |ps| ==> p.parentId < ps[i].parentId)
    requires forall k :: 0 <= k < i ==> ps[k].parentId <= p.parentId
    ensures Tidy(a, ps[..i] + [p] + ps[i..], parentOf, sink)
  {
    hide PlanTidy, ChildTidy, IndexOfPlan;
    var qs := ps[..i] + [p] + ps[i..];
    AdmitAscends(ps, i, p);
    hide Ascending;
    forall k | 0 <= k < |qs|
      ensures PlanTidy(a, qs[k])
    {
      InsertedPlan(ps, i, p, k);
    }
    forall c | c in sink.live
      ensures ChildTidy(qs, parentOf, sink, c)
    {
      AdmitKeepsChild(ps, parentOf, sink, i, p, c);
    }
  }

  lemma AdmitKeepsChild(ps: seq<Plan>, parentOf: map<OrderId, OrderId>, sink: SinkState, i: nat, p: Plan, c: OrderId)
    requires ChildTidy(ps, parentOf, sink, c) && i <= |ps| && IndexOfPlan(ps, p.parentId) == |ps|
    ensures ChildTidy(ps[..i] + [p] + ps[i..], parentOf, sink, c)
  {
    hide IndexOfPlan, FilledOf, QuantityOf;
    Inserted(ps, i, p, parentOf[c]);
  }

  lemma NobodysChildren(a: Algorithm, w: World, id: OrderId)
    requires WorldTidy(a, w) && IndexOfPlan(w.executor.plans, id) == |w.executor.plans|
    ensures LiveOf(w.executor.parentOf, w.sink.live, id) == 0.0
  {
    hide LiveOf, PlanTidy, IndexOfPlan;
    forall c | c in w.sink.live && c in w.executor.parentOf
      ensures w.executor.parentOf[c] != id
    {
      assert ChildTidy(w.executor.plans, w.executor.parentOf, w.sink, c);
    }
    NothingLive(w.executor.parentOf, w.sink.live, id);
  }

  lemma NewPlanIsTidy(a: Algorithm, r: Request, s: Schedule, key: OrderId, price: real)
    requires CanPlan(a, r)
    ensures PlanTidy(a, NewPlan(r, s, key, price)) && NewPlan(r, s, key, price).Quantity() > 0.0
  {
  }

  /** Where a plan is found once another has been inserted under a new id. */
  lemma InsertedIndex(ps: seq<Plan>, i: nat, p: Plan, id: OrderId)
    requires i <= |ps| && IndexOfPlan(ps, p.parentId) == |ps|
    ensures var qs, k := ps[..i] + [p] + ps[i..], IndexOfPlan(ps, id);
            IndexOfPlan(qs, id)
            == if id == p.parentId then i else if k == |ps| then |qs| else if k < i then k else k + 1
  {
    var qs := ps[..i] + [p] + ps[i..];
    var k, n := IndexOfPlan(ps, id), IndexOfPlan(qs, id);
    hide IndexOfPlan;
    InsertedPlan(ps, i, p, i);
    if k < |ps| {
      InsertedPlan(ps, i, p, if k < i then k else k + 1);
    }
    if n < |qs| {
      InsertedPlan(ps, i, p, n);
    }
  }

  lemma Inserted(ps: seq<Plan>, i: nat, p: Plan, id: OrderId)
    requires i <= |ps| && IndexOfPlan(ps, p.parentId) == |ps|
    ensures var qs := ps[..i] + [p] + ps[i..];
            && (IndexOfPlan(ps, id) < |ps| ==> IndexOfPlan(qs, id) < |qs|)
            && FilledOf(qs, id) == (if id == p.parentId then p.progress.filled else FilledOf(ps, id))
            && QuantityOf(qs, id) == (if id == p.parentId then p.Quantity() else QuantityOf(ps, id))
  {
    InsertedIndex(ps, i, p, id);
    hide IndexOfPlan;
  }

  /** A plan that stops commits no more. */
  lemma StopCommits(a: Algorithm, ps: seq<Plan>, parentOf: map<OrderId, OrderId>, sink: SinkState, j: nat, q: Plan,
                    id: OrderId)
    requires Tidy(a, ps, parentOf, sink) && j < |ps|
    requires q.parentId == ps[j].parentId && q.request == ps[j].request && q.progress == ps[j].progress
    ensures var less := WithoutChild(sink, ps[j].working);
            && Tidy(a, ps[j := q], parentOf, less) && QuantityOf(ps[j := q], id) == QuantityOf(ps, id)
            && Committed(ps[j := q], parentOf, less.live, id) <= Committed(ps, parentOf, sink.live, id)
  {
    hide Tidy, LiveOf, QuantityOf, IndexOfPlan;
    PlanIsTidy(a, ps, parentOf, sink, j);
    var less := WithoutChild(sink, ps[j].working);
    DropKeepsTidy(a, ps, parentOf, sink, ps[j].working);
    DropCommits(a, ps, parentOf, sink, ps[j].working, id);
    ReplaceKeepsTidy(a, ps, parentOf, less, j, q);
    PlansAscend(a, ps, parentOf, sink);
    PlanReplaced(ps, j, q, id);
  }

  lemma PlansAscend(a: Algorithm, ps: seq<Plan>, parentOf: map<OrderId, OrderId>, sink: SinkState)
    requires Tidy(a, ps, parentOf, sink)
    ensures Ascending(ps)
  {
  }

  lemma {:induction false} ExpiryCommits(a: Algorithm, ps: seq<Plan>, parentOf: map<OrderId, OrderId>, sink: SinkState,
                                         now: Timestamp, k: nat, id: OrderId)
    requires Tidy(a, ps, parentOf, sink) && k <= |ps|
    ensures var (qs, less) := Expiring(ps[..k], sink, now);
            && |qs| == k && Tidy(a, qs + ps[k..], parentOf, less)
            && QuantityOf(qs + ps[k..], id) == QuantityOf(ps, id)
            && Committed(qs + ps[k..], parentOf, less.live, id) <= Committed(ps, parentOf, sink.live, id)
  {
    hide Tidy, Committed, QuantityOf;
    if k == 0 {
      assert [] + ps[0..] == ps;
    } else {
      ExpiryCommits(a, ps, parentOf, sink, now, k - 1, id);
      var (front, s) := Expiring(ps[..k - 1], sink, now);
      var mixed, p := front + ps[k - 1..], ps[k - 1];
      assert ps[..k][..k - 1] == ps[..k - 1];
      if Stale(p, now) {
        var q := p.(working := None, state := Expired, finished := now);
        OneMoreVisited(front, ps, k, q);
        StopCommits(a, mixed, parentOf, s, k - 1, q, id);
      } else {
        OneMoreVisited(front, ps, k, p);
      }
    }
  }

  /** What a report leaves live of its child. */
  function Rest(sink: SinkState, f: Fill, remains: bool): real
    requires f.orderId in sink.live
  {
    if remains && f.quantity < sink.live[f.orderId] then sink.live[f.orderId] - f.quantity else 0.0
  }

  /** Where a report goes. */
  lemma ReportMoves(a: Algorithm, w: World, f: Fill, remains: bool)
    requires WorldTidy(a, w) && Possible(w, Reported(f, remains))
    ensures f.orderId in w.executor.parentOf
    ensures var ps, key := w.executor.plans, w.executor.parentOf[f.orderId];
            var j := IndexOfPlan(ps, key);
            && j < |ps| && ps[j].parentId == key
            && Stepping(a, w, Reported(f, remains)).executor == w.executor.(plans := ps[j := Absorbing(ps[j], f)])
  {
    hide Absorbing, PlanTidy;
    assert ChildTidy(w.executor.plans, w.executor.parentOf, w.sink, f.orderId);
  }

  /** The children that are live after a report. */
  function Reduced(sink: SinkState, f: Fill, remains: bool): SinkState
    requires f.orderId in sink.live
  {
    if remains && f.quantity < sink.live[f.orderId]
    then sink.(live := sink.live[f.orderId := sink.live[f.orderId] - f.quantity])
    else WithoutChild(sink, Some(f.orderId))
  }

  /** What a report does to them. */
  lemma ReportLeaves(a: Algorithm, ps: seq<Plan>, parentOf: map<OrderId, OrderId>, sink: SinkState, f: Fill,
                     remains: bool, id: OrderId)
    requires Tidy(a, ps, parentOf, sink) && f.orderId in sink.live && f.orderId in parentOf
    ensures Tidy(a, ps, parentOf, Reduced(sink, f, remains))
    ensures LiveOf(parentOf, Reduced(sink, f, remains).live, id)
            == LiveOf(parentOf, sink.live, id)
               - (if parentOf[f.orderId] == id then sink.live[f.orderId] - Rest(sink, f, remains) else 0.0)
  {
    hide LiveOf, PlanTidy, IndexOfPlan;
    var c := f.orderId;
    if remains && f.quantity < sink.live[c] {
      LiveReduced(parentOf, sink.live, id, c, sink.live[c] - f.quantity);
      ReduceKeepsTidy(a, ps, parentOf, sink, c, sink.live[c] - f.quantity);
    } else {
      LiveRemoved(parentOf, sink.live, id, c);
      DropKeepsTidy(a, ps, parentOf, sink, Some(c));
    }
  }

  lemma ReportSink(a: Algorithm, w: World, f: Fill, remains: bool)
    requires f.orderId in w.sink.live
    ensures Stepping(a, w, Reported(f, remains)).sink == Reduced(w.sink, f, remains)
  {
    hide OnFilling;
  }

  /** A report turns what a child may fill into what is filled, and drops what it does not leave. */
  lemma ReportCommits(a: Algorithm, w: World, f: Fill, remains: bool, id: OrderId)
    requires WorldTidy(a, w) && Possible(w, Reported(f, remains))
    ensures f.orderId in w.executor.parentOf
    ensures var after, c := Stepping(a, w, Reported(f, remains)), f.orderId;
            && WorldTidy(a, after)
            && QuantityOf(after.executor.plans, id) == QuantityOf(w.executor.plans, id)
            && CommittedIn(after, id)
               == CommittedIn(w, id)
                  - (if w.executor.parentOf[c] == id then w.sink.live[c] - f.quantity - Rest(w.sink, f, remains)
                     else 0.0)
  {
    ReportMoves(a, w, f, remains);
    ReportSink(a, w, f, remains);
    hide Tidy, LiveOf, IndexOfPlan, QuantityOf, FilledOf, Absorbing, PlanTidy, Stepping, Reduced, Rest;
    var ps, owner, sink, c := w.executor.plans, w.executor.parentOf, w.sink, f.orderId;
    var j := IndexOfPlan(ps, owner[c]);
    var q := Absorbing(ps[j], f);
    PlanIsTidy(a, ps, owner, sink, j);
    AbsorbingIsTidy(a, ps[j], f);
    PlansAscend(a, ps, owner, sink);
    PlanReplaced(ps, j, q, id);
    ReplaceKeepsTidy(a, ps, owner, sink, j, q);
    ReportLeaves(a, ps[j := q], owner, sink, f, remains, id);
  }

  lemma AbsorbingIsTidy(a: Algorithm, p: Plan, f: Fill)
    requires PlanTidy(a, p) && f.quantity > 0.0
    ensures var q := Absorbing(p, f);
            && PlanTidy(a, q) && q.parentId == p.parentId && q.request == p.request
            && q.progress.filled == p.progress.filled + f.quantity
  {
  }

  lemma ReduceKeepsTidy(a: Algorithm, ps: seq<Plan>, parentOf: map<OrderId, OrderId>, sink: SinkState, c: OrderId,
                        x: real)
    requires Tidy(a, ps, parentOf, sink) && c in sink.live && x > 0.0
    ensures Tidy(a, ps, parentOf, sink.(live := sink.live[c := x]))
  {
    hide PlanTidy, IndexOfPlan;
    var less := sink.(live := sink.live[c := x]);
    forall d | d in less.live
      ensures ChildTidy(ps, parentOf, less, d)
    {
      assert ChildTidy(ps, parentOf, sink, d);
    }
  }

  // ---------------------------------------------------------------------------
  // Runs
  // ---------------------------------------------------------------------------

  /** A market event commits what it sends; no other event makes a parent overcommitted. */
  lemma StepCommits(a: Algorithm, w: World, e: Event, id: OrderId)
    requires WorldTidy(a, w) && Possible(w, e)
    ensures WorldTidy(a, Stepping(a, w, e))
    ensures Overcommitted(Stepping(a, w, e), id) && !e.MarketUpdate? ==> Overcommitted(w, id)
    ensures e.MarketUpdate? ==>
              && CommittedIn(Stepping(a, w, e), id) == CommittedIn(w, id) + SentIn(a, w, e, id)
              && QuantityOf(Stepping(a, w, e).executor.plans, id) == QuantityOf(w.executor.plans, id)
  {
    hide Tidy, Committed, QuantityOf, IndexOfPlan, CanPlan;
    var ps, owner, sink := w.executor.plans, w.executor.parentOf, w.sink;
    match e
    case Begin(r, s, key, price) =>
      if key != NO_ORDER && IndexOfPlan(ps, key) == |ps| && CanPlan(a, r) {
        AdmitCommits(a, w, r, s, key, price, id);
      }
    case MarketUpdate(i, ctx, approves) =>
      SweepCommits(a, ps, owner, sink, i, ctx, approves, |ps|, id);
      AllOf(ps, Sweeping(a, ps, owner, i, ctx, sink, approves).plans);
    case Reported(f, remains) =>
      ReportCommits(a, w, f, remains, id);
    case Dropped(child) =>
      DropKeepsTidy(a, ps, owner, sink, Some(child));
      DropCommits(a, ps, owner, sink, Some(child), id);
    case CancelParent(key) =>
      var i := IndexOfPlan(ps, key);
      if i < |ps| && !IsFinal(ps[i].state) {
        StopCommits(a, ps, owner, sink, i, ps[i].(working := None, state := Cancelled), id);
      }
    case ExpireAt(now) =>
      ExpiryCommits(a, ps, owner, sink, now, |ps|, id);
      AllOf(ps, Expiring(ps, sink, now).0);
  }

  /** A step overcommits a parent exactly when it is a market event that sends more for it than is neither filled nor
      with any of its live children. */
  lemma OvercommitsIff(a: Algorithm, w: World, e: Event, id: OrderId)
    requires WorldTidy(a, w) && Possible(w, e) && !Overcommitted(w, id)
    ensures Overcommitted(Stepping(a, w, e), id)
            <==> e.MarketUpdate? && SentIn(a, w, e, id) > QuantityOf(w.executor.plans, id) - CommittedIn(w, id)
  {
    StepCommits(a, w, e, id);
  }

  lemma {:induction false} TidyOverRuns(a: Algorithm, events: seq<Event>)
    requires PossibleRun(a, events)
    ensures WorldTidy(a, After(a, events))
  {
    hide Stepping, Tidy;
    if events == [] {
      FreshIsTidy(a);
    } else {
      TidyOverRuns(a, events[..|events| - 1]);
      StepCommits(a, After(a, events[..|events| - 1]), events[|events| - 1], 0);
    }
  }

  lemma FreshIsTidy(a: Algorithm)
    ensures WorldTidy(a, FRESH)
  {
  }

  /** Reports of what the venue works, and nothing else. */
  predicate OnlyReports(es: seq<Event>) {
    forall n :: 0 <= n < |es| ==> es[n].Reported?
  }

  function AfterFrom(a: Algorithm, w: World, es: seq<Event>): World
    decreases |es|
  {
    if es == [] then w else AfterFrom(a, Stepping(a, w, es[0]), es[1..])
  }

  predicate PossibleFrom(a: Algorithm, w: World, es: seq<Event>)
    decreases |es|
  {
    es == [] || (Possible(w, es[0]) && PossibleFrom(a, Stepping(a, w, es[0]), es[1..]))
  }

  /** The venue alone can overfill the parent from here. */
  ghost predicate CanBeOverfilled(a: Algorithm, w: World, id: OrderId) {
    exists es :: OnlyReports(es) && PossibleFrom(a, w, es) && Overfilled(AfterFrom(a, w, es), id)
  }

  lemma {:induction false} ReportsCommitNothing(a: Algorithm, w: World, es: seq<Event>, id: OrderId)
    requires WorldTidy(a, w) && OnlyReports(es) && PossibleFrom(a, w, es)
    ensures Overfilled(AfterFrom(a, w, es), id) ==> Overcommitted(w, id)
    decreases |es|
  {
    hide Tidy, Stepping, LiveOf, QuantityOf, FilledOf;
    if es == [] {
      TidyLiveIsNatural(a, w, id);
    } else {
      StepCommits(a, w, es[0], id);
      ReportsCommitNothing(a, Stepping(a, w, es[0]), es[1..], id);
    }
  }

  lemma TidyLiveIsNatural(a: Algorithm, w: World, id: OrderId)
    requires WorldTidy(a, w)
    ensures LiveOf(w.executor.parentOf, w.sink.live, id) >= 0.0
  {
    LiveIsNatural(w.executor.parentOf, w.sink.live, id);
  }

  /** The venue fills a child whole. */
  function Whole(c: OrderId, quantity: real): Fill {
    Fill(c, NO_ORDER, 0, Buy, 1.0, quantity, 0.0, 0.0, Taker, NO_TIMES, 0.0)
  }

  /** Filling every live child of the parent. */
  lemma {:induction false} FillAll(a: Algorithm, w: World, id: OrderId) returns (es: seq<Event>)
    requires WorldTidy(a, w)
    ensures OnlyReports(es) && PossibleFrom(a, w, es)
    ensures var after := AfterFrom(a, w, es);
            FilledOf(after.executor.plans, id) == CommittedIn(w, id)
            && QuantityOf(after.executor.plans, id) == QuantityOf(w.executor.plans, id)
    decreases |w.sink.live|
  {
    hide Tidy, LiveOf, QuantityOf, FilledOf, Stepping;
    if exists c :: c in w.sink.live && c in w.executor.parentOf && w.executor.parentOf[c] == id {
      var c :| c in w.sink.live && c in w.executor.parentOf && w.executor.parentOf[c] == id;
      var f := Whole(c, w.sink.live[c]);
      ChildIsLive(a, w, c);
      ReportCommits(a, w, f, false, id);
      FewerLive(a, w, c);
      var next := Stepping(a, w, Reported(f, false));
      es := FillAll(a, next, id);
      assert ([Reported(f, false)] + es)[1..] == es;
      es := [Reported(f, false)] + es;
    } else {
      es := [];
      NothingLive(w.executor.parentOf, w.sink.live, id);
    }
  }

  lemma FewerLive(a: Algorithm, w: World, c: OrderId)
    requires c in w.sink.live
    ensures |Stepping(a, w, Reported(Whole(c, w.sink.live[c]), false)).sink.live| < |w.sink.live|
  {
    var f := Whole(c, w.sink.live[c]);
    ReportSink(a, w, f, false);
    hide Stepping;
    assert Reduced(w.sink, f, false).live.Keys == w.sink.live.Keys - {c};
  }

  lemma ChildIsLive(a: Algorithm, w: World, c: OrderId)
    requires WorldTidy(a, w) && c in w.sink.live
    ensures w.sink.live[c] > 0.0
  {
    assert ChildTidy(w.executor.plans, w.executor.parentOf, w.sink, c);
  }

  /** In every reachable world the venue alone can overfill a parent exactly when what is filled and what all of its
      live children may still fill come to more than its quantity. */
  lemma CanBeOverfilledIff(a: Algorithm, w: World, id: OrderId)
    requires WorldTidy(a, w)
    ensures CanBeOverfilled(a, w, id) <==> Overcommitted(w, id)
  {
    hide Tidy, PossibleFrom, AfterFrom, Committed, QuantityOf, FilledOf;
    if CanBeOverfilled(a, w, id) {
      var es :| OnlyReports(es) && PossibleFrom(a, w, es) && Overfilled(AfterFrom(a, w, es), id);
      ReportsCommitNothing(a, w, es, id);
    }
    if Overcommitted(w, id) {
      var es := FillAll(a, w, id);
      assert Overfilled(AfterFrom(a, w, es), id);
    }
  }

  /** A market event sends no more than is neither filled nor live. */
  ghost predicate SendsFit(a: Algorithm, w: World, e: Event, id: OrderId) {
    e.MarketUpdate? ==> SentIn(a, w, e, id) <= QuantityOf(w.executor.plans, id) - CommittedIn(w, id)
  }

  lemma FitKeeps(a: Algorithm, w: World, e: Event, id: OrderId)
    requires WorldTidy(a, w) && Possible(w, e) && !Overcommitted(w, id)
    ensures SendsFit(a, w, e, id) <==> !Overcommitted(Stepping(a, w, e), id)
  {
    hide Stepping, WorldTidy, Possible, SentIn, CommittedIn, QuantityOf;
    OvercommitsIff(a, w, e, id);
  }

  /** At every step of a run nothing is sent that does not fit. */
  ghost predicate AlwaysFits(a: Algorithm, events: seq<Event>, id: OrderId) {
    events == [] ||
    (AlwaysFits(a, events[..|events| - 1], id)
     && SendsFit(a, After(a, events[..|events| - 1]), events[|events| - 1], id))
  }

  /** At no point of a run can the venue overfill the parent. */
  ghost predicate NeverOverfillable(a: Algorithm, events: seq<Event>, id: OrderId) {
    !CanBeOverfilled(a, After(a, events), id) && (events == [] || NeverOverfillable(a, events[..|events| - 1], id))
  }

  /** Over every possible run a parent never comes within reach of overfilling exactly when no market event sent more
      for it than was neither filled nor live. */
  lemma {:induction false} NeverOverfillableIff(a: Algorithm, events: seq<Event>, id: OrderId)
    requires PossibleRun(a, events)
    ensures AlwaysFits(a, events, id) <==> NeverOverfillable(a, events, id)
  {
    hide SendsFit, CanBeOverfilled, Possible, Overcommitted, WorldTidy, Stepping;
    if events == [] {
      FreshIsTidy(a);
      CanBeOverfilledIff(a, FRESH, id);
      FreshCommitsNothing(id);
    } else {
      var front, e := events[..|events| - 1], events[|events| - 1];
      NeverOverfillableIff(a, front, id);
      TidyOverRuns(a, front);
      TidyOverRuns(a, events);
      CanBeOverfilledIff(a, After(a, front), id);
      CanBeOverfilledIff(a, After(a, events), id);
      if NeverOverfillable(a, front, id) {
        FitKeeps(a, After(a, front), e, id);
      }
    }
  }

  lemma FreshCommitsNothing(id: OrderId)
    ensures !Overcommitted(FRESH, id)
  {
    NothingLive(map[], map[], id);
  }

  // ---------------------------------------------------------------------------
  // After a partial fill
  // ---------------------------------------------------------------------------

  /** Where every live child is its plan's working child, it is the only live child of its parent. */
  lemma OneChildIsLive(a: Algorithm, w: World, c: OrderId)
    requires WorldSound(a, w) && c in w.sink.live && c in w.executor.parentOf
    ensures LiveOf(w.executor.parentOf, w.sink.live, w.executor.parentOf[c]) == w.sink.live[c]
  {
    hide PlanSound;
    var ps, owner, sink := w.executor.plans, w.executor.parentOf, w.sink;
    var id := owner[c];
    assert ChildOwned(ps, owner, sink, c);
    var j :| 0 <= j < |ps| && ps[j].parentId == id && ps[j].working == Some(c);
    forall d | d in sink.live && d in owner && owner[d] == id
      ensures d == c
    {
      assert ChildOwned(ps, owner, sink, d);
      OwnerIs(a, ps, owner, sink, d, j);
    }
    SumTakeOut(sink.live.Keys, LiveTerms(owner, sink.live, id), c);
    SumZero(sink.live.Keys - {c}, LiveTerms(owner, sink.live, id));
  }

  /** From a world in which no child was ever left behind, a fill that leaves part of its child working invites
      overfilling by the next market event exactly when that sends more than remains beside the part left. */
  lemma PartialFillInvitesIff(a: Algorithm, w: World, f: Fill, remains: bool, e: Event)
    requires WorldSound(a, w) && WorldTidy(a, w) && Possible(w, Reported(f, remains)) && e.MarketUpdate?
    ensures f.orderId in w.executor.parentOf
    ensures var id, after := w.executor.parentOf[f.orderId], Stepping(a, w, Reported(f, remains));
            CanBeOverfilled(a, Stepping(a, after, e), id)
            <==> SentIn(a, after, e, id)
                 > QuantityOf(after.executor.plans, id) - FilledOf(after.executor.plans, id) - Rest(w.sink, f, remains)
  {
    ReportMoves(a, w, f, remains);
    var id, after := w.executor.parentOf[f.orderId], Stepping(a, w, Reported(f, remains));
    OneChildIsLive(a, w, f.orderId);
    SoundCommits(a, w, f.orderId);
    ReportCommits(a, w, f, remains, id);
    ReportFills(a, w, f, remains);
    hide Stepping, WorldTidy, WorldSound, SentIn, QuantityOf, FilledOf, LiveOf, CanBeOverfilled, Rest, IndexOfPlan,
         Absorbing;
    StepCommits(a, after, e, id);
    OvercommitsIff(a, after, e, id);
    CanBeOverfilledIff(a, Stepping(a, after, e), id);
  }

  lemma SoundCommits(a: Algorithm, w: World, c: OrderId)
    requires WorldSound(a, w) && c in w.sink.live && c in w.executor.parentOf
    ensures !Overcommitted(w, w.executor.parentOf[c])
  {
    OneChildIsLive(a, w, c);
    var ps, owner, sink := w.executor.plans, w.executor.parentOf, w.sink;
    var i := IndexOfPlan(ps, owner[c]);
    assert ChildOwned(ps, owner, sink, c);
    var j :| 0 <= j < |ps| && ps[j].parentId == owner[c] && ps[j].working == Some(c);
    OwnerIs(a, ps, owner, sink, c, i);
    SoundPlan(a, ps, owner, sink, i);
    hide IndexOfPlan, WorldSound, LiveOf, CanPlan;
  }

  lemma ReportFills(a: Algorithm, w: World, f: Fill, remains: bool)
    requires WorldTidy(a, w) && Possible(w, Reported(f, remains))
    ensures f.orderId in w.executor.parentOf
    ensures var id := w.executor.parentOf[f.orderId];
            FilledOf(Stepping(a, w, Reported(f, remains)).executor.plans, id)
            == FilledOf(w.executor.plans, id) + f.quantity
  {
    ReportMoves(a, w, f, remains);
    var ps, id := w.executor.plans, w.executor.parentOf[f.orderId];
    var j := IndexOfPlan(ps, id);
    PlanIsTidy(a, ps, w.executor.parentOf, w.sink, j);
    AbsorbingIsTidy(a, ps[j], f);
    PlansAscend(a, ps, w.executor.parentOf, w.sink);
    PlanReplaced(ps, j, Absorbing(ps[j], f), id);
    hide Stepping, WorldTidy, Absorbing, IndexOfPlan;
  }
}
