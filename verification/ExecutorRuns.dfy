/** Executions over whole runs: when a parent cannot be overfilled, when it can, and how it tracks its schedule. */
module ExecutorRuns {
  import opened Types
  import opened Orders
  import opened Schedules
  import opened Algorithms
  import opened Executors

  datatype World = World(executor: ExecutorState, sink: SinkState)

  /** What can happen to an executor and the venue behind its sink. A report says whether the venue keeps
      working an unfilled remainder; a drop is a remainder, or a whole child, that the venue discards. */
  datatype Event =
    | Begin(request: Request, schedule: Schedule, parentId: OrderId, arrivalPrice: real)
    | MarketUpdate(instrument: InstrumentId, ctx: Context, approves: OrderData -> bool)
    | Reported(fill: Fill, remains: bool)
    | Dropped(child: OrderId)
    | CancelParent(parentId: OrderId)
    | ExpireAt(now: Timestamp)

  function Stepping(a: Algorithm, w: World, e: Event): World {
    var x, sink := w.executor, w.sink;
    match e
    case Begin(r, s, id, price) =>
      if id == NO_ORDER || IndexOfPlan(x.plans, id) < |x.plans| || !CanPlan(a, r) then w
      else w.(executor := Admitting(x, NewPlan(r, s, id, price)))
    case MarketUpdate(i, ctx, approves) =>
      var swept := Sweeping(a, x.plans, x.parentOf, i, ctx, sink, approves);
      World(ExecutorState(swept.plans, swept.parentOf), swept.sink)
    case Reported(f, remains) =>
      World(OnFilling(x, f).0,
            if remains && f.orderId in sink.live && f.quantity < sink.live[f.orderId]
            then sink.(live := sink.live[f.orderId := sink.live[f.orderId] - f.quantity])
            else WithoutChild(sink, Some(f.orderId)))
    case Dropped(child) => w.(sink := WithoutChild(sink, Some(child)))
    case CancelParent(id) =>
      var (x', sink', _) := Abandoning(x, sink, id);
      World(x', sink')
    case ExpireAt(now) =>
      var (ps, sink') := Expiring(x.plans, sink, now);
      World(x.(plans := ps), sink')
  }

  const FRESH := World(ExecutorState([], map[]), SinkState(1, map[]))

  function After(a: Algorithm, events: seq<Event>): World {
    if events == [] then FRESH else Stepping(a, After(a, events[..|events| - 1]), events[|events| - 1])
  }

  /** The venue fills a child it works, for no more than is left of it, and names the right parent or none. */
  predicate Possible(w: World, e: Event) {
    e.Reported? ==>
      var f := e.fill;
      && f.orderId in w.sink.live && 0.0 < f.quantity <= w.sink.live[f.orderId]
      && (f.parentId == NO_ORDER || (f.orderId in w.executor.parentOf && f.parentId == w.executor.parentOf[f.orderId]))
  }

  predicate PossibleRun(a: Algorithm, events: seq<Event>) {
    events == [] ||
    (PossibleRun(a, events[..|events| - 1]) && Possible(After(a, events[..|events| - 1]), events[|events| - 1]))
  }

  /** Immediate-or-cancel children and whole fills: no fill leaves a remainder working. */
  predicate LeavesNothing(w: World, e: Event) {
    e.Reported? && e.fill.orderId in w.sink.live ==> !e.remains || e.fill.quantity >= w.sink.live[e.fill.orderId]
  }

  predicate DisciplinedRun(a: Algorithm, events: seq<Event>) {
    events == [] ||
    (DisciplinedRun(a, events[..|events| - 1]) && LeavesNothing(After(a, events[..|events| - 1]), events[|events| - 1]))
  }

  // ---------------------------------------------------------------------------
  // The invariant
  // ---------------------------------------------------------------------------

  /** What the plan's own child may still fill. */
  function Outstanding(p: Plan, sink: SinkState): real {
    if p.working.Some? && p.working.value in sink.live then sink.live[p.working.value] else 0.0
  }

  /** A plan's fills and its child together fit the parent. */
  predicate PlanSound(a: Algorithm, p: Plan, parentOf: map<OrderId, OrderId>, sink: SinkState) {
    && CanPlan(a, p.request)
    && p.progress.filled >= 0.0 && p.progress.remaining == Max(0.0, p.Quantity() - p.progress.filled)
    && p.progress.filled + Outstanding(p, sink) <= p.Quantity()
    && (p.working.Some? ==>
          p.working.value < sink.next && p.working.value in parentOf && parentOf[p.working.value] == p.parentId)
  }

  /** A live child is the working child of the plan it is attributed to. */
  predicate ChildOwned(ps: seq<Plan>, parentOf: map<OrderId, OrderId>, sink: SinkState, c: OrderId) {
    && c in parentOf && c < sink.next
    && exists i :: 0 <= i < |ps| && ps[i].parentId == parentOf[c] && ps[i].working == Some(c)
  }

  predicate Ascending(ps: seq<Plan>) {
    forall i, j :: 0 <= i < j < |ps| ==> ps[i].parentId < ps[j].parentId
  }

  predicate NonNegative(sink: SinkState) {
    forall c :: c in sink.live ==> sink.live[c] >= 0.0
  }

  ghost predicate Sound(a: Algorithm, ps: seq<Plan>, parentOf: map<OrderId, OrderId>, sink: SinkState) {
    && Ascending(ps) && NonNegative(sink)
    && (forall i :: 0 <= i < |ps| ==> PlanSound(a, ps[i], parentOf, sink))
    && forall c :: c in sink.live ==> ChildOwned(ps, parentOf, sink, c)
  }

  ghost predicate WorldSound(a: Algorithm, w: World) {
    Sound(a, w.executor.plans, w.executor.parentOf, w.sink)
  }

  // ---------------------------------------------------------------------------
  // Changing one plan
  // ---------------------------------------------------------------------------

  /** The only plan with this parent's child. */
  lemma OwnerIs(a: Algorithm, ps: seq<Plan>, parentOf: map<OrderId, OrderId>, sink: SinkState, c: OrderId, j: nat)
    requires Ascending(ps) && ChildOwned(ps, parentOf, sink, c) && j < |ps| && ps[j].parentId == parentOf[c]
    ensures ps[j].working == Some(c)
  {
    var i :| 0 <= i < |ps| && ps[i].parentId == parentOf[c] && ps[i].working == Some(c);
    IdsDistinct(ps);
  }

  lemma IdsDistinct(ps: seq<Plan>)
    requires Ascending(ps)
    ensures forall i, j :: 0 <= i < |ps| && 0 <= j < |ps| && i != j ==> ps[i].parentId != ps[j].parentId
  {
    forall i, j | 0 <= i < |ps| && 0 <= j < |ps| && i != j
      ensures ps[i].parentId != ps[j].parentId
    {
      var low, high := if i < j then i else j, if i < j then j else i;
      assert ps[low].parentId < ps[high].parentId;
    }
  }

  lemma OwnerAt(ps: seq<Plan>, parentOf: map<OrderId, OrderId>, sink: SinkState, c: OrderId) returns (i: nat)
    requires ChildOwned(ps, parentOf, sink, c)
    ensures c in parentOf && c < sink.next
    ensures i < |ps| && ps[i].parentId == parentOf[c] && ps[i].working == Some(c)
  {
    i :| 0 <= i < |ps| && ps[i].parentId == parentOf[c] && ps[i].working == Some(c);
  }

  lemma OwnedAt(ps: seq<Plan>, parentOf: map<OrderId, OrderId>, sink: SinkState, c: OrderId, i: nat)
    requires c in parentOf && c < sink.next
    requires i < |ps| && ps[i].parentId == parentOf[c] && ps[i].working == Some(c)
    ensures ChildOwned(ps, parentOf, sink, c)
  {
  }

  /** A plan stays sound when the sink drops a child, whoever's it is. */
  lemma LessKeepsPlan(a: Algorithm, p: Plan, parentOf: map<OrderId, OrderId>, sink: SinkState, child: Option<OrderId>)
    requires PlanSound(a, p, parentOf, sink) && NonNegative(sink)
    ensures PlanSound(a, p, parentOf, WithoutChild(sink, child)) && NonNegative(WithoutChild(sink, child))
  {
    hide CanPlan;
  }

  /** The plan gives up its working child, or keeps having none, and the child is no longer live. */
  lemma ReleaseKeepsSound(a: Algorithm, ps: seq<Plan>, parentOf: map<OrderId, OrderId>, sink: SinkState, j: nat,
                          q: Plan)
    requires Sound(a, ps, parentOf, sink) && j < |ps| && q.parentId == ps[j].parentId && q.working.None?
    requires PlanSound(a, q, parentOf, WithoutChild(sink, ps[j].working))
    ensures Sound(a, ps[j := q], parentOf, WithoutChild(sink, ps[j].working))
  {
    hide PlanSound, ChildOwned, NonNegative;
    var qs, less := ps[j := q], WithoutChild(sink, ps[j].working);
    LessKeepsPlan(a, ps[j], parentOf, sink, ps[j].working);
    forall i | 0 <= i < |qs|
      ensures PlanSound(a, qs[i], parentOf, less)
    {
      if i != j {
        LessKeepsPlan(a, ps[i], parentOf, sink, ps[j].working);
      }
    }
    forall c | c in less.live
      ensures ChildOwned(qs, parentOf, less, c)
    {
      var i := OwnerAt(ps, parentOf, sink, c);
      OwnedAt(qs, parentOf, less, c, i);
    }
  }

  /** A plan stays sound when the sink hands out its next id, to a child of another plan or to none. */
  lemma MoreKeepsPlan(a: Algorithm, p: Plan, parentOf: map<OrderId, OrderId>, sink: SinkState, owner: OrderId,
                      size: real)
    requires PlanSound(a, p, parentOf, sink)
    ensures PlanSound(a, p, parentOf[sink.next := owner], SinkState(sink.next + 1, sink.live[sink.next := size]))
  {
    hide CanPlan;
  }

  lemma SenderIsSound(a: Algorithm, p: Plan, parentOf: map<OrderId, OrderId>, sink: SinkState, q: Plan, size: real)
    requires PlanSound(a, p, parentOf, sink)
    requires q.parentId == p.parentId && q.working == Some(sink.next) && q.request == p.request
    requires q.progress.filled == p.progress.filled && q.progress.remaining == p.progress.remaining
    requires 0.0 < size <= q.progress.remaining
    ensures PlanSound(a, q, parentOf[sink.next := q.parentId], SinkState(sink.next + 1, sink.live[sink.next := size]))
  {
    hide CanPlan;
  }

  /** A plan without a child sends one that fits what remains. */
  lemma EmitKeepsSound(a: Algorithm, ps: seq<Plan>, parentOf: map<OrderId, OrderId>, sink: SinkState, j: nat, q: Plan,
                       size: real)
    requires Sound(a, ps, parentOf, sink) && j < |ps| && ps[j].working.None?
    requires q.parentId == ps[j].parentId && q.working == Some(sink.next) && q.request == ps[j].request
    requires q.progress.filled == ps[j].progress.filled && q.progress.remaining == ps[j].progress.remaining
    requires 0.0 < size <= q.progress.remaining
    ensures Sound(a, ps[j := q], parentOf[sink.next := q.parentId],
                  SinkState(sink.next + 1, sink.live[sink.next := size]))
  {
    hide PlanSound, ChildOwned;
    var qs, owner := ps[j := q], parentOf[sink.next := q.parentId];
    var more := SinkState(sink.next + 1, sink.live[sink.next := size]);
    SenderIsSound(a, ps[j], parentOf, sink, q, size);
    forall i | 0 <= i < |qs|
      ensures PlanSound(a, qs[i], owner, more)
    {
      MoreKeepsPlan(a, ps[i], parentOf, sink, q.parentId, size);
    }
    forall c | c in more.live
      ensures ChildOwned(qs, owner, more, c)
    {
      if c == sink.next {
        OwnedAt(qs, owner, more, c, j);
      } else {
        var i := OwnerAt(ps, parentOf, sink, c);
        OwnedAt(qs, owner, more, c, i);
      }
    }
  }

  lemma TouchedIsSound(a: Algorithm, p: Plan, parentOf: map<OrderId, OrderId>, sink: SinkState, q: Plan, next: OrderId)
    requires PlanSound(a, p, parentOf, sink) && next >= sink.next
    requires q.parentId == p.parentId && q.working == p.working && q.request == p.request && q.progress == p.progress
    ensures PlanSound(a, q, parentOf, sink.(next := next))
  {
    hide CanPlan;
  }

  /** A plan changes in nothing that matters here, or the sink hands out an id. */
  lemma TouchKeepsSound(a: Algorithm, ps: seq<Plan>, parentOf: map<OrderId, OrderId>, sink: SinkState, j: nat, q: Plan,
                        next: OrderId)
    requires Sound(a, ps, parentOf, sink) && j < |ps| && next >= sink.next
    requires q.parentId == ps[j].parentId && q.working == ps[j].working && q.request == ps[j].request
    requires q.progress == ps[j].progress
    ensures Sound(a, ps[j := q], parentOf, sink.(next := next))
  {
    hide PlanSound, ChildOwned;
    var qs, later := ps[j := q], sink.(next := next);
    forall i | 0 <= i < |qs|
      ensures PlanSound(a, qs[i], parentOf, later)
    {
      TouchedIsSound(a, ps[i], parentOf, sink, qs[i], next);
    }
    forall c | c in later.live
      ensures ChildOwned(qs, parentOf, later, c)
    {
      var i := OwnerAt(ps, parentOf, sink, c);
      OwnedAt(qs, parentOf, later, c, i);
    }
  }

  // ---------------------------------------------------------------------------
  // Every event keeps the invariant
  // ---------------------------------------------------------------------------

  lemma VisitKeepsSound(a: Algorithm, ps: seq<Plan>, parentOf: map<OrderId, OrderId>, sink: SinkState, j: nat,
                        i: InstrumentId, ctx: Context, approves: OrderData -> bool)
    requires Sound(a, ps, parentOf, sink) && j < |ps|
    ensures var v := Visiting(a, ps[j], i, ctx, sink, approves);
            Sound(a, ps[j := v.plan], if v.sent then parentOf[sink.next := ps[j].parentId] else parentOf, v.sink)
  {
    hide NextChild, Sound;
    var p := ps[j];
    var v := Visiting(a, p, i, ctx, sink, approves);
    var c := NextChild(a, p.request, p.schedule, p.progress, ctx);
    if v.sent {
      SoundPlan(a, ps, parentOf, sink, j);
      ChildFitsParent(a, p.request, p.schedule, p.progress, ctx);
      hide Releasable;
      EmitKeepsSound(a, ps, parentOf, sink, j, v.plan, c.value.quantity);
    } else {
      TouchKeepsSound(a, ps, parentOf, sink, j, v.plan, v.sink.next);
    }
  }

  lemma SoundPlan(a: Algorithm, ps: seq<Plan>, parentOf: map<OrderId, OrderId>, sink: SinkState, j: nat)
    requires Sound(a, ps, parentOf, sink) && j < |ps|
    ensures PlanSound(a, ps[j], parentOf, sink) && NonNegative(sink)
  {
  }

  /** A walk over the plans that has handled k - 1 of them handles one more. */
  lemma OneMoreVisited(front: seq<Plan>, ps: seq<Plan>, k: nat, q: Plan)
    requires 0 < k <= |ps| && |front| == k - 1
    ensures (front + ps[k - 1..])[k - 1] == ps[k - 1]
    ensures (front + ps[k - 1..])[k - 1 := q] == front + [q] + ps[k..]
    ensures q == ps[k - 1] ==> front + ps[k - 1..] == front + [q] + ps[k..]
  {
  }

  lemma {:induction false} SweepKeepsSound(a: Algorithm, ps: seq<Plan>, parentOf: map<OrderId, OrderId>,
                                           sink: SinkState,
                                           i: InstrumentId, ctx: Context, approves: OrderData -> bool, k: nat)
    requires Sound(a, ps, parentOf, sink) && k <= |ps|
    ensures var swept := Sweeping(a, ps[..k], parentOf, i, ctx, sink, approves);
            |swept.plans| == k && Sound(a, swept.plans + ps[k..], swept.parentOf, swept.sink)
  {
    hide Visiting, Sound;
    if k == 0 {
      assert [] + ps[0..] == ps;
    } else {
      SweepKeepsSound(a, ps, parentOf, sink, i, ctx, approves, k - 1);
      var front := Sweeping(a, ps[..k - 1], parentOf, i, ctx, sink, approves);
      var v := Visiting(a, ps[k - 1], i, ctx, front.sink, approves);
      assert ps[..k][..k - 1] == ps[..k - 1];
      OneMoreVisited(front.plans, ps, k, v.plan);
      VisitKeepsSound(a, front.plans + ps[k - 1..], front.parentOf, front.sink, k - 1, i, ctx, approves);
    }
  }

  lemma {:induction false} ExpiryKeepsSound(a: Algorithm, ps: seq<Plan>, parentOf: map<OrderId, OrderId>,
                                            sink: SinkState, now: Timestamp, k: nat)
    requires Sound(a, ps, parentOf, sink) && k <= |ps|
    ensures var (qs, less) := Expiring(ps[..k], sink, now);
            |qs| == k && Sound(a, qs + ps[k..], parentOf, less)
  {
    hide Sound;
    if k == 0 {
      assert [] + ps[0..] == ps;
    } else {
      ExpiryKeepsSound(a, ps, parentOf, sink, now, k - 1);
      var (front, s) := Expiring(ps[..k - 1], sink, now);
      var p := ps[k - 1];
      assert ps[..k][..k - 1] == ps[..k - 1];
      if Stale(p, now) {
        var q := p.(working := None, state := Expired, finished := now);
        OneMoreVisited(front, ps, k, q);
        StopKeepsSound(a, front + ps[k - 1..], parentOf, s, k - 1, q);
      } else {
        OneMoreVisited(front, ps, k, p);
      }
    }
  }

  /** A plan that stops gives up its child without filling anything. */
  lemma StopKeepsSound(a: Algorithm, ps: seq<Plan>, parentOf: map<OrderId, OrderId>, sink: SinkState, j: nat, q: Plan)
    requires Sound(a, ps, parentOf, sink) && j < |ps|
    requires q.parentId == ps[j].parentId && q.working.None? && q.request == ps[j].request
             && q.progress == ps[j].progress
    ensures Sound(a, ps[j := q], parentOf, WithoutChild(sink, ps[j].working))
  {
    hide Sound, CanPlan;
    SoundPlan(a, ps, parentOf, sink, j);
    ReleaseKeepsSound(a, ps, parentOf, sink, j, q);
  }

  /** A report names the plan whose working child it fills. */
  lemma ReportFindsOwner(a: Algorithm, w: World, f: Fill, remains: bool)
    requires WorldSound(a, w) && Possible(w, Reported(f, remains))
    ensures f.orderId in w.executor.parentOf && ParentOf(w.executor, f) == Some(w.executor.parentOf[f.orderId])
    ensures var i := IndexOfPlan(w.executor.plans, w.executor.parentOf[f.orderId]);
            i < |w.executor.plans| && w.executor.plans[i].working == Some(f.orderId)
  {
    var ps, owner := w.executor.plans, w.executor.parentOf;
    assert ChildOwned(ps, owner, w.sink, f.orderId);
    var i :| 0 <= i < |ps| && ps[i].parentId == owner[f.orderId] && ps[i].working == Some(f.orderId);
    OwnerIs(a, ps, owner, w.sink, f.orderId, IndexOfPlan(ps, owner[f.orderId]));
  }

  lemma ReportKeepsSound(a: Algorithm, w: World, f: Fill, remains: bool)
    requires WorldSound(a, w) && Possible(w, Reported(f, remains)) && LeavesNothing(w, Reported(f, remains))
    ensures WorldSound(a, Stepping(a, w, Reported(f, remains)))
  {
    hide Sound, CanPlan;
    ReportFindsOwner(a, w, f, remains);
    var ps, owner := w.executor.plans, w.executor.parentOf;
    var i := IndexOfPlan(ps, owner[f.orderId]);
    hide IndexOfPlan;
    SoundPlan(a, ps, owner, w.sink, i);
    ReleaseKeepsSound(a, ps, owner, w.sink, i, Absorbing(ps[i], f));
  }

  lemma DropKeepsSound(a: Algorithm, w: World, child: OrderId)
    requires WorldSound(a, w)
    ensures WorldSound(a, Stepping(a, w, Dropped(child)))
  {
    hide PlanSound, ChildOwned, NonNegative;
    var ps, owner, sink := w.executor.plans, w.executor.parentOf, w.sink;
    var less := WithoutChild(sink, Some(child));
    forall i | 0 <= i < |ps|
      ensures PlanSound(a, ps[i], owner, less)
    {
      LessKeepsPlan(a, ps[i], owner, sink, Some(child));
    }
    DropKeepsNatural(sink, child);
    forall c | c in less.live
      ensures ChildOwned(ps, owner, less, c)
    {
      var i := OwnerAt(ps, owner, sink, c);
      OwnedAt(ps, owner, less, c, i);
    }
  }

  lemma DropKeepsNatural(sink: SinkState, child: OrderId)
    requires NonNegative(sink)
    ensures NonNegative(WithoutChild(sink, Some(child)))
  {
  }

  lemma BeginKeepsSound(a: Algorithm, w: World, r: Request, s: Schedule, id: OrderId, price: real)
    requires WorldSound(a, w)
    ensures WorldSound(a, Stepping(a, w, Begin(r, s, id, price)))
  {
    hide CanPlan;
    var x, sink := w.executor, w.sink;
    if id != NO_ORDER && IndexOfPlan(x.plans, id) == |x.plans| && CanPlan(a, r) {
      AdmitKeepsSound(a, x.plans, x.parentOf, sink, PlaceFor(x.plans, id), NewPlan(r, s, id, price));
    }
  }

  lemma AdmitKeepsSound(a: Algorithm, ps: seq<Plan>, parentOf: map<OrderId, OrderId>, sink: SinkState, i: nat, p: Plan)
    requires Sound(a, ps, parentOf, sink) && PlanSound(a, p, parentOf, sink)
    requires i <= |ps| && (i < |ps| ==> p.parentId < ps[i].parentId)
    requires forall k :: 0 <= k < |ps| ==> ps[k].parentId != p.parentId
    requires forall k :: 0 <= k < i ==> ps[k].parentId <= p.parentId
    ensures Sound(a, ps[..i] + [p] + ps[i..], parentOf, sink)
  {
    hide PlanSound, ChildOwned, NonNegative;
    var qs := ps[..i] + [p] + ps[i..];
    AdmitAscends(ps, i, p);
    hide Ascending;
    forall k | 0 <= k < |qs|
      ensures PlanSound(a, qs[k], parentOf, sink)
    {
      InsertedPlan(ps, i, p, k);
    }
    forall c | c in sink.live
      ensures ChildOwned(qs, parentOf, sink, c)
    {
      AdmitKeepsOwner(ps, i, p, parentOf, sink, c);
    }
  }

  lemma InsertedPlan(ps: seq<Plan>, i: nat, p: Plan, k: nat)
    requires i <= |ps| && k <= |ps|
    ensures (ps[..i] + [p] + ps[i..])[k] == if k < i then ps[k] else if k == i then p else ps[k - 1]
  {
  }

  lemma AdmitKeepsOwner(ps: seq<Plan>, i: nat, p: Plan, parentOf: map<OrderId, OrderId>, sink: SinkState, c: OrderId)
    requires i <= |ps| && ChildOwned(ps, parentOf, sink, c)
    ensures ChildOwned(ps[..i] + [p] + ps[i..], parentOf, sink, c)
  {
    hide ChildOwned;
    var k := OwnerAt(ps, parentOf, sink, c);
    OwnedAt(ps[..i] + [p] + ps[i..], parentOf, sink, c, if k < i then k else k + 1);
  }

  lemma AdmitAscends(ps: seq<Plan>, i: nat, p: Plan)
    requires Ascending(ps) && i <= |ps| && (i < |ps| ==> p.parentId < ps[i].parentId)
    requires forall k :: 0 <= k < |ps| ==> ps[k].parentId != p.parentId
    requires forall k :: 0 <= k < i ==> ps[k].parentId <= p.parentId
    ensures Ascending(ps[..i] + [p] + ps[i..])
  {
    var qs := ps[..i] + [p] + ps[i..];
    forall j, k | 0 <= j < k < |qs|
      ensures qs[j].parentId < qs[k].parentId
    {
      assert j != i ==> qs[j] == ps[if j < i then j else j - 1];
      assert k != i ==> qs[k] == ps[if k < i then k else k - 1];
    }
  }

  lemma StepKeepsSound(a: Algorithm, w: World, e: Event)
    requires WorldSound(a, w) && Possible(w, e) && LeavesNothing(w, e)
    ensures WorldSound(a, Stepping(a, w, e))
  {
    var ps, owner, sink := w.executor.plans, w.executor.parentOf, w.sink;
    match e
    case Begin(r, s, id, price) => BeginKeepsSound(a, w, r, s, id, price);
    case MarketUpdate(i, ctx, approves) =>
      SweepKeepsSound(a, ps, owner, sink, i, ctx, approves, |ps|);
      AllOf(ps, Sweeping(a, ps, owner, i, ctx, sink, approves).plans);
    case Reported(f, remains) => ReportKeepsSound(a, w, f, remains);
    case Dropped(child) => DropKeepsSound(a, w, child);
    case CancelParent(id) =>
      var i := IndexOfPlan(ps, id);
      if i < |ps| && !IsFinal(ps[i].state) {
        StopKeepsSound(a, ps, owner, sink, i, ps[i].(working := None, state := Cancelled));
      }
    case ExpireAt(now) =>
      ExpiryKeepsSound(a, ps, owner, sink, now, |ps|);
      AllOf(ps, Expiring(ps, sink, now).0);
  }

  lemma AllOf(ps: seq<Plan>, qs: seq<Plan>)
    ensures ps[..|ps|] == ps && qs + ps[|ps|..] == qs
  {
  }

  /** Over every run in which no fill leaves a remainder working, no parent is ever overfilled: what is filled and
      what its working child may still fill fit the parent's quantity. */
  lemma {:induction false} NeverOverfilled(a: Algorithm, events: seq<Event>)
    requires PossibleRun(a, events) && DisciplinedRun(a, events)
    ensures WorldSound(a, After(a, events))
    ensures var w := After(a, events);
            forall p :: p in w.executor.plans ==>
              0.0 <= p.progress.filled <= p.progress.filled + Outstanding(p, w.sink) <= p.Quantity()
  {
    hide Stepping, Sound;
    if events == [] {
      FreshIsSound(a);
    } else {
      NeverOverfilled(a, events[..|events| - 1]);
      StepKeepsSound(a, After(a, events[..|events| - 1]), events[|events| - 1]);
    }
    var w := After(a, events);
    forall p | p in w.executor.plans
      ensures 0.0 <= p.progress.filled <= p.progress.filled + Outstanding(p, w.sink) <= p.Quantity()
    {
      var i :| 0 <= i < |w.executor.plans| && w.executor.plans[i] == p;
      SoundPlan(a, w.executor.plans, w.executor.parentOf, w.sink, i);
    }
  }

  lemma FreshIsSound(a: Algorithm)
    ensures WorldSound(a, FRESH)
  {
  }

  /** A fill keeps the invariant exactly when it leaves nothing of its child working: a partial fill of a resting child
      frees the plan to send another one while the first can still fill. */
  lemma FillKeepsSoundIff(a: Algorithm, w: World, f: Fill, remains: bool)
    requires WorldSound(a, w) && Possible(w, Reported(f, remains))
    ensures WorldSound(a, Stepping(a, w, Reported(f, remains))) <==> LeavesNothing(w, Reported(f, remains))
  {
    if LeavesNothing(w, Reported(f, remains)) {
      ReportKeepsSound(a, w, f, remains);
    } else {
      ReportFindsOwner(a, w, f, remains);
      StrandsChild(a, w, f, remains);
    }
  }

  lemma StrandsChild(a: Algorithm, w: World, f: Fill, remains: bool)
    requires WorldSound(a, w) && Possible(w, Reported(f, remains)) && !LeavesNothing(w, Reported(f, remains))
    ensures !WorldSound(a, Stepping(a, w, Reported(f, remains)))
  {
    hide CanPlan;
    ReportFindsOwner(a, w, f, remains);
    var ps, owner, c := w.executor.plans, w.executor.parentOf, f.orderId;
    var i := IndexOfPlan(ps, owner[c]);
    var after := Stepping(a, w, Reported(f, remains));
    var qs := after.executor.plans;
    hide IndexOfPlan;
    assert qs == ps[i := Absorbing(ps[i], f)] && qs[i].working.None?;
    if WorldSound(a, after) {
      OwnerIs(a, qs, owner, after.sink, c, i);
      assert false;
    }
  }
}
