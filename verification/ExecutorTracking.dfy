/** How closely an execution follows its schedule, and a run that overfills its parent. */
module ExecutorTracking {
  import opened Types
  import opened TimeChain
  import opened Orders
  import opened Schedules
  import opened Algorithms
  import opened Executors
  import opened ExecutorRuns

  // ---------------------------------------------------------------------------
  // Tracking
  // ---------------------------------------------------------------------------

  /** The venue fills a child whole, at some price. */
  function WholeFill(p: Plan, id: OrderId, quantity: real, price: real, at: Timestamp): Fill {
    Fill(id, p.parentId, p.request.parent.instrument, p.request.parent.side, price, quantity, 0.0, 0.0, Taker,
         NO_TIMES.(fill := at), p.arrivalPrice)
  }

  /** A sink that accepts every order. */
  predicate PassesAll(o: OrderData) {
    true
  }

  /** A market event, and when and at what price the child it sends, if any, is reported filled. */
  datatype Round = Round(ctx: Context, price: real, at: Timestamp)

  /** An event at which every order passes the sink, and the whole fill of the child reported before the next event. */
  function Turn(a: Algorithm, p: Plan, x: Round, next: OrderId): Plan {
    var v := Visiting(a, p, p.request.parent.instrument, x.ctx, SinkState(next, map[]), PassesAll);
    if v.sent then Absorbing(v.plan, WholeFill(v.plan, next, v.sink.live[next], x.price, x.at)) else v.plan
  }

  function Turns(a: Algorithm, p: Plan, rounds: seq<Round>): Plan {
    if rounds == [] then p
    else Turn(a, Turns(a, p, rounds[..|rounds| - 1]), rounds[|rounds| - 1], |rounds|)
  }

  /** A turn is two events of an executor that works this plan: the market update, then the report of its child. */
  lemma TurnIsTwoEvents(a: Algorithm, p: Plan, x: Round, next: OrderId, owner: map<OrderId, OrderId>)
    requires p.parentId != NO_ORDER && CanPlan(a, p.request)
    ensures var w := World(ExecutorState([p], owner), SinkState(next, map[]));
            var sent := Stepping(a, w, MarketUpdate(p.request.parent.instrument, x.ctx, PassesAll));
            if next !in sent.sink.live then sent.executor.plans == [Turn(a, p, x, next)]
            else
              && |sent.executor.plans| == 1
              && var report := Reported(WholeFill(sent.executor.plans[0], next, sent.sink.live[next], x.price, x.at),
                                        false);
                 Possible(sent, report) && Stepping(a, sent, report).executor.plans == [Turn(a, p, x, next)]
  {
    var i, sink := p.request.parent.instrument, SinkState(next, map[]);
    var v := Visiting(a, p, i, x.ctx, sink, PassesAll);
    SweepsOne(a, p, owner, i, x.ctx, sink);
    SendsIfLive(a, p, i, x.ctx, next);
    hide Visiting, Sweeping, Absorbing, CanPlan;
    if v.sent {
      var w := World(ExecutorState([v.plan], owner[next := p.parentId]), v.sink);
      assert w.executor.plans[0] == v.plan;
    }
  }

  /** The sweep over one plan. */
  lemma SweepsOne(a: Algorithm, p: Plan, owner: map<OrderId, OrderId>, i: InstrumentId, ctx: Context, sink: SinkState)
    ensures var v, swept := Visiting(a, p, i, ctx, sink, PassesAll), Sweeping(a, [p], owner, i, ctx, sink, PassesAll);
            && swept.plans == [v.plan] && swept.sink == v.sink
            && swept.parentOf == if v.sent then owner[sink.next := p.parentId] else owner
  {
    hide Visiting;
    assert [p][..0] == [] && [p][0] == p;
    var v := Visiting(a, p, i, ctx, sink, PassesAll);
    assert [] + [v.plan] == [v.plan];
  }

  lemma SendsIfLive(a: Algorithm, p: Plan, i: InstrumentId, ctx: Context, next: OrderId)
    requires CanPlan(a, p.request)
    ensures var v := Visiting(a, p, i, ctx, SinkState(next, map[]), PassesAll);
            && v.plan.parentId == p.parentId && v.plan.request == p.request
            && (v.sent <==> next in v.sink.live) && (v.sent ==> v.sink.live[next] > 0.0)
  {
    hide NextChild, CanPlan;
  }

  /** No cap, lot or minimum clip can bind for this parent. */
  predicate Unconstrained(r: Request, ctx: Context) {
    && r.policy.minClip == 0.0 && r.policy.maxDisplay <= 0.0 && r.policy.lotSize <= 0.0
    && (ctx.volume <= 0.0 || ctx.volume * r.policy.maxParticipation >= r.parent.quantity)
  }

  /** The events of a scheduled execution, each with its fill reported before the next one. */
  predicate Follows(a: Algorithm, r: Request, rounds: seq<Round>) {
    && (a == TwapAlgorithm || a == VwapAlgorithm)
    && (forall i :: 0 <= i < |rounds| ==>
          Releasable(r, rounds[i].ctx) && IsSet(rounds[i].ctx.now) && rounds[i].ctx.now <= rounds[i].at)
    && forall i, j :: 0 <= i < j < |rounds| ==> rounds[i].at <= rounds[j].ctx.now
  }

  predicate NothingBinds(r: Request, rounds: seq<Round>) {
    forall i :: 0 <= i < |rounds| ==> Unconstrained(r, rounds[i].ctx)
  }

  /** What a plan has filled against what its schedule asks for. */
  predicate OnTrack(p: Plan, due: real) {
    && (p.state == Pending || p.state == Working || p.state == Completed)
    && p.working.None? && p.progress.remaining == Max(0.0, p.Quantity() - p.progress.filled)
    && due - TOLERANCE <= p.progress.filled <= due
    && (p.progress.filled == due || p.state == Completed)
    && (p.state == Completed ==> p.progress.Complete(p.Quantity()))
  }

  /** Nothing binds, so the clip is simply what is due and not yet filled. */
  lemma UnconstrainedClip(r: Request, ctx: Context, desired: real, remaining: real)
    requires Unconstrained(r, ctx) && 0.0 <= desired <= remaining <= r.parent.quantity
    ensures Capped(r.policy, ctx.volume, desired, remaining) == desired
  {
  }

  /** An execution behind its schedule sends exactly what it is behind, at the market. */
  lemma SendsWhatIsDue(a: Algorithm, p: Plan, ctx: Context)
    requires CanPlan(a, p.request) && (a == TwapAlgorithm || a == VwapAlgorithm)
    requires Releasable(p.request, ctx) && Unconstrained(p.request, ctx)
    requires p.progress.remaining == p.Quantity() - p.progress.filled && 0.0 <= p.progress.filled
    requires p.progress.filled <= TargetBy(p.schedule, ctx.now) <= p.Quantity()
    ensures var c := NextChild(a, p.request, p.schedule, p.progress, ctx);
            var missing := TargetBy(p.schedule, ctx.now) - p.progress.filled;
            if missing <= 0.0 then c.None?
            else c.Some? && c.value.Valid() && c.value.quantity == missing && c.value.orderType == OrderType.Market
                 && c.value.instrument == p.request.parent.instrument
  {
    hide TargetBy, Releasable, SliceAt;
    UnconstrainedClip(p.request, ctx, TargetBy(p.schedule, ctx.now) - p.progress.filled, p.progress.remaining);
    hide Capped, Unconstrained, CanPlan;
  }

  /** A child that is sent and filled whole moves the plan's fills by its quantity. */
  lemma FilledWhole(p: Plan, c: ChildOrder, now: Timestamp, next: OrderId, price: real, at: Timestamp)
    requires c.Valid() && c.orderType == OrderType.Market && next != NO_ORDER && IsSet(now)
    ensures var v := Emitting(p, c, now, SinkState(next, map[]), PassesAll);
            && v.sent && next in v.sink.live && v.sink.live[next] == c.quantity
            && var q := Absorbing(v.plan, WholeFill(v.plan, next, c.quantity, price, at));
               && q.request == p.request && q.schedule == p.schedule && q.working.None?
               && q.progress.filled == p.progress.filled + c.quantity
               && q.progress.remaining == Max(0.0, p.Quantity() - q.progress.filled)
               && q.state == if q.progress.Complete(p.Quantity()) then Completed else Working
  {
  }

  /** One event brings an execution that may be behind its schedule up to it. */
  lemma TurnCatchesUp(a: Algorithm, p: Plan, x: Round, next: OrderId, before: real)
    requires CanPlan(a, p.request) && Follows(a, p.request, [x]) && NothingBinds(p.request, [x]) && next != NO_ORDER
    requires IsSchedule(p.schedule, p.Quantity(), p.request.windowBegin, p.request.windowEnd)
    requires OnTrack(p, before) && 0.0 <= before <= TargetBy(p.schedule, x.ctx.now)
    ensures OnTrack(Turn(a, p, x, next), TargetBy(p.schedule, x.ctx.now))
    ensures var q := Turn(a, p, x, next); q.request == p.request && q.schedule == p.schedule
  {
    var r, due, ctx := p.request, TargetBy(p.schedule, x.ctx.now), x.ctx;
    assert Releasable(r, [x][0].ctx) && IsSet([x][0].ctx.now) && Unconstrained(r, [x][0].ctx);
    TargetGrows(p.schedule, p.Quantity(), r.windowBegin, r.windowEnd, ctx.now, ctx.now);
    hide TargetBy, IsSchedule, Follows, NothingBinds, CanPlan, NextChild, Emitting, Absorbing, Releasable;
    if p.state != Completed && !p.progress.Complete(p.Quantity()) {
      SendsWhatIsDue(a, p, ctx);
      var c := NextChild(a, r, p.schedule, p.progress, ctx);
      if c.Some? {
        FilledWhole(p, c.value, ctx.now, next, x.price, x.at);
      }
    }
  }

  lemma OnlyDecision(now: Timestamp)
    ensures ChainOk(NO_TIMES.(decision := now))
  {
  }

  /** With no cap binding, every child filled whole and every order passing, a twap or vwap execution has filled exactly
      its schedule's target at the last event, except that completion within the tolerance stops it. */
  lemma {:induction false} TracksSchedule(a: Algorithm, r: Request, s: Schedule, id: OrderId, rounds: seq<Round>,
                                          price: real)
    requires CanPlan(a, r) && Follows(a, r, rounds) && NothingBinds(r, rounds) && rounds != []
    requires IsSchedule(s, r.parent.quantity, r.windowBegin, r.windowEnd)
    ensures var p := Turns(a, NewPlan(r, s, id, price), rounds);
            OnTrack(p, TargetBy(s, rounds[|rounds| - 1].ctx.now)) && p.request == r && p.schedule == s
  {
    var front, last := rounds[..|rounds| - 1], rounds[|rounds| - 1];
    var first := NewPlan(r, s, id, price);
    var p := Turns(a, first, front);
    var before := if front == [] then 0.0 else TargetBy(s, front[|front| - 1].ctx.now);
    assert Follows(a, r, front) && Follows(a, r, [last]) && NothingBinds(r, front) && NothingBinds(r, [last]);
    if front != [] {
      TracksSchedule(a, r, s, id, front, price);
      assert front[|front| - 1].ctx.now <= front[|front| - 1].at <= last.ctx.now;
      TargetGrows(s, r.parent.quantity, r.windowBegin, r.windowEnd, front[|front| - 1].ctx.now, last.ctx.now);
    } else {
      TargetGrows(s, r.parent.quantity, r.windowBegin, r.windowEnd, last.ctx.now, last.ctx.now);
    }
    hide Follows, NothingBinds, TargetBy, Turn, IsSchedule;
    TurnCatchesUp(a, p, last, |rounds|, before);
  }

  /** Before its end a schedule whose last slice carries quantity is not through. */
  lemma UnfinishedBeforeEnd(s: Schedule, total: real, begin: Timestamp, end: Timestamp, t: Timestamp)
    requires IsSchedule(s, total, begin, end) && t < end && s[|s| - 1].target > 0.0
    ensures TargetBy(s, t) < total
  {
    TargetIsAccrued(s, total, begin, end, t);
    TargetIsAccrued(s, total, begin, end, end);
    TargetGrows(s, total, begin, end, end, end);
    ScheduleIsWellFormed(s, total, begin, end);
    hide TargetBy;
    AccruedGrows(s[..|s| - 1], t, end);
    DueBeforeEnd(s[|s| - 1], t);
    DueOutside(s[|s| - 1], end);
    hide Due;
  }

  lemma DueBeforeEnd(slice: Slice, t: Timestamp)
    requires t < slice.end && slice.target > 0.0
    ensures Due(slice, t) < slice.target
  {
  }

  /** An active plan that is behind its schedule and has no more left than a clip. */
  predicate WithinAClip(p: Plan, now: Timestamp) {
    && !IsFinal(p.state) && !p.progress.Complete(p.Quantity())
    && p.progress.filled < TargetBy(p.schedule, now) && p.progress.remaining <= p.request.policy.minClip
  }

  /** A plan between events of a run in which every child is filled whole. */
  predicate Settled(a: Algorithm, p: Plan) {
    && CanPlan(a, p.request) && p.working.None? && (p.state == Pending || p.state == Working || p.state == Completed)
    && 0.0 <= p.progress.filled <= p.Quantity() && p.progress.remaining == p.Quantity() - p.progress.filled
    && (p.state == Completed ==> p.progress.Complete(p.Quantity()))
    && IsSchedule(p.schedule, p.Quantity(), p.request.windowBegin, p.request.windowEnd)
    && p.schedule[|p.schedule| - 1].target > 0.0
  }

  /** Before the end of the window a clip takes all that remains exactly when no more remains than the minimum clip. */
  lemma TakesTheRestIff(policy: Policy, volume: real, desired: real, remaining: real)
    requires policy.maxParticipation > 0.0 && policy.minClip >= 0.0 && remaining > 0.0 && desired < remaining
    ensures Capped(policy, volume, desired, remaining) == remaining <==> desired > 0.0 && remaining <= policy.minClip
  {
    CapsHold(policy, volume, desired, remaining);
    if desired > 0.0 && remaining <= policy.minClip {
      ResidueGoesOutWhole(policy, volume, desired, remaining);
    }
    hide Capped;
  }

  /** One event fills the whole parent exactly when it was filled, or is within a clip and behind its schedule. */
  lemma TurnFillsTheWholeIff(a: Algorithm, p: Plan, x: Round, next: OrderId)
    requires Settled(a, p) && Follows(a, p.request, [x]) && next != NO_ORDER
    ensures var q := Turn(a, p, x, next);
            && Settled(a, q) && q.request == p.request && q.schedule == p.schedule
            && (q.progress.filled == p.Quantity()
                <==> p.progress.filled == p.Quantity() || WithinAClip(p, x.ctx.now))
  {
    var r, ctx := p.request, x.ctx;
    assert Releasable(r, [x][0].ctx) && IsSet([x][0].ctx.now);
    UnfinishedBeforeEnd(p.schedule, p.Quantity(), r.windowBegin, r.windowEnd, ctx.now);
    var desired := TargetBy(p.schedule, ctx.now) - p.progress.filled;
    if !IsFinal(p.state) && !p.progress.Complete(p.Quantity()) {
      TakesTheRestIff(r.policy, ctx.volume, desired, p.progress.remaining);
      CapsHold(r.policy, ctx.volume, desired, p.progress.remaining);
      ScheduledChild(a, p, ctx);
      hide IsSchedule, TargetBy, Follows, CanPlan, NextChild, Emitting, Absorbing, Releasable, Capped, FinalResidue;
      var c := NextChild(a, r, p.schedule, p.progress, ctx);
      if c.Some? {
        FilledWhole(p, c.value, ctx.now, next, x.price, x.at);
      }
    } else {
      hide IsSchedule, TargetBy, Follows, CanPlan, NextChild, Emitting, Absorbing, Releasable;
    }
  }

  lemma ScheduledChild(a: Algorithm, p: Plan, ctx: Context)
    requires CanPlan(a, p.request) && (a == TwapAlgorithm || a == VwapAlgorithm) && Releasable(p.request, ctx)
    ensures var c := NextChild(a, p.request, p.schedule, p.progress, ctx);
            var clip := Clip(p.request, p.schedule, p.progress, ctx);
            if clip <= 0.0 then c.None?
            else c.Some? && c.value.Valid() && c.value.quantity == clip && c.value.orderType == OrderType.Market
                 && c.value.instrument == p.request.parent.instrument
  {
    hide Clip, Releasable, SliceAt, TargetBy;
  }

  /** The plan as the n-th event finds it. */
  function PlanBefore(a: Algorithm, r: Request, s: Schedule, id: OrderId, rounds: seq<Round>, price: real, n: nat): Plan
    requires n <= |rounds|
  {
    Turns(a, NewPlan(r, s, id, price), rounds[..n])
  }

  predicate ClipsAt(a: Algorithm, r: Request, s: Schedule, id: OrderId, rounds: seq<Round>, price: real, n: nat)
    requires n < |rounds|
  {
    WithinAClip(PlanBefore(a, r, s, id, rounds, price, n), rounds[n].ctx.now)
  }

  /** Some event finds the plan behind its schedule with no more left than the minimum clip. */
  predicate SomeClip(a: Algorithm, r: Request, s: Schedule, id: OrderId, rounds: seq<Round>, price: real) {
    exists n :: 0 <= n < |rounds| && ClipsAt(a, r, s, id, rounds, price, n)
  }

  lemma SomeClipOneMore(a: Algorithm, r: Request, s: Schedule, id: OrderId, rounds: seq<Round>, price: real)
    requires rounds != []
    ensures var last := |rounds| - 1;
            SomeClip(a, r, s, id, rounds, price)
            <==> SomeClip(a, r, s, id, rounds[..last], price)
                 || WithinAClip(Turns(a, NewPlan(r, s, id, price), rounds[..last]), rounds[last].ctx.now)
  {
    hide WithinAClip, Turns, NewPlan;
    var last := |rounds| - 1;
    var front := rounds[..last];
    assert forall n :: 0 <= n <= last ==> front[..n] == rounds[..n];
    assert forall n :: 0 <= n < last ==>
             (ClipsAt(a, r, s, id, front, price, n) <==> ClipsAt(a, r, s, id, rounds, price, n));
    assert ClipsAt(a, r, s, id, rounds, price, last)
      <==> WithinAClip(Turns(a, NewPlan(r, s, id, price), front), rounds[last].ctx.now);
    hide ClipsAt;
  }

  /** Whatever the policy and the volumes, a scheduled execution whose children are filled whole fills its whole parent
      exactly when some event finds it behind its schedule with no more left than the minimum clip. Its schedule alone
      never does: children are only released before the window closes, and the last slice is still owed in part then. */
  lemma {:induction false} FillsTheWholeIff(a: Algorithm, r: Request, s: Schedule, id: OrderId, rounds: seq<Round>,
                                            price: real)
    requires CanPlan(a, r) && Follows(a, r, rounds)
    requires IsSchedule(s, r.parent.quantity, r.windowBegin, r.windowEnd) && s[|s| - 1].target > 0.0
    ensures var p := Turns(a, NewPlan(r, s, id, price), rounds);
            && Settled(a, p) && p.request == r && p.schedule == s
            && (p.progress.filled == r.parent.quantity <==> SomeClip(a, r, s, id, rounds, price))
  {
    hide Turn, Settled, WithinAClip, IsSchedule, CanPlan, SomeClip;
    if rounds == [] {
      StartsSettled(a, r, s, id, price);
      NothingClips(a, r, s, id, price);
    } else {
      var last := |rounds| - 1;
      var front := rounds[..last];
      assert Follows(a, r, front) && Follows(a, r, [rounds[last]]);
      hide Follows;
      FillsTheWholeIff(a, r, s, id, front, price);
      TurnFillsTheWholeIff(a, Turns(a, NewPlan(r, s, id, price), front), rounds[last], last + 1);
      SomeClipOneMore(a, r, s, id, rounds, price);
    }
  }

  lemma NothingClips(a: Algorithm, r: Request, s: Schedule, id: OrderId, price: real)
    ensures !SomeClip(a, r, s, id, [], price)
  {
  }

  lemma StartsSettled(a: Algorithm, r: Request, s: Schedule, id: OrderId, price: real)
    requires CanPlan(a, r)
    requires IsSchedule(s, r.parent.quantity, r.windowBegin, r.windowEnd) && s[|s| - 1].target > 0.0
    ensures var p := NewPlan(r, s, id, price); Settled(a, p) && p.progress.filled != r.parent.quantity
  {
  }

  // ---------------------------------------------------------------------------
  // Overfilling
  // ---------------------------------------------------------------------------

  const PATIENT := Policy(1.0, 0.0, 0.0, 100.0, Day, false, 0, 0, 0.0)

  const BIG: OrderData := OrderData(7, 0, 0, Buy, 100.0, OrderType.Market, Day, None, None, NO_TIMES.(decision := 0),
                                    0.0)

  function BigRequest(): Request {
    OnlyDecision(0);
    Request(BIG, 0, 1000, PATIENT, 1, [])
  }

  function OpenMarket(now: Timestamp): Context {
    Context(now, true, 10.0, 10.0, 0.0, NO_TIMESTAMP, NO_TIMESTAMP)
  }

  function Part(child: OrderId, quantity: real): Fill {
    Fill(child, 7, 0, Buy, 10.0, quantity, 0.0, 0.0, Taker, NO_TIMES, 0.0)
  }

  /** A day order for the whole parent fills 40 of 100; the next event sends the missing 60 while the first order
      still rests with 60. */
  function OverfillRun(): seq<Event> {
    [Begin(BigRequest(), [Slice(0, 0, 1000, 100.0, 100.0)], 7, 10.0),
     MarketUpdate(0, OpenMarket(1), PassesAll),
     Reported(Part(1, 40.0), true),
     MarketUpdate(0, OpenMarket(2), PassesAll),
     Reported(Part(1, 60.0), false),
     Reported(Part(2, 60.0), false)]
  }

  function BigPlan(progress: Progress, state: ExecutionState, children: seq<OrderId>, working: Option<OrderId>): Plan {
    Plan(7, BigRequest(), [Slice(0, 0, 1000, 100.0, 100.0)], progress, state, NO_TIMESTAMP, 10.0, children, working)
  }

  /** A plan without a child sends all that remains. */
  lemma SendsTheRemainder(progress: Progress, state: ExecutionState, children: seq<OrderId>, now: Timestamp,
                          sink: SinkState, parentOf: map<OrderId, OrderId>)
    requires 0 <= now < 1000 && progress.remaining > 0.0 && sink.next > 0 && !IsFinal(state)
    requires progress.filled + TOLERANCE < 100.0
    ensures var w := World(ExecutorState([BigPlan(progress, state, children, None)], parentOf), sink);
            var sent := BigPlan(progress.(released := progress.released + 1), Working, children + [sink.next],
                                Some(sink.next));
            Stepping(Immediate, w, MarketUpdate(0, OpenMarket(now), PassesAll))
            == World(ExecutorState([sent], parentOf[sink.next := 7]),
                     SinkState(sink.next + 1, sink.live[sink.next := progress.remaining]))
  {
    OnlyDecision(now);
    var p := BigPlan(progress, state, children, None);
    var c := Child(p.request, progress.remaining, OrderType.Market, None, progress.released, 0.0);
    assert Capped(PATIENT, 0.0, progress.remaining, progress.remaining) == progress.remaining;
    assert NextChild(Immediate, p.request, p.schedule, progress, OpenMarket(now)) == Some(c);
    assert OrderFor(p, c, sink.next, now).Valid();
    var v := Visiting(Immediate, p, 0, OpenMarket(now), sink, PassesAll);
    assert v.sent && v.plan.children == children + [sink.next];
    assert [p][..1] == [p] && [p][..0] == [];
    hide Visiting;
    assert Sweeping(Immediate, [p], parentOf, 0, OpenMarket(now), sink, PassesAll)
        == Swept([] + [v.plan], parentOf[sink.next := 7], v.sink, 0 + 1);
  }

  /** A fill of one of the plan's children. */
  lemma AbsorbsPart(progress: Progress, state: ExecutionState, children: seq<OrderId>, working: Option<OrderId>,
                    child: OrderId, quantity: real, remains: bool, sink: SinkState, parentOf: map<OrderId, OrderId>)
    requires quantity > 0.0
    ensures var w := World(ExecutorState([BigPlan(progress, state, children, working)], parentOf), sink);
            var filled := progress.filled + quantity;
            var after := Progress(filled, Max(0.0, 100.0 - filled), progress.notional + 10.0 * quantity, progress.costs,
                                  progress.released, progress.slicesFilled + 1);
            var live := if remains && child in sink.live && quantity < sink.live[child]
                        then sink.live[child := sink.live[child] - quantity] else sink.live - {child};
            Stepping(Immediate, w, Reported(Part(child, quantity), remains))
            == World(ExecutorState([BigPlan(after, if after.Complete(100.0) then Completed else state, children,
                                            if working == Some(child) then None else working)], parentOf),
                     sink.(live := live))
  {
  }

  const ONE_CHILD: map<OrderId, OrderId> := map[1 := 7]
  const TWO_CHILDREN: map<OrderId, OrderId> := map[1 := 7, 2 := 7]
  const UNFILLED := Progress(0.0, 100.0, 0.0, 0.0, 0, 0)
  const FILLED_40 := Progress(40.0, 60.0, 400.0, 0.0, 1, 1)
  const FILLED_100 := Progress(100.0, 0.0, 1000.0, 0.0, 2, 2)

  function OnlyPlan(p: Plan, owner: map<OrderId, OrderId>, sink: SinkState): World {
    World(ExecutorState([p], owner), sink)
  }

  /** The first child works for 100. */
  function FirstSent(): World {
    OnlyPlan(BigPlan(UNFILLED.(released := 1), Working, [1], Some(1)), ONE_CHILD, SinkState(2, map[1 := 100.0]))
  }

  /** It has filled 40 and works on. */
  function FirstInPart(): World {
    OnlyPlan(BigPlan(FILLED_40, Working, [1], None), ONE_CHILD, SinkState(2, map[1 := 60.0]))
  }

  /** The second works for 60 beside it. */
  function SecondSent(): World {
    OnlyPlan(BigPlan(FILLED_40.(released := 2), Working, [1, 2], Some(2)), TWO_CHILDREN,
             SinkState(3, map[1 := 60.0, 2 := 60.0]))
  }

  /** The first is done, and with it the parent. */
  function FirstDone(): World {
    OnlyPlan(BigPlan(FILLED_100, Completed, [1, 2], Some(2)), TWO_CHILDREN, SinkState(3, map[2 := 60.0]))
  }

  lemma OverfillBegins()
    ensures After(Immediate, OverfillRun()[..2]) == FirstSent()
  {
    hide Stepping, BigRequest;
    var run := OverfillRun();
    assert run[..2][..1] == run[..1] && run[..1][..0] == [];
    Begun();
    var none: map<OrderId, OrderId>, idle: map<OrderId, real>, childless: seq<OrderId> := map[], map[], [];
    SendsTheRemainder(UNFILLED, Pending, childless, 1, SinkState(1, idle), none);
    assert childless + [1] == [1] && none[1 := 7] == ONE_CHILD && idle[1 := 100.0] == map[1 := 100.0];
    assert After(Immediate, run[..1])
           == OnlyPlan(BigPlan(UNFILLED, Pending, childless, None), none, SinkState(1, idle));
  }

  lemma FillsInPart()
    ensures After(Immediate, OverfillRun()[..3]) == FirstInPart()
  {
    OverfillBegins();
    hide Stepping, BigRequest, After;
    var run := OverfillRun();
    assert run[..3][..2] == run[..2] && run[..3][2] == Reported(Part(1, 40.0), true);
    AbsorbsPart(UNFILLED.(released := 1), Working, [1], Some(1), 1, 40.0, true, SinkState(2, map[1 := 100.0]),
                ONE_CHILD);
    assert map[1 := 100.0][1 := 60.0] == map[1 := 60.0];
    AfterOneMore(run[..3]);
  }

  lemma AfterOneMore(events: seq<Event>)
    requires events != []
    ensures After(Immediate, events)
            == Stepping(Immediate, After(Immediate, events[..|events| - 1]), events[|events| - 1])
  {
  }

  lemma SendsAgain()
    ensures After(Immediate, OverfillRun()[..4]) == SecondSent()
  {
    FillsInPart();
    hide Stepping, BigRequest, After;
    var run := OverfillRun();
    assert run[..4][..3] == run[..3] && run[..4][3] == MarketUpdate(0, OpenMarket(2), PassesAll);
    SendsTheRemainder(FILLED_40, Working, [1], 2, SinkState(2, map[1 := 60.0]), ONE_CHILD);
    assert [1] + [2] == [1, 2] && ONE_CHILD[2 := 7] == TWO_CHILDREN;
    assert map[1 := 60.0][2 := 60.0] == map[1 := 60.0, 2 := 60.0];
    AfterOneMore(run[..4]);
  }

  lemma FillsTheFirst()
    ensures After(Immediate, OverfillRun()[..5]) == FirstDone()
  {
    SendsAgain();
    hide Stepping, BigRequest, After;
    var run := OverfillRun();
    assert run[..5][..4] == run[..4] && run[..5][4] == Reported(Part(1, 60.0), false);
    AbsorbsPart(FILLED_40.(released := 2), Working, [1, 2], Some(2), 1, 60.0, false,
                SinkState(3, map[1 := 60.0, 2 := 60.0]), TWO_CHILDREN);
    assert map[1 := 60.0, 2 := 60.0] - {1} == map[2 := 60.0];
    AfterOneMore(run[..5]);
  }

  lemma FillsTheSecond()
    ensures var plans := After(Immediate, OverfillRun()).executor.plans;
            |plans| == 1 && plans[0].Quantity() == 100.0 && plans[0].progress.filled == 160.0
  {
    FillsTheFirst();
    hide Stepping, BigRequest, After;
    var run := OverfillRun();
    assert run[..|run| - 1] == run[..5];
    AbsorbsPart(FILLED_100, Completed, [1, 2], Some(2), 2, 60.0, false, SinkState(3, map[2 := 60.0]), TWO_CHILDREN);
    ThatIsAHundred();
    AfterOneMore(run);
  }

  lemma PossibleOneMore(events: seq<Event>)
    requires events != [] && PossibleRun(Immediate, events[..|events| - 1])
    requires Possible(After(Immediate, events[..|events| - 1]), events[|events| - 1])
    ensures PossibleRun(Immediate, events)
  {
  }

  /** The run is one the venue can produce, and its parent of 100 ends up with 160. */
  lemma OverfillExample()
    ensures PossibleRun(Immediate, OverfillRun())
    ensures var plans := After(Immediate, OverfillRun()).executor.plans;
            |plans| == 1 && plans[0].Quantity() == 100.0 && plans[0].progress.filled == 160.0
  {
    OverfillBegins();
    SendsAgain();
    FillsTheFirst();
    FillsTheSecond();
    hide After, BigRequest, PossibleRun;
    var run := OverfillRun();
    assert run[..1][..0] == [] && run[..2][..1] == run[..1] && run[..3][..2] == run[..2] && run[..4][..3] == run[..3];
    assert run[..5][..4] == run[..4] && run[..|run| - 1] == run[..5];
    NothingIsPossible();
    PossibleOneMore(run[..1]);
    PossibleOneMore(run[..2]);
    PossibleOneMore(run[..3]);
    PossibleOneMore(run[..4]);
    PossibleOneMore(run[..5]);
    PossibleOneMore(run);
  }

  lemma NothingIsPossible()
    ensures PossibleRun(Immediate, [])
  {
  }

  lemma ThatIsAHundred()
    ensures BigRequest().parent.quantity == 100.0
  {
  }

  lemma Begun()
    ensures Stepping(Immediate, FRESH, OverfillRun()[0])
            == World(ExecutorState([BigPlan(Progress(0.0, 100.0, 0.0, 0.0, 0, 0), Pending, [], None)], map[]),
                     SinkState(1, map[]))
  {
  }
}
