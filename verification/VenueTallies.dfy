/** The venue's statistics against what happened: every order that was accepted is accounted for. */
module VenueTallies {
  import opened Types
  import opened TimeChain
  import opened Orders
  import opened Venue
  import opened VenueTrades

  predicate Open(ps: seq<PendingOrder>) {
    forall k :: 0 <= k < |ps| ==> ps[k].Remaining() > 0.0
  }

  predicate NoImmediate(ps: seq<PendingOrder>) {
    forall k :: 0 <= k < |ps| ==> ps[k].order.tif != ImmediateOrCancel
  }

  /** The orders that the statistics say have ended at the venue's own hand: killed, or filled but not in part. */
  function Ended(stats: ExecutionStats): int {
    stats.fokKilled + stats.fills - stats.partialFills
  }

  function Commissions(fills: seq<Fill>): real {
    if fills == [] then 0.0 else fills[0].commission + Commissions(fills[1..])
  }

  /** What a visit adds: a trade one fill and its commission, in part when it leaves more than a billionth of a share;
      a kill of a due and open order that must be filled whole and cannot be, one kill. */
  lemma VisitAdds(p: PendingOrder, i: InstrumentId, st: MarketState, now: Timestamp, cfg: FillConfig, m: Models,
                  budget: real, slips: nat, stats: ExecutionStats)
    ensures var visit := VisitOrder(p, i, st, now, cfg, m, budget, slips);
            var after := StatsAfter(stats, visit);
            && after.accepted == stats.accepted && after.rejected == stats.rejected
            && after.fills == stats.fills + (if visit.Trade? then 1 else 0)
            && after.commission == stats.commission + (if visit.Trade? then visit.fill.commission else 0.0)
            && after.partialFills == stats.partialFills
                 + (if visit.Trade? && p.Remaining() - visit.fill.quantity > 0.000000001 then 1 else 0)
            && after.fokKilled == stats.fokKilled
                 + (if visit.Discard? && p.Remaining() > 0.0 then 1 else 0)
  {
    if VisitOrder(p, i, st, now, cfg, m, budget, slips).Trade? {
      TradedQuantity(p, i, st, now, cfg, m, budget, slips);
    }
    hide FillOf, Allowance;
  }

  /** The orders kept are open, and no more than those that have not ended; exactly those when none is immediate. */
  predicate Accounts(ps: seq<PendingOrder>, before: ExecutionStats, kept: seq<PendingOrder>, after: ExecutionStats) {
    && |kept| + Ended(after) - Ended(before) <= |ps| && Open(kept)
    && (NoImmediate(ps) ==> |kept| + Ended(after) - Ended(before) == |ps| && NoImmediate(kept))
  }

  /** And what it leaves of an open order: nothing, once killed or filled to the end; an immediate order nothing after
      any trade. */
  lemma VisitLeaves(p: PendingOrder, i: InstrumentId, st: MarketState, now: Timestamp, cfg: FillConfig, m: Models,
                    budget: real, slips: nat, stats: ExecutionStats)
    requires p.Remaining() > 0.0
    ensures var visit := VisitOrder(p, i, st, now, cfg, m, budget, slips);
            Accounts([p], stats, LeftBy(visit), StatsAfter(stats, visit))
  {
    assert NoImmediate([p]) ==> [p][0].order.tif != ImmediateOrCancel;
    if VisitOrder(p, i, st, now, cfg, m, budget, slips).Trade? {
      TradedQuantity(p, i, st, now, cfg, m, budget, slips);
    }
    hide FillOf, Allowance;
  }

  lemma AccountsTogether(ps: seq<PendingOrder>, left: seq<PendingOrder>, kept: seq<PendingOrder>,
                         before: ExecutionStats, middle: ExecutionStats, after: ExecutionStats)
    requires ps != [] && Accounts([ps[0]], before, left, middle) && Accounts(ps[1..], middle, kept, after)
    ensures Accounts(ps, before, left + kept, after)
  {
    if NoImmediate(ps) {
      assert forall k :: 0 <= k < |ps[1..]| ==> ps[1..][k] == ps[k + 1];
    }
  }

  lemma FirstCommission(f: Fill, fills: seq<Fill>)
    ensures Commissions([f] + fills) == f.commission + Commissions(fills)
  {
    assert ([f] + fills)[1..] == fills;
  }

  lemma TailIsOpen(ps: seq<PendingOrder>)
    requires ps != [] && Open(ps)
    ensures Open(ps[1..]) && ps[0].Remaining() > 0.0
    ensures NoImmediate(ps) ==> NoImmediate(ps[1..])
  {
    forall k | 0 <= k < |ps[1..]|
      ensures ps[1..][k].Remaining() > 0.0
    {
      assert ps[1..][k] == ps[k + 1];
    }
  }

  /** No update loses an order, whether it fails or not. */
  lemma {:induction false} NothingIsLost(ps: seq<PendingOrder>, i: InstrumentId, st: MarketState, now: Timestamp,
                                         cfg: FillConfig, m: Models, budget: real, slips: nat, stats: ExecutionStats)
    requires Open(ps)
    ensures var r := MatchFrom(ps, i, st, now, cfg, m, budget, slips, stats);
            && Accounts(ps, stats, r.kept, r.stats)
            && r.stats.fills == stats.fills + |r.fills|
            && r.stats.commission == stats.commission + Commissions(r.fills)
            && r.stats.accepted == stats.accepted && r.stats.rejected == stats.rejected
  {
    hide VisitOrder, StatsAfter;
    if ps != [] {
      var visit, tail := VisitOrder(ps[0], i, st, now, cfg, m, budget, slips), ps[1..];
      var stats' := StatsAfter(stats, visit);
      TailIsOpen(ps);
      VisitAdds(ps[0], i, st, now, cfg, m, budget, slips, stats);
      VisitLeaves(ps[0], i, st, now, cfg, m, budget, slips, stats);
      hide Open, NoImmediate, Ended, Accounts;
      match visit {
        case Rest(_) =>
          var rest := MatchFrom(tail, i, st, now, cfg, m, budget, slips, stats');
          NothingIsLost(tail, i, st, now, cfg, m, budget, slips, stats');
          AccountsTogether(ps, LeftBy(visit), rest.kept, stats, stats', rest.stats);
        case Discard(_) =>
          var rest := MatchFrom(tail, i, st, now, cfg, m, budget, slips, stats');
          NothingIsLost(tail, i, st, now, cfg, m, budget, slips, stats');
          AccountsTogether(ps, LeftBy(visit), rest.kept, stats, stats', rest.stats);
          assert [] + rest.kept == rest.kept;
        case Trade(f, _, _) =>
          var rest := MatchFrom(tail, i, st, now, cfg, m, Max(0.0, budget - f.quantity), slips + 1, stats');
          NothingIsLost(tail, i, st, now, cfg, m, Max(0.0, budget - f.quantity), slips + 1, stats');
          FirstCommission(f, rest.fills);
          AccountsTogether(ps, LeftBy(visit), rest.kept, stats, stats', rest.stats);
        case Refuse(_, _) =>
          TailAccounts(tail, stats');
          AccountsTogether(ps, LeftBy(visit), tail, stats, stats', stats');
      }
    }
  }

  lemma TailAccounts(ps: seq<PendingOrder>, stats: ExecutionStats)
    requires Open(ps)
    ensures Accounts(ps, stats, ps, stats)
  {
  }

  /** A reported fill takes its order off the list exactly when it leaves no more than a billionth of a share, and
      otherwise adds to what is filled of it; no other order changes. */
  lemma IngestLeaves(v: VenueState, report: ExternalFillReport)
    requires Ingesting(v, report).1.Ok?
    ensures var i, after := IndexOf(v.pending, report.orderId), Ingesting(v, report).0;
            && i < |v.pending|
            && var p := v.pending[i];
               && after.pending == (if p.Remaining() - report.quantity <= 0.000000001
                                    then v.pending[..i] + v.pending[i + 1..]
                                    else v.pending[i := p.(filled := p.filled + report.quantity)])
               && after.stats == v.stats.(fills := v.stats.fills + 1,
                                          commission := v.stats.commission + report.commission)
               && after.flights == v.flights && after.slips == v.slips
  {
    hide ChainOk, IndexOf;
  }

  // ---------------------------------------------------------------------------
  // Runs
  // ---------------------------------------------------------------------------

  /** How many cancels of the run took an order away. */
  function Withdrawals(cfg: FillConfig, m: Models, es: seq<VenueEvent>): nat {
    if es == [] then 0
    else
      var front, e := es[..|es| - 1], es[|es| - 1];
      Withdrawals(cfg, m, front)
      + if e.Withdrawn? && Holds(VenueAfter(cfg, m, front).pending, e.id) then 1 else 0
  }

  /** How many orders were sent with the clock set. */
  function Submissions(es: seq<VenueEvent>): nat {
    if es == [] then 0
    else Submissions(es[..|es| - 1]) + if es[|es| - 1].Sent? && IsSet(es[|es| - 1].now) then 1 else 0
  }

  predicate Holds(ps: seq<PendingOrder>, id: OrderId) {
    exists k :: 0 <= k < |ps| && ps[k].order.id == id
  }

  /** The venue trades by itself, with nothing reported to it. */
  predicate Simulated(es: seq<VenueEvent>) {
    forall k :: 0 <= k < |es| ==> !es[k].Reported?
  }

  predicate SendsNoImmediate(es: seq<VenueEvent>) {
    forall k :: 0 <= k < |es| ==> es[k].Sent? ==> es[k].order.tif != ImmediateOrCancel
  }

  /** Accepted orders are pending, withdrawn or ended; immediate ones may have left after a partial fill as well. */
  predicate Balances(v: VenueState, withdrawn: nat, immediate: bool) {
    && Open(v.pending) && |v.pending| + withdrawn + Ended(v.stats) <= v.stats.accepted
    && (!immediate ==> |v.pending| + withdrawn + Ended(v.stats) == v.stats.accepted && NoImmediate(v.pending))
  }

  lemma SendingBalances(v: VenueState, m: Models, now: Timestamp, o: Order, withdrawn: nat, immediate: bool)
    requires Balances(v, withdrawn, immediate) && (!immediate ==> o.tif != ImmediateOrCancel)
    ensures var after := Accepting(v, m, now, o).0;
            && Balances(after, withdrawn, immediate)
            && after.stats.accepted + after.stats.rejected
               == v.stats.accepted + v.stats.rejected + if IsSet(now) then 1 else 0
  {
  }

  lemma WithdrawingBalances(v: VenueState, id: OrderId, withdrawn: nat, immediate: bool)
    requires Balances(v, withdrawn, immediate)
    ensures Balances(Cancelling(v, id).0, withdrawn + if Holds(v.pending, id) then 1 else 0, immediate)
    ensures Cancelling(v, id).0.stats == v.stats
  {
    hide PendingOrder.Remaining;
    var i := IndexOf(v.pending, id);
    if i < |v.pending| {
      assert Holds(v.pending, id);
    }
  }

  lemma UpdatingBalances(v: VenueState, cfg: FillConfig, m: Models, i: InstrumentId, st: MarketState, now: Timestamp,
                         withdrawn: nat, immediate: bool)
    requires Balances(v, withdrawn, immediate)
    ensures var after := Marketing(v, i, st, now, cfg, m).0;
            && Balances(after, withdrawn, immediate)
            && after.stats.accepted == v.stats.accepted && after.stats.rejected == v.stats.rejected
  {
    NothingIsLost(v.pending, i, st, now, cfg, m, Participation(st, cfg), v.slips, v.stats);
    hide MatchFrom, Open, NoImmediate;
  }

  /** Over every run of the simulated venue, failed updates included, each submission is counted as accepted or
      rejected, and each accepted order is pending, was withdrawn, or is counted as killed or filled; when no immediate
      order is sent the count is exact. */
  lemma {:induction false} OrdersAreAccountedFor(cfg: FillConfig, m: Models, es: seq<VenueEvent>)
    requires Simulated(es)
    ensures var v := VenueAfter(cfg, m, es);
            && Balances(v, Withdrawals(cfg, m, es), !SendsNoImmediate(es))
            && v.stats.accepted + v.stats.rejected == Submissions(es)
  {
    hide Accepting, Cancelling, Marketing, Balances, Holds;
    if es == [] {
      NothingSent();
    } else {
      var front, e := es[..|es| - 1], es[|es| - 1];
      assert forall k :: 0 <= k < |front| ==> front[k] == es[k];
      OrdersAreAccountedFor(cfg, m, front);
      var v, w := VenueAfter(cfg, m, front), Withdrawals(cfg, m, front);
      var immediate := !SendsNoImmediate(es);
      WeakerBalance(v, w, !SendsNoImmediate(front), immediate);
      match e {
        case Sent(now, o) => SendingBalances(v, m, now, o, w, immediate);
        case Withdrawn(id) => WithdrawingBalances(v, id, w, immediate);
        case Updated(i, st, now) => UpdatingBalances(v, cfg, m, i, st, now, w, immediate);
      }
    }
  }

  lemma NothingSent()
    ensures Balances(VenueState([], 0, 0, FRESH_STATS), 0, false)
  {
  }

  lemma WeakerBalance(v: VenueState, withdrawn: nat, before: bool, after: bool)
    requires Balances(v, withdrawn, before) && (before ==> after)
    ensures Balances(v, withdrawn, after)
  {
  }
}
