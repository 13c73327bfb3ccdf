/** The engine's three ledgers - order book, portfolio and journal - tell the same story, and
    when a run can fail at all. */
module EngineLedgers {
  import opened Types
  import opened Orders
  import opened OrderManagement
  import opened Venue
  import opened Positions
  import opened Portfolios
  import opened Journals
  import opened Sums
  import opened Engines
  import opened EngineRuns

  // ---------------------------------------------------------------------------
  // Book, portfolio and journal
  // ---------------------------------------------------------------------------

  function FilledIn(rec: OrderRecord, i: InstrumentId): real {
    if rec.order.instrument == i then rec.filled * SignOf(rec.order.side) else 0.0
  }

  function FilledAt(records: map<OrderId, OrderRecord>, i: InstrumentId, id: OrderId): real {
    if id in records then FilledIn(records[id], i) else 0.0
  }

  ghost function FilledTerms(records: map<OrderId, OrderRecord>, i: InstrumentId): nat -> real {
    (id: nat) => FilledAt(records, i, id)
  }

  /** The signed quantity that the order book says was filled in an instrument. */
  ghost function SignedFilled(records: map<OrderId, OrderRecord>, i: InstrumentId): real {
    SumOver(records.Keys, FilledTerms(records, i))
  }

  /** Portfolio, journal and book agree on an instrument. */
  ghost predicate LedgerAgrees(s: EngineState, i: InstrumentId) {
    && s.journal.fills == s.dispatched
    && PositionOf(s.portfolio, i) == Held(Of(s.dispatched, i))
    && PositionOf(s.portfolio, i).quantity == SignedFilled(s.oms.records, i)
  }

  lemma FillMovesTotal(oms: OmsState, f: Fill, i: InstrumentId)
    requires Filling(oms, f).1.Ok?
    ensures SignedFilled(Filling(oms, f).0.records, i)
            == SignedFilled(oms.records, i) + (if f.instrument == i then f.SignedQuantity() else 0.0)
  {
    AcceptedFillIsBooked(oms, f);
    FilledBefore(oms, f);
    var before, after := oms.records[f.orderId], Filling(oms, f).0.records[f.orderId];
    assert Filling(oms, f).0.records == oms.records[f.orderId := after];
    hide Filling, SignedFilled, FilledIn;
    FilledTotalMoves(oms.records, f.orderId, after, i);
    FillMovesRecord(before, after, f, i);
  }

  /** A record that changes, or is added, moves the total by what it itself moves. */
  lemma FilledTotalMoves(records: map<OrderId, OrderRecord>, id: OrderId, rec: OrderRecord, i: InstrumentId)
    ensures SignedFilled(records[id := rec], i)
            == SignedFilled(records, i) + FilledIn(rec, i) - if id in records then FilledIn(records[id], i) else 0.0
  {
    hide FilledIn;
    var after := records[id := rec];
    SumChangeOne(records.Keys, FilledTerms(records, i), FilledTerms(after, i), id);
    assert after.Keys == records.Keys + {id};
  }

  lemma FillMovesRecord(before: OrderRecord, after: OrderRecord, f: Fill, i: InstrumentId)
    requires after.order == before.order && after.filled == before.filled + f.quantity
    requires before.order.instrument == f.instrument && before.order.side == f.side
    ensures FilledIn(after, i) == FilledIn(before, i) + (if f.instrument == i then f.SignedQuantity() else 0.0)
  {
  }

  lemma DispatchOneKeepsLedger(s: EngineState, u: Setup, f: Fill, i: InstrumentId)
    requires LedgerAgrees(s, i) && DispatchOne(s, u, f).1.Ok?
    ensures LedgerAgrees(DispatchOne(s, u, f).0, i)
  {
    DispatchedParts(s, u, f, i);
    FillMovesTotal(s.oms, f, i);
    HeldOneMore(s.dispatched, f, i);
    AppliedQuantity(PositionOf(s.portfolio, i), f);
    hide DispatchOne, Filling, PositionOf, SignedFilled, Applied, Held, Of;
  }

  lemma DispatchedParts(s: EngineState, u: Setup, f: Fill, i: InstrumentId)
    requires DispatchOne(s, u, f).1.Ok?
    ensures Filling(s.oms, f).1.Ok?
    ensures var t := DispatchOne(s, u, f).0;
            && t.oms == Filling(s.oms, f).0 && t.dispatched == s.dispatched + [f]
            && t.journal.fills == s.journal.fills + [f]
            && PositionOf(t.portfolio, i)
               == if f.instrument == i then Applied(PositionOf(s.portfolio, i), f) else PositionOf(s.portfolio, i)
  {
    hide Filling, Applied;
  }

  lemma HeldOneMore(fills: seq<Fill>, f: Fill, i: InstrumentId)
    ensures Held(Of(fills + [f], i)) == if f.instrument == i then Applied(Held(Of(fills, i)), f) else Held(Of(fills, i))
  {
    hide Applied;
    var mine := Of(fills, i);
    assert (fills + [f])[..|fills|] == fills;
    assert (mine + [f])[..|mine|] == mine && mine + [] == mine;
  }

  lemma AppliedQuantity(p: PositionState, f: Fill)
    ensures Applied(p, f).quantity == p.quantity + f.SignedQuantity()
  {
  }

  lemma {:induction false} DispatchKeepsLedger(s: EngineState, u: Setup, fills: seq<Fill>, i: InstrumentId)
    requires LedgerAgrees(s, i) && Dispatching(s, u, fills).1.Ok?
    ensures LedgerAgrees(Dispatching(s, u, fills).0, i)
    decreases |fills|
  {
    if fills != [] {
      DispatchOneKeepsLedger(s, u, fills[0], i);
      hide DispatchOne, LedgerAgrees;
      DispatchKeepsLedger(DispatchOne(s, u, fills[0]).0, u, fills[1..], i);
    }
  }

  lemma SubmitKeepsTotal(s: EngineState, u: Setup, o: Order, approved: bool, i: InstrumentId)
    ensures var t := Submitting(s, u, o, approved).0;
            && t.portfolio == s.portfolio && t.dispatched == s.dispatched && t.journal.fills == s.journal.fills
            && SignedFilled(t.oms.records, i) == SignedFilled(s.oms.records, i)
  {
    var priced := Priced(o, ReferencePrice(s.market, o.instrument));
    if approved && Submitted(s.oms, priced).1.Ok? {
      SubmittingBooks(s, u, o);
      var added := Submitting(s, u, o, approved).0.oms.records[o.id];
      assert FilledIn(added, i) == 0.0;
      hide SignedFilled, FilledIn, Submitted, Transitioned;
      FilledTotalMoves(s.oms.records, o.id, added, i);
    }
  }

  lemma CancelKeepsTotal(s: EngineState, id: OrderId, i: InstrumentId)
    ensures var t := CancellingAt(s, id).0;
            && t.portfolio == s.portfolio && t.dispatched == s.dispatched && t.journal == s.journal
            && SignedFilled(t.oms.records, i) == SignedFilled(s.oms.records, i)
  {
    TransitionKeepsTotal(s.oms, id, Cancelled, i);
    hide SignedFilled, Transitioned, Cancelling;
  }

  lemma TransitionKeepsTotal(oms: OmsState, id: OrderId, to: OrderState, i: InstrumentId)
    ensures SignedFilled(Transitioned(oms, id, to).0.records, i) == SignedFilled(oms.records, i)
  {
    if Transitioned(oms, id, to).1.Ok? {
      var after := oms.records[id].(state := to);
      assert FilledIn(after, i) == FilledIn(oms.records[id], i);
      hide SignedFilled, FilledIn;
      FilledTotalMoves(oms.records, id, after, i);
    }
  }

  lemma CallKeepsLedger(s: EngineState, u: Setup, call: SinkCall, i: InstrumentId)
    requires LedgerAgrees(s, i)
    ensures LedgerAgrees(Calling(s, u, call), i)
  {
    hide Submitting, CancellingAt;
    match call {
      case NextOrderId =>
      case SubmitOrder(o, approved) => SubmitKeepsTotal(s, u, o, approved, i);
      case CancelOrder(id) => CancelKeepsTotal(s, id, i);
    }
  }

  lemma {:induction false} ScriptKeepsLedger(s: EngineState, u: Setup, script: seq<SinkCall>, i: InstrumentId)
    requires LedgerAgrees(s, i)
    ensures LedgerAgrees(Scripted(s, u, script), i)
  {
    if script != [] {
      ScriptKeepsLedger(s, u, script[..|script| - 1], i);
      CallKeepsLedger(Scripted(s, u, script[..|script| - 1]), u, script[|script| - 1], i);
    }
  }

  lemma DeliveringKeepsLedger(s: EngineState, u: Setup, d: Delivery, i: InstrumentId)
    requires LedgerAgrees(s, i) && !d.event.SplitAction? && Delivering(s, u, d).1.Ok?
    ensures LedgerAgrees(Delivering(s, u, d).0, i)
  {
    hide Dispatching, Scripted, Marketing;
    var s1 := s.(now := d.received);
    match d.event {
      case Bar(k, _, _, close, _, closeTime) =>
        var st := BarState(MarketOf(s1, k), u, d.event);
        MatchingKeepsLedger(Marking(s1, k, st, close, close), u, k, st, closeTime, i);
        ScriptKeepsLedger(MatchingAt(Marking(s1, k, st, close, close), u, k, st, closeTime).0, u, d.script, i);
      case Quote(k, bid, ask, _, _, exchangeTime) =>
        var st := QuoteState(MarketOf(s1, k), d.event);
        MatchingKeepsLedger(Marking(s1, k, st, bid, ask), u, k, st, exchangeTime, i);
        ScriptKeepsLedger(MatchingAt(Marking(s1, k, st, bid, ask), u, k, st, exchangeTime).0, u, d.script, i);
      case TradePrint => ScriptKeepsLedger(s1, u, d.script, i);
      case DividendAction(_, _) =>
      case SessionOpen => ScriptKeepsLedger(s1.(turnover := 0.0), u, d.script, i);
      case SessionClose => ScriptKeepsLedger(s1, u, d.script, i);
    }
  }

  lemma MatchingKeepsLedger(s: EngineState, u: Setup, k: InstrumentId, st: MarketState, at: Timestamp, i: InstrumentId)
    requires LedgerAgrees(s, i) && MatchingAt(s, u, k, st, at).1.Ok?
    ensures LedgerAgrees(MatchingAt(s, u, k, st, at).0, i)
  {
    hide Dispatching;
    var (venue, fills) := Marketing(s.venue, k, st, at, u.fills, u.models);
    DispatchKeepsLedger(s.(venue := venue), u, fills.value, i);
  }

  /** Over every run without splits, the position in an instrument is the signed sum of what the order
      book says was filled in it, and its realised profit is the sum of the journal's round trips. */
  lemma {:induction false} LedgersAgreeOverRuns(u: Setup, start: Timestamp, ds: seq<Delivery>, i: InstrumentId)
    requires forall d :: d in ds ==> !d.event.SplitAction?
    requires Running(u, start, ds).1.Ok?
    ensures var s := Running(u, start, ds).0;
            && PositionOf(s.portfolio, i).quantity == SignedFilled(s.oms.records, i)
            && PositionOf(s.portfolio, i).realized == GrossPnl(Matched(s.journal.fills), i)
            && LedgerAgrees(s, i)
  {
    if ds == [] {
      SumNone(FilledTerms(map[], i));
      assert Running(u, start, ds).0.oms.records == map[];
    } else {
      var prefix := ds[..|ds| - 1];
      assert forall d :: d in prefix ==> d in ds;
      assert ds[|ds| - 1] in ds;
      LedgersAgreeOverRuns(u, start, prefix, i);
      DeliveringKeepsLedger(Running(u, start, prefix).0, u, ds[|ds| - 1], i);
    }
    TradesSumToRealized(Running(u, start, ds).0.journal.fills, i);
  }

  // ---------------------------------------------------------------------------
  // Equity
  // ---------------------------------------------------------------------------

  /** The cash that dividend events of a run have paid. */
  function DividendsOf(u: Setup, start: Timestamp, ds: seq<Delivery>): real {
    if ds == [] then 0.0
    else
      var prefix, d := ds[..|ds| - 1], ds[|ds| - 1];
      var (s, r) := Running(u, start, prefix);
      DividendsOf(u, start, prefix)
      + if r.Ok? && d.event.DividendAction? && d.received >= s.now
        then d.event.perShare * PositionOf(s.portfolio, d.event.instrument).quantity else 0.0
  }

  lemma {:induction false} ScriptLeavesPortfolio(s: EngineState, u: Setup, script: seq<SinkCall>)
    ensures Scripted(s, u, script).portfolio == s.portfolio
  {
    if script != [] {
      ScriptLeavesPortfolio(s, u, script[..|script| - 1]);
    }
  }

  lemma {:induction false} DispatchKeepsBalance(s: EngineState, u: Setup, fills: seq<Fill>, dividends: real)
    requires Balanced(u.portfolio, s.portfolio, dividends)
    ensures Balanced(u.portfolio, Dispatching(s, u, fills).0.portfolio, dividends)
    decreases |fills|
  {
    if fills != [] {
      var f := fills[0];
      BookingKeepsBalance(u.portfolio, s.portfolio, f, dividends);
      hide Balanced, Booking, Filling;
      DispatchKeepsBalance(DispatchOne(s, u, f).0, u, fills[1..], dividends);
    }
  }

  lemma MatchingKeepsBalance(s: EngineState, u: Setup, i: InstrumentId, st: MarketState, at: Timestamp, dividends: real)
    requires Balanced(u.portfolio, s.portfolio, dividends)
    ensures Balanced(u.portfolio, MatchingAt(s, u, i, st, at).0.portfolio, dividends)
  {
    hide Dispatching, Balanced;
    var (venue, fills) := Marketing(s.venue, i, st, at, u.fills, u.models);
    if fills.Ok? {
      DispatchKeepsBalance(s.(venue := venue), u, fills.value, dividends);
    }
  }

  lemma DeliveringKeepsBalance(s: EngineState, u: Setup, d: Delivery, dividends: real, total: real)
    requires Balanced(u.portfolio, s.portfolio, dividends)
    requires total == dividends + if d.event.DividendAction? && d.received >= s.now
                                  then d.event.perShare * PositionOf(s.portfolio, d.event.instrument).quantity else 0.0
    ensures Balanced(u.portfolio, Delivering(s, u, d).0.portfolio, total)
  {
    hide MatchingAt, Scripted, Balanced, Splitting;
    if d.received >= s.now {
      var s1 := s.(now := d.received);
      match d.event {
        case Bar(i, _, _, close, _, closeTime) =>
          var st := BarState(MarketOf(s1, i), u, d.event);
          var s2 := Marking(s1, i, st, close, close);
          CashOrMarksKeepBalance(u.portfolio, s.portfolio, s2.portfolio, dividends, 0.0);
          MatchingKeepsBalance(s2, u, i, st, closeTime, dividends);
          ScriptLeavesPortfolio(MatchingAt(s2, u, i, st, closeTime).0, u, d.script);
        case Quote(i, bid, ask, _, _, exchangeTime) =>
          var st := QuoteState(MarketOf(s1, i), d.event);
          var s2 := Marking(s1, i, st, bid, ask);
          CashOrMarksKeepBalance(u.portfolio, s.portfolio, s2.portfolio, dividends, 0.0);
          MatchingKeepsBalance(s2, u, i, st, exchangeTime, dividends);
          ScriptLeavesPortfolio(MatchingAt(s2, u, i, st, exchangeTime).0, u, d.script);
        case TradePrint => ScriptLeavesPortfolio(s1, u, d.script);
        case SplitAction(i, ratio) => SplitKeepsBalance(u.portfolio, s.portfolio, i, ratio, dividends);
        case DividendAction(i, perShare) =>
          CashOrMarksKeepBalance(u.portfolio, s.portfolio, Paying(s.portfolio, i, perShare), dividends,
                                 DividendCash(s.portfolio, i, perShare));
        case SessionOpen => ScriptLeavesPortfolio(s1.(turnover := 0.0), u, d.script);
        case SessionClose => ScriptLeavesPortfolio(s1, u, d.script);
      }
    }
  }

  lemma {:induction false} BalancedOverEngineRuns(u: Setup, start: Timestamp, ds: seq<Delivery>)
    ensures Balanced(u.portfolio, Running(u, start, ds).0.portfolio, DividendsOf(u, start, ds))
  {
    hide Delivering, Balanced, PositionOf;
    if ds == [] {
      BalancedAtFirst(u, start);
    } else {
      var prefix := ds[..|ds| - 1];
      BalancedOverEngineRuns(u, start, prefix);
      var (s, r) := Running(u, start, prefix);
      if r.Ok? {
        DeliveringKeepsBalance(s, u, ds[|ds| - 1], DividendsOf(u, start, prefix), DividendsOf(u, start, ds));
      }
    }
  }

  lemma BalancedAtFirst(u: Setup, start: Timestamp)
    ensures Balanced(u.portfolio, Begin(u, start).portfolio, 0.0)
  {
    var p := Initial(u.portfolio);
    SumNone(BasisTerms(p));
    SumNone(RealizedTerms(p));
  }

  /** At the end of every run, failed or not: equity is initial cash plus realised and unrealised
      profit, less all costs, plus the dividends paid. */
  lemma EquityIdentityOverEngineRuns(u: Setup, start: Timestamp, ds: seq<Delivery>)
    ensures var p, mode := Running(u, start, ds).0.portfolio, u.portfolio.markMode;
            Equity(p, mode) == u.portfolio.initialCash + p.realized + UnrealizedPnl(p, mode) - p.costs
                               + DividendsOf(u, start, ds)
  {
    BalancedOverEngineRuns(u, start, ds);
    ValueIsBasisPlusUnrealized(u.portfolio, Running(u, start, ds).0.portfolio, u.portfolio.markMode,
                               DividendsOf(u, start, ds));
  }
}
