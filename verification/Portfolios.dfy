/** Cash, positions and marks of the whole book, and the identity that ties them together. */
module Portfolios {
  import opened Types
  import opened Orders
  import opened Positions
  import opened Sums

  datatype MarkMode = Liquidation | Mid | Last
  datatype MarkPair = MarkPair(bid: real, ask: real)

  datatype PortfolioConfig = PortfolioConfig(initialCash: real, markMode: MarkMode, allowShort: bool)

  datatype PortfolioState = PortfolioState(
    cash: real, realized: real, costs: real, turnover: real,
    positions: map<InstrumentId, PositionState>, marks: map<InstrumentId, MarkPair>)

  datatype PortfolioError = ShortDisabled | BadSplitRatio

  type PortfolioOutcome = (PortfolioState, Result<bool, PortfolioError>)

  function Initial(cfg: PortfolioConfig): PortfolioState {
    PortfolioState(cfg.initialCash, 0.0, 0.0, 0.0, map[], map[])
  }

  function PositionOf(p: PortfolioState, i: InstrumentId): PositionState {
    if i in p.positions then p.positions[i] else NO_POSITION
  }

  /** Books a fill. A refused fill still leaves an empty position behind for its instrument. */
  function Booking(p: PortfolioState, cfg: PortfolioConfig, f: Fill): PortfolioOutcome {
    var pos := PositionOf(p, f.instrument);
    if !cfg.allowShort && pos.quantity + f.SignedQuantity() < -TOLERANCE
    then (p.(positions := p.positions[f.instrument := pos]), Err(ShortDisabled))
    else
      var next := Applied(pos, f);
      (p.(positions := p.positions[f.instrument := next],
          realized := p.realized + (next.realized - pos.realized),
          cash := p.cash + f.CashDelta(),
          costs := p.costs + f.TotalCost(),
          turnover := p.turnover + Abs(f.price * f.quantity)), Ok(true))
  }

  function Splitting(p: PortfolioState, i: InstrumentId, ratio: real): PortfolioOutcome {
    if ratio <= 0.0 then (p, Err(BadSplitRatio))
    else
      (p.(positions := if i in p.positions then p.positions[i := Split(p.positions[i], ratio)] else p.positions,
          marks := if i in p.marks
                   then p.marks[i := MarkPair(p.marks[i].bid / ratio, p.marks[i].ask / ratio)] else p.marks),
       Ok(true))
  }

  function DividendCash(p: PortfolioState, i: InstrumentId, perShare: real): real {
    if i in p.positions then perShare * p.positions[i].quantity else 0.0
  }

  function Paying(p: PortfolioState, i: InstrumentId, perShare: real): PortfolioState {
    if i in p.positions then p.(cash := p.cash + DividendCash(p, i, perShare)) else p
  }

  function MarkFor(p: PortfolioState, mode: MarkMode, i: InstrumentId): real
    requires i in p.positions
  {
    if i !in p.marks then p.positions[i].averageCost
    else match mode
      case Mid => (p.marks[i].bid + p.marks[i].ask) * 0.5
      case Last => p.marks[i].bid
      case Liquidation => if p.positions[i].quantity < 0.0 then p.marks[i].ask else p.marks[i].bid
  }

  // Per-position terms of the portfolio's totals; a flat position contributes nothing.

  function ValueTerm(p: PortfolioState, mode: MarkMode, i: InstrumentId): real {
    if i !in p.positions || p.positions[i].Flat() then 0.0
    else p.positions[i].MarketValue(MarkFor(p, mode, i))
  }

  function UnrealizedTerm(p: PortfolioState, mode: MarkMode, i: InstrumentId): real {
    if i !in p.positions || p.positions[i].Flat() then 0.0
    else p.positions[i].Unrealized(MarkFor(p, mode, i))
  }

  function BasisTerm(p: PortfolioState, i: InstrumentId): real {
    if i !in p.positions then 0.0 else p.positions[i].Basis()
  }

  function RealizedTerm(p: PortfolioState, i: InstrumentId): real {
    if i !in p.positions then 0.0 else p.positions[i].realized
  }

  ghost function ValueTerms(p: PortfolioState, mode: MarkMode): nat -> real { (i: nat) => ValueTerm(p, mode, i) }

  ghost function UnrealizedTerms(p: PortfolioState, mode: MarkMode): nat -> real {
    (i: nat) => UnrealizedTerm(p, mode, i)
  }

  ghost function BasisTerms(p: PortfolioState): nat -> real { (i: nat) => BasisTerm(p, i) }

  ghost function RealizedTerms(p: PortfolioState): nat -> real { (i: nat) => RealizedTerm(p, i) }

  ghost function PositionValue(p: PortfolioState, mode: MarkMode): real {
    SumOver(p.positions.Keys, ValueTerms(p, mode))
  }

  ghost function UnrealizedPnl(p: PortfolioState, mode: MarkMode): real {
    SumOver(p.positions.Keys, UnrealizedTerms(p, mode))
  }

  ghost function TotalBasis(p: PortfolioState): real {
    SumOver(p.positions.Keys, BasisTerms(p))
  }

  ghost function Equity(p: PortfolioState, mode: MarkMode): real {
    p.cash + PositionValue(p, mode)
  }

  class Portfolio {
    const cfg: PortfolioConfig
    var cash: real
    var realized: real
    var costs: real
    var turnover: real
    var positions: map<InstrumentId, PositionState>
    var marks: map<InstrumentId, MarkPair>

    ghost function State(): PortfolioState
      reads this
    {
      PortfolioState(cash, realized, costs, turnover, positions, marks)
    }

    constructor (cfg: PortfolioConfig)
      ensures this.cfg == cfg && State() == Initial(cfg)
    {
      this.cfg := cfg;
      cash, realized, costs, turnover := cfg.initialCash, 0.0, 0.0, 0.0;
      positions, marks := map[], map[];
    }

    method Apply(f: Fill) returns (r: Result<bool, PortfolioError>)
      modifies this
      ensures (State(), r) == Booking(old(State()), cfg, f)
    {
      ghost var p := State();
      hide Applied;
      if f.instrument !in positions {
        positions := positions[f.instrument := NO_POSITION];
      }
      var pos := positions[f.instrument];
      assert positions == p.positions[f.instrument := pos];
      if !cfg.allowShort {
        var after := pos.quantity + f.SignedQuantity();
        if after < -TOLERANCE {
          return Err(ShortDisabled);
        }
      }
      var next := Applied(pos, f);
      positions := positions[f.instrument := next];
      assert positions == p.positions[f.instrument := next];
      realized := realized + (next.realized - pos.realized);
      cash := cash + f.CashDelta();
      costs := costs + f.TotalCost();
      turnover := turnover + Abs(f.price * f.quantity);
      return Ok(true);
    }

    method ApplySplit(i: InstrumentId, ratio: real) returns (r: Result<bool, PortfolioError>)
      modifies this
      ensures (State(), r) == Splitting(old(State()), i, ratio)
    {
      if ratio <= 0.0 { return Err(BadSplitRatio); }
      if i in positions {
        positions := positions[i := Split(positions[i], ratio)];
      }
      if i in marks {
        marks := marks[i := MarkPair(marks[i].bid / ratio, marks[i].ask / ratio)];
      }
      return Ok(true);
    }

    method ApplyDividend(i: InstrumentId, perShare: real)
      modifies this
      ensures State() == Paying(old(State()), i, perShare)
    {
      if i !in positions { return; }
      cash := cash + perShare * positions[i].quantity;
    }

    method Mark(i: InstrumentId, bid: real, ask: real)
      modifies this
      ensures State() == old(State()).(marks := old(marks)[i := MarkPair(bid, ask)])
    {
      marks := marks[i := MarkPair(bid, ask)];
    }

    /** Cash plus the marked value of every open position. */
    method ComputeEquity() returns (equity: real)
      ensures equity == Equity(State(), cfg.markMode)
    {
      hide SumOver;
      ghost var terms := ValueTerms(State(), cfg.markMode);
      var total := 0.0;
      var book := positions;
      var rest := book.Keys;
      while rest != {}
        invariant rest <= book.Keys
        invariant total + SumOver(rest, terms) == SumOver(book.Keys, terms)
        decreases |rest|
      {
        var i :| i in rest;
        SumTakeOut(rest, terms, i);
        ghost var before := total;
        if !book[i].Flat() {
          total := total + book[i].MarketValue(CurrentMark(i));
        }
        assert total == before + terms(i);
        rest := rest - {i};
      }
      SumNone(terms);
      equity := cash + total;
    }

    function CurrentMark(i: InstrumentId): (mark: real)
      requires i in positions
      reads this
      ensures mark == MarkFor(State(), cfg.markMode, i)
    {
      if i !in marks then positions[i].averageCost
      else match cfg.markMode
        case Mid => (marks[i].bid + marks[i].ask) * 0.5
        case Last => marks[i].bid
        case Liquidation => if positions[i].quantity < 0.0 then marks[i].ask else marks[i].bid
    }
  }

  // ---------------------------------------------------------------------------
  // The identity over every run
  // ---------------------------------------------------------------------------

  datatype PortfolioEvent =
    | Traded(fill: Fill)
    | SplitPaid(i: InstrumentId, ratio: real)
    | Dividend(i: InstrumentId, perShare: real)
    | Marked(i: InstrumentId, bid: real, ask: real)

  function Stepped(p: PortfolioState, cfg: PortfolioConfig, e: PortfolioEvent): PortfolioState {
    match e
    case Traded(f) => Booking(p, cfg, f).0
    case SplitPaid(i, ratio) => Splitting(p, i, ratio).0
    case Dividend(i, perShare) => Paying(p, i, perShare)
    case Marked(i, bid, ask) => p.(marks := p.marks[i := MarkPair(bid, ask)])
  }

  function After(cfg: PortfolioConfig, events: seq<PortfolioEvent>): PortfolioState {
    if events == [] then Initial(cfg)
    else Stepped(After(cfg, events[..|events| - 1]), cfg, events[|events| - 1])
  }

  function DividendsPaid(cfg: PortfolioConfig, events: seq<PortfolioEvent>): real {
    if events == [] then 0.0
    else
      var prefix := events[..|events| - 1];
      DividendsPaid(cfg, prefix)
      + match events[|events| - 1]
        case Dividend(i, perShare) => perShare * PositionOf(After(cfg, prefix), i).quantity
        case _ => 0.0
  }

  /** The conserved quantity: cash and cost basis against initial cash, profit, costs and dividends. */
  ghost predicate Balanced(cfg: PortfolioConfig, p: PortfolioState, dividends: real) {
    && p.cash + TotalBasis(p) == cfg.initialCash + p.realized - p.costs + dividends
    && p.realized == SumOver(p.positions.Keys, RealizedTerms(p))
    && forall i :: i in p.positions && p.positions[i].Flat() ==> p.positions[i].averageCost == 0.0
  }

  lemma NoPositionHasNoBasis()
    ensures NO_POSITION.Basis() == 0.0
  {
  }

  /** Replacing one position changes the totals by what that position's terms change. */
  lemma ReplaceOnePosition(p: PortfolioState, q: PortfolioState, i: InstrumentId)
    requires i in q.positions && q.positions == p.positions[i := q.positions[i]]
    ensures TotalBasis(q) - TotalBasis(p) == q.positions[i].Basis() - PositionOf(p, i).Basis()
    ensures SumOver(q.positions.Keys, RealizedTerms(q)) - SumOver(p.positions.Keys, RealizedTerms(p))
            == q.positions[i].realized - PositionOf(p, i).realized
  {
    hide PositionState.Basis;
    var before, after := PositionOf(p, i), q.positions[i];
    NoPositionHasNoBasis();
    assert q.positions.Keys == p.positions.Keys + {i};
    assert SumOver(q.positions.Keys, BasisTerms(q)) - SumOver(p.positions.Keys, BasisTerms(p))
           == after.Basis() - before.Basis() by {
      SumChangeOne(p.positions.Keys, BasisTerms(p), BasisTerms(q), i);
    }
    assert SumOver(q.positions.Keys, RealizedTerms(q)) - SumOver(p.positions.Keys, RealizedTerms(p))
           == after.realized - before.realized by {
      SumChangeOne(p.positions.Keys, RealizedTerms(p), RealizedTerms(q), i);
    }
  }

  lemma BookingKeepsBalance(cfg: PortfolioConfig, p: PortfolioState, f: Fill, dividends: real)
    requires Balanced(cfg, p, dividends)
    ensures Balanced(cfg, Booking(p, cfg, f).0, dividends)
  {
    hide Applied, PositionState.Basis, TotalBasis, Fill.CashDelta, Fill.TotalCost, Fill.SignedQuantity;
    var pos := PositionOf(p, f.instrument);
    var q := Booking(p, cfg, f).0;
    FillIdentity(pos, f);
    FlatHasNoAverage(pos, f);
    ReplaceOnePosition(p, q, f.instrument);
  }

  lemma SplitKeepsBalance(cfg: PortfolioConfig, p: PortfolioState, i: InstrumentId, ratio: real, dividends: real)
    requires Balanced(cfg, p, dividends)
    ensures Balanced(cfg, Splitting(p, i, ratio).0, dividends)
  {
    var q := Splitting(p, i, ratio).0;
    if ratio > 0.0 && i in p.positions {
      SplitKeepsBasis(p.positions[i], ratio);
      ScaledSign(p.positions[i].quantity, ratio);
      ReplaceOnePosition(p, q, i);
    } else {
      CashOrMarksKeepBalance(cfg, p, q, dividends, 0.0);
    }
  }

  lemma CashOrMarksKeepBalance(cfg: PortfolioConfig, p: PortfolioState, q: PortfolioState, dividends: real, extra: real)
    requires Balanced(cfg, p, dividends)
    requires q == p.(cash := p.cash + extra, marks := q.marks)
    ensures Balanced(cfg, q, dividends + extra)
  {
    SumCongruent(p.positions.Keys, BasisTerms(p), BasisTerms(q));
    SumCongruent(p.positions.Keys, RealizedTerms(p), RealizedTerms(q));
  }

  /** Over any run of fills (even refused ones), splits, dividends and marks, cash plus cost basis
      equals initial cash plus realised profit, less costs, plus dividends. */
  lemma {:induction false} BalancedOverRuns(cfg: PortfolioConfig, events: seq<PortfolioEvent>)
    ensures Balanced(cfg, After(cfg, events), DividendsPaid(cfg, events))
  {
    if events != [] {
      var prefix := events[..|events| - 1];
      var p := After(cfg, prefix);
      var d := DividendsPaid(cfg, prefix);
      BalancedOverRuns(cfg, prefix);
      match events[|events| - 1]
      case Traded(f) => BookingKeepsBalance(cfg, p, f, d);
      case SplitPaid(i, ratio) => SplitKeepsBalance(cfg, p, i, ratio, d);
      case Dividend(i, perShare) =>
        CashOrMarksKeepBalance(cfg, p, After(cfg, events), d, DividendCash(p, i, perShare));
      case Marked(i, bid, ask) => CashOrMarksKeepBalance(cfg, p, After(cfg, events), d, 0.0);
    }
  }

  /** Marked value is cost basis plus unrealised profit, under every marking policy. */
  lemma ValueIsBasisPlusUnrealized(cfg: PortfolioConfig, p: PortfolioState, mode: MarkMode, dividends: real)
    requires Balanced(cfg, p, dividends)
    ensures PositionValue(p, mode) == TotalBasis(p) + UnrealizedPnl(p, mode)
  {
    SumAdd(p.positions.Keys, BasisTerms(p), UnrealizedTerms(p, mode), ValueTerms(p, mode));
  }

  /** The profit-and-loss identity at every instant of every run: equity is initial cash plus realised
      and unrealised profit, less all costs, plus dividends. */
  lemma EquityIdentityOverRuns(cfg: PortfolioConfig, events: seq<PortfolioEvent>)
    ensures var p := After(cfg, events);
            Equity(p, cfg.markMode)
            == cfg.initialCash + p.realized + UnrealizedPnl(p, cfg.markMode) - p.costs + DividendsPaid(cfg, events)
  {
    BalancedOverRuns(cfg, events);
    ValueIsBasisPlusUnrealized(cfg, After(cfg, events), cfg.markMode, DividendsPaid(cfg, events));
  }

  /** A split changes neither the equity nor the unrealised profit: shares and marks scale inversely. */
  lemma SplitKeepsEquity(p: PortfolioState, mode: MarkMode, i: InstrumentId, ratio: real)
    requires ratio > 0.0
    ensures Equity(Splitting(p, i, ratio).0, mode) == Equity(p, mode)
  {
    var q := Splitting(p, i, ratio).0;
    assert q.positions.Keys == p.positions.Keys;
    forall k | k in p.positions
      ensures ValueTerm(q, mode, k) == ValueTerm(p, mode, k)
    {
      if k == i {
        SplitKeepsValue(p, mode, i, ratio);
      }
    }
    SumCongruent(p.positions.Keys, ValueTerms(p, mode), ValueTerms(q, mode));
  }

  lemma SplitKeepsValue(p: PortfolioState, mode: MarkMode, i: InstrumentId, ratio: real)
    requires ratio > 0.0 && i in p.positions
    ensures ValueTerm(Splitting(p, i, ratio).0, mode, i) == ValueTerm(p, mode, i)
  {
  }

  lemma ScaledSign(quantity: real, ratio: real)
    requires ratio > 0.0
    ensures quantity * ratio == 0.0 <==> quantity == 0.0
    ensures quantity * ratio < 0.0 <==> quantity < 0.0
  {
  }

  /** How far below zero a position may be after an event: a fill brings it to the tolerance, or leaves it; a split
      scales it. */
  function SlackAfter(slack: real, e: PortfolioEvent, i: InstrumentId): real {
    match e
    case SplitPaid(k, ratio) => if k == i && ratio > 0.0 then slack * ratio else slack
    case Traded(f) => if f.instrument == i then Max(slack, TOLERANCE) else slack
    case _ => slack
  }

  function Slack(events: seq<PortfolioEvent>, i: InstrumentId): real {
    if events == [] then TOLERANCE else SlackAfter(Slack(events[..|events| - 1], i), events[|events| - 1], i)
  }

  /** Without permission no run takes a position below zero by more than the tolerance, scaled by its splits. */
  lemma {:induction false} NoShortWithoutPermission(cfg: PortfolioConfig, events: seq<PortfolioEvent>, i: InstrumentId)
    requires !cfg.allowShort
    ensures PositionOf(After(cfg, events), i).quantity >= -Slack(events, i) && Slack(events, i) > 0.0
    ensures (forall e :: e in events ==> !e.SplitPaid?) ==> Slack(events, i) == TOLERANCE
  {
    if events != [] {
      hide SlackAfter, Stepped, PositionOf;
      var prefix, last := events[..|events| - 1], events[|events| - 1];
      assert (forall e :: e in events ==> !e.SplitPaid?) ==> forall e :: e in prefix ==> !e.SplitPaid?;
      assert last in events;
      NoShortWithoutPermission(cfg, prefix, i);
      StepKeepsSlack(cfg, After(cfg, prefix), last, i, Slack(prefix, i));
    } else {
      StartsFlat(cfg, i);
    }
  }

  lemma StartsFlat(cfg: PortfolioConfig, i: InstrumentId)
    ensures PositionOf(Initial(cfg), i).quantity == 0.0
  {
  }

  lemma StepKeepsSlack(cfg: PortfolioConfig, p: PortfolioState, e: PortfolioEvent, i: InstrumentId, slack: real)
    requires !cfg.allowShort && PositionOf(p, i).quantity >= -slack && slack > 0.0
    ensures PositionOf(Stepped(p, cfg, e), i).quantity >= -SlackAfter(slack, e, i) && SlackAfter(slack, e, i) > 0.0
    ensures !e.SplitPaid? && slack == TOLERANCE ==> SlackAfter(slack, e, i) == TOLERANCE
  {
    match e
    case SplitPaid(k, ratio) =>
      SplitQuantity(p, k, ratio, i);
      if k == i && ratio > 0.0 {
        ScaledSlack(PositionOf(p, i).quantity, slack, ratio);
      }
      hide Splitting, PositionOf;
    case Traded(f) =>
      BookedSlack(p, cfg, f, i, slack);
      hide Booking, PositionOf;
    case _ =>
  }

  lemma ScaledSlack(quantity: real, slack: real, ratio: real)
    requires quantity >= -slack && slack > 0.0 && ratio > 0.0
    ensures quantity * ratio >= -(slack * ratio) && slack * ratio > 0.0
  {
    assert quantity * ratio + slack * ratio == (quantity + slack) * ratio;
  }

  lemma SplitQuantity(p: PortfolioState, k: InstrumentId, ratio: real, i: InstrumentId)
    ensures PositionOf(Splitting(p, k, ratio).0, i).quantity
            == if k == i && ratio > 0.0 then PositionOf(p, i).quantity * ratio else PositionOf(p, i).quantity
  {
    assert 0.0 * ratio == 0.0;
  }

  lemma BookedSlack(p: PortfolioState, cfg: PortfolioConfig, f: Fill, i: InstrumentId, slack: real)
    requires !cfg.allowShort && PositionOf(p, i).quantity >= -slack
    ensures PositionOf(Booking(p, cfg, f).0, i).quantity
            >= -(if f.instrument == i then Max(slack, TOLERANCE) else slack)
  {
    hide Blend, Gain;
  }
}
