/** What the marks of a portfolio mean: the marking modes compared, and what closing every position would raise. */
module PortfolioMarks {
  import opened Types
  import opened TimeChain
  import opened Orders
  import opened Positions
  import opened Portfolios
  import opened Sums

  // ---------------------------------------------------------------------------
  // The modes compared
  // ---------------------------------------------------------------------------

  /** Half the spread on every share held, long or short. */
  function HalfSpread(p: PortfolioState, i: InstrumentId): real {
    if i in p.positions && i in p.marks
    then (p.marks[i].ask - p.marks[i].bid) * 0.5 * Abs(p.positions[i].quantity)
    else 0.0
  }

  /** The whole spread on every share that is short. */
  function ShortSpread(p: PortfolioState, i: InstrumentId): real {
    if i in p.positions && i in p.marks && p.positions[i].quantity < 0.0
    then (p.marks[i].ask - p.marks[i].bid) * Abs(p.positions[i].quantity)
    else 0.0
  }

  ghost function HalfSpreads(p: PortfolioState): nat -> real { (i: nat) => HalfSpread(p, i) }

  ghost function ShortSpreads(p: PortfolioState): nat -> real { (i: nat) => ShortSpread(p, i) }

  predicate Uncrossed(p: PortfolioState) {
    forall i :: i in p.marks ==> p.marks[i].bid <= p.marks[i].ask
  }

  /** Marking at the middle is worth exactly half the spread more on every marked share than liquidation, long and short
      alike; so it is never worth less. */
  lemma MidExceedsLiquidation(p: PortfolioState)
    ensures Equity(p, Mid) == Equity(p, Liquidation) + SumOver(p.positions.Keys, HalfSpreads(p))
    ensures Uncrossed(p) ==> Equity(p, Liquidation) <= Equity(p, Mid)
  {
    var terms := HalfSpreads(p);
    forall i | i in p.positions.Keys
      ensures ValueTerm(p, Mid, i) == ValueTerm(p, Liquidation, i) + HalfSpread(p, i)
      ensures Uncrossed(p) ==> HalfSpread(p, i) >= 0.0
    {
      MidTerm(p, i);
    }
    hide ValueTerm, HalfSpread;
    SumAdd(p.positions.Keys, ValueTerms(p, Liquidation), terms, ValueTerms(p, Mid));
    if Uncrossed(p) {
      SumIsNatural(p.positions.Keys, terms);
    }
  }

  lemma MidTerm(p: PortfolioState, i: InstrumentId)
    requires i in p.positions
    ensures ValueTerm(p, Mid, i) == ValueTerm(p, Liquidation, i) + HalfSpread(p, i)
    ensures Uncrossed(p) ==> HalfSpread(p, i) >= 0.0
  {
  }

  /** Marking at the last price is marking at the bid: it overstates a short by the whole spread and nothing else. */
  lemma LastExceedsLiquidation(p: PortfolioState)
    ensures Equity(p, Last) == Equity(p, Liquidation) + SumOver(p.positions.Keys, ShortSpreads(p))
  {
    forall i | i in p.positions.Keys
      ensures ValueTerm(p, Last, i) == ValueTerm(p, Liquidation, i) + ShortSpread(p, i)
    {
      LastTerm(p, i);
    }
    hide ValueTerm, ShortSpread;
    SumAdd(p.positions.Keys, ValueTerms(p, Liquidation), ShortSpreads(p), ValueTerms(p, Last));
  }

  lemma LastTerm(p: PortfolioState, i: InstrumentId)
    requires i in p.positions
    ensures ValueTerm(p, Last, i) == ValueTerm(p, Liquidation, i) + ShortSpread(p, i)
  {
  }

  // ---------------------------------------------------------------------------
  // Closing everything
  // ---------------------------------------------------------------------------

  predicate OpenAndMarked(p: PortfolioState, i: InstrumentId) {
    i in p.positions && i in p.marks && !p.positions[i].Flat()
  }

  /** Sells a long at the bid, buys a short back at the ask, free of cost. */
  function CloseOut(p: PortfolioState, i: InstrumentId): Fill
    requires OpenAndMarked(p, i)
  {
    var quantity := p.positions[i].quantity;
    if quantity > 0.0
    then Fill(NO_ORDER, NO_ORDER, i, Sell, p.marks[i].bid, quantity, 0.0, 0.0, Taker, NO_TIMES, 0.0)
    else Fill(NO_ORDER, NO_ORDER, i, Buy, p.marks[i].ask, -quantity, 0.0, 0.0, Taker, NO_TIMES, 0.0)
  }

  /** Closes the listed positions one after the other. */
  function ClosedOut(p: PortfolioState, cfg: PortfolioConfig, list: seq<InstrumentId>): PortfolioState
    decreases |list|
  {
    if list == [] then p
    else if !OpenAndMarked(p, list[0]) then ClosedOut(p, cfg, list[1..])
    else ClosedOut(Booking(p, cfg, CloseOut(p, list[0])).0, cfg, list[1..])
  }

  /** Closing one position at its mark is never refused, leaves it flat and the rest alone, and keeps the equity. */
  lemma CloseOutKeepsEquity(p: PortfolioState, cfg: PortfolioConfig, i: InstrumentId)
    requires OpenAndMarked(p, i)
    ensures var (q, r) := Booking(p, cfg, CloseOut(p, i));
            && r.Ok? && q.marks == p.marks && Equity(q, Liquidation) == Equity(p, Liquidation)
            && i in q.positions && q.positions[i].Flat() && q.positions == p.positions[i := q.positions[i]]
  {
    var q := Booking(p, cfg, CloseOut(p, i)).0;
    CloseOutMovesCash(p, cfg, i);
    assert q.positions.Keys == p.positions.Keys + {i} == p.positions.Keys;
    assert q.positions == p.positions[i := q.positions[i]] && q.marks == p.marks;
    hide Booking, CloseOut;
    forall j | j in p.positions.Keys && j != i
      ensures ValueTerm(p, Liquidation, j) == ValueTerm(q, Liquidation, j)
    {
    }
    hide ValueTerm;
    SumChangeOne(p.positions.Keys, ValueTerms(p, Liquidation), ValueTerms(q, Liquidation), i);
  }

  lemma CloseOutMovesCash(p: PortfolioState, cfg: PortfolioConfig, i: InstrumentId)
    requires OpenAndMarked(p, i)
    ensures var (q, r) := Booking(p, cfg, CloseOut(p, i));
            && r.Ok? && i in q.positions && q.positions[i].Flat()
            && q.cash == p.cash + ValueTerm(p, Liquidation, i) && ValueTerm(q, Liquidation, i) == 0.0
  {
    hide AverageAfter, RealizedBy;
  }

  predicate ListsOpen(p: PortfolioState, list: seq<InstrumentId>) {
    forall i :: i in p.positions && OpenAndMarked(p, i) ==> i in list
  }

  lemma {:induction false} ClosedOutKeepsEquity(p: PortfolioState, cfg: PortfolioConfig, list: seq<InstrumentId>)
    requires ListsOpen(p, list)
    ensures var q := ClosedOut(p, cfg, list);
            && Equity(q, Liquidation) == Equity(p, Liquidation) && q.marks == p.marks
            && q.positions.Keys == p.positions.Keys && forall i :: !OpenAndMarked(q, i)
    decreases |list|
  {
    hide Booking, CloseOut, Equity;
    if list != [] {
      if OpenAndMarked(p, list[0]) {
        CloseOutKeepsEquity(p, cfg, list[0]);
        var next := Booking(p, cfg, CloseOut(p, list[0])).0;
        assert next.positions.Keys == p.positions.Keys;
        ClosedOutKeepsEquity(next, cfg, list[1..]);
      } else {
        ClosedOutKeepsEquity(p, cfg, list[1..]);
      }
    }
  }

  lemma UnmarkedAtCost(q: PortfolioState)
    requires forall i :: !OpenAndMarked(q, i)
    ensures Equity(q, Liquidation) == q.cash + TotalBasis(q)
  {
    forall i | i in q.positions.Keys
      ensures ValueTerm(q, Liquidation, i) == BasisTerm(q, i)
    {
      assert !OpenAndMarked(q, i);
    }
    hide ValueTerm, BasisTerm;
    SumCongruent(q.positions.Keys, ValueTerms(q, Liquidation), BasisTerms(q));
  }

  /** Liquidation equity is what liquidation would raise: selling every marked long at its bid and buying every marked
      short back at its ask, in any order, turns it into cash, next to the cost of the positions that have no mark. */
  lemma LiquidationRaisesItsEquity(p: PortfolioState, cfg: PortfolioConfig, list: seq<InstrumentId>)
    requires ListsOpen(p, list)
    ensures var q := ClosedOut(p, cfg, list);
            && Equity(p, Liquidation) == q.cash + TotalBasis(q)
            && ((forall i :: i in p.positions ==> i in p.marks) ==>
                  Equity(p, Liquidation) == q.cash && forall i :: i in q.positions ==> q.positions[i].Flat())
  {
    ClosedOutKeepsEquity(p, cfg, list);
    var q := ClosedOut(p, cfg, list);
    hide ClosedOut, Equity;
    UnmarkedAtCost(q);
    if forall i :: i in p.positions ==> i in p.marks {
      forall i | i in q.positions
        ensures q.positions[i].Flat() && BasisTerm(q, i) == 0.0
      {
        assert !OpenAndMarked(q, i);
      }
      SumZero(q.positions.Keys, BasisTerms(q));
    }
  }
}
