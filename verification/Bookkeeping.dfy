/** Portfolio and journal as bookkeepers of the same fills: what each of them says was paid, charged and traded. */
module Bookkeeping {
  import opened Types
  import opened Orders
  import opened Positions
  import opened Portfolios
  import opened Journals

  /** What a fill pays in: a sale its proceeds, a purchase less than nothing, and either way less what it costs. */
  function PaidIn(f: Fill): real {
    (if f.side == Sell then f.price * f.quantity else -(f.price * f.quantity)) - (f.commission + f.exchangeFee)
  }

  function AllPaidIn(fills: seq<Fill>): real {
    if fills == [] then 0.0 else AllPaidIn(fills[..|fills| - 1]) + PaidIn(fills[|fills| - 1])
  }

  function Charged(fills: seq<Fill>): real {
    if fills == [] then 0.0
    else Charged(fills[..|fills| - 1]) + (fills[|fills| - 1].commission + fills[|fills| - 1].exchangeFee)
  }

  /** The money that changed hands, bought or sold. */
  function Traded(fills: seq<Fill>): real {
    if fills == [] then 0.0
    else Traded(fills[..|fills| - 1]) + Abs(fills[|fills| - 1].price * fills[|fills| - 1].quantity)
  }

  lemma OneMore(fills: seq<Fill>, f: Fill)
    ensures AllPaidIn(fills + [f]) == AllPaidIn(fills) + PaidIn(f)
    ensures Charged(fills + [f]) == Charged(fills) + (f.commission + f.exchangeFee)
    ensures Traded(fills + [f]) == Traded(fills) + Abs(f.price * f.quantity)
  {
  }

  // ---------------------------------------------------------------------------
  // The portfolio
  // ---------------------------------------------------------------------------

  /** The books move by one fill, or not at all. */
  predicate Moves(p: PortfolioState, q: PortfolioState, fills: seq<Fill>) {
    && q.cash - p.cash == AllPaidIn(fills) && q.costs - p.costs == Charged(fills)
    && q.turnover - p.turnover == Traded(fills)
  }

  /** A fill is booked unless it would leave the account short by more than a billionth of a share without permission;
      then cash, costs and turnover move by exactly what it says. */
  lemma BookingIs(p: PortfolioState, cfg: PortfolioConfig, f: Fill)
    ensures Booking(p, cfg, f).1.Ok?
            <==> cfg.allowShort || PositionOf(p, f.instrument).quantity
                                   + (if f.side == Buy then f.quantity else -f.quantity) >= -0.000000001
    ensures Moves(p, Booking(p, cfg, f).0, if Booking(p, cfg, f).1.Ok? then [f] else [])
  {
    hide Applied, AllPaidIn, Charged, Traded, PaidIn, Fill.CashDelta, Fill.SignedQuantity;
    Single(f);
    FillPays(f);
  }

  lemma FillPays(f: Fill)
    ensures f.CashDelta() == PaidIn(f) && f.SignedQuantity() == if f.side == Buy then f.quantity else -f.quantity
  {
  }

  lemma Single(f: Fill)
    ensures AllPaidIn([]) == 0.0 && Charged([]) == 0.0 && Traded([]) == 0.0
    ensures AllPaidIn([f]) == PaidIn(f) && Charged([f]) == f.commission + f.exchangeFee
    ensures Traded([f]) == Abs(f.price * f.quantity)
  {
    assert [f][..0] == [];
  }

  /** The fills of a run that were booked. */
  function Booked(cfg: PortfolioConfig, events: seq<PortfolioEvent>): seq<Fill> {
    if events == [] then []
    else
      var front, e := events[..|events| - 1], events[|events| - 1];
      Booked(cfg, front) + if e.Traded? && Booking(After(cfg, front), cfg, e.fill).1.Ok? then [e.fill] else []
  }

  /** Over every run, cash is what was there, what the booked fills paid in and what dividends paid, the costs are what
      the fills were charged, and the turnover is what they traded. */
  lemma {:induction false} CashIsPaidIn(cfg: PortfolioConfig, events: seq<PortfolioEvent>)
    ensures var p, fills := After(cfg, events), Booked(cfg, events);
            && p.cash == cfg.initialCash + AllPaidIn(fills) + DividendsPaid(cfg, events)
            && p.costs == Charged(fills) && p.turnover == Traded(fills)
  {
    if events == [] {
      assert AllPaidIn([]) == 0.0 && Charged([]) == 0.0 && Traded([]) == 0.0;
    } else {
      hide Stepped, Booking, AllPaidIn, Charged, Traded, PaidIn, PositionOf;
      var front, e := events[..|events| - 1], events[|events| - 1];
      CashIsPaidIn(cfg, front);
      var p, fills := After(cfg, front), Booked(cfg, front);
      if e.Traded? {
        TradeMovesBooks(p, cfg, e.fill, fills);
      } else {
        OtherEventsPayDividends(p, cfg, e);
        assert fills + [] == fills;
      }
    }
  }

  lemma TradeMovesBooks(p: PortfolioState, cfg: PortfolioConfig, f: Fill, fills: seq<Fill>)
    ensures var q, more := Stepped(p, cfg, PortfolioEvent.Traded(f)),
                           fills + if Booking(p, cfg, f).1.Ok? then [f] else [];
            && q.cash - p.cash == AllPaidIn(more) - AllPaidIn(fills)
            && q.costs - p.costs == Charged(more) - Charged(fills)
            && q.turnover - p.turnover == Traded(more) - Traded(fills)
  {
    BookingIs(p, cfg, f);
    Single(f);
    OneMore(fills, f);
    hide Booking, AllPaidIn, Charged, Traded, PaidIn;
    assert fills + [] == fills;
  }

  lemma OtherEventsPayDividends(p: PortfolioState, cfg: PortfolioConfig, e: PortfolioEvent)
    requires !e.Traded?
    ensures var q := Stepped(p, cfg, e);
            && q.cash - p.cash == (if e.Dividend? then e.perShare * PositionOf(p, e.i).quantity else 0.0)
            && q.costs == p.costs && q.turnover == p.turnover
  {
    hide Split;
  }

  // ---------------------------------------------------------------------------
  // The journal
  // ---------------------------------------------------------------------------

  /** The cash that the entries say came in. */
  function EnteredCash(entries: seq<JournalEntry>): real {
    if entries == [] then 0.0
    else EnteredCash(entries[..|entries| - 1]) + entries[|entries| - 1].cashDelta
  }

  function EnteredCost(entries: seq<JournalEntry>): real {
    if entries == [] then 0.0
    else EnteredCost(entries[..|entries| - 1]) + entries[|entries| - 1].cost
  }

  /** An entry says of its fill everything that accounting needs. */
  predicate Enters(e: JournalEntry, f: Fill) {
    && e.kind == FillReceived && e.ts == f.times.fill && e.orderId == f.orderId && e.instrument == f.instrument
    && e.side == f.side && e.quantity == f.quantity && e.price == f.price
    && e.cashDelta == PaidIn(f) && e.cost == f.commission + f.exchangeFee
  }

  lemma EntryEnters(f: Fill)
    ensures Enters(EntryOf(f), f)
  {
  }

  /** Of fills in time order the entries carry exactly what was paid in and charged. */
  lemma {:induction false} EntriesCarryTheCash(fills: seq<Fill>)
    requires InOrder(fills)
    ensures |EntriesOf(fills)| == |fills|
    ensures forall k :: 0 <= k < |fills| ==> Enters(EntriesOf(fills)[k], fills[k])
    ensures EnteredCash(EntriesOf(fills)) == AllPaidIn(fills) && EnteredCost(EntriesOf(fills)) == Charged(fills)
  {
    hide Enters, EntryOf, EntriesOf;
    EntriesCompleteIffInOrder(fills);
    if fills == [] {
    } else {
      var n := |fills| - 1;
      var front := fills[..n];
      FrontInOrder(fills);
      EntriesCarryTheCash(front);
      EntriesCompleteIffInOrder(front);
      assert EntriesOf(fills)[..n] == EntriesOf(front);
      EntryEnters(fills[n]);
      EntryCash(fills[n]);
    }
  }

  lemma FrontInOrder(fills: seq<Fill>)
    requires fills != [] && InOrder(fills)
    ensures InOrder(fills[..|fills| - 1])
  {
    var front := fills[..|fills| - 1];
    forall a, b | 0 <= a < b < |front|
      ensures front[a].times.fill <= front[b].times.fill
    {
      assert fills[a].times.fill <= fills[b].times.fill;
    }
  }

  lemma EntryCash(f: Fill)
    ensures EntryOf(f).cashDelta == PaidIn(f) && EntryOf(f).cost == f.commission + f.exchangeFee
  {
  }

  /** The same fills as events of the portfolio. */
  function AsTrades(fills: seq<Fill>): (events: seq<PortfolioEvent>)
    ensures |events| == |fills|
  {
    if fills == [] then []
    else AsTrades(fills[..|fills| - 1]) + [PortfolioEvent.Traded(fills[|fills| - 1])]
  }

  /** With short sales allowed the portfolio books every fill. */
  lemma {:induction false} AllAreBooked(cfg: PortfolioConfig, fills: seq<Fill>)
    requires cfg.allowShort
    ensures Booked(cfg, AsTrades(fills)) == fills && DividendsPaid(cfg, AsTrades(fills)) == 0.0
  {
    if fills != [] {
      var front, f := fills[..|fills| - 1], fills[|fills| - 1];
      AllAreBooked(cfg, front);
      assert AsTrades(fills)[..|front|] == AsTrades(front);
      hide AsTrades;
      assert front + [f] == fills;
    }
  }

  /** Two bookkeepers, one result: the cash that the journal's entries add up to is what the portfolio's cash moved
      by, and so for the costs. */
  lemma JournalAgreesWithPortfolio(cfg: PortfolioConfig, fills: seq<Fill>)
    requires cfg.allowShort && InOrder(fills)
    ensures EnteredCash(EntriesOf(fills)) == After(cfg, AsTrades(fills)).cash - cfg.initialCash
    ensures EnteredCost(EntriesOf(fills)) == After(cfg, AsTrades(fills)).costs
  {
    EntriesCarryTheCash(fills);
    AllAreBooked(cfg, fills);
    CashIsPaidIn(cfg, AsTrades(fills));
    hide EntriesOf, After, AsTrades;
  }
}
