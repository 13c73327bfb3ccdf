/** The append-only journal and the matching of fills into round trips. */
module Journals {
  import opened Types
  import opened Orders
  import opened Positions

  datatype EntryKind = OrderSubmitted | FillReceived | RiskRejection

  datatype JournalEntry = JournalEntry(
    ts: Timestamp, kind: EntryKind, orderId: OrderId, instrument: InstrumentId, side: Side,
    quantity: real, price: real, cashDelta: real, cost: real)

  /** A round trip matched from fills. */
  datatype Trade = Trade(
    instrument: InstrumentId, direction: Side, openedAt: Timestamp, closedAt: Timestamp,
    quantity: real, entryPrice: real, exitPrice: real, grossPnl: real, costs: real)

  /** The running lot of one instrument during matching. */
  datatype OpenLot = OpenLot(quantity: real, average: real, openedAt: Timestamp, costs: real)

  const NO_LOT := OpenLot(0.0, 0.0, NO_TIMESTAMP, 0.0)

  datatype JournalState = JournalState(entries: seq<JournalEntry>, fills: seq<Fill>, trades: seq<Trade>)

  function EntryOf(f: Fill): JournalEntry {
    JournalEntry(f.times.fill, FillReceived, f.orderId, f.instrument, f.side, f.quantity, f.price,
                 f.CashDelta(), f.TotalCost())
  }

  /** An entry that moves backwards in time is refused. */
  predicate Appendable(entries: seq<JournalEntry>, e: JournalEntry) {
    entries == [] || entries[|entries| - 1].ts <= e.ts
  }

  function Appending(j: JournalState, e: JournalEntry): JournalState {
    if Appendable(j.entries, e) then j.(entries := j.entries + [e]) else j
  }

  /** The fill is kept for matching even when its journal entry is refused. */
  function Recording(j: JournalState, f: Fill): JournalState {
    Appending(j, EntryOf(f)).(fills := j.fills + [f])
  }

  // ---------------------------------------------------------------------------
  // Matching one fill against the open lot of its instrument
  // ---------------------------------------------------------------------------

  function Share(closing: real, held: real): real {
    if Abs(held) > 0.0 then closing / Abs(held) else 1.0
  }

  /** The round trip that a fill closes, when it trades against the open lot. */
  function Closes(o: OpenLot, f: Fill): Option<Trade> {
    var delta := f.SignedQuantity();
    if Adds(o.quantity, delta) then None
    else
      var closing := Min(Abs(delta), Abs(o.quantity));
      var direction := if o.quantity > 0.0 then 1.0 else -1.0;
      Some(Trade(f.instrument, if o.quantity > 0.0 then Buy else Sell, o.openedAt, f.times.fill,
                 closing, o.average, f.price, Gain(f.price, o.average, closing, direction),
                 o.costs * Share(closing, o.quantity) + f.TotalCost()))
  }

  function LotAfter(o: OpenLot, f: Fill): OpenLot {
    var delta := f.SignedQuantity();
    var after := o.quantity + delta;
    if Adds(o.quantity, delta) then
      OpenLot(after, if after != 0.0 then Blend(o.quantity, o.average, delta, f.price) else o.average,
              if o.quantity == 0.0 then f.times.fill else o.openedAt, o.costs + f.TotalCost())
    else
      var closing := Min(Abs(delta), Abs(o.quantity));
      if Abs(delta) > Abs(o.quantity) then OpenLot(after, f.price, f.times.fill, 0.0)
      else if after == 0.0 then OpenLot(after, 0.0, o.openedAt, 0.0)
      else OpenLot(after, o.average, o.openedAt, o.costs * (1.0 - Share(closing, o.quantity)))
  }

  function LotOf(lots: map<InstrumentId, OpenLot>, i: InstrumentId): OpenLot {
    if i in lots then lots[i] else NO_LOT
  }

  /** The lots after matching all the fills, from the first. */
  function Lots(fills: seq<Fill>): map<InstrumentId, OpenLot> {
    if fills == [] then map[]
    else
      var lots, f := Lots(fills[..|fills| - 1]), fills[|fills| - 1];
      lots[f.instrument := LotAfter(LotOf(lots, f.instrument), f)]
  }

  function Matched(fills: seq<Fill>): seq<Trade> {
    if fills == [] then []
    else
      var prefix, f := fills[..|fills| - 1], fills[|fills| - 1];
      var closed := Closes(LotOf(Lots(prefix), f.instrument), f);
      Matched(prefix) + if closed.Some? then [closed.value] else []
  }

  class Journal {
    var entries: seq<JournalEntry>
    var fills: seq<Fill>
    var trades: seq<Trade>

    ghost function State(): JournalState
      reads this
    {
      JournalState(entries, fills, trades)
    }

    constructor ()
      ensures State() == JournalState([], [], [])
    {
      entries, fills, trades := [], [], [];
    }

    method Append(e: JournalEntry) returns (accepted: bool)
      modifies this
      ensures State() == Appending(old(State()), e)
      ensures accepted <==> Appendable(old(entries), e)
    {
      if entries != [] && e.ts < entries[|entries| - 1].ts {
        return false;
      }
      entries := entries + [e];
      return true;
    }

    method RecordFill(f: Fill)
      modifies this
      ensures State() == Recording(old(State()), f)
    {
      var _ := Append(EntryOf(f));
      fills := fills + [f];
    }

    /** Rebuilds the round trips from all recorded fills. */
    method MatchTrades()
      modifies this
      ensures State() == old(State()).(trades := Matched(old(fills)))
    {
      hide Closes, LotAfter;
      trades := [];
      var open: map<InstrumentId, OpenLot> := map[];
      var n := 0;
      while n < |fills|
        invariant 0 <= n <= |fills| && fills == old(fills) && entries == old(entries)
        invariant trades == Matched(fills[..n])
        invariant open == Lots(fills[..n])
      {
        var f := fills[n];
        assert fills[..n + 1][..n] == fills[..n] && fills[..n + 1][n] == f;
        var o := LotOf(open, f.instrument);
        var closed := Closes(o, f);
        if closed.Some? {
          trades := trades + [closed.value];
        }
        open := open[f.instrument := LotAfter(o, f)];
        n := n + 1;
      }
      assert fills[..n] == fills;
    }
  }

  // ---------------------------------------------------------------------------
  // Two matchers, one result
  // ---------------------------------------------------------------------------

  /** The fills of one instrument, in order. */
  function Of(fills: seq<Fill>, i: InstrumentId): seq<Fill> {
    if fills == [] then []
    else
      var f := fills[|fills| - 1];
      Of(fills[..|fills| - 1], i) + if f.instrument == i then [f] else []
  }

  /** What the position accounting makes of a list of fills. */
  function Held(fills: seq<Fill>): PositionState {
    if fills == [] then NO_POSITION
    else Applied(Held(fills[..|fills| - 1]), fills[|fills| - 1])
  }

  function GrossPnl(trades: seq<Trade>, i: InstrumentId): real {
    if trades == [] then 0.0
    else
      var t := trades[|trades| - 1];
      GrossPnl(trades[..|trades| - 1], i) + if t.instrument == i then t.grossPnl else 0.0
  }

  function TradeCosts(trades: seq<Trade>, i: InstrumentId): real {
    if trades == [] then 0.0
    else
      var t := trades[|trades| - 1];
      TradeCosts(trades[..|trades| - 1], i) + if t.instrument == i then t.costs else 0.0
  }

  function FillCosts(fills: seq<Fill>, i: InstrumentId): real {
    if fills == [] then 0.0
    else
      var f := fills[|fills| - 1];
      FillCosts(fills[..|fills| - 1], i) + if f.instrument == i then f.TotalCost() else 0.0
  }

  /** Lot and position agree on what is held and at what average cost. */
  predicate SameHolding(o: OpenLot, s: PositionState) {
    o.quantity == s.quantity && o.average == s.averageCost && (s.quantity == 0.0 ==> s.averageCost == 0.0)
  }

  /** One fill keeps lot and position in step and realises the same profit in both. */
  lemma OneFillAgrees(o: OpenLot, s: PositionState, f: Fill)
    requires SameHolding(o, s)
    ensures SameHolding(LotAfter(o, f), Applied(s, f))
    ensures Applied(s, f).realized - s.realized
            == (if Closes(o, f).Some? then Closes(o, f).value.grossPnl else 0.0)
  {
  }

  /** Trade costs and the costs still carried on the lot account for the costs paid, reversals included. */
  lemma OneFillConservesCosts(o: OpenLot, f: Fill)
    requires o.quantity == 0.0 ==> o.costs == 0.0
    ensures LotAfter(o, f).costs + (if Closes(o, f).Some? then Closes(o, f).value.costs else 0.0)
            == o.costs + f.TotalCost()
    ensures LotAfter(o, f).quantity == 0.0 && f.quantity != 0.0 ==> LotAfter(o, f).costs == 0.0
  {
  }

  /** For any interleaving of fills over instruments, every instrument's round trips add up to exactly
      the profit its position realises, and the open lot is the position. */
  lemma {:induction false} TradesSumToRealized(fills: seq<Fill>, i: InstrumentId)
    ensures SameHolding(LotOf(Lots(fills), i), Held(Of(fills, i)))
    ensures GrossPnl(Matched(fills), i) == Held(Of(fills, i)).realized
  {
    if fills != [] {
      var prefix, f := fills[..|fills| - 1], fills[|fills| - 1];
      TradesSumToRealized(prefix, i);
      var o := LotOf(Lots(prefix), f.instrument);
      var closed := Closes(o, f);
      GrossOfOneMore(Matched(prefix), closed, i);
      if f.instrument == i {
        var mine := Of(prefix, i);
        assert (mine + [f])[..|mine|] == mine;
        OneFillAgrees(o, Held(mine), f);
      } else {
        assert Of(fills, i) == Of(prefix, i);
      }
    }
  }

  lemma GrossOfOneMore(trades: seq<Trade>, closed: Option<Trade>, i: InstrumentId)
    ensures var more := trades + if closed.Some? then [closed.value] else [];
            && GrossPnl(more, i) == GrossPnl(trades, i)
                                    + (if closed.Some? && closed.value.instrument == i
                                       then closed.value.grossPnl else 0.0)
            && TradeCosts(more, i) == TradeCosts(trades, i)
                                      + (if closed.Some? && closed.value.instrument == i
                                         then closed.value.costs else 0.0)
  {
    if closed.Some? {
      assert (trades + [closed.value])[..|trades|] == trades;
    } else {
      assert trades + [] == trades;
    }
  }

  /** Costs are conserved per instrument: what the round trips carry plus what the open lot still
      carries is what all its fills cost. */
  lemma {:induction false} CostsAreConserved(fills: seq<Fill>, i: InstrumentId)
    requires forall f :: f in fills ==> f.quantity > 0.0
    ensures TradeCosts(Matched(fills), i) + LotOf(Lots(fills), i).costs == FillCosts(fills, i)
    ensures LotOf(Lots(fills), i).quantity == 0.0 ==> LotOf(Lots(fills), i).costs == 0.0
  {
    if fills != [] {
      var prefix, f := fills[..|fills| - 1], fills[|fills| - 1];
      assert f in fills;
      CostsAreConserved(prefix, i);
      var o := LotOf(Lots(prefix), f.instrument);
      GrossOfOneMore(Matched(prefix), Closes(o, f), i);
      if f.instrument == i {
        OneFillConservesCosts(o, f);
      }
    }
  }

  /** A round trip never closes more than was open, and it closes on the side opposite to its fill. */
  lemma RoundTripClosesWhatWasOpen(o: OpenLot, f: Fill)
    requires f.quantity > 0.0 && Closes(o, f).Some?
    ensures var t := Closes(o, f).value;
            && 0.0 < t.quantity <= Abs(o.quantity) && t.quantity <= f.quantity
            && t.direction != f.side
            && (t.quantity == Abs(o.quantity) <==> Adds(o.quantity + f.SignedQuantity(), f.SignedQuantity()))
  {
  }

  // ---------------------------------------------------------------------------
  // The entries
  // ---------------------------------------------------------------------------

  predicate Chronological(entries: seq<JournalEntry>) {
    forall a, b :: 0 <= a < b < |entries| ==> entries[a].ts <= entries[b].ts
  }

  function AllRecorded(j: JournalState, fills: seq<Fill>): JournalState {
    if fills == [] then j else Recording(AllRecorded(j, fills[..|fills| - 1]), fills[|fills| - 1])
  }

  /** However fills arrive, the entries stay chronological and no fill is lost to the matching. */
  lemma {:induction false} RecordingKeepsOrder(j: JournalState, fills: seq<Fill>)
    requires Chronological(j.entries)
    ensures Chronological(AllRecorded(j, fills).entries)
    ensures AllRecorded(j, fills).fills == j.fills + fills
    ensures |AllRecorded(j, fills).entries| <= |j.entries| + |fills|
  {
    if fills == [] {
      assert j.fills + [] == j.fills;
    } else {
      var prefix, f := fills[..|fills| - 1], fills[|fills| - 1];
      RecordingKeepsOrder(j, prefix);
      assert prefix + [f] == fills;
      assert j.fills + prefix + [f] == j.fills + fills;
    }
  }

  lemma EntryTime(f: Fill)
    ensures EntryOf(f).ts == f.times.fill
  {
  }

  lemma EntryTimes(fills: seq<Fill>)
    ensures forall k :: 0 <= k < |fills| ==> EntryOf(fills[k]).ts == fills[k].times.fill
  {
  }

  /** Every fill has its own entry exactly when the fills arrive in time order: a single backwards
      fill silently leaves no entry. */
  predicate InOrder(fills: seq<Fill>) {
    forall a, b :: 0 <= a < b < |fills| ==> fills[a].times.fill <= fills[b].times.fill
  }

  /** The entries that recording the fills into an empty journal leaves. */
  function EntriesOf(fills: seq<Fill>): seq<JournalEntry> {
    AllRecorded(JournalState([], [], []), fills).entries
  }

  predicate ListsAll(entries: seq<JournalEntry>, fills: seq<Fill>) {
    |entries| == |fills| && forall k :: 0 <= k < |fills| ==> entries[k] == EntryOf(fills[k])
  }

  lemma OneMoreEntry(fills: seq<Fill>)
    requires fills != []
    ensures var before, e := EntriesOf(fills[..|fills| - 1]), EntryOf(fills[|fills| - 1]);
            EntriesOf(fills) == if Appendable(before, e) then before + [e] else before
  {
    hide EntryOf, Appendable;
  }

  lemma InOrderOneMore(fills: seq<Fill>)
    requires fills != [] && ListsAll(EntriesOf(fills[..|fills| - 1]), fills[..|fills| - 1])
    ensures var front := fills[..|fills| - 1];
            InOrder(fills) <==> InOrder(front) && Appendable(EntriesOf(front), EntryOf(fills[|fills| - 1]))
  {
    var front, f := fills[..|fills| - 1], fills[|fills| - 1];
    var before := EntriesOf(front);
    EntryTime(f);
    EntryTimes(front);
    hide EntryOf, EntriesOf;
    if front != [] {
      assert before[|before| - 1].ts == fills[|fills| - 2].times.fill;
    }
    if InOrder(front) && Appendable(before, EntryOf(f)) {
      forall a, b | 0 <= a < b < |fills|
        ensures fills[a].times.fill <= fills[b].times.fill
      {
        if b < |front| {
          assert front[a].times.fill <= front[b].times.fill;
        } else if a < |front| - 1 {
          assert front[a].times.fill <= front[|front| - 1].times.fill;
        }
      }
    }
    if InOrder(fills) {
      forall a, b | 0 <= a < b < |front|
        ensures front[a].times.fill <= front[b].times.fill
      {
        assert fills[a].times.fill <= fills[b].times.fill;
      }
    }
  }

  lemma {:induction false} EntriesCompleteIffInOrder(fills: seq<Fill>)
    ensures |EntriesOf(fills)| <= |fills|
    ensures |EntriesOf(fills)| == |fills| <==> InOrder(fills)
    ensures |EntriesOf(fills)| == |fills| ==> ListsAll(EntriesOf(fills), fills)
  {
    if fills != [] {
      var front := fills[..|fills| - 1];
      EntriesCompleteIffInOrder(front);
      OneMoreEntry(fills);
      if InOrder(front) {
        InOrderOneMore(fills);
      } else {
        DisorderStays(fills);
      }
      hide EntriesOf, InOrder, Appendable, EntryOf;
    }
  }

  lemma DisorderStays(fills: seq<Fill>)
    requires fills != [] && !InOrder(fills[..|fills| - 1])
    ensures !InOrder(fills)
  {
    var front := fills[..|fills| - 1];
    var a, b :| 0 <= a < b < |front| && front[a].times.fill > front[b].times.fill;
    assert fills[a] == front[a] && fills[b] == front[b];
  }
}
