/** What a matched round trip says, read off the fills: which fill opened it, which closed it, at what prices. */
module RoundTrips {
  import opened Types
  import opened Orders
  import opened Journals

  /** Bought less sold of one instrument. */
  function Net(fills: seq<Fill>, i: InstrumentId): real {
    if fills == [] then 0.0
    else
      var f := fills[|fills| - 1];
      Net(fills[..|fills| - 1], i)
      + if f.instrument != i then 0.0 else if f.side == Buy then f.quantity else -f.quantity
  }

  predicate Positive(fills: seq<Fill>) {
    forall k :: 0 <= k < |fills| ==> fills[k].quantity > 0.0
  }

  /** A fill opens a lot when nothing of its instrument is held, or when it turns what is held to the other side. */
  predicate Opens(fills: seq<Fill>, k: nat)
    requires k < |fills|
  {
    var before, after := Net(fills[..k], fills[k].instrument), Net(fills[..k + 1], fills[k].instrument);
    before == 0.0 || after < 0.0 < before || before < 0.0 < after
  }

  /** The fill that opened the lot held after all the fills. */
  predicate LastOpening(fills: seq<Fill>, i: InstrumentId, k: nat) {
    && k < |fills| && fills[k].instrument == i && Opens(fills, k)
    && forall j :: k < j < |fills| && fills[j].instrument == i ==> !Opens(fills, j)
  }

  /** A fill closes when it trades against what is held. */
  predicate Reduces(fills: seq<Fill>, n: nat)
    requires n < |fills|
  {
    var held := Net(fills[..n], fills[n].instrument);
    if fills[n].side == Buy then held < 0.0 else held > 0.0
  }

  /** The closing fills, in order. */
  function Closers(fills: seq<Fill>, n: nat): (c: seq<nat>)
    requires n <= |fills|
    ensures forall m :: 0 <= m < |c| ==> c[m] < n
  {
    if n == 0 then [] else Closers(fills, n - 1) + if Reduces(fills, n - 1) then [n - 1] else []
  }

  /** The round trip that fill k opened and fill n closed, in whole or in part. */
  predicate RoundTrip(fills: seq<Fill>, k: nat, n: nat, t: Trade) {
    && k < n < |fills|
    && t.instrument == fills[n].instrument && LastOpening(fills[..n], t.instrument, k)
    && t.openedAt == fills[k].times.fill && t.closedAt == fills[n].times.fill
    && t.direction == fills[k].side && t.direction != fills[n].side
    && t.quantity == Min(fills[n].quantity, Abs(Net(fills[..n], t.instrument)))
    && t.entryPrice == Held(Of(fills[..n], t.instrument)).averageCost && t.exitPrice == fills[n].price
    && t.grossPnl == (t.exitPrice - t.entryPrice) * t.quantity * if t.direction == Buy then 1.0 else -1.0
  }

  // ---------------------------------------------------------------------------
  // The lot and the fills behind it
  // ---------------------------------------------------------------------------

  lemma NetOfOneMore(fills: seq<Fill>, i: InstrumentId)
    requires fills != []
    ensures var f := fills[|fills| - 1];
            Net(fills, i) == Net(fills[..|fills| - 1], i) + if f.instrument == i then f.SignedQuantity() else 0.0
  {
  }

  lemma LotOfOneMore(fills: seq<Fill>, i: InstrumentId)
    requires fills != []
    ensures var front, f := fills[..|fills| - 1], fills[|fills| - 1];
            LotOf(Lots(fills), i)
            == if f.instrument == i then LotAfter(LotOf(Lots(front), i), f) else LotOf(Lots(front), i)
  {
    hide LotAfter;
  }

  lemma {:induction false} LotHoldsTheNet(fills: seq<Fill>, i: InstrumentId)
    ensures LotOf(Lots(fills), i).quantity == Net(fills, i)
  {
    if fills != [] {
      LotHoldsTheNet(fills[..|fills| - 1], i);
      LotOfOneMore(fills, i);
      NetOfOneMore(fills, i);
      hide Lots, Net;
    }
  }

  /** What opens a lot does not depend on the fills after it. */
  lemma OpensInFront(fills: seq<Fill>, k: nat)
    requires k < |fills| - 1
    ensures Opens(fills, k) <==> Opens(fills[..|fills| - 1], k)
  {
    var front := fills[..|fills| - 1];
    assert front[..k] == fills[..k] && front[..k + 1] == fills[..k + 1];
  }

  lemma StaysLastOpening(fills: seq<Fill>, i: InstrumentId, k: nat)
    requires fills != [] && LastOpening(fills[..|fills| - 1], i, k)
    requires fills[|fills| - 1].instrument == i ==> !Opens(fills, |fills| - 1)
    ensures LastOpening(fills, i, k)
  {
    hide Opens;
    OpensInFront(fills, k);
    forall j | k < j < |fills| && fills[j].instrument == i
      ensures !Opens(fills, j)
    {
      if j < |fills| - 1 {
        OpensInFront(fills, j);
        assert fills[..|fills| - 1][j] == fills[j];
      }
    }
  }

  /** The open lot carries the time of the fill that opened it, and is on that fill's side. */
  predicate OpenedBy(fills: seq<Fill>, i: InstrumentId, k: nat) {
    && LastOpening(fills, i, k)
    && LotOf(Lots(fills), i).openedAt == fills[k].times.fill
    && (if fills[k].side == Buy then Net(fills, i) > 0.0 else Net(fills, i) < 0.0)
  }

  lemma {:induction false} LotWasOpened(fills: seq<Fill>, i: InstrumentId)
    requires Positive(fills) && Net(fills, i) != 0.0
    ensures exists k :: OpenedBy(fills, i, k)
  {
    if fills != [] {
      var n := |fills| - 1;
      var front, f := fills[..n], fills[n];
      assert fills[..n + 1] == fills;
      LotOfOneMore(fills, i);
      NetOfOneMore(fills, i);
      LotHoldsTheNet(front, i);
      hide Lots, Net;
      if f.instrument == i && Opens(fills, n) {
        assert OpenedBy(fills, i, n);
      } else {
        LotWasOpened(front, i);
        var k: nat :| OpenedBy(front, i, k);
        StaysLastOpening(fills, i, k);
        assert OpenedBy(fills, i, k);
      }
    }
  }

  // ---------------------------------------------------------------------------
  // Every round trip
  // ---------------------------------------------------------------------------

  /** Matching closes a lot exactly at the fills that trade against what is held. */
  lemma ClosesWhereReduced(fills: seq<Fill>, n: nat)
    requires n < |fills| && fills[n].quantity > 0.0
    ensures Closes(LotOf(Lots(fills[..n]), fills[n].instrument), fills[n]).Some? <==> Reduces(fills, n)
  {
    LotHoldsTheNet(fills[..n], fills[n].instrument);
    hide Lots, Net;
  }

  /** The trade that one fill closes, field by field. */
  lemma TradeOfALot(o: OpenLot, f: Fill)
    requires f.quantity > 0.0 && Closes(o, f).Some?
    ensures var t := Closes(o, f).value;
            && t.instrument == f.instrument && t.openedAt == o.openedAt && t.closedAt == f.times.fill
            && t.direction == (if o.quantity > 0.0 then Buy else Sell) && t.direction != f.side
            && t.quantity == Min(f.quantity, Abs(o.quantity)) && t.entryPrice == o.average && t.exitPrice == f.price
            && t.grossPnl == (t.exitPrice - t.entryPrice) * t.quantity * if t.direction == Buy then 1.0 else -1.0
  {
  }

  lemma ClosesARoundTrip(fills: seq<Fill>, n: nat)
    requires Positive(fills) && n < |fills| && Reduces(fills, n)
    ensures var c := Closes(LotOf(Lots(fills[..n]), fills[n].instrument), fills[n]);
            c.Some? && ClosedBy(fills, n, c.value)
  {
    hide Lots, Net, Of, Matched, GrossPnl, Journals.Held, Opens, Closes;
    var i, front := fills[n].instrument, fills[..n];
    ClosesWhereReduced(fills, n);
    LotHoldsTheNet(front, i);
    LotWasOpened(front, i);
    TradesSumToRealized(front, i);
    TradeOfALot(LotOf(Lots(front), i), fills[n]);
    var k: nat :| OpenedBy(front, i, k);
    hide LotOf;
    assert RoundTrip(fills, k, n, Closes(LotOf(Lots(front), i), fills[n]).value);
  }

  /** Fill n closed this round trip. */
  ghost predicate ClosedBy(fills: seq<Fill>, n: nat, t: Trade) {
    exists k :: RoundTrip(fills, k, n, t)
  }

  ghost predicate ClosedInTurn(fills: seq<Fill>, closers: seq<nat>, trades: seq<Trade>) {
    |trades| == |closers| && forall m :: 0 <= m < |trades| ==> ClosedBy(fills, closers[m], trades[m])
  }

  /** The trades of a list of fills are, in order, one round trip for every fill that trades against what is held. */
  lemma {:induction false} TradesAreRoundTrips(fills: seq<Fill>, n: nat)
    requires Positive(fills) && n <= |fills|
    ensures ClosedInTurn(fills, Closers(fills, n), Matched(fills[..n]))
  {
    hide ClosedBy, Closes, Lots, Reduces, LotOf;
    if n > 0 {
      TradesAreRoundTrips(fills, n - 1);
      TradesOfOneMore(fills, n - 1);
      ClosesWhereReduced(fills, n - 1);
      if Reduces(fills, n - 1) {
        ClosesARoundTrip(fills, n - 1);
      }
      hide Matched;
    } else {
      assert fills[..0] == [];
    }
  }

  lemma TradesOfOneMore(fills: seq<Fill>, n: nat)
    requires n < |fills|
    ensures var c := Closes(LotOf(Lots(fills[..n]), fills[n].instrument), fills[n]);
            Matched(fills[..n + 1]) == Matched(fills[..n]) + if c.Some? then [c.value] else []
  {
    hide Closes, Lots, LotOf;
    assert fills[..n + 1][..n] == fills[..n];
  }
}
