/** The rest of what the drawdown tracker reports: troughs, the dates of the deepest fall and the longest stay below a
    peak. */
module DrawdownDetails {
  import opened Types
  import opened Drawdowns

  /** The earliest of the lowest observations strictly between two positions. */
  predicate IsTrough(os: seq<Observation>, p: nat, n: nat, q: nat) {
    && p < q < n <= |os|
    && (forall i :: p < i < n ==> os[q].equity <= os[i].equity)
    && (forall i :: p < i < q ==> os[q].equity < os[i].equity)
  }

  predicate TroughIs(e: Episode, os: seq<Observation>, p: nat, n: nat, q: nat)
    requires p < |os|
  {
    && IsTrough(os, p, n, q) && e.troughTime == os[q].ts && e.troughEquity == os[q].equity
    && e.depth == Below(os[p].equity, os[q].equity)
  }

  /** The episode begins at p and names its trough before n, with its time, its equity and its depth below the peak. */
  ghost predicate Says(e: Episode, os: seq<Observation>, p: nat, n: nat) {
    p < |os| && e.peakTime == os[p].ts && e.peakEquity == os[p].equity && exists q: nat :: TroughIs(e, os, p, n, q)
  }

  /** How many observations position k comes after the latest highest one up to it. */
  function Underwater(os: seq<Observation>, k: nat): int
    requires k < |os|
  {
    k - PeakAt(Equities(os[..k + 1]))
  }

  ghost predicate IsLongest(longest: nat, os: seq<Observation>) {
    && (forall k :: 0 <= k < |os| ==> Underwater(os, k) <= longest)
    && (longest > 0 ==> exists k :: 0 <= k < |os| && Underwater(os, k) == longest)
  }

  /** The dates are those of a peak and of a later observation that is that deep below it. */
  ghost predicate DatesDeepest(t: Tracked, os: seq<Observation>) {
    t.deepest > 0.0 ==>
      exists j :: 0 <= j < |os| && DeepAt(t, os, j)
  }

  ghost predicate DeepAt(t: Tracked, os: seq<Observation>, j: nat)
    requires j < |os|
  {
    var p := PeakAt(Equities(os[..j + 1]));
    && p < |os| && t.deepestPeak == os[p].ts && t.deepestTrough == os[j].ts
    && t.deepest == Below(os[p].equity, os[j].equity)
  }

  ghost predicate Closed(t: Tracked, os: seq<Observation>) {
    var spans := Spans(Equities(os));
    |t.episodes| == |spans|
    && forall k :: 0 <= k < |spans| ==> Says(t.episodes[k], os, spans[k].peak, spans[k].recovery)
  }

  ghost predicate Open(t: Tracked, os: seq<Observation>) {
    t.active.Some? ==> os != [] && Says(t.active.value, os, PeakAt(Equities(os)), |os|)
  }

  // ---------------------------------------------------------------------------
  // One more observation
  // ---------------------------------------------------------------------------

  lemma SaysLater(e: Episode, os: seq<Observation>, p: nat, n: nat)
    requires os != [] && Says(e, os[..|os| - 1], p, n)
    ensures Says(e, os, p, n)
  {
    var front := os[..|os| - 1];
    hide Below;
    var q: nat :| TroughIs(e, front, p, n, q);
    assert forall i :: 0 <= i < |front| ==> front[i] == os[i];
    assert TroughIs(e, os, p, n, q);
  }

  /** Where the peak is after one more observation. */
  lemma PeakMoves(os: seq<Observation>)
    requires os != []
    ensures var n, front := |os| - 1, os[..|os| - 1];
            && |Equities(os)| == |os| && Equities(os)[n] == os[n].equity && |Equities(front)| == n
            && PeakAt(Equities(os)) < |os|
            && (n > 0 ==> PeakAt(Equities(os)) == if os[n].equity >= Peak(Equities(front)) then n
                                                  else PeakAt(Equities(front)))
            && (n == 0 ==> PeakAt(Equities(os)) == 0)
            && (n > 0 ==> PeakAt(Equities(front)) < n
                          && os[PeakAt(Equities(front))].equity == Peak(Equities(front)))
  {
    var n, front := |os| - 1, os[..|os| - 1];
    EquitiesFront(os);
    EquitiesFrontAt(os);
    EquitiesFrontAt(front);
    hide Equities;
    if n > 0 {
      PeakIsHighest(Equities(front));
      assert front[PeakAt(Equities(front))] == os[PeakAt(Equities(front))];
    }
  }

  lemma StepOpen(t: Tracked, os: seq<Observation>)
    requires os != [] && Chronological(os) && Describes(t, os[..|os| - 1]) && Open(t, os[..|os| - 1])
    ensures Open(Observing(t, os[|os| - 1]), os)
  {
    var n, front, o := |os| - 1, os[..|os| - 1], os[|os| - 1];
    StepDescribes(t, os);
    PeakMoves(os);
    hide Equities, Peak, PeakAt, Below, Deepest;
    if n > 0 && o.equity < t.peak {
      var p := PeakAt(Equities(front));
      assert front[p] == os[p];
      if t.active.Some? {
        TroughMoves(t.active.value, os, p);
      } else {
        assert TroughIs(Observing(t, o).active.value, os, p, |os|, n);
      }
    }
  }

  /** The trough of an episode that goes on. */
  lemma TroughMoves(e: Episode, os: seq<Observation>, p: nat)
    requires os != [] && Says(e, os[..|os| - 1], p, |os| - 1)
    ensures var n := |os| - 1;
            Says(if os[n].equity < e.troughEquity
                 then e.(troughTime := os[n].ts, troughEquity := os[n].equity,
                         depth := Below(e.peakEquity, os[n].equity))
                 else e, os, p, |os|)
  {
    hide Below;
    var n, front := |os| - 1, os[..|os| - 1];
    var q: nat :| TroughIs(e, front, p, n, q);
    assert forall i :: 0 <= i < |front| ==> front[i] == os[i];
    if os[n].equity < e.troughEquity {
      assert TroughIs(e.(troughTime := os[n].ts, troughEquity := os[n].equity,
                         depth := Below(e.peakEquity, os[n].equity)), os, p, |os|, n);
    } else {
      assert TroughIs(e, os, p, |os|, q);
    }
  }

  lemma StepClosed(t: Tracked, os: seq<Observation>)
    requires os != [] && Chronological(os) && Describes(t, os[..|os| - 1]) && Open(t, os[..|os| - 1])
    requires Closed(t, os[..|os| - 1])
    ensures Closed(Observing(t, os[|os| - 1]), os)
  {
    var n, front, o := |os| - 1, os[..|os| - 1], os[|os| - 1];
    SpansMove(os);
    PeakMoves(os);
    hide Equities, Peak, PeakAt, Below, Deepest, Spans, Says;
    var before := Spans(Equities(front));
    forall k | 0 <= k < |before|
      ensures Says(t.episodes[k], os, before[k].peak, before[k].recovery)
    {
      SaysLater(t.episodes[k], os, before[k].peak, before[k].recovery);
    }
    if n > 0 && t.active.Some? && o.equity >= t.peak {
      SaysLater(t.active.value, os, PeakAt(Equities(front)), n);
      RecoveredSays(t.active.value, os, PeakAt(Equities(front)), n, o.ts);
    }
  }

  lemma RecoveredSays(e: Episode, os: seq<Observation>, p: nat, n: nat, at: Timestamp)
    requires Says(e, os, p, n)
    ensures Says(e.(recoveryTime := at), os, p, n)
  {
    hide IsTrough, Below;
    var q: nat :| TroughIs(e, os, p, n, q);
    assert TroughIs(e.(recoveryTime := at), os, p, n, q);
  }

  lemma SpansMove(os: seq<Observation>)
    requires os != []
    ensures var n, front := |os| - 1, os[..|os| - 1];
            && (n == 0 ==> Spans(Equities(os)) == [] == Spans(Equities(front)))
            && (n > 0 ==> |Equities(front)| == n
                          && Spans(Equities(os))
                             == Spans(Equities(front))
                                + if os[n].equity >= Peak(Equities(front)) && PeakAt(Equities(front)) + 1 < n
                                  then [Span(PeakAt(Equities(front)), n)] else [])
  {
    EquitiesFront(os);
    EquitiesFrontAt(os[..|os| - 1]);
    hide Equities, Peak, PeakAt;
  }

  lemma StepLongest(t: Tracked, os: seq<Observation>)
    requires os != [] && Chronological(os) && Describes(t, os[..|os| - 1]) && IsLongest(t.longest, os[..|os| - 1])
    ensures IsLongest(Observing(t, os[|os| - 1]).longest, os)
  {
    hide Equities, Peak, PeakAt, Below, Deepest, Underwater, IsLongest, Chronological;
    StepDescribes(t, os);
    UnderwaterAtEnd(os);
    LongestMoves(t.longest, os, Observing(t, os[|os| - 1]).underwater);
  }

  lemma LongestMoves(longest: nat, os: seq<Observation>, now: nat)
    requires os != [] && IsLongest(longest, os[..|os| - 1]) && Underwater(os, |os| - 1) == now
    ensures IsLongest(if longest < now then now else longest, os)
  {
    var n, front := |os| - 1, os[..|os| - 1];
    forall k | 0 <= k < n
      ensures Underwater(front, k) == Underwater(os, k)
    {
      assert front[..k + 1] == os[..k + 1];
    }
    hide Underwater;
    if longest > 0 {
      var k :| 0 <= k < |front| && Underwater(front, k) == longest;
      assert Underwater(os, k) == longest;
    }
  }

  lemma UnderwaterAtEnd(os: seq<Observation>)
    requires os != []
    ensures Underwater(os, |os| - 1) == |os| - 1 - PeakAt(Equities(os))
  {
    assert os[..|os| - 1 + 1] == os;
  }

  lemma StepDates(t: Tracked, os: seq<Observation>)
    requires os != [] && Chronological(os) && Describes(t, os[..|os| - 1]) && DatesDeepest(t, os[..|os| - 1])
    ensures DatesDeepest(Observing(t, os[|os| - 1]), os)
  {
    var n, front, o := |os| - 1, os[..|os| - 1], os[|os| - 1];
    var after := Observing(t, o);
    StepDescribes(t, os);
    PeakMoves(os);
    assert os[..n + 1] == os;
    DeepestIsNatural(Equities(front));
    hide Equities, Peak, PeakAt, Below, Deepest;
    if after.deepest > t.deepest {
      assert front[PeakAt(Equities(front))] == os[PeakAt(Equities(front))];
      assert DeepAt(after, os, n);
    } else if t.deepest > 0.0 {
      var j: nat :| j < |front| && DeepAt(t, front, j);
      assert front[..j + 1] == os[..j + 1];
      assert DeepAt(after, os, j);
    }
  }

  /** On a chronological series every episode, closed or going on, names its trough, its equity and its depth; the
      dates of the deepest fall are those of a peak and of an observation that deep below it; and the longest stay
      below a peak is the most observations any one comes after its peak. */
  lemma {:induction false} TrackerDetails(os: seq<Observation>)
    requires Chronological(os)
    ensures var t := Tracking(os); Open(t, os) && Closed(t, os) && IsLongest(t.longest, os) && DatesDeepest(t, os)
  {
    hide Describes, ListsEpisodes, Observing, Open, Closed, IsLongest, DatesDeepest;
    if os == [] {
      NothingTracked();
    } else {
      var front := os[..|os| - 1];
      TrackerDescribes(front);
      TrackerDetails(front);
      StepOpen(Tracking(front), os);
      StepClosed(Tracking(front), os);
      StepLongest(Tracking(front), os);
      StepDates(Tracking(front), os);
    }
  }

  lemma NothingTracked()
    ensures Open(UNTRACKED, []) && Closed(UNTRACKED, []) && IsLongest(0, []) && DatesDeepest(UNTRACKED, [])
  {
  }
}
