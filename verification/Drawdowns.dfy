/** Drawdown: the online tracker, the batch and rolling maxima, and underwater durations. */
module Drawdowns {
  import opened Types
  import opened Moments

  // ---------------------------------------------------------------------------
  // Batch definitions
  // ---------------------------------------------------------------------------

  /** The highest observation. */
  function Peak(es: seq<real>): real
    requires es != []
  {
    var last := es[|es| - 1];
    if |es| == 1 then last else Max(Peak(es[..|es| - 1]), last)
  }

  /** The latest position of the highest observation. */
  function PeakAt(es: seq<real>): (p: nat)
    requires es != []
    ensures p < |es|
  {
    var n := |es| - 1;
    if n == 0 || es[n] >= Peak(es[..n]) then n else PeakAt(es[..n])
  }

  /** How far below a positive peak, as a fraction of it. */
  function Fall(peak: real, equity: real): real
    requires peak > 0.0
  {
    1.0 - equity / peak
  }

  /** The fraction below a peak; there is none below a peak of zero or less. */
  function Below(peak: real, equity: real): real {
    if peak > 0.0 then Fall(peak, equity) else 0.0
  }

  /** The deepest fall below the running peak. */
  function Deepest(es: seq<real>): real {
    if es == [] then 0.0
    else Max(Deepest(es[..|es| - 1]), Below(Peak(es), es[|es| - 1]))
  }

  lemma {:induction false} PeakIsHighest(es: seq<real>)
    requires es != []
    ensures es[PeakAt(es)] == Peak(es)
    ensures forall i :: 0 <= i < |es| ==> es[i] <= Peak(es) && (i > PeakAt(es) ==> es[i] < Peak(es))
  {
    if |es| > 1 {
      var front := es[..|es| - 1];
      PeakIsHighest(front);
      forall i | 0 <= i < |es|
        ensures es[i] <= Peak(es) && (i > PeakAt(es) ==> es[i] < Peak(es))
      {
        if i < |front| {
          assert es[i] == front[i];
        }
      }
    }
  }

  // ---------------------------------------------------------------------------
  // The maximum over pairs
  // ---------------------------------------------------------------------------

  lemma DeeperFromHigher(low: real, high: real, e: real)
    requires 0.0 < low <= high && e >= 0.0
    ensures Below(low, e) <= Below(high, e)
  {
  }

  /** No later observation lies further below an earlier positive one. */
  lemma {:induction false} DeepestBoundsPairs(es: seq<real>, i: nat, j: nat)
    requires forall k :: 0 <= k < |es| ==> es[k] >= 0.0
    requires i <= j < |es| && es[i] > 0.0
    ensures Fall(es[i], es[j]) <= Deepest(es)
  {
    var n := |es| - 1;
    if j < n {
      DeepestBoundsPairs(es[..n], i, j);
    } else {
      PeakIsHighest(es);
      DeeperFromHigher(es[i], Peak(es), es[j]);
    }
  }

  /** The deepest fall is that of some pair, or there is no fall. */
  lemma {:induction false} DeepestIsAPair(es: seq<real>) returns (i: nat, j: nat)
    requires Deepest(es) != 0.0
    ensures i <= j < |es| && es[i] > 0.0 && Deepest(es) == Fall(es[i], es[j])
  {
    var n := |es| - 1;
    if Deepest(es) == Deepest(es[..n]) {
      i, j := DeepestIsAPair(es[..n]);
    } else {
      PeakIsHighest(es);
      i, j := PeakAt(es), n;
    }
  }

  lemma {:induction false} DeepestIsNatural(es: seq<real>)
    ensures Deepest(es) >= 0.0
  {
  }

  /** The fall measured at an instant misses a deeper one from an earlier positive value exactly when the equity is
      below zero there and the running peak is above that value. */
  lemma MissesADeeperPairIff(es: seq<real>, i: nat, j: nat)
    requires i <= j < |es| && es[i] > 0.0
    ensures Fall(es[i], es[j]) > Below(Peak(es[..j + 1]), es[j]) <==> es[j] < 0.0 && es[i] < Peak(es[..j + 1])
  {
    PeakIsHighest(es[..j + 1]);
    assert es[..j + 1][i] == es[i];
    hide Peak, PeakAt;
    DeeperFromLowerIff(es[i], Peak(es[..j + 1]), es[j]);
  }

  lemma DeeperFromLowerIff(low: real, high: real, e: real)
    requires 0.0 < low <= high
    ensures Fall(low, e) > Fall(high, e) <==> e < 0.0 && low < high
  {
    var a, b := e / low, e / high;
    assert a * low == e && b * high == e;
    CompareQuotients(a, b, low, high);
  }

  lemma CompareQuotients(a: real, b: real, low: real, high: real)
    requires 0.0 < low <= high && a * low == b * high
    ensures a < b <==> a * low < 0.0 && low < high
  {
    if low == high {
      SameFactor(a, b, low);
    } else if a >= 0.0 {
      assert a * low >= 0.0;
      if b > a {
        Grows(a, b, low, high);
      }
    } else {
      assert a * low < 0.0;
      if b <= a {
        Falls(a, b, low, high);
      }
    }
  }

  lemma SameFactor(a: real, b: real, x: real)
    requires x > 0.0 && a * x == b * x
    ensures a == b
  {
    assert (a - b) * x == 0.0;
  }

  lemma Grows(a: real, b: real, low: real, high: real)
    requires 0.0 <= a < b && 0.0 < low < high
    ensures a * low < b * high
  {
    assert b * high - a * low == (b - a) * high + a * (high - low);
  }

  lemma Falls(a: real, b: real, low: real, high: real)
    requires b <= a < 0.0 && 0.0 < low < high
    ensures b * high < a * low
  {
    assert a * low - b * high == (a - b) * low + -b * (high - low);
  }

  /** With a negative observation the largest fall over pairs can exceed the fall from the running peak. */
  lemma NegativeEquityExample()
    ensures var es := [10.0, 1.0, -1.0];
            Deepest(es) < Fall(es[1], es[2])
  {
    var es := [10.0, 1.0, -1.0];
    assert es[..2] == [10.0, 1.0] && es[..2][..1] == [10.0] && es[..2][..1][..0] == [];
    assert Peak([10.0]) == 10.0 && Peak([10.0, 1.0]) == 10.0 && Peak(es) == 10.0;
    assert Deepest([10.0]) == 0.0;
    assert Deepest([10.0, 1.0]) == 0.9;
    assert Deepest(es) == 1.1;
  }

  // ---------------------------------------------------------------------------
  // The batch and the rolling form
  // ---------------------------------------------------------------------------

  /** One pass over the series; the peak starts below everything. */
  method MaxDrawdown(equity: seq<real>) returns (worst: real)
    ensures worst == Deepest(equity)
  {
    hide Fall;
    worst := 0.0;
    var peak: Option<real> := None;
    var k := 0;
    while k < |equity|
      invariant 0 <= k <= |equity| && worst == Deepest(equity[..k])
      invariant peak == if k == 0 then None else Some(Peak(equity[..k]))
    {
      var e := equity[k];
      assert equity[..k + 1][..k] == equity[..k];
      DeepestIsNatural(equity[..k]);
      peak := Some(if peak.Some? then Max(peak.value, e) else e);
      if peak.value > 0.0 { worst := Max(worst, Fall(peak.value, e)); }
      k := k + 1;
    }
    assert equity[..k] == equity;
  }

  /** The maximum within each trailing window; the peak starts at -1, below every peak that matters. */
  method RollingMaxDrawdown(equity: seq<real>, window: nat) returns (r: Option<seq<real>>)
    ensures r.Some? <==> window >= 2
    ensures r.Some? ==> |r.value| == |equity|
                        && forall i :: 0 <= i < |equity| ==> r.value[i] == Deepest(WindowAt(equity, window, i))
  {
    if window < 2 { return None; }
    var out: seq<real>, i := [], 0;
    while i < |equity|
      invariant 0 <= i <= |equity| && |out| == i
      invariant forall k :: 0 <= k < i ==> out[k] == Deepest(WindowAt(equity, window, k))
    {
      hide Deepest, Peak;
      var first := if i + 1 >= window then i + 1 - window else 0;
      var worst := WorstFrom(equity, first, i);
      assert equity[first..i + 1] == WindowAt(equity, window, i);
      out := out + [worst];
      i := i + 1;
    }
    return Some(out);
  }

  method WorstFrom(equity: seq<real>, first: nat, i: nat) returns (worst: real)
    requires first <= i < |equity|
    ensures worst == Deepest(equity[first..i + 1])
  {
    hide Fall;
    var peak := -1.0;
    worst := 0.0;
    var j := first;
    while j <= i
      invariant first <= j <= i + 1 && worst == Deepest(equity[first..j])
      invariant peak == if j == first then -1.0 else Max(-1.0, Peak(equity[first..j]))
    {
      var e := equity[j];
      var upTo := equity[first..j + 1];
      assert upTo[..|upTo| - 1] == equity[first..j] && upTo[|upTo| - 1] == e;
      DeepestIsNatural(equity[first..j]);
      peak := Max(peak, e);
      if peak > 0.0 { worst := Max(worst, Fall(peak, e)); }
      j := j + 1;
    }
  }

  // ---------------------------------------------------------------------------
  // The online tracker
  // ---------------------------------------------------------------------------

  datatype Observation = Observation(ts: Timestamp, equity: real)

  datatype Episode = Episode(
    peakTime: Timestamp, troughTime: Timestamp, recoveryTime: Timestamp, peakEquity: real, troughEquity: real,
    depth: real)
  {
    /** Peak to recovery; zero while not recovered. */
    function TotalDuration(): Duration {
      if !IsSet(recoveryTime) || !IsSet(peakTime) then 0 else recoveryTime - peakTime
    }
  }

  datatype Tracked = Tracked(
    current: real, deepest: real, peak: real, peakTime: Timestamp, lastTime: Timestamp, deepestPeak: Timestamp,
    deepestTrough: Timestamp, underwater: nat, longest: nat, havePeak: bool, episodes: seq<Episode>,
    active: Option<Episode>)

  const UNTRACKED := Tracked(0.0, 0.0, 0.0, NO_TIMESTAMP, NO_TIMESTAMP, NO_TIMESTAMP, NO_TIMESTAMP, 0, 0, false, [],
                             None)

  predicate Acceptable(t: Tracked, o: Observation) {
    IsSet(o.ts) && (IsSet(t.lastTime) ==> o.ts >= t.lastTime)
  }

  function Rising(t: Tracked, o: Observation): Tracked {
    t.(lastTime := o.ts, peak := o.equity, peakTime := o.ts, havePeak := true, current := 0.0, underwater := 0,
       episodes := if t.active.Some? then t.episodes + [t.active.value.(recoveryTime := o.ts)] else t.episodes,
       active := None)
  }

  function Falling(t: Tracked, o: Observation): Tracked {
    var current := Below(t.peak, o.equity);
    var deeper := current > t.deepest;
    t.(lastTime := o.ts, current := current, underwater := t.underwater + 1,
       longest := if t.longest < t.underwater + 1 then t.underwater + 1 else t.longest,
       active := if t.active.None? then Some(Episode(t.peakTime, o.ts, NO_TIMESTAMP, t.peak, o.equity, current))
                 else if o.equity < t.active.value.troughEquity
                      then Some(t.active.value.(troughTime := o.ts, troughEquity := o.equity, depth := current))
                 else t.active,
       deepest := if deeper then current else t.deepest,
       deepestPeak := if deeper then t.peakTime else t.deepestPeak,
       deepestTrough := if deeper then o.ts else t.deepestTrough)
  }

  function Observing(t: Tracked, o: Observation): Tracked {
    if !Acceptable(t, o) then t
    else if !t.havePeak || o.equity >= t.peak then Rising(t, o)
    else Falling(t, o)
  }

  function Tracking(os: seq<Observation>): Tracked {
    if os == [] then UNTRACKED else Observing(Tracking(os[..|os| - 1]), os[|os| - 1])
  }

  class DrawdownTracker {
    var current: real
    var deepest: real
    var peak: real
    var peakTime: Timestamp
    var lastTime: Timestamp
    var deepestPeak: Timestamp
    var deepestTrough: Timestamp
    var underwater: nat
    var longest: nat
    var havePeak: bool
    var episodes: seq<Episode>
    var active: Option<Episode>

    function State(): Tracked
      reads this
    {
      Tracked(current, deepest, peak, peakTime, lastTime, deepestPeak, deepestTrough, underwater, longest, havePeak,
              episodes, active)
    }

    constructor ()
      ensures State() == UNTRACKED
    {
      current, deepest, peak := 0.0, 0.0, 0.0;
      peakTime, lastTime, deepestPeak, deepestTrough := NO_TIMESTAMP, NO_TIMESTAMP, NO_TIMESTAMP, NO_TIMESTAMP;
      underwater, longest, havePeak, episodes, active := 0, 0, false, [], None;
    }

    /** At or above the peak: an active episode recovers and the peak moves. */
    method Rise(ts: Timestamp, equity: real)
      modifies this
      ensures State() == Rising(old(State()), Observation(ts, equity))
    {
      lastTime := ts;
      if active.Some? {
        episodes := episodes + [active.value.(recoveryTime := ts)];
        active := None;
      }
      peak, peakTime, havePeak := equity, ts, true;
      current, underwater := 0.0, 0;
    }

    /** Below the peak: an episode begins or goes on. */
    method Fall(ts: Timestamp, equity: real)
      modifies this
      ensures State() == Falling(old(State()), Observation(ts, equity))
    {
      hide Below;
      lastTime := ts;
      current := Below(peak, equity);
      underwater := underwater + 1;
      if longest < underwater { longest := underwater; }
      if active.None? {
        active := Some(Episode(peakTime, ts, NO_TIMESTAMP, peak, equity, current));
      } else if equity < active.value.troughEquity {
        active := Some(active.value.(troughTime := ts, troughEquity := equity, depth := current));
      }
      if current > deepest {
        deepest, deepestPeak, deepestTrough := current, peakTime, ts;
      }
    }

    /** Takes one observation in; refused without a time, or with one before the last. */
    method Update(ts: Timestamp, equity: real) returns (ok: bool)
      modifies this
      ensures ok == Acceptable(old(State()), Observation(ts, equity))
      ensures State() == Observing(old(State()), Observation(ts, equity))
    {
      hide Rising, Falling;
      if !IsSet(ts) { return false; }
      if IsSet(lastTime) && ts < lastTime { return false; }
      if !havePeak || equity >= peak {
        Rise(ts, equity);
      } else {
        Fall(ts, equity);
      }
      return true;
    }
  }

  // ---------------------------------------------------------------------------
  // Closed episodes
  // ---------------------------------------------------------------------------

  datatype Span = Span(peak: nat, recovery: nat)

  /** The series falls right after a peak that nothing before exceeds, stays below it, and first regains it later. */
  predicate Recovers(es: seq<real>, s: Span) {
    && s.peak + 1 < s.recovery < |es|
    && (forall i :: 0 <= i < s.peak ==> es[i] <= es[s.peak])
    && (forall i :: s.peak < i < s.recovery ==> es[i] < es[s.peak])
    && es[s.recovery] >= es[s.peak]
  }

  /** The closed episodes in the order they close. */
  function Spans(es: seq<real>): seq<Span> {
    if |es| < 2 then []
    else
      var n := |es| - 1;
      var front := es[..n];
      var p := PeakAt(front);
      Spans(front) + if es[n] >= Peak(front) && p + 1 < n then [Span(p, n)] else []
  }

  lemma RecoversInPrefix(es: seq<real>, n: nat, s: Span)
    requires n <= |es| && s.recovery < n
    ensures Recovers(es[..n], s) <==> Recovers(es, s)
  {
  }

  /** The episode that closes at the last observation starts at the latest peak before it. */
  lemma ClosesFromPeak(es: seq<real>, s: Span)
    requires |es| >= 2 && s.recovery == |es| - 1
    ensures var front := es[..|es| - 1];
            Recovers(es, s) <==> s.peak == PeakAt(front) && s.peak + 1 < |es| - 1 && es[|es| - 1] >= Peak(front)
  {
    var front := es[..|es| - 1];
    PeakIsHighest(front);
    hide Peak, PeakAt;
    assert forall i :: 0 <= i < |front| ==> front[i] == es[i];
    if Recovers(es, s) {
      var p := PeakAt(front);
      assert es[s.peak] <= Peak(front) == es[p];
      assert p <= s.peak ==> es[p] <= es[s.peak] || p == s.peak;
    }
  }

  /** The scan finds exactly the closed underwater episodes of the series. */
  lemma {:induction false} SpansAreRecoveries(es: seq<real>, s: Span)
    ensures s in Spans(es) <==> Recovers(es, s)
    decreases |es|
  {
    if |es| >= 2 {
      var n := |es| - 1;
      SpansAreRecoveries(es[..n], s);
      if s.recovery < n {
        RecoversInPrefix(es, n, s);
      } else if s.recovery == n {
        ClosesFromPeak(es, s);
      }
      hide Recovers, Peak, PeakAt;
      LateIsNoRecovery(es[..n], s);
      LateIsNoRecovery(es, s);
    } else {
      LateIsNoRecovery(es, s);
    }
  }

  lemma LateIsNoRecovery(es: seq<real>, s: Span)
    ensures s.recovery >= |es| || |es| < 2 ==> !Recovers(es, s)
  {
  }

  function Times(os: seq<Observation>): seq<Timestamp> {
    seq(|os|, i requires 0 <= i < |os| => os[i].ts)
  }

  function Equities(os: seq<Observation>): seq<real> {
    seq(|os|, i requires 0 <= i < |os| => os[i].equity)
  }

  /** The durations of spans on a time axis. */
  function Durations(ts: seq<Timestamp>, spans: seq<Span>): seq<Duration>
    requires forall s :: s in spans ==> s.peak < |ts| && s.recovery < |ts|
  {
    seq(|spans|, i requires 0 <= i < |spans| => ts[spans[i].recovery] - ts[spans[i].peak])
  }

  lemma {:induction false} SpansAreInside(es: seq<real>)
    ensures forall s :: s in Spans(es) ==> s.peak < |es| && s.recovery < |es|
  {
    forall s | s in Spans(es)
      ensures s.peak < |es| && s.recovery < |es|
    {
      SpansAreRecoveries(es, s);
    }
  }

  /** The durations of closed episodes, by a scan that remembers the peak and whether it is underwater. */
  method DrawdownDurations(ts: seq<Timestamp>, equity: seq<real>) returns (r: Option<seq<Duration>>)
    ensures r.Some? <==> |ts| == |equity|
    ensures r.Some? ==> (forall s :: s in Spans(equity) ==> s.peak < |ts| && s.recovery < |ts|)
                        && r.value == Durations(ts, Spans(equity))
  {
    hide Scanned, Spans, Durations;
    if |ts| != |equity| { return None; }
    SpansAreInside(equity);
    if equity == [] {
      NothingScanned(ts);
      return Some([]);
    }
    var out: seq<Duration> := [];
    var peak, peakTime, underwater, i := equity[0], ts[0], false, 0;
    ScanBegins(ts, equity);
    while i < |equity|
      invariant 0 <= i <= |equity|
      invariant Scanned(ts, equity, i, peak, peakTime, underwater, out)
    {
      ScanStep(ts, equity, i, peak, peakTime, underwater, out);
      if equity[i] >= peak {
        if underwater {
          out := out + [ts[i] - peakTime];
          underwater := false;
        }
        peak, peakTime := equity[i], ts[i];
      } else {
        underwater := true;
      }
      i := i + 1;
    }
    ScanEnds(ts, equity, peak, peakTime, underwater, out);
    return Some(out);
  }

  lemma NothingScanned(ts: seq<Timestamp>)
    ensures Spans([]) == [] && Durations(ts, []) == []
  {
  }

  lemma ScanBegins(ts: seq<Timestamp>, es: seq<real>)
    requires |ts| == |es| && es != []
    ensures Scanned(ts, es, 0, es[0], ts[0], false, [])
  {
    NothingScanned(ts);
  }

  lemma ScanEnds(ts: seq<Timestamp>, es: seq<real>, peak: real, peakTime: Timestamp, underwater: bool,
                 out: seq<Duration>)
    requires |ts| == |es| && es != [] && Scanned(ts, es, |es|, peak, peakTime, underwater, out)
    ensures (forall s :: s in Spans(es) ==> s.peak < |ts| && s.recovery < |ts|) && out == Durations(ts, Spans(es))
  {
    assert es[..|es|] == es;
    hide Spans, Durations, Peak, PeakAt;
  }

  /** What the scan knows after i observations. */
  ghost predicate Scanned(ts: seq<Timestamp>, es: seq<real>, i: nat, peak: real, peakTime: Timestamp, underwater: bool,
                          out: seq<Duration>)
    requires |ts| == |es| && es != [] && i <= |es|
  {
    && (i == 0 ==> peak == es[0] && peakTime == ts[0] && !underwater && out == [])
    && (i > 0 ==> peak == Peak(es[..i]) && peakTime == ts[PeakAt(es[..i])] && (underwater <==> PeakAt(es[..i]) + 1 < i))
    && (forall s :: s in Spans(es[..i]) ==> s.peak < |ts| && s.recovery < |ts|)
    && out == Durations(ts, Spans(es[..i]))
  }

  lemma ScanStep(ts: seq<Timestamp>, es: seq<real>, i: nat, peak: real, peakTime: Timestamp, underwater: bool,
                 out: seq<Duration>)
    requires |ts| == |es| && i < |es| && Scanned(ts, es, i, peak, peakTime, underwater, out)
    ensures es[i] >= peak ==>
              Scanned(ts, es, i + 1, es[i], ts[i], false, if underwater then out + [ts[i] - peakTime] else out)
    ensures es[i] < peak ==> Scanned(ts, es, i + 1, peak, peakTime, true, out)
  {
    SpansAreInside(es[..i + 1]);
    assert es[..i + 1][..i] == es[..i];
    if i > 0 && es[i] >= peak && underwater {
      DurationsSnoc(ts, Spans(es[..i]), Span(PeakAt(es[..i]), i));
    } else if i > 0 {
      assert Spans(es[..i]) + [] == Spans(es[..i]);
    }
    hide Durations;
  }

  lemma DurationsSnoc(ts: seq<Timestamp>, spans: seq<Span>, s: Span)
    requires forall t :: t in spans ==> t.peak < |ts| && t.recovery < |ts|
    requires s.peak < |ts| && s.recovery < |ts|
    ensures forall t :: t in spans + [s] ==> t.peak < |ts| && t.recovery < |ts|
    ensures Durations(ts, spans + [s]) == Durations(ts, spans) + [ts[s.recovery] - ts[s.peak]]
  {
  }

  // ---------------------------------------------------------------------------
  // The tracker agrees
  // ---------------------------------------------------------------------------

  predicate Chronological(os: seq<Observation>) {
    (forall i :: 0 <= i < |os| ==> IsSet(os[i].ts))
    && forall i :: 0 < i < |os| ==> os[i - 1].ts <= os[i].ts
  }

  predicate EpisodeAt(e: Episode, os: seq<Observation>, s: Span) {
    && s.peak < |os| && s.recovery < |os|
    && e.peakTime == os[s.peak].ts && e.recoveryTime == os[s.recovery].ts && e.peakEquity == os[s.peak].equity
  }

  /** The tracker's fields, in terms of the observations so far. */
  ghost predicate Describes(t: Tracked, os: seq<Observation>) {
    && t.deepest == Deepest(Equities(os))
    && (t.havePeak <==> os != [])
    && (os == [] ==> !IsSet(t.lastTime) && t.underwater == 0 && t.current == 0.0 && t.active.None?)
    && (os != [] ==>
          var es := Equities(os);
          var p := PeakAt(es);
          && t.lastTime == os[|os| - 1].ts && t.peak == Peak(es) && t.peakTime == os[p].ts
          && t.underwater == |os| - 1 - p
          && t.current == Below(Peak(es), es[|es| - 1])
          && (t.active.Some? <==> p + 1 < |os|)
          && (t.active.Some? ==> t.active.value.peakTime == os[p].ts && t.active.value.peakEquity == es[p]))
  }

  ghost predicate ListsEpisodes(t: Tracked, os: seq<Observation>) {
    var spans := Spans(Equities(os));
    |t.episodes| == |spans| && forall k :: 0 <= k < |spans| ==> EpisodeAt(t.episodes[k], os, spans[k])
  }

  lemma EquitiesFront(os: seq<Observation>)
    requires os != []
    ensures Equities(os)[..|os| - 1] == Equities(os[..|os| - 1])
    ensures |Equities(os)| == |os| && Equities(os)[|os| - 1] == os[|os| - 1].equity
  {
  }

  lemma BelowOwnPeak(peak: real)
    ensures Below(peak, peak) == 0.0
  {
  }

  lemma StepDescribes(t: Tracked, os: seq<Observation>)
    requires os != [] && Chronological(os) && Describes(t, os[..|os| - 1])
    ensures Acceptable(t, os[|os| - 1]) && Describes(Observing(t, os[|os| - 1]), os)
  {
    var front, o, es := os[..|os| - 1], os[|os| - 1], Equities(os);
    EquitiesFront(os);
    hide Equities;
    DeepestIsNatural(Equities(front));
    BelowOwnPeak(o.equity);
    if front != [] {
      assert front[|front| - 1] == os[|os| - 2];
      EquitiesFrontAt(os);
    }
    hide Below;
  }

  lemma EquitiesFrontAt(os: seq<Observation>)
    ensures |Equities(os)| == |os| && forall i :: 0 <= i < |os| ==> Equities(os)[i] == os[i].equity
  {
  }

  lemma StepListsEpisodes(t: Tracked, os: seq<Observation>)
    requires os != [] && Chronological(os) && Describes(t, os[..|os| - 1]) && ListsEpisodes(t, os[..|os| - 1])
    ensures ListsEpisodes(Observing(t, os[|os| - 1]), os)
  {
    var front, o, es := os[..|os| - 1], os[|os| - 1], Equities(os);
    EquitiesFront(os);
    StepDescribes(t, os);
    if front != [] {
      EquitiesFrontAt(front);
      PeakIsHighest(Equities(front));
    }
    hide Equities, Below, Deepest, Peak, PeakAt;
    forall k | 0 <= k < |Spans(Equities(front))|
      ensures EpisodeAt(t.episodes[k], os, Spans(Equities(front))[k])
    {
      assert EpisodeAt(t.episodes[k], front, Spans(Equities(front))[k]);
    }
  }

  lemma {:induction false} TrackerDescribes(os: seq<Observation>)
    requires Chronological(os)
    ensures Describes(Tracking(os), os) && ListsEpisodes(Tracking(os), os)
  {
    if os == [] {
    } else {
      var front := os[..|os| - 1];
      TrackerDescribes(front);
      hide Describes, ListsEpisodes, Observing;
      StepDescribes(Tracking(front), os);
      StepListsEpisodes(Tracking(front), os);
    }
  }

  /** The observations that count: those with a time, which is not before that of the last one that counts. */
  function Kept(os: seq<Observation>): seq<Observation> {
    if os == [] then []
    else
      var front, o := Kept(os[..|os| - 1]), os[|os| - 1];
      front + if o.ts > NO_TIMESTAMP && (front == [] || front[|front| - 1].ts <= o.ts) then [o] else []
  }

  /** Whatever is observed, the tracker is in the state that the observations that count, a chronological series, lead
      to. */
  lemma {:induction false} RefusedLeaveNoTrace(os: seq<Observation>)
    ensures Chronological(Kept(os)) && Tracking(os) == Tracking(Kept(os))
  {
    hide Chronological, Observing;
    if os == [] {
      NothingObserved();
    } else {
      var front, o := os[..|os| - 1], os[|os| - 1];
      RefusedLeaveNoTrace(front);
      OneMoreCounts(Kept(front), o);
    }
  }

  lemma NothingObserved()
    ensures Chronological([])
  {
  }

  lemma OneMoreCounts(kept: seq<Observation>, o: Observation)
    requires Chronological(kept)
    ensures var more := kept + if o.ts > NO_TIMESTAMP && (kept == [] || kept[|kept| - 1].ts <= o.ts) then [o] else [];
            Chronological(more) && Observing(Tracking(kept), o) == Tracking(more)
  {
    hide Rising, Falling;
    LastTimeIsLast(kept);
    assert (kept + [o])[..|kept|] == kept;
    assert kept + [] == kept;
  }

  lemma LastTimeIsLast(os: seq<Observation>)
    requires Chronological(os)
    ensures Tracking(os).lastTime == if os == [] then NO_TIMESTAMP else os[|os| - 1].ts
  {
    TrackerDescribes(os);
    hide ListsEpisodes;
  }

  /** On a chronological series the tracker's maximum is the batch maximum, and for equity that is never negative it is
      the largest fall from any earlier positive observation to any later one. */
  lemma TrackerMaximumIsDeepest(os: seq<Observation>)
    requires Chronological(os)
    ensures Tracking(os).deepest == Deepest(Equities(os))
    ensures (forall k :: 0 <= k < |os| ==> os[k].equity >= 0.0) ==>
              forall i, j :: 0 <= i <= j < |os| && os[i].equity > 0.0 ==>
                Fall(os[i].equity, os[j].equity) <= Tracking(os).deepest
    ensures Tracking(os).deepest != 0.0 ==>
              exists i, j :: 0 <= i <= j < |os| && os[i].equity > 0.0
                             && Tracking(os).deepest == Fall(os[i].equity, os[j].equity)
  {
    hide Equities, Tracking, Fall, ListsEpisodes, Deepest;
    TrackerDescribes(os);
    var es := Equities(os);
    EquitiesFrontAt(os);
    if forall k :: 0 <= k < |os| ==> os[k].equity >= 0.0 {
      forall i, j | 0 <= i <= j < |os| && os[i].equity > 0.0
        ensures Fall(os[i].equity, os[j].equity) <= Deepest(es)
      {
        DeepestBoundsPairs(es, i, j);
      }
    }
    if Deepest(es) != 0.0 {
      var i, j := DeepestIsAPair(es);
      assert es[i] == os[i].equity && es[j] == os[j].equity;
    }
  }

  /** A rolling window that covers the series ends at the same maximum. */
  lemma CoveringWindowSeesAll(es: seq<real>, window: nat)
    requires es != [] && window >= |es|
    ensures Deepest(WindowAt(es, window, |es| - 1)) == Deepest(es)
  {
    assert es[..|es|] == es;
  }

  /** The durations of the tracker's closed episodes are those of the batch scan. */
  lemma TrackerDurationsAgree(os: seq<Observation>)
    requires Chronological(os)
    ensures var spans, episodes := Spans(Equities(os)), Tracking(os).episodes;
            && |episodes| == |spans| && (forall s :: s in spans ==> s.peak < |os| && s.recovery < |os|)
            && forall k :: 0 <= k < |spans| ==> episodes[k].TotalDuration() == Durations(Times(os), spans)[k]
  {
    TrackerDescribes(os);
    SpansAreInside(Equities(os));
    var spans, episodes := Spans(Equities(os)), Tracking(os).episodes;
    hide Tracking, Describes;
    forall k | 0 <= k < |spans|
      ensures episodes[k].TotalDuration() == Durations(Times(os), spans)[k]
    {
      assert EpisodeAt(episodes[k], os, spans[k]);
      assert spans[k] in spans;
    }
  }
}
