/** Time-sliced execution schedules and the cumulative target they imply. */
module Schedules {
  import opened Types
  import opened Sums

  /** One slice, due over [begin, end); `cumulative` is the target through its end. */
  datatype Slice = Slice(index: nat, begin: Timestamp, end: Timestamp, target: real, cumulative: real)

  type Schedule = seq<Slice>

  datatype ScheduleError = BadQuantity | BadWindow | NoSlices | BadWeight | NoVolume

  /** The target before slice i begins. */
  function Before(s: Schedule, i: nat): real
    requires i <= |s|
  {
    if i == 0 then 0.0 else s[i - 1].cumulative
  }

  /** Slice i runs on from its predecessor, in time and in quantity. */
  predicate Continues(s: Schedule, i: nat)
    requires i < |s|
  {
    && s[i].begin <= s[i].end && s[i].target >= 0.0
    && (i > 0 ==> s[i].begin == s[i - 1].end)
    && s[i].cumulative == Before(s, i) + s[i].target
  }

  predicate WellFormed(s: Schedule) {
    forall i :: 0 <= i < |s| ==> s[i].begin <= s[i].end && s[i].target >= 0.0
  }

  /** Adjacent slices tile [begin, end) and their targets add up to the total. */
  predicate IsSchedule(s: Schedule, total: real, begin: Timestamp, end: Timestamp) {
    && s != [] && s[0].begin == begin && s[|s| - 1].end == end && s[|s| - 1].cumulative == total
    && forall i :: 0 <= i < |s| ==> Continues(s, i)
  }

  /** The i-th of n boundaries: widths are truncated to whole nanoseconds, the last boundary is the end itself. */
  function Mark(begin: Timestamp, end: Timestamp, n: nat, i: nat): Timestamp
    requires n > 0
  {
    if i == n then end else begin + (end - begin) / n * i
  }

  predicate EvenlyLaid(s: Schedule, begin: Timestamp, end: Timestamp) {
    s != [] && forall i :: 0 <= i < |s| ==>
      s[i].index == i && s[i].begin == Mark(begin, end, |s|, i) && s[i].end == Mark(begin, end, |s|, i + 1)
  }

  // ---------------------------------------------------------------------------
  // Building a schedule
  // ---------------------------------------------------------------------------

  predicate GoodWindow(begin: Timestamp, end: Timestamp) {
    IsSet(begin) && IsSet(end) && begin < end
  }

  predicate Placed(s: Schedule, begin: Timestamp, end: Timestamp, n: nat, i: nat)
    requires n > 0 && i < |s|
  {
    && s[i].index == i && s[i].begin == Mark(begin, end, n, i) && s[i].end == Mark(begin, end, n, i + 1)
    && s[i].target >= 0.0 && s[i].cumulative == Before(s, i) + s[i].target
  }

  /** The first slices of n. */
  predicate LaidSoFar(s: Schedule, begin: Timestamp, end: Timestamp, n: nat)
    requires n > 0 && |s| <= n
  {
    forall i :: 0 <= i < |s| ==> Placed(s, begin, end, n, i)
  }

  /** Boundaries ascend: truncated widths never overrun the window. */
  lemma MarksAscend(begin: Timestamp, end: Timestamp, n: nat, i: nat)
    requires i < n && begin < end
    ensures Mark(begin, end, n, i) <= Mark(begin, end, n, i + 1)
    ensures Mark(begin, end, n, 0) == begin && Mark(begin, end, n, n) == end
  {
  }

  lemma LaidOneMore(s: Schedule, begin: Timestamp, end: Timestamp, n: nat, target: real)
    requires |s| < n && LaidSoFar(s, begin, end, n) && target >= 0.0
    ensures var i := |s|;
            var slice := Slice(i, Mark(begin, end, n, i), Mark(begin, end, n, i + 1), target, Before(s, i) + target);
            LaidSoFar(s + [slice], begin, end, n)
  {
    hide Mark;
    var i := |s|;
    var t := s + [Slice(i, Mark(begin, end, n, i), Mark(begin, end, n, i + 1), target, Before(s, i) + target)];
    forall k | 0 <= k < |t|
      ensures Placed(t, begin, end, n, k)
    {
      if k < i {
        assert Placed(s, begin, end, n, k);
      }
    }
  }

  lemma LaidIsSchedule(s: Schedule, total: real, begin: Timestamp, end: Timestamp)
    requires s != [] && LaidSoFar(s, begin, end, |s|) && begin < end && s[|s| - 1].cumulative == total
    ensures IsSchedule(s, total, begin, end) && EvenlyLaid(s, begin, end)
  {
    hide Mark;
    MarksAscend(begin, end, |s|, 0);
    forall i | 0 <= i < |s|
      ensures Continues(s, i) && s[i].index == i
      ensures s[i].begin == Mark(begin, end, |s|, i) && s[i].end == Mark(begin, end, |s|, i + 1)
    {
      MarksAscend(begin, end, |s|, i);
      assert Placed(s, begin, end, |s|, i);
      assert i > 0 ==> Placed(s, begin, end, |s|, i - 1);
    }
    assert Placed(s, begin, end, |s|, 0) && Placed(s, begin, end, |s|, |s| - 1);
  }

  lemma NothingLaid(begin: Timestamp, end: Timestamp, n: nat)
    requires n > 0
    ensures LaidSoFar([], begin, end, n)
  {
  }

  /** x added up n times. */
  function Times(n: nat, x: real): real {
    if n == 0 then 0.0 else Times(n - 1, x) + x
  }

  lemma {:induction false} TimesIsProduct(n: nat, x: real)
    ensures Times(n, x) == n as real * x
  {
    if n > 0 {
      TimesIsProduct(n - 1, x);
    }
  }

  /** n equal shares add up to the whole, so snapping the last cumulative target changes nothing. */
  lemma TimesShare(total: real, n: nat)
    requires n > 0
    ensures Times(n, total / n as real) == total
  {
    TimesIsProduct(n, total / n as real);
  }

  lemma ShareIsPositive(total: real, n: nat)
    requires n > 0 && total > 0.0
    ensures total / n as real > 0.0
  {
  }

  /** The same quantity in every slice. */
  method Twap(total: real, begin: Timestamp, end: Timestamp, sliceCount: nat)
    returns (r: Result<Schedule, ScheduleError>)
    ensures r.Ok? <==> total > 0.0 && GoodWindow(begin, end) && sliceCount > 0
    ensures r.Ok? ==> |r.value| == sliceCount && IsSchedule(r.value, total, begin, end)
                      && EvenlyLaid(r.value, begin, end)
                      && forall i :: 0 <= i < sliceCount ==> r.value[i].target == total / sliceCount as real
  {
    if total <= 0.0 { return Err(BadQuantity); }
    if !GoodWindow(begin, end) { return Err(BadWindow); }
    if sliceCount == 0 { return Err(NoSlices); }
    var per := (end - begin) / sliceCount;
    var perSlice := total / sliceCount as real;
    hide LaidSoFar, IsSchedule, EvenlyLaid, GoodWindow;
    NothingLaid(begin, end, sliceCount);
    ShareIsPositive(total, sliceCount);
    var out: Schedule, cumulative := [], 0.0;
    var i := 0;
    while i < sliceCount
      invariant 0 <= i <= sliceCount && |out| == i && LaidSoFar(out, begin, end, sliceCount)
      invariant cumulative == Before(out, i) == Times(i, perSlice)
      invariant forall k :: 0 <= k < i ==> out[k].target == perSlice
    {
      var stop := if i + 1 == sliceCount then end else begin + per * (i + 1);
      cumulative := cumulative + perSlice;
      LaidOneMore(out, begin, end, sliceCount, perSlice);
      out := out + [Slice(i, begin + per * i, stop, perSlice, cumulative)];
      i := i + 1;
    }
    TimesShare(total, sliceCount);
    assert out[|out| - 1 := out[|out| - 1].(cumulative := total)] == out;
    out := out[|out| - 1 := out[|out| - 1].(cumulative := total)];
    LaidIsSchedule(out, total, begin, end);
    return Ok(out);
  }

  predicate GoodProfile(profile: seq<real>) {
    (forall i :: 0 <= i < |profile| ==> profile[i] >= 0.0) && Total(profile) > 0.0
  }

  lemma {:induction false} TotalGrows(w: seq<real>, i: nat)
    requires i <= |w| && forall k :: 0 <= k < |w| ==> w[k] >= 0.0
    ensures 0.0 <= Total(w[..i]) <= Total(w)
    decreases |w|
  {
    if w == [] {
    } else if i == |w| {
      TotalGrows(w[..|w| - 1], |w| - 1);
      assert w[..|w| - 1][..|w| - 1] == w[..|w| - 1] && w[..i] == w;
    } else {
      TotalGrows(w[..|w| - 1], i);
      assert w[..|w| - 1][..i] == w[..i];
    }
  }

  /** The part of the total that a weight has of the sum of weights. */
  function ShareOf(total: real, sum: real, weight: real): real
    requires sum > 0.0
  {
    total * (weight / sum)
  }

  lemma SharesAdd(total: real, sum: real, part: real, w: real)
    requires sum > 0.0
    ensures ShareOf(total, sum, part) + ShareOf(total, sum, w) == ShareOf(total, sum, part + w)
    ensures total > 0.0 && w >= 0.0 ==> ShareOf(total, sum, w) >= 0.0
  {
  }

  lemma NoPart(total: real, sum: real)
    requires sum > 0.0
    ensures ShareOf(total, sum, 0.0) == 0.0 && ShareOf(total, sum, sum) == total
  {
  }

  /** Every slice gets the total's share that its weight has of all weights. */
  method Vwap(total: real, begin: Timestamp, end: Timestamp, profile: seq<real>)
    returns (r: Result<Schedule, ScheduleError>)
    ensures r.Ok? <==> total > 0.0 && GoodWindow(begin, end) && GoodProfile(profile)
    ensures r.Ok? ==> |r.value| == |profile| && IsSchedule(r.value, total, begin, end)
                      && EvenlyLaid(r.value, begin, end)
                      && forall i :: 0 <= i < |profile| ==>
                           r.value[i].target == ShareOf(total, Total(profile), profile[i])
  {
    if total <= 0.0 { return Err(BadQuantity); }
    if !GoodWindow(begin, end) { return Err(BadWindow); }
    if profile == [] { return Err(NoSlices); }
    var sum, k := 0.0, 0;
    while k < |profile|
      invariant 0 <= k <= |profile| && sum == Total(profile[..k])
      invariant forall j :: 0 <= j < k ==> profile[j] >= 0.0
    {
      if profile[k] < 0.0 { return Err(BadWeight); }
      assert profile[..k + 1][..k] == profile[..k];
      sum := sum + profile[k];
      k := k + 1;
    }
    assert profile[..k] == profile;
    if sum <= 0.0 { return Err(NoVolume); }
    var n := |profile|;
    var per := (end - begin) / n;
    var out: Schedule, cumulative := [], 0.0;
    hide LaidSoFar, IsSchedule, EvenlyLaid, GoodWindow;
    NothingLaid(begin, end, n);
    var i := 0;
    NoPart(total, sum);
    while i < n
      invariant 0 <= i <= n && |out| == i && LaidSoFar(out, begin, end, n)
      invariant cumulative == Before(out, i) == ShareOf(total, sum, Total(profile[..i]))
      invariant forall k :: 0 <= k < i ==> out[k].target == ShareOf(total, sum, profile[k])
    {
      var stop := if i + 1 == n then end else begin + per * (i + 1);
      var target := ShareOf(total, sum, profile[i]);
      SharesAdd(total, sum, Total(profile[..i]), profile[i]);
      assert profile[..i + 1][..i] == profile[..i];
      cumulative := cumulative + target;
      LaidOneMore(out, begin, end, n, target);
      out := out + [Slice(i, begin + per * i, stop, target, cumulative)];
      i := i + 1;
    }
    assert profile[..n] == profile;
    assert out[|out| - 1 := out[|out| - 1].(cumulative := total)] == out;
    out := out[|out| - 1 := out[|out| - 1].(cumulative := total)];
    LaidIsSchedule(out, total, begin, end);
    return Ok(out);
  }

  // ---------------------------------------------------------------------------
  // Looking up the target
  // ---------------------------------------------------------------------------

  /** The first slice that ends after ts, as a binary search over ascending ends finds it. */
  function FirstEndingAfter(s: Schedule, ts: Timestamp): (i: nat)
    ensures i <= |s| && (i < |s| ==> ts < s[i].end)
    ensures forall k :: 0 <= k < i ==> s[k].end <= ts
  {
    if s == [] || ts < s[0].end then 0
    else
      assert s == [s[0]] + s[1..];
      1 + FirstEndingAfter(s[1..], ts)
  }

  function SliceAt(s: Schedule, ts: Timestamp): Option<Slice> {
    var i := FirstEndingAfter(s, ts);
    if i == |s| || ts < s[i].begin then None else Some(s[i])
  }

  /** The cumulative target due by ts, interpolated within the current slice. */
  function TargetBy(s: Schedule, ts: Timestamp): real {
    if s == [] || ts < s[0].begin then 0.0
    else if ts >= s[|s| - 1].end then s[|s| - 1].cumulative
    else
      match SliceAt(s, ts)
      case None => 0.0
      case Some(slice) =>
        var span := (slice.end - slice.begin) as real;
        var elapsed := (ts - slice.begin) as real;
        var fraction := if span > 0.0 then Min(Max(elapsed / span, 0.0), 1.0) else 1.0;
        slice.cumulative - slice.target + slice.target * fraction
  }

  // ---------------------------------------------------------------------------
  // What the target means
  // ---------------------------------------------------------------------------

  /** How much of a slice's time has passed, from 0 before it begins to 1 from its end on. */
  function Elapsed(slice: Slice, ts: Timestamp): real {
    if ts >= slice.end then 1.0
    else if ts <= slice.begin then 0.0
    else (ts - slice.begin) as real / (slice.end - slice.begin) as real
  }

  /** A slice accrues its target evenly over its own time. */
  function Due(slice: Slice, ts: Timestamp): real {
    slice.target * Elapsed(slice, ts)
  }

  /** What all slices together have accrued. */
  function Accrued(s: Schedule, ts: Timestamp): real {
    if s == [] then 0.0 else Accrued(s[..|s| - 1], ts) + Due(s[|s| - 1], ts)
  }

  lemma DueOutside(slice: Slice, ts: Timestamp)
    ensures slice.end <= ts ==> Due(slice, ts) == slice.target
    ensures ts < slice.end && ts <= slice.begin ==> Due(slice, ts) == 0.0
  {
  }

  lemma {:induction false} LaterSlicesBeginLater(s: Schedule, total: real, begin: Timestamp, end: Timestamp, i: nat,
                                                 j: nat)
    requires IsSchedule(s, total, begin, end) && i < j < |s|
    ensures s[i].end <= s[j].begin
    decreases j
  {
    assert Continues(s, j) && Continues(s, j - 1);
    if i + 1 < j {
      LaterSlicesBeginLater(s, total, begin, end, i, j - 1);
    }
  }

  lemma {:induction false} AccruedByPrefix(s: Schedule, total: real, begin: Timestamp, end: Timestamp, ts: Timestamp,
                                           k: nat)
    requires IsSchedule(s, total, begin, end) && k <= |s|
    ensures var j := FirstEndingAfter(s, ts);
            Accrued(s[..k], ts) == if k <= j then Before(s, k) else Before(s, j) + Due(s[j], ts)
  {
    hide Due;
    var j := FirstEndingAfter(s, ts);
    hide FirstEndingAfter;
    if k > 0 {
      AccruedByPrefix(s, total, begin, end, ts, k - 1);
      assert s[..k][..k - 1] == s[..k - 1];
      DueOutside(s[k - 1], ts);
      assert Continues(s, k - 1);
      if k - 1 > j {
        LaterSlicesBeginLater(s, total, begin, end, j, k - 1);
      }
    }
  }

  /** The looked-up, interpolated target is the sum of what all slices have accrued, at every instant. */
  lemma TargetIsAccrued(s: Schedule, total: real, begin: Timestamp, end: Timestamp, ts: Timestamp)
    requires IsSchedule(s, total, begin, end)
    ensures TargetBy(s, ts) == Accrued(s, ts)
  {
    hide Due, Accrued, FirstEndingAfter;
    var j := FirstEndingAfter(s, ts);
    AccruedByPrefix(s, total, begin, end, ts, |s|);
    assert s[..|s|] == s;
    EndsLast(s, total, begin, end, 0);
    if j < |s| {
      assert Continues(s, j);
      EndsLast(s, total, begin, end, j);
      DueOutside(s[j], ts);
      if begin <= ts {
        InterpolatedIsDue(s[j], ts);
      }
    }
  }

  lemma ScheduleIsWellFormed(s: Schedule, total: real, begin: Timestamp, end: Timestamp)
    requires IsSchedule(s, total, begin, end)
    ensures WellFormed(s)
  {
    forall i | 0 <= i < |s|
      ensures s[i].begin <= s[i].end && s[i].target >= 0.0
    {
      assert Continues(s, i);
    }
  }

  lemma EndsLast(s: Schedule, total: real, begin: Timestamp, end: Timestamp, j: nat)
    requires IsSchedule(s, total, begin, end) && j < |s|
    ensures begin <= s[j].begin <= s[j].end <= end
  {
    if j < |s| - 1 {
      LaterSlicesBeginLater(s, total, begin, end, j, |s| - 1);
    }
    if j > 0 {
      LaterSlicesBeginLater(s, total, begin, end, 0, j);
    }
    assert Continues(s, 0) && Continues(s, j) && Continues(s, |s| - 1);
  }

  lemma InterpolatedIsDue(slice: Slice, ts: Timestamp)
    requires slice.begin <= ts < slice.end
    ensures var span, elapsed := (slice.end - slice.begin) as real, (ts - slice.begin) as real;
            slice.target * Min(Max(elapsed / span, 0.0), 1.0) == Due(slice, ts)
  {
  }

  lemma Fraction(part: real, whole: real)
    requires 0.0 <= part <= whole && whole > 0.0
    ensures 0.0 <= part / whole <= 1.0
  {
  }

  lemma ElapsedGrows(slice: Slice, t: Timestamp, u: Timestamp)
    requires t <= u && slice.begin <= slice.end
    ensures 0.0 <= Elapsed(slice, t) <= Elapsed(slice, u) <= 1.0
  {
    if slice.begin < t < slice.end {
      var a, b, c := (t - slice.begin) as real, (u - slice.begin) as real, (slice.end - slice.begin) as real;
      Fraction(a, c);
      if u < slice.end {
        Fraction(b, c);
        Ratio(a, b, c);
      }
    } else if slice.begin < u < slice.end {
      Fraction((u - slice.begin) as real, (slice.end - slice.begin) as real);
    }
  }

  lemma Ratio(a: real, b: real, c: real)
    requires a <= b && c > 0.0
    ensures a / c <= b / c
  {
  }

  lemma Scaled(w: real, a: real, b: real)
    requires w >= 0.0 && a <= b
    ensures w * a <= w * b
  {
  }

  lemma {:induction false} AccruedGrows(s: Schedule, t: Timestamp, u: Timestamp)
    requires t <= u && WellFormed(s)
    ensures 0.0 <= Accrued(s, t) <= Accrued(s, u)
  {
    if s != [] {
      hide Due;
      var last := s[|s| - 1];
      AccruedGrows(s[..|s| - 1], t, u);
      DueGrows(last, t, u);
    }
  }

  lemma DueGrows(slice: Slice, t: Timestamp, u: Timestamp)
    requires t <= u && slice.begin <= slice.end && slice.target >= 0.0
    ensures 0.0 <= Due(slice, t) <= Due(slice, u)
  {
    hide Elapsed;
    ElapsedGrows(slice, t, u);
    Scaled(slice.target, Elapsed(slice, t), Elapsed(slice, u));
    Scaled(slice.target, 0.0, Elapsed(slice, t));
  }

  /** The target never falls, is nothing before the window, and is the whole quantity from its end on. */
  lemma TargetGrows(s: Schedule, total: real, begin: Timestamp, end: Timestamp, t: Timestamp, u: Timestamp)
    requires IsSchedule(s, total, begin, end) && t <= u
    ensures 0.0 <= TargetBy(s, t) <= TargetBy(s, u) <= total
    ensures t < begin ==> TargetBy(s, t) == 0.0
    ensures u >= end ==> TargetBy(s, u) == total
  {
    TargetIsAccrued(s, total, begin, end, t);
    TargetIsAccrued(s, total, begin, end, u);
    ScheduleIsWellFormed(s, total, begin, end);
    AccruedGrows(s, t, u);
    var far := MaxInt(u, end);
    TargetIsAccrued(s, total, begin, end, far);
    AccruedGrows(s, u, far);
    EndsLast(s, total, begin, end, 0);
    hide Accrued, SliceAt;
  }

  // ---------------------------------------------------------------------------
  // At the first instant
  // ---------------------------------------------------------------------------

  lemma {:induction false} NothingAccruedIff(s: Schedule, ts: Timestamp)
    requires WellFormed(s)
    ensures Accrued(s, ts) >= 0.0
    ensures Accrued(s, ts) == 0.0 <==> forall i :: 0 <= i < |s| ==> Due(s[i], ts) == 0.0
  {
    hide Due;
    if s != [] {
      var front, last := s[..|s| - 1], s[|s| - 1];
      NothingAccruedIff(front, ts);
      DueGrows(last, ts, ts);
      assert s == front + [last];
    }
  }

  /** The target is nothing at the first instant exactly when the window has at least one nanosecond for each
      slice, or only the last slice carries quantity. */
  lemma StartsAtZeroIff(s: Schedule, total: real, begin: Timestamp, end: Timestamp)
    requires IsSchedule(s, total, begin, end) && EvenlyLaid(s, begin, end) && begin < end
    ensures TargetBy(s, begin) == 0.0 <==> end - begin >= |s| || forall i :: 0 <= i < |s| - 1 ==> s[i].target == 0.0
  {
    hide Due, Accrued, Mark, TargetBy;
    TargetIsAccrued(s, total, begin, end, begin);
    ScheduleIsWellFormed(s, total, begin, end);
    NothingAccruedIff(s, begin);
    var n := |s|;
    forall i | 0 <= i < n
      ensures Due(s[i], begin) == if end - begin >= n || i == n - 1 then 0.0 else s[i].target
    {
      DueOutside(s[i], begin);
      MarksAtBegin(begin, end, n, i);
      EndsLast(s, total, begin, end, i);
    }
  }

  /** Inner boundaries stay at the beginning exactly when the window is shorter than the number of slices. */
  lemma MarksAtBegin(begin: Timestamp, end: Timestamp, n: nat, i: nat)
    requires i < n && begin < end
    ensures Mark(begin, end, n, i + 1) > begin <==> (end - begin >= n || i == n - 1)
  {
  }

  /** A twap of a window too short for its slices owes something at once. */
  lemma TwapStartsAtZeroIff(s: Schedule, total: real, begin: Timestamp, end: Timestamp)
    requires IsSchedule(s, total, begin, end) && EvenlyLaid(s, begin, end) && begin < end && total > 0.0
    requires forall i :: 0 <= i < |s| ==> s[i].target == total / |s| as real
    ensures TargetBy(s, begin) == 0.0 <==> |s| == 1 || end - begin >= |s|
  {
    hide EvenlyLaid, TargetBy, Continues;
    StartsAtZeroIff(s, total, begin, end);
    ShareIsPositive(total, |s|);
    if |s| > 1 {
      assert s[0].target > 0.0;
    }
  }
}
