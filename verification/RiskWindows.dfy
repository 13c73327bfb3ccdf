/** Rolling value at risk and expected shortfall over an incrementally sorted window. */
module RiskWindows {
  import opened Types
  import opened Sums
  import opened Moments

  // ---------------------------------------------------------------------------
  // Sorted windows
  // ---------------------------------------------------------------------------

  predicate Sorted(s: seq<real>) {
    forall i, j :: 0 <= i < j < |s| ==> s[i] <= s[j]
  }

  /** The first position whose element is not below x, as a binary search of a sorted list finds it. */
  function LowerBound(s: seq<real>, x: real): (i: nat)
    ensures i <= |s| && (i < |s| ==> s[i] >= x)
    ensures forall k :: 0 <= k < i ==> s[k] < x
  {
    if s == [] || s[0] >= x then 0
    else
      assert s == [s[0]] + s[1..];
      1 + LowerBound(s[1..], x)
  }

  /** The window holds exactly these observations, in ascending order. */
  ghost predicate SortedForm(s: seq<real>, xs: seq<real>) {
    Sorted(s) && multiset(s) == multiset(xs)
  }

  function Inserted(s: seq<real>, x: real): seq<real> {
    var i := LowerBound(s, x);
    s[..i] + [x] + s[i..]
  }

  /** Takes one occurrence of x out, if there is one. */
  function Erased(s: seq<real>, x: real): seq<real> {
    var i := LowerBound(s, x);
    if i < |s| && s[i] == x then s[..i] + s[i + 1..] else s
  }

  lemma InsertKeepsOrder(s: seq<real>, i: nat, x: real)
    requires Sorted(s) && i <= |s| && (forall k :: 0 <= k < i ==> s[k] < x) && (i < |s| ==> s[i] >= x)
    ensures Sorted(s[..i] + [x] + s[i..])
  {
  }

  lemma InsertSorts(s: seq<real>, xs: seq<real>, x: real)
    requires SortedForm(s, xs)
    ensures SortedForm(Inserted(s, x), xs + [x])
  {
    var i := LowerBound(s, x);
    InsertKeepsOrder(s, i, x);
    hide Sorted;
    TakeOut(s[..i] + [x] + s[i..], i);
    assert (s[..i] + [x] + s[i..])[..i] + (s[..i] + [x] + s[i..])[i + 1..] == s;
  }

  lemma RemovedKeepsOrder(s: seq<real>, i: nat)
    requires Sorted(s) && i < |s|
    ensures Sorted(s[..i] + s[i + 1..])
  {
  }

  lemma TakeOut(s: seq<real>, i: nat)
    requires i < |s|
    ensures multiset(s) == multiset(s[..i] + s[i + 1..]) + multiset{s[i]}
  {
    var a, b := s[..i], s[i + 1..];
    assert s == a + ([s[i]] + b);
    assert multiset(a + b) == multiset(a) + multiset(b);
    assert multiset(a + ([s[i]] + b)) == multiset(a) + multiset([s[i]] + b);
    assert multiset([s[i]] + b) == multiset{s[i]} + multiset(b);
  }

  lemma RemovedFrom(s: seq<real>, i: nat, xs: seq<real>)
    requires i < |s| && multiset(s) == multiset([s[i]] + xs)
    ensures multiset(s[..i] + s[i + 1..]) == multiset(xs)
  {
    TakeOut(s, i);
    TakeOut([s[i]] + xs, 0);
    assert ([s[i]] + xs)[..0] + ([s[i]] + xs)[1..] == xs;
    CancelOne(multiset(s[..i] + s[i + 1..]), multiset(xs), s[i]);
  }

  lemma CancelOne(a: multiset<real>, b: multiset<real>, x: real)
    requires a + multiset{x} == b + multiset{x}
    ensures a == b
  {
    forall y
      ensures a[y] == b[y]
    {
      assert (a + multiset{x})[y] == (b + multiset{x})[y];
    }
  }

  lemma EraseSorts(s: seq<real>, x: real, xs: seq<real>)
    requires SortedForm(s, [x] + xs)
    ensures SortedForm(Erased(s, x), xs)
  {
    IsThere(s, x, xs);
    var i := LowerBound(s, x);
    RemovedKeepsOrder(s, i);
    RemovedFrom(s, i, xs);
    hide Sorted;
  }

  /** The observation that leaves the window is found where the search ends. */
  lemma IsThere(s: seq<real>, x: real, xs: seq<real>)
    requires SortedForm(s, [x] + xs)
    ensures var i := LowerBound(s, x); i < |s| && s[i] == x
  {
    var i := LowerBound(s, x);
    assert ([x] + xs)[0] == x;
    assert x in multiset([x] + xs);
    assert x in s;
    var k :| 0 <= k < |s| && s[k] == x;
    assert i <= k;
    if i < k {
      assert s[i] <= s[k];
    }
  }

  /** One step of the sliding window: the newest return goes in, the oldest comes out. */
  lemma WindowStaysSorted(s: seq<real>, xs: seq<real>, window: nat, i: nat)
    requires window > 0 && i < |xs|
    requires SortedForm(s, if i == 0 then [] else WindowAt(xs, window, i - 1))
    ensures var r := Inserted(s, xs[i]);
            SortedForm(if i >= window then Erased(r, xs[i - window]) else r, WindowAt(xs, window, i))
  {
    hide SortedForm, Inserted, Erased;
    var before := if i == 0 then [] else WindowAt(xs, window, i - 1);
    WindowSlides(xs, window, i);
    InsertSorts(s, before, xs[i]);
    if i >= window {
      EraseSorts(Inserted(s, xs[i]), xs[i - window], WindowAt(xs, window, i));
    } else {
      assert before + [xs[i]] == WindowAt(xs, window, i);
    }
  }

  // ---------------------------------------------------------------------------
  // Order statistics
  // ---------------------------------------------------------------------------

  function Ceil(x: real): int {
    -(-x).Floor
  }

  /** The nearest rank: how many of n observations the tail of probability q must hold. */
  function Rank(q: real, n: nat): int {
    Ceil(q * n as real)
  }

  /** The position of the nearest-rank quantile among n sorted observations. */
  function RankIndex(q: real, n: nat): int {
    var rank := Rank(q, n);
    var index := if rank > 0 then rank - 1 else 0;
    if index < n - 1 then index else n - 1
  }

  /** How many observations the tail mean covers: at least one. */
  function TailCount(q: real, n: nat): int
  {
    var count := (q * n as real).Floor;
    if count < 1 then 1 else count
  }

  /** How many elements satisfy a bound. */
  function AtMost(xs: seq<real>, bound: real): nat {
    if xs == [] then 0 else AtMost(xs[..|xs| - 1], bound) + if xs[|xs| - 1] <= bound then 1 else 0
  }

  lemma {:induction false} AtMostSplit(xs: seq<real>, ys: seq<real>, bound: real)
    ensures AtMost(xs + ys, bound) == AtMost(xs, bound) + AtMost(ys, bound)
    decreases |ys|
  {
    if ys == [] {
      assert xs + ys == xs;
    } else {
      assert (xs + ys)[..|xs + ys| - 1] == xs + ys[..|ys| - 1];
      AtMostSplit(xs, ys[..|ys| - 1], bound);
    }
  }

  /** Counting does not depend on the order. */
  lemma {:induction false} AtMostOfPermutation(xs: seq<real>, ys: seq<real>, bound: real)
    requires multiset(xs) == multiset(ys)
    ensures AtMost(xs, bound) == AtMost(ys, bound)
  {
    if xs == [] {
      assert |multiset(ys)| == 0;
      assert ys == [];
    } else {
      var front, x := xs[..|xs| - 1], xs[|xs| - 1];
      assert xs == front + [x];
      assert x in multiset(ys);
      var k :| 0 <= k < |ys| && ys[k] == x;
      var rest := ys[..k] + ys[k + 1..];
      TakeOut(ys, k);
      CancelOne(multiset(front), multiset(rest), x);
      AtMostOfPermutation(front, rest, bound);
      AtMostWithout(ys, k, bound);
    }
  }

  lemma AtMostWithout(ys: seq<real>, k: nat, bound: real)
    requires k < |ys|
    ensures AtMost(ys, bound) == AtMost(ys[..k] + ys[k + 1..], bound) + if ys[k] <= bound then 1 else 0
  {
    assert ys == ys[..k] + ([ys[k]] + ys[k + 1..]);
    AtMostSplit(ys[..k], [ys[k]] + ys[k + 1..], bound);
    AtMostSplit([ys[k]], ys[k + 1..], bound);
    AtMostSplit(ys[..k], ys[k + 1..], bound);
    assert [ys[k]][..0] == [];
  }

  lemma {:induction false} PrefixIsAtMost(s: seq<real>, k: nat, bound: real)
    requires k <= |s| && forall i :: 0 <= i < k ==> s[i] <= bound
    ensures AtMost(s[..k], bound) == k && AtMost(s, bound) >= k
  {
    if k > 0 {
      PrefixIsAtMost(s, k - 1, bound);
      assert s[..k][..k - 1] == s[..k - 1];
    }
    AtMostSplit(s[..k], s[k..], bound);
    assert s == s[..k] + s[k..];
  }

  lemma {:induction false} CountIsBounded(xs: seq<real>, bound: real)
    ensures AtMost(xs, bound) <= |xs|
  {
    if xs != [] {
      CountIsBounded(xs[..|xs| - 1], bound);
    }
  }

  lemma RanksAreOrdered(q: real, n: nat)
    requires 0.0 < q < 1.0 && n > 0
    ensures 1 <= Rank(q, n) <= n && RankIndex(q, n) == Rank(q, n) - 1
    ensures 1 <= TailCount(q, n) <= Rank(q, n)
  {
  }

  // ---------------------------------------------------------------------------
  // Value at risk
  // ---------------------------------------------------------------------------

  /** The loss that q of the window reaches: v is minus an observation of the window, at least ceil(q n) observations
      lose v or more, and fewer than ceil(q n) lose strictly more. */
  ghost predicate IsValueAtRisk(xs: seq<real>, q: real, v: real) {
    && -v in xs
    && AtMost(xs, -v) >= Rank(q, |xs|)
    && forall y :: y < -v ==> AtMost(xs, y) < Rank(q, |xs|)
  }

  lemma {:induction false} NoneAtMost(s: seq<real>, bound: real)
    requires forall i :: 0 <= i < |s| ==> s[i] > bound
    ensures AtMost(s, bound) == 0
  {
    if s != [] {
      NoneAtMost(s[..|s| - 1], bound);
    }
  }

  /** Fewer than k + 1 observations lie below the k-th of the sorted window. */
  lemma FewBelow(s: seq<real>, k: nat, y: real)
    requires Sorted(s) && k < |s| && y < s[k]
    ensures AtMost(s, y) <= k
  {
    AtMostSplit(s[..k], s[k..], y);
    assert s == s[..k] + s[k..];
    CountIsBounded(s[..k], y);
    forall i | 0 <= i < |s[k..]|
      ensures s[k..][i] > y
    {
      assert s[k..][i] == s[k + i];
    }
    NoneAtMost(s[k..], y);
  }

  lemma QuantileIsValueAtRisk(s: seq<real>, xs: seq<real>, q: real)
    requires SortedForm(s, xs) && xs != [] && 0.0 < q < 1.0
    ensures |s| == |xs| && 0 <= RankIndex(q, |s|) < |s| && IsValueAtRisk(xs, q, -s[RankIndex(q, |s|)])
  {
    assert |multiset(s)| == |multiset(xs)|;
    RanksAreOrdered(q, |s|);
    var k, rank := RankIndex(q, |s|), Rank(q, |s|);
    hide RankIndex, Rank, AtMost;
    assert s[k] in multiset(s);
    PrefixIsAtMost(s, k + 1, s[k]);
    AtMostOfPermutation(s, xs, s[k]);
    forall y | y < s[k]
      ensures AtMost(xs, y) < rank
    {
      AtMostOfPermutation(s, xs, y);
      FewBelow(s, k, y);
    }
  }

  /** The rolling value at risk: at every full index, the nearest-rank quantile of the last window returns. */
  method ValueAtRisk(ts: seq<Timestamp>, xs: seq<real>, window: nat, q: real)
    returns (r: Result<seq<Option<real>>, RollingError>)
    ensures r.Ok? <==> GoodShape(ts, xs, window) && 0.0 < q < 1.0
    ensures r.Ok? ==> |r.value| == |xs| && forall i :: 0 <= i < |xs| ==>
              && (r.value[i].Some? <==> i + 1 >= window)
              && (r.value[i].Some? ==> IsValueAtRisk(WindowAt(xs, window, i), q, r.value[i].value))
  {
    hide Rank, SortedForm, WindowAt, IsValueAtRisk, Inserted, Erased, Sorted;
    var error := CheckShape(ts, xs, window);
    if error.Some? { return Err(error.value); }
    if q <= 0.0 || q >= 1.0 { return Err(BadConfidence); }
    var out: seq<Option<real>>, s: seq<real>, i := [], [], 0;
    NothingSorted();
    while i < |xs|
      invariant 0 <= i <= |xs| && |out| == i
      invariant SortedForm(s, if i == 0 then [] else WindowAt(xs, window, i - 1))
      invariant forall k :: 0 <= k < i ==>
                  && (out[k].Some? <==> k + 1 >= window)
                  && (out[k].Some? ==> IsValueAtRisk(WindowAt(xs, window, k), q, out[k].value))
    {
      WindowStaysSorted(s, xs, window, i);
      s := SlideWindow(s, xs, window, i);
      if i + 1 < window {
        out := out + [None];
      } else {
        WindowIsFull(xs, window, i);
        QuantileIsValueAtRisk(s, WindowAt(xs, window, i), q);
        var rank := Rank(q, |s|);
        var index := if rank > 0 then rank - 1 else 0;
        var last := |s| - 1;
        assert (if index < last then index else last) == RankIndex(q, |s|);
        out := out + [Some(-s[if index < last then index else last])];
      }
      i := i + 1;
    }
    return Ok(out);
  }

  /** The insert and erase of one step. */
  method SlideWindow(s: seq<real>, xs: seq<real>, window: nat, i: nat) returns (r: seq<real>)
    requires i < |xs|
    ensures r == if i >= window then Erased(Inserted(s, xs[i]), xs[i - window]) else Inserted(s, xs[i])
  {
    var position := LowerBound(s, xs[i]);
    r := s[..position] + [xs[i]] + s[position..];
    if i >= window {
      var leaving := xs[i - window];
      var it := LowerBound(r, leaving);
      if it < |r| && r[it] == leaving { r := r[..it] + r[it + 1..]; }
    }
  }

  lemma NothingSorted()
    ensures SortedForm([], [])
  {
  }

  // ---------------------------------------------------------------------------
  // Expected shortfall
  // ---------------------------------------------------------------------------

  /** The mean loss of the worst observations of the window. */
  ghost predicate IsShortfall(xs: seq<real>, q: real, c: real) {
    exists s :: SortedForm(s, xs) && TailCount(q, |s|) <= |s|
                && c == -(Total(s[..TailCount(q, |s|)]) / TailCount(q, |s|) as real)
  }

  lemma {:induction false} TotalBelow(s: seq<real>, bound: real)
    requires forall i :: 0 <= i < |s| ==> s[i] <= bound
    ensures Total(s) <= |s| as real * bound
  {
    if s != [] {
      TotalBelow(s[..|s| - 1], bound);
      assert |s| as real * bound == (|s| - 1) as real * bound + bound;
    }
  }

  lemma MeanBelow(total: real, n: real, bound: real)
    requires n > 0.0 && total <= n * bound
    ensures total / n <= bound
  {
  }

  lemma LastIsGreatest(s: seq<real>, t: seq<real>)
    requires Sorted(s) && Sorted(t) && multiset(s) == multiset(t) && s != [] && t != []
    ensures s[|s| - 1] == t[|t| - 1]
  {
    var i, j := |s| - 1, |t| - 1;
    assert s[i] in multiset(t) && t[j] in multiset(s);
    var a :| 0 <= a < |t| && t[a] == s[i];
    var b :| 0 <= b < |s| && s[b] == t[j];
    assert t[a] <= t[j] && s[b] <= s[i];
  }

  lemma {:induction false} SortedFormIsUnique(s: seq<real>, t: seq<real>)
    requires Sorted(s) && Sorted(t) && multiset(s) == multiset(t)
    ensures s == t
  {
    assert |multiset(s)| == |multiset(t)|;
    if s != [] {
      LastIsGreatest(s, t);
      var i := |s| - 1;
      assert s == s[..i] + [s[i]] && t == t[..i] + [s[i]];
      hide Sorted;
      CancelOne(multiset(s[..i]), multiset(t[..i]), s[i]);
      PrefixSorted(s, i);
      PrefixSorted(t, i);
      SortedFormIsUnique(s[..i], t[..i]);
    }
  }

  lemma PrefixSorted(s: seq<real>, k: nat)
    requires Sorted(s) && k <= |s|
    ensures Sorted(s[..k])
  {
  }

  /** A window has one expected shortfall. */
  lemma ShortfallIsUnique(xs: seq<real>, q: real, c: real, d: real)
    requires IsShortfall(xs, q, c) && IsShortfall(xs, q, d)
    ensures c == d
  {
    var s :| SortedForm(s, xs) && TailCount(q, |s|) <= |s|
             && c == -(Total(s[..TailCount(q, |s|)]) / TailCount(q, |s|) as real);
    var t :| SortedForm(t, xs) && TailCount(q, |t|) <= |t|
             && d == -(Total(t[..TailCount(q, |t|)]) / TailCount(q, |t|) as real);
    hide TailCount, Total, Sorted;
    SortedFormIsUnique(s, t);
  }

  /** The worst of a sorted window, on average, lose at least what the k-th one loses. */
  lemma TailMeanBelow(s: seq<real>, tail: int, k: nat)
    requires Sorted(s) && 1 <= tail <= k + 1 <= |s|
    ensures Total(s[..tail]) / tail as real <= s[k]
  {
    forall i | 0 <= i < tail
      ensures s[..tail][i] <= s[k]
    {
      assert s[..tail][i] == s[i];
    }
    TotalBelow(s[..tail], s[k]);
    MeanBelow(Total(s[..tail]), tail as real, s[k]);
  }

  /** The expected shortfall is at least the value at risk of the same window and confidence. */
  lemma ShortfallExceedsValueAtRisk(xs: seq<real>, q: real, v: real, c: real)
    requires xs != [] && 0.0 < q < 1.0 && IsValueAtRisk(xs, q, v) && IsShortfall(xs, q, c)
    ensures c >= v
  {
    var s :| SortedForm(s, xs) && TailCount(q, |s|) <= |s|
             && c == -(Total(s[..TailCount(q, |s|)]) / TailCount(q, |s|) as real);
    QuantileIsValueAtRisk(s, xs, q);
    RanksAreOrdered(q, |s|);
    var k, tail := RankIndex(q, |s|), TailCount(q, |s|);
    hide RankIndex, TailCount, Rank, Sorted, Total;
    ValueAtRiskIsUnique(xs, q, v, -s[k]);
    hide IsValueAtRisk, IsShortfall;
    TailMeanBelow(s, tail, k);
  }

  /** The two counting conditions leave one value. */
  lemma ValueAtRiskIsUnique(xs: seq<real>, q: real, v: real, w: real)
    requires IsValueAtRisk(xs, q, v) && IsValueAtRisk(xs, q, w)
    ensures v == w
  {
  }

  /** The number of tail observations is a size the window can supply. The source checks no such thing: outside this
      range it would convert a negative number to an unsigned one or read past the window. */
  predicate TailInWindow(q: real, window: nat) {
    -1.0 < q * window as real < window as real + 1.0
  }

  /** The rolling expected shortfall. */
  method ConditionalVar(ts: seq<Timestamp>, xs: seq<real>, window: nat, q: real)
    returns (r: Result<seq<Option<real>>, RollingError>)
    requires TailInWindow(q, window)
    ensures r.Ok? <==> GoodShape(ts, xs, window)
    ensures r.Ok? ==> |r.value| == |xs| && forall i :: 0 <= i < |xs| ==>
              && (r.value[i].Some? <==> i + 1 >= window)
              && (r.value[i].Some? ==> IsShortfall(WindowAt(xs, window, i), q, r.value[i].value))
  {
    hide SortedForm, WindowAt, IsShortfall, Inserted, Erased, Sorted;
    var error := CheckShape(ts, xs, window);
    if error.Some? { return Err(error.value); }
    var out: seq<Option<real>>, s: seq<real>, i := [], [], 0;
    NothingSorted();
    while i < |xs|
      invariant 0 <= i <= |xs| && |out| == i
      invariant SortedForm(s, if i == 0 then [] else WindowAt(xs, window, i - 1))
      invariant forall k :: 0 <= k < i ==>
                  && (out[k].Some? <==> k + 1 >= window)
                  && (out[k].Some? ==> IsShortfall(WindowAt(xs, window, k), q, out[k].value))
    {
      WindowStaysSorted(s, xs, window, i);
      s := SlideWindow(s, xs, window, i);
      if i + 1 < window {
        out := out + [None];
      } else {
        WindowIsFull(xs, window, i);
        TailFits(s, WindowAt(xs, window, i), q);
        var tail := TailCount(q, |s|);
        var sum := SumOfFirst(s, tail);
        TailMeanIsShortfall(s, WindowAt(xs, window, i), q);
        out := out + [Some(-(sum / tail as real))];
      }
      i := i + 1;
    }
    return Ok(out);
  }

  /** Adds up the first elements. */
  method SumOfFirst(s: seq<real>, n: nat) returns (sum: real)
    requires n <= |s|
    ensures sum == Total(s[..n])
  {
    sum := 0.0;
    var k := 0;
    while k < n
      invariant 0 <= k <= n && sum == Total(s[..k])
    {
      assert s[..k + 1][..k] == s[..k];
      sum := sum + s[k];
      k := k + 1;
    }
  }

  lemma TailFits(s: seq<real>, xs: seq<real>, q: real)
    requires SortedForm(s, xs) && xs != [] && TailInWindow(q, |xs|)
    ensures |s| == |xs| && 1 <= TailCount(q, |s|) <= |s|
  {
    assert |multiset(s)| == |multiset(xs)|;
  }

  lemma TailMeanIsShortfall(s: seq<real>, xs: seq<real>, q: real)
    requires SortedForm(s, xs) && TailCount(q, |s|) <= |s|
    ensures IsShortfall(xs, q, -(Total(s[..TailCount(q, |s|)]) / TailCount(q, |s|) as real))
  {
  }
}
