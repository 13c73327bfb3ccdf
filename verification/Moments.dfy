/** Running moments: one-pass central moments and the rolling variance. */
module Moments {
  import opened Types
  import opened Sums

  // ---------------------------------------------------------------------------
  // Batch definitions
  // ---------------------------------------------------------------------------

  function Mean(xs: seq<real>): real {
    if xs == [] then 0.0 else Total(xs) / |xs| as real
  }

  /** The k-th power. */
  function Power(x: real, k: nat): real {
    if k == 0 then 1.0 else Power(x, k - 1) * x
  }

  /** The sum of the k-th powers of the distances from a centre. */
  function Central(xs: seq<real>, centre: real, k: nat): real {
    if xs == [] then 0.0
    else Central(xs[..|xs| - 1], centre, k) + Power(xs[|xs| - 1] - centre, k)
  }

  lemma CentralSnoc(xs: seq<real>, x: real, centre: real, k: nat)
    ensures Central(xs + [x], centre, k) == Central(xs, centre, k) + Power(x - centre, k)
  {
  }

  lemma Powers(x: real)
    ensures Power(x, 1) == x && Power(x, 2) == x * x && Power(x, 3) == x * x * x && Power(x, 4) == x * x * x * x
  {
  }

  // ---------------------------------------------------------------------------
  // Moving the centre
  // ---------------------------------------------------------------------------

  lemma {:induction false} FirstShift(xs: seq<real>, c: real)
    ensures Central(xs, c, 1) == Total(xs) - |xs| as real * c
  {
    if xs != [] {
      FirstShift(xs[..|xs| - 1], c);
      Powers(xs[|xs| - 1] - c);
      assert |xs| as real * c == (|xs| - 1) as real * c + c;
    }
  }

  lemma MeanCentres(xs: seq<real>)
    ensures Central(xs, Mean(xs), 1) == 0.0
  {
    FirstShift(xs, Mean(xs));
  }

  /** The central sums after the centre has moved by d, from those before. */
  function Second(n: real, s1: real, s2: real, d: real): real {
    s2 - 2.0 * d * s1 + n * (d * d)
  }

  function Third(n: real, s1: real, s2: real, s3: real, d: real): real {
    s3 - 3.0 * d * s2 + 3.0 * (d * d) * s1 - n * (d * d * d)
  }

  function Fourth(n: real, s1: real, s2: real, s3: real, s4: real, d: real): real {
    s4 - 4.0 * d * s3 + 6.0 * (d * d) * s2 - 4.0 * (d * d * d) * s1 + n * (d * d * d * d)
  }

  lemma RawSecondStep(n: real, s1: real, s2: real, y: real, d: real)
    ensures Second(n + 1.0, s1 + y, s2 + y * y, d) == Second(n, s1, s2, d) + (y - d) * (y - d)
  {
  }

  lemma RawThirdStep(n: real, s1: real, s2: real, s3: real, y: real, d: real)
    ensures Third(n + 1.0, s1 + y, s2 + y * y, s3 + y * y * y, d)
            == Third(n, s1, s2, s3, d) + (y - d) * (y - d) * (y - d)
  {
  }

  lemma RawFourthStep(n: real, s1: real, s2: real, s3: real, s4: real, y: real, d: real)
    ensures Fourth(n + 1.0, s1 + y, s2 + y * y, s3 + y * y * y, s4 + y * y * y * y, d)
            == Fourth(n, s1, s2, s3, s4, d) + (y - d) * (y - d) * (y - d) * (y - d)
  {
  }

  /** One more observation at distance y from the old centre. */
  lemma StepAll(n: real, s1: real, s2: real, s3: real, s4: real, y: real, d: real)
    ensures Second(n + 1.0, s1 + Power(y, 1), s2 + Power(y, 2), d) == Second(n, s1, s2, d) + Power(y - d, 2)
    ensures Third(n + 1.0, s1 + Power(y, 1), s2 + Power(y, 2), s3 + Power(y, 3), d)
            == Third(n, s1, s2, s3, d) + Power(y - d, 3)
    ensures Fourth(n + 1.0, s1 + Power(y, 1), s2 + Power(y, 2), s3 + Power(y, 3), s4 + Power(y, 4), d)
            == Fourth(n, s1, s2, s3, s4, d) + Power(y - d, 4)
  {
    hide Second, Third, Fourth;
    Powers(y);
    Powers(y - d);
    RawSecondStep(n, s1, s2, y, d);
    RawThirdStep(n, s1, s2, s3, y, d);
    RawFourthStep(n, s1, s2, s3, s4, y, d);
    hide Power;
  }

  /** How the central sums change when the centre moves by d. */
  lemma {:induction false} CentreMoves(xs: seq<real>, c: real, d: real)
    ensures var n, s1, s2 := |xs| as real, Central(xs, c, 1), Central(xs, c, 2);
            var s3, s4 := Central(xs, c, 3), Central(xs, c, 4);
            && Central(xs, c + d, 2) == Second(n, s1, s2, d)
            && Central(xs, c + d, 3) == Third(n, s1, s2, s3, d)
            && Central(xs, c + d, 4) == Fourth(n, s1, s2, s3, s4, d)
  {
    if xs == [] {
    } else {
      hide Power, Second, Third, Fourth;
      var front, y := xs[..|xs| - 1], xs[|xs| - 1] - c;
      CentreMoves(front, c, d);
      assert |xs| as real == |front| as real + 1.0;
      assert xs[|xs| - 1] - (c + d) == y - d;
      StepAll(|front| as real, Central(front, c, 1), Central(front, c, 2), Central(front, c, 3), Central(front, c, 4),
              y, d);
    }
  }

  // ---------------------------------------------------------------------------
  // The one-pass accumulator
  // ---------------------------------------------------------------------------

  datatype Accumulated = Accumulated(
    n: nat, mean: real, m2: real, m3: real, m4: real, sum: real, low: real, high: real)

  const NOTHING := Accumulated(0, 0.0, 0.0, 0.0, 0.0, 0.0, 0.0, 0.0)

  function TermOf(delta: real, deltaN: real, n1: real): real {
    delta * deltaN * n1
  }

  function ThirdGain(m2: real, term: real, deltaN: real, n: real): real {
    term * deltaN * (n - 2.0) - 3.0 * deltaN * m2
  }

  function FourthGain(m2: real, m3: real, term: real, deltaN: real, n: real): real {
    var deltaN2 := deltaN * deltaN;
    term * deltaN2 * (n * n - 3.0 * n + 3.0) + 6.0 * deltaN2 * m2 - 4.0 * deltaN * m3
  }

  function Updating(a: Accumulated, x: real): Accumulated {
    var n1 := a.n as real;
    var n := (a.n + 1) as real;
    var delta := x - a.mean;
    var deltaN := delta / n;
    var term := TermOf(delta, deltaN, n1);
    Accumulated(
      a.n + 1, a.mean + deltaN, a.m2 + term, a.m3 + ThirdGain(a.m2, term, deltaN, n),
      a.m4 + FourthGain(a.m2, a.m3, term, deltaN, n), a.sum + x,
      if a.n == 0 then x else Min(a.low, x), if a.n == 0 then x else Max(a.high, x))
  }

  function Accumulating(xs: seq<real>): Accumulated {
    if xs == [] then NOTHING else Updating(Accumulating(xs[..|xs| - 1]), xs[|xs| - 1])
  }

  class StatisticsAccumulator {
    var n: nat
    var mean: real
    var m2: real
    var m3: real
    var m4: real
    var sum: real
    var low: real
    var high: real

    function State(): Accumulated
      reads this
    {
      Accumulated(n, mean, m2, m3, m4, sum, low, high)
    }

    constructor ()
      ensures State() == NOTHING
    {
      n, mean, m2, m3, m4, sum, low, high := 0, 0.0, 0.0, 0.0, 0.0, 0.0, 0.0, 0.0;
    }

    method Update(x: real)
      modifies this
      ensures State() == Updating(old(State()), x)
    {
      hide ThirdGain, FourthGain, TermOf;
      if n == 0 {
        low, high := x, x;
      } else {
        low, high := Min(low, x), Max(high, x);
      }
      var n1 := n as real;
      n := n + 1;
      var count := n as real;
      var delta := x - mean;
      var deltaN := delta / count;
      var term := TermOf(delta, deltaN, n1);
      mean := mean + deltaN;
      m4 := m4 + FourthGain(m2, m3, term, deltaN, count);
      m3 := m3 + ThirdGain(m2, term, deltaN, count);
      m2 := m2 + term;
      sum := sum + x;
    }

    method Variance() returns (v: real)
      ensures v == VarianceOf(State())
    {
      if n < 2 { return 0.0; }
      return m2 / (n - 1) as real;
    }
  }

  function VarianceOf(a: Accumulated): real {
    if a.n < 2 then 0.0 else a.m2 / (a.n - 1) as real
  }

  /** The least and the greatest observation. */
  predicate Extremes(a: Accumulated, xs: seq<real>) {
    xs != [] ==> a.low in xs && a.high in xs && forall i :: 0 <= i < |xs| ==> a.low <= xs[i] <= a.high
  }

  /** The accumulated moments are the exact ones. */
  predicate Exact(a: Accumulated, xs: seq<real>) {
    && a.n == |xs| && a.sum == Total(xs) && a.mean == Mean(xs)
    && a.m2 == Central(xs, a.mean, 2) && a.m3 == Central(xs, a.mean, 3) && a.m4 == Central(xs, a.mean, 4)
  }

  lemma RawSecondMoment(n1: real, s2: real, d: real)
    ensures Second(n1, 0.0, s2, d) + (n1 * d) * (n1 * d) == s2 + TermOf((n1 + 1.0) * d, d, n1)
  {
  }

  lemma RawThirdMoment(n1: real, s2: real, s3: real, d: real)
    ensures Third(n1, 0.0, s2, s3, d) + (n1 * d) * (n1 * d) * (n1 * d)
            == s3 + ThirdGain(s2, TermOf((n1 + 1.0) * d, d, n1), d, n1 + 1.0)
  {
  }

  lemma RawFourthMoment(n1: real, s2: real, s3: real, s4: real, d: real)
    ensures Fourth(n1, 0.0, s2, s3, s4, d) + (n1 * d) * (n1 * d) * (n1 * d) * (n1 * d)
            == s4 + FourthGain(s2, s3, TermOf((n1 + 1.0) * d, d, n1), d, n1 + 1.0)
  {
  }

  /** With the old centre at the mean, moving the centre by d and adding an observation at n1 * d from the new one gives
      the one-pass formulas. */
  lemma OnePass(n1: real, s2: real, s3: real, s4: real, d: real, delta: real, z: real)
    requires delta == (n1 + 1.0) * d && z == n1 * d
    ensures Second(n1, 0.0, s2, d) + Power(z, 2) == s2 + TermOf(delta, d, n1)
    ensures Third(n1, 0.0, s2, s3, d) + Power(z, 3) == s3 + ThirdGain(s2, TermOf(delta, d, n1), d, n1 + 1.0)
    ensures Fourth(n1, 0.0, s2, s3, s4, d) + Power(z, 4) == s4 + FourthGain(s2, s3, TermOf(delta, d, n1), d, n1 + 1.0)
  {
    hide Second, Third, Fourth, ThirdGain, FourthGain, TermOf;
    Powers(n1 * d);
    RawSecondMoment(n1, s2, d);
    RawThirdMoment(n1, s2, s3, d);
    RawFourthMoment(n1, s2, s3, s4, d);
    hide Power;
  }

  /** The mean moves by the new distance divided by the new count. */
  lemma MeanMoves(xs: seq<real>, x: real)
    ensures var d := (x - Mean(xs)) / (|xs| as real + 1.0);
            Mean(xs + [x]) == Mean(xs) + d && x - Mean(xs) == (|xs| as real + 1.0) * d
            && x - Mean(xs + [x]) == |xs| as real * d
  {
  }

  lemma UpdateIsExact(a: Accumulated, xs: seq<real>, x: real)
    requires Exact(a, xs)
    ensures Exact(Updating(a, x), xs + [x])
  {
    var n1 := |xs| as real;
    var c := a.mean;
    var d := (x - c) / (n1 + 1.0);
    MeanMoves(xs, x);
    TotalSnoc(xs, x);
    MeanCentres(xs);
    CentreMoves(xs, c, d);
    CentralSnoc(xs, x, c + d, 2);
    CentralSnoc(xs, x, c + d, 3);
    CentralSnoc(xs, x, c + d, 4);
    hide Power, Central, Total, Mean, Second, Third, Fourth, ThirdGain, FourthGain, TermOf;
    var delta, z := x - c, x - (c + d);
    OnePass(n1, a.m2, a.m3, a.m4, d, delta, z);
    assert (|xs| + 1) as real == n1 + 1.0;
    assert Updating(a, x).m2 == a.m2 + TermOf(delta, d, n1);
  }

  lemma {:induction false} ExtremesAreExact(xs: seq<real>)
    ensures Extremes(Accumulating(xs), xs) && Accumulating(xs).n == |xs|
  {
    if xs != [] {
      hide FourthGain, ThirdGain, TermOf;
      var front, x := xs[..|xs| - 1], xs[|xs| - 1];
      ExtremesAreExact(front);
      assert xs == front + [x];
    }
  }

  /** After any run of updates the mean and the second, third and fourth moments are the exact ones of the batch. */
  lemma {:induction false} MomentsAreExact(xs: seq<real>)
    ensures Exact(Accumulating(xs), xs)
  {
    if xs != [] {
      var front := xs[..|xs| - 1];
      assert front + [xs[|xs| - 1]] == xs;
      MomentsAreExact(front);
      hide Exact, Updating;
      UpdateIsExact(Accumulating(front), front, xs[|xs| - 1]);
    }
  }

  // ---------------------------------------------------------------------------
  // Rolling variance
  // ---------------------------------------------------------------------------

  datatype RollingError = WindowTooShort | NothingToRoll | LengthsDiffer | TimesOutOfOrder | BadConfidence

  predicate Ordered(ts: seq<Timestamp>) {
    forall i :: 0 < i < |ts| ==> ts[i - 1] <= ts[i]
  }

  /** The shape every rolling statistic asks for. */
  predicate GoodShape(ts: seq<Timestamp>, values: seq<real>, window: nat) {
    window >= 2 && values != [] && |ts| == |values| && Ordered(ts)
  }

  method CheckShape(ts: seq<Timestamp>, values: seq<real>, window: nat) returns (error: Option<RollingError>)
    ensures error.None? <==> GoodShape(ts, values, window)
  {
    if window < 2 { return Some(WindowTooShort); }
    if values == [] { return Some(NothingToRoll); }
    if |ts| != |values| { return Some(LengthsDiffer); }
    var i := 1;
    while i < |ts|
      invariant 1 <= i <= |ts| && Ordered(ts[..i])
    {
      if ts[i] < ts[i - 1] { return Some(TimesOutOfOrder); }
      assert ts[..i + 1] == ts[..i] + [ts[i]];
      i := i + 1;
    }
    assert ts[..i] == ts;
    return None;
  }

  function Square(x: real): real {
    x * x
  }

  function SumSquares(xs: seq<real>): real {
    if xs == [] then 0.0 else SumSquares(xs[..|xs| - 1]) + Square(xs[|xs| - 1])
  }

  lemma {:induction false} SumSquaresAppend(xs: seq<real>, ys: seq<real>)
    ensures SumSquares(xs + ys) == SumSquares(xs) + SumSquares(ys)
    decreases |ys|
  {
    if ys == [] {
      assert xs + ys == xs;
    } else {
      assert (xs + ys)[..|xs + ys| - 1] == xs + ys[..|ys| - 1];
      SumSquaresAppend(xs, ys[..|ys| - 1]);
    }
  }

  lemma OneSquare(x: real)
    ensures SumSquares([x]) == Square(x) && Total([x]) == x
  {
  }

  /** The last window observations up to and including index i. */
  function WindowAt(xs: seq<real>, window: nat, i: nat): seq<real>
    requires i < |xs|
  {
    if i + 1 <= window then xs[..i + 1] else xs[i + 1 - window..i + 1]
  }

  /** Exact sample variance. */
  function SampleVariance(xs: seq<real>): real
    requires |xs| >= 2
  {
    Central(xs, Mean(xs), 2) / (|xs| - 1) as real
  }

  /** The second central sum from the plain sums. */
  function Expanded(t: real, q: real, n: real, c: real): real {
    q - 2.0 * c * t + n * (c * c)
  }

  lemma RawExpandedStep(t: real, q: real, n: real, x: real, c: real)
    ensures Expanded(t + x, q + Square(x), n + 1.0, c) == Expanded(t, q, n, c) + Square(x - c)
  {
  }

  lemma LastTerms(xs: seq<real>, c: real)
    requires xs != []
    ensures var front, x := xs[..|xs| - 1], xs[|xs| - 1];
            && Central(xs, c, 2) == Central(front, c, 2) + Square(x - c)
            && SumSquares(xs) == SumSquares(front) + Square(x) && Total(xs) == Total(front) + x
  {
    Powers(xs[|xs| - 1] - c);
    hide Power;
  }

  lemma {:induction false} SecondFromSquares(xs: seq<real>, c: real)
    ensures Central(xs, c, 2) == Expanded(Total(xs), SumSquares(xs), |xs| as real, c)
  {
    if xs == [] {
    } else {
      hide *;
      var front, x := xs[..|xs| - 1], xs[|xs| - 1];
      SecondFromSquares(front, c);
      LastTerms(xs, c);
      assert |xs| as real == |front| as real + 1.0;
      RawExpandedStep(Total(front), SumSquares(front), |front| as real, x, c);
    }
  }

  lemma {:induction false} SecondIsNatural(xs: seq<real>, c: real)
    ensures Central(xs, c, 2) >= 0.0
  {
    if xs != [] {
      SecondIsNatural(xs[..|xs| - 1], c);
      Powers(xs[|xs| - 1] - c);
      SquareIsNatural(xs[|xs| - 1] - c);
    }
  }

  lemma SquareIsNatural(x: real)
    ensures x * x >= 0.0
  {
  }

  function Scatter(n: real, mean: real, sumSq: real): real {
    sumSq - n * mean * mean
  }

  /** The variance as computed from the sums of n observations. */
  function VarianceFrom(n: real, sum: real, sumSq: real): real
    requires n > 1.0
  {
    Scatter(n, sum / n, sumSq) / (n - 1.0)
  }

  /** The sums of a window give its exact variance, which is never negative, so the clamp at zero changes nothing. */
  lemma SumsGiveVariance(xs: seq<real>)
    requires |xs| >= 2
    ensures VarianceFrom(|xs| as real, Total(xs), SumSquares(xs)) == SampleVariance(xs) >= 0.0
  {
    hide Central, Total, SumSquares, Expanded, VarianceFrom;
    var n := |xs| as real;
    SecondFromSquares(xs, Mean(xs));
    SecondIsNatural(xs, Mean(xs));
    VarianceFromExpanded(n, Total(xs), SumSquares(xs));
    assert (|xs| - 1) as real == n - 1.0;
    NonNegativeQuotient(Central(xs, Mean(xs), 2), n - 1.0);
  }

  lemma VarianceFromExpanded(n: real, sum: real, sumSq: real)
    requires n > 1.0
    ensures VarianceFrom(n, sum, sumSq) == Expanded(sum, sumSq, n, sum / n) / (n - 1.0)
  {
    hide Expanded, Scatter;
    var mean := sum / n;
    assert n * mean == sum;
    MeanSquare(sum, sumSq, n, mean);
  }

  lemma MeanSquare(sum: real, sumSq: real, n: real, mean: real)
    requires n * mean == sum
    ensures Expanded(sum, sumSq, n, mean) == Scatter(n, mean, sumSq)
  {
  }

  lemma NonNegativeQuotient(a: real, b: real)
    requires a >= 0.0 && b > 0.0
    ensures a / b >= 0.0
  {
  }

  /** The running sums are those of the window that ends at the previous index. */
  predicate SumsBefore(xs: seq<real>, window: nat, i: nat, sum: real, sumSq: real)
    requires i <= |xs|
  {
    if i == 0 then sum == 0.0 && sumSq == 0.0
    else sum == Total(WindowAt(xs, window, i - 1)) && sumSq == SumSquares(WindowAt(xs, window, i - 1))
  }

  /** The window at i, from the one before it. */
  lemma WindowSlides(xs: seq<real>, window: nat, i: nat)
    requires window > 0 && i < |xs|
    ensures var before := if i == 0 then [] else WindowAt(xs, window, i - 1);
            before + [xs[i]] == (if i >= window then [xs[i - window]] else []) + WindowAt(xs, window, i)
  {
  }

  /** Adding the newest and removing the oldest observation keeps the sums those of the window. */
  lemma SumsSlide(xs: seq<real>, window: nat, i: nat, sum: real, sumSq: real)
    requires window > 0 && i < |xs| && SumsBefore(xs, window, i, sum, sumSq)
    ensures i < window ==> SumsBefore(xs, window, i + 1, sum + xs[i], sumSq + Square(xs[i]))
    ensures i >= window ==>
              SumsBefore(xs, window, i + 1, sum + xs[i] - xs[i - window],
                         sumSq + Square(xs[i]) - Square(xs[i - window]))
  {
    hide Square, Total, SumSquares, WindowAt;
    var before := if i == 0 then [] else WindowAt(xs, window, i - 1);
    var gone := if i >= window then [xs[i - window]] else [];
    EmptySums();
    WindowSlides(xs, window, i);
    TotalAppend(before, [xs[i]]);
    SumSquaresAppend(before, [xs[i]]);
    TotalAppend(gone, WindowAt(xs, window, i));
    SumSquaresAppend(gone, WindowAt(xs, window, i));
    OneSquare(xs[i]);
    if i >= window {
      OneSquare(xs[i - window]);
    }
  }

  lemma EmptySums()
    ensures Total([]) == 0.0 && SumSquares([]) == 0.0
  {
  }

  function VarianceAt(xs: seq<real>, window: nat, i: nat): Option<real>
    requires window >= 2 && i < |xs|
  {
    if i + 1 < window then None else Some(SampleVariance(WindowAt(xs, window, i)))
  }

  /** The variance under the rolling volatility: one add and one remove per step. */
  method RollingVariance(ts: seq<Timestamp>, xs: seq<real>, window: nat)
    returns (r: Result<seq<Option<real>>, RollingError>)
    ensures r.Ok? <==> GoodShape(ts, xs, window)
    ensures r.Ok? ==> |r.value| == |xs| && forall i :: 0 <= i < |xs| ==> r.value[i] == VarianceAt(xs, window, i)
  {
    hide SumsBefore, VarianceAt, WindowAt, VarianceFrom, Square;
    var error := CheckShape(ts, xs, window);
    if error.Some? { return Err(error.value); }
    var out: seq<Option<real>> := [];
    var sum, sumSq, i := 0.0, 0.0, 0;
    NoSums(xs, window);
    while i < |xs|
      invariant 0 <= i <= |xs| && |out| == i && SumsBefore(xs, window, i, sum, sumSq)
      invariant forall k :: 0 <= k < i ==> out[k] == VarianceAt(xs, window, k)
    {
      SumsSlide(xs, window, i, sum, sumSq);
      var arriving := xs[i];
      sum, sumSq := sum + arriving, sumSq + Square(arriving);
      if i >= window {
        var leaving := xs[i - window];
        sum, sumSq := sum - leaving, sumSq - Square(leaving);
      }
      if i + 1 < window {
        SumsAreVariance(xs, window, i, sum, sumSq);
        out := out + [None];
      } else {
        SumsAreVariance(xs, window, i, sum, sumSq);
        out := out + [Some(Max(0.0, VarianceFrom(window as real, sum, sumSq)))];
      }
      i := i + 1;
    }
    return Ok(out);
  }

  lemma NoSums(xs: seq<real>, window: nat)
    ensures SumsBefore(xs, window, 0, 0.0, 0.0)
  {
  }

  lemma SumsAreVariance(xs: seq<real>, window: nat, i: nat, sum: real, sumSq: real)
    requires window >= 2 && i < |xs| && SumsBefore(xs, window, i + 1, sum, sumSq)
    ensures VarianceAt(xs, window, i)
            == if i + 1 < window then None else Some(Max(0.0, VarianceFrom(window as real, sum, sumSq)))
  {
    hide VarianceFrom;
    if i + 1 >= window {
      WindowIsFull(xs, window, i);
      SumsGiveVariance(WindowAt(xs, window, i));
    }
  }

  lemma WindowIsFull(xs: seq<real>, window: nat, i: nat)
    requires i < |xs| && i + 1 >= window
    ensures |WindowAt(xs, window, i)| == window
  {
  }

  /** The rolling variance at a full index is the accumulator's variance over that window, and the clamp at zero never
      changes it. */
  lemma RollingEqualsAccumulated(xs: seq<real>)
    requires |xs| >= 2
    ensures VarianceOf(Accumulating(xs)) == SampleVariance(xs) == Max(0.0, SampleVariance(xs))
  {
    MomentsAreExact(xs);
    SumsGiveVariance(xs);
    hide VarianceFrom, Accumulating, Central, Mean, Total, SumSquares;
  }
}
