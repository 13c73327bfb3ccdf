/** The deterministic generator: xoshiro256** seeded through splitmix64, forked streams, and unbiased
    bounded draws. */
module Rng {
  import opened Types

  type Word = bv64

  // ---------------------------------------------------------------------------
  // splitmix64
  // ---------------------------------------------------------------------------

  /** What splitmix64 adds to its counter before each output. */
  function Advance(x: Word): Word {
    x + 0x9E3779B97F4A7C15
  }

  function Fold30(z: Word): Word { z ^ (z >> 30) }
  function Fold27(z: Word): Word { z ^ (z >> 27) }
  function Fold31(z: Word): Word { z ^ (z >> 31) }
  function Times1(z: Word): Word { z * 0xBF58476D1CE4E5B9 }
  function Times2(z: Word): Word { z * 0x94D049BB133111EB }

  /** The output mix of splitmix64. */
  function Mix(z: Word): Word {
    Fold31(Times2(Fold27(Times1(Fold30(z)))))
  }

  function Unfold30(y: Word): Word { y ^ (y >> 30) ^ (y >> 60) }
  function Unfold27(y: Word): Word { y ^ (y >> 27) ^ (y >> 54) }
  function Unfold31(y: Word): Word { y ^ (y >> 31) ^ (y >> 62) }
  function Untimes1(y: Word): Word { y * 0x96DE1B173F119089 }
  function Untimes2(y: Word): Word { y * 0x319642B2D24D8EC3 }

  /** Undoes the mix: each xor-shift and each odd multiplier has an inverse. */
  function Unmix(y: Word): Word {
    Unfold30(Untimes1(Unfold27(Untimes2(Unfold31(y)))))
  }

  lemma UndoFold30(z: Word)
    ensures Unfold30(Fold30(z)) == z
  {
    assert Unfold30(Fold30(z)) == Unfold30(z ^ (z >> 30)) by {
      hide Unfold30;
      assert Fold30(z) == z ^ (z >> 30);
    }
    Fold30Raw(z);
    hide Fold30, Unfold30;
  }

  lemma Fold30Raw(z: Word)
    ensures Unfold30(z ^ (z >> 30)) == z
  {
  }

  lemma UndoFold27(z: Word)
    ensures Unfold27(Fold27(z)) == z
  {
    assert Unfold27(Fold27(z)) == Unfold27(z ^ (z >> 27)) by {
      hide Unfold27;
      assert Fold27(z) == z ^ (z >> 27);
    }
    Fold27Raw(z);
    hide Fold27, Unfold27;
  }

  lemma Fold27Raw(z: Word)
    ensures Unfold27(z ^ (z >> 27)) == z
  {
  }

  lemma UndoFold31(z: Word)
    ensures Unfold31(Fold31(z)) == z
  {
    assert Unfold31(Fold31(z)) == Unfold31(z ^ (z >> 31)) by {
      hide Unfold31;
      assert Fold31(z) == z ^ (z >> 31);
    }
    Fold31Raw(z);
    hide Fold31, Unfold31;
  }

  lemma Fold31Raw(z: Word)
    ensures Unfold31(z ^ (z >> 31)) == z
  {
  }

  lemma UndoTimes1(z: Word)
    ensures Untimes1(Times1(z)) == z
  {
    assert Untimes1(Times1(z)) == Untimes1(z * 0xBF58476D1CE4E5B9) by {
      hide Untimes1;
      assert Times1(z) == z * 0xBF58476D1CE4E5B9;
    }
    Times1Raw(z);
    hide Times1, Untimes1;
  }

  lemma Times1Raw(z: Word)
    ensures Untimes1(z * 0xBF58476D1CE4E5B9) == z
  {
  }

  lemma UndoTimes2(z: Word)
    ensures Untimes2(Times2(z)) == z
  {
    assert Untimes2(Times2(z)) == Untimes2(z * 0x94D049BB133111EB) by {
      hide Untimes2;
      assert Times2(z) == z * 0x94D049BB133111EB;
    }
    Times2Raw(z);
    hide Times2, Untimes2;
  }

  lemma Times2Raw(z: Word)
    ensures Untimes2(z * 0x94D049BB133111EB) == z
  {
  }

  /** The mix loses nothing. */
  lemma MixIsInvertible(z: Word)
    ensures Unmix(Mix(z)) == z
  {
    UndoFold30(z);
    UndoTimes1(Fold30(z));
    UndoFold27(Times1(Fold30(z)));
    UndoTimes2(Fold27(Times1(Fold30(z))));
    UndoFold31(Times2(Fold27(Times1(Fold30(z)))));
    hide Fold30, Fold27, Fold31, Times1, Times2, Unfold30, Unfold27, Unfold31, Untimes1, Untimes2;
  }

  lemma MixDiffers(x: Word, y: Word)
    requires x != y
    ensures Mix(x) != Mix(y)
  {
    MixIsInvertible(x);
    MixIsInvertible(y);
    hide Mix, Unmix;
  }

  lemma AdvanceDiffers(x: Word, y: Word)
    ensures Advance(x) != x
    ensures x != y ==> Advance(x) != Advance(y)
  {
  }

  // ---------------------------------------------------------------------------
  // xoshiro256**
  // ---------------------------------------------------------------------------

  datatype Xoshiro = Xoshiro(s0: Word, s1: Word, s2: Word, s3: Word)

  const ALL_ZERO := Xoshiro(0, 0, 0, 0)

  // The word operations, named so that proofs can treat them as unknown functions with known laws.

  function Xor(x: Word, y: Word): Word { x ^ y }
  function Rotl7(x: Word): Word { (x << 7) | (x >> 57) }
  function Rotl45(x: Word): Word { (x << 45) | (x >> 19) }
  function Rotr45(x: Word): Word { (x >> 45) | (x << 19) }
  function Shift17(x: Word): Word { x << 17 }
  function Times5(x: Word): Word { x * 5 }
  function Times9(x: Word): Word { x * 9 }
  function Scramble(x: Word): Word { Times9(Rotl7(Times5(x))) }

  function Step(s: Xoshiro): Xoshiro {
    var s2 := Xor(s.s2, s.s0);
    var s3 := Xor(s.s3, s.s1);
    Xoshiro(Xor(s.s0, s3), Xor(s.s1, s2), Xor(s2, Shift17(s.s1)), Rotl45(s3))
  }

  function Output(s: Xoshiro): Word {
    Scramble(s.s1)
  }

  /** Recovers x from x xor (x shifted by 17). */
  function Unspread17(y: Word): Word { y ^ (y << 17) ^ (y << 34) ^ (y << 51) }

  /** The state before a step, recovered from the state after it. */
  function Unstep(t: Xoshiro): Xoshiro {
    var s3 := Rotr45(t.s3);
    var s1 := Unspread17(Xor(t.s1, t.s2));
    var s0 := Xor(t.s0, s3);
    var s2 := Xor(t.s1, s1);
    Xoshiro(s0, s1, Xor(s2, s0), Xor(s3, s1))
  }

  lemma RotationUndone(x: Word)
    ensures Rotr45(Rotl45(x)) == x && Rotl45(Rotr45(x)) == x
  {
  }

  function Spread17(x: Word): Word { x ^ (x << 17) }

  lemma SpreadIsXorShift(x: Word)
    ensures Xor(x, Shift17(x)) == Spread17(x)
  {
    assert Xor(x, Shift17(x)) == Xor(x, x << 17) by {
      hide Xor, Spread17;
      assert Shift17(x) == x << 17;
    }
    XorWithShift(x);
    hide Xor, Shift17, Spread17;
  }

  lemma XorWithShift(x: Word)
    ensures Xor(x, x << 17) == Spread17(x)
  {
  }

  lemma UnspreadAfterSpread(x: Word)
    ensures Unspread17(Spread17(x)) == x
  {
    assert Unspread17(Spread17(x)) == Unspread17(x ^ (x << 17)) by {
      hide Unspread17;
      assert Spread17(x) == x ^ (x << 17);
    }
    UnspreadRaw(x);
    hide Unspread17, Spread17;
  }

  lemma UnspreadRaw(x: Word)
    ensures Unspread17(x ^ (x << 17)) == x
  {
  }

  lemma SpreadAfterUnspread(y: Word)
    ensures Spread17(Unspread17(y)) == y
  {
    assert Spread17(Unspread17(y)) == Spread17(y ^ (y << 17) ^ (y << 34) ^ (y << 51)) by {
      hide Spread17;
      assert Unspread17(y) == y ^ (y << 17) ^ (y << 34) ^ (y << 51);
    }
    SpreadRaw(y);
    hide Unspread17, Spread17;
  }

  lemma SpreadRaw(y: Word)
    ensures Spread17(y ^ (y << 17) ^ (y << 34) ^ (y << 51)) == y
  {
  }

  lemma XorLaws(x: Word, y: Word, z: Word)
    ensures Xor(Xor(x, y), Xor(y, z)) == Xor(x, z)
    ensures Xor(Xor(x, y), y) == x && Xor(Xor(x, y), x) == y
    ensures Xor(x, Xor(x, y)) == y
    ensures Xor(x, Xor(y, x)) == y
    ensures Xor(Xor(x, y), z) == Xor(x, Xor(y, z))
    ensures Xor(x, y) == Xor(y, x)
  {
  }

  /** Undoing a step gives the state before it. */
  lemma UnstepAfterStep(s: Xoshiro)
    ensures Unstep(Step(s)) == s
  {
    var s2, s3 := Xor(s.s2, s.s0), Xor(s.s3, s.s1);
    RotationUndone(s3);
    SpreadIsXorShift(s.s1);
    UnspreadAfterSpread(s.s1);
    XorLaws(s.s1, s2, Shift17(s.s1));
    XorLaws(s.s0, s3, s3);
    XorLaws(s.s2, s.s0, s.s0);
    XorLaws(s.s3, s.s1, s.s1);
    hide Rotl45, Rotr45, Shift17, Spread17, Unspread17, Xor;
  }

  /** And every state is reached by a step, so a step is a bijection of the 2^256 states. */
  lemma StepAfterUnstep(t: Xoshiro)
    ensures Step(Unstep(t)) == t
  {
    var s3, y := Rotr45(t.s3), Xor(t.s1, t.s2);
    var s1 := Unspread17(y);
    var s0, s2 := Xor(t.s0, s3), Xor(t.s1, s1);
    RotationUndone(t.s3);
    SpreadIsXorShift(s1);
    SpreadAfterUnspread(y);
    XorLaws(s2, s0, s0);
    XorLaws(s3, s1, s1);
    XorLaws(t.s0, s3, s3);
    XorLaws(s1, t.s1, t.s1);
    XorLaws(t.s1, s1, Shift17(s1));
    XorLaws(t.s1, t.s2, t.s2);
    hide Rotl45, Rotr45, Shift17, Spread17, Unspread17, Xor;
    assert Xor(s2, Shift17(s1)) == Xor(t.s1, y);
  }

  function Iterate(s: Xoshiro, n: nat): Xoshiro {
    if n == 0 then s else Step(Iterate(s, n - 1))
  }

  /** Different states stay different, however many steps are taken. */
  lemma {:induction false} IterateDiffers(s: Xoshiro, t: Xoshiro, n: nat)
    requires s != t
    ensures Iterate(s, n) != Iterate(t, n)
  {
    if n > 0 {
      IterateDiffers(s, t, n - 1);
      UnstepAfterStep(Iterate(s, n - 1));
      UnstepAfterStep(Iterate(t, n - 1));
      hide Step, Unstep;
    }
  }

  lemma {:induction false} IterateShifts(s: Xoshiro, n: nat)
    ensures Iterate(Step(s), n) == Iterate(s, n + 1)
  {
    hide Step;
    if n > 0 {
      IterateShifts(s, n - 1);
    }
  }

  // ---------------------------------------------------------------------------
  // Seeding
  // ---------------------------------------------------------------------------

  /** The k-th counter value of the splitmix64 expansion of a seed. */
  function Counter(seed: Word, k: nat): Word {
    if k == 0 then seed else Advance(Counter(seed, k - 1))
  }

  function Seeded(seed: Word): Xoshiro {
    Xoshiro(Mix(Counter(seed, 1)), Mix(Counter(seed, 2)), Mix(Counter(seed, 3)), Mix(Counter(seed, 4)))
  }

  /** No seed expands to the all-zero state, in which xoshiro would stay for ever. */
  lemma SeededIsNotZero(seed: Word)
    ensures Seeded(seed) != ALL_ZERO
  {
  }

  lemma {:induction false} ZeroStaysZero(n: nat)
    ensures Iterate(ALL_ZERO, n) == ALL_ZERO
  {
    if n > 0 {
      ZeroStaysZero(n - 1);
    }
  }

  /** From any seed, no number of draws ever reaches the all-zero state. */
  lemma NeverReachesZero(seed: Word, n: nat)
    ensures Iterate(Seeded(seed), n) != ALL_ZERO
  {
    SeededIsNotZero(seed);
    ZeroStaysZero(n);
    IterateDiffers(Seeded(seed), ALL_ZERO, n);
  }

  lemma SeedsGiveDifferentStates(a: Word, b: Word)
    requires a != b
    ensures Seeded(a) != Seeded(b)
  {
    assert Counter(a, 1) == Advance(Counter(a, 0)) && Counter(b, 1) == Advance(Counter(b, 0));
    AdvanceDiffers(a, b);
    MixDiffers(Advance(a), Advance(b));
    hide Mix, Advance;
  }

  /** Different seeds never share a state after the same number of draws. */
  lemma SeedsNeverCollide(a: Word, b: Word, n: nat)
    requires a != b
    ensures Iterate(Seeded(a), n) != Iterate(Seeded(b), n)
  {
    SeedsGiveDifferentStates(a, b);
    IterateDiffers(Seeded(a), Seeded(b), n);
  }

  function TimesGolden(x: Word): Word { x * 0x9E3779B97F4A7C15 }

  /** The seed of a forked stream: a function of the root seed and the stream id alone. */
  function ForkSeed(seed: Word, stream: Word): Word {
    Mix(Advance(Xor(seed, TimesGolden(stream))))
  }

  function UntimesGolden(y: Word): Word { y * 0xF1DE83E19937733D }

  lemma UndoTimesGolden(z: Word)
    ensures UntimesGolden(TimesGolden(z)) == z
  {
    assert UntimesGolden(TimesGolden(z)) == UntimesGolden(z * 0x9E3779B97F4A7C15) by {
      hide UntimesGolden;
      assert TimesGolden(z) == z * 0x9E3779B97F4A7C15;
    }
    TimesGoldenRaw(z);
    hide TimesGolden, UntimesGolden;
  }

  lemma TimesGoldenRaw(z: Word)
    ensures UntimesGolden(z * 0x9E3779B97F4A7C15) == z
  {
  }

  lemma GoldenDiffers(i: Word, j: Word)
    requires i != j
    ensures TimesGolden(i) != TimesGolden(j)
  {
    UndoTimesGolden(i);
    UndoTimesGolden(j);
    hide TimesGolden, UntimesGolden;
  }

  lemma XorDiffers(s: Word, x: Word, y: Word)
    requires x != y
    ensures Xor(s, x) != Xor(s, y)
  {
  }

  /** Forks with different stream ids are different generators for ever. */
  lemma ForksNeverCollide(seed: Word, i: Word, j: Word, n: nat)
    requires i != j
    ensures Iterate(Seeded(ForkSeed(seed, i)), n) != Iterate(Seeded(ForkSeed(seed, j)), n)
  {
    hide Mix, Advance, TimesGolden, Seeded, Iterate, Xor;
    GoldenDiffers(i, j);
    XorDiffers(seed, TimesGolden(i), TimesGolden(j));
    AdvanceDiffers(Xor(seed, TimesGolden(i)), Xor(seed, TimesGolden(j)));
    MixDiffers(Advance(Xor(seed, TimesGolden(i))), Advance(Xor(seed, TimesGolden(j))));
    SeedsNeverCollide(ForkSeed(seed, i), ForkSeed(seed, j), n);
  }

  // ---------------------------------------------------------------------------
  // The 64 by 64 bit product, split by hand
  // ---------------------------------------------------------------------------

  const HALF: nat := 0x1_0000_0000
  const FULL: nat := 0x1_0000_0000_0000_0000

  /** High and low word by 32-bit halves; every operation wraps at 64 bits as the source's do. */
  function MulHiLo(a: nat, b: nat): (nat, nat) {
    var aLo, aHi := a % HALF, a / HALF;
    var bLo, bHi := b % HALF, b / HALF;
    var p0, p1, p2, p3 := (aLo * bLo) % FULL, (aLo * bHi) % FULL, (aHi * bLo) % FULL, (aHi * bHi) % FULL;
    var carry := ((p0 / HALF + p1 % HALF + p2 % HALF) % FULL) / HALF;
    var low := (p0 + (p1 * HALF) % FULL + (p2 * HALF) % FULL) % FULL;
    ((p3 + p1 / HALF + p2 / HALF + carry) % FULL, low)
  }

  lemma ProductAtMost(x: nat, y: nat, m: nat)
    requires x <= m && y <= m
    ensures x * y <= m * m
  {
  }

  lemma Scale(x: int, y: int, n: nat)
    requires x <= y
    ensures x * n <= y * n && n * x <= n * y
  {
  }

  lemma HalfProductFits(x: nat, y: nat)
    requires x < HALF && y < HALF
    ensures x * y <= 0xFFFF_FFFE_0000_0001
    ensures (x * y) % FULL == x * y
  {
    ProductAtMost(x, y, 0xFFFF_FFFF);
  }

  lemma ShiftKeepsLowHalf(p: nat)
    ensures (p * HALF) % FULL == (p % HALF) * HALF
  {
  }

  lemma ExpandProduct(aHi: nat, aLo: nat, bHi: nat, bLo: nat)
    ensures (aHi * HALF + aLo) * (bHi * HALF + bLo)
            == (aHi * bHi) * FULL + (aLo * bHi + aHi * bLo) * HALF + aLo * bLo
  {
  }

  /** The two words from the four half products. */
  function Assemble(p0: nat, p1: nat, p2: nat, p3: nat): (nat, nat) {
    var mid := p0 / HALF + p1 % HALF + p2 % HALF;
    ((p3 + p1 / HALF + p2 / HALF + (mid % FULL) / HALF) % FULL,
     (p0 + (p1 % HALF) * HALF + (p2 % HALF) * HALF) % FULL)
  }

  lemma SplitIsAssembled(a: nat, b: nat)
    requires a < FULL && b < FULL
    ensures MulHiLo(a, b) == Assemble((a % HALF) * (b % HALF), (a % HALF) * (b / HALF),
                                      (a / HALF) * (b % HALF), (a / HALF) * (b / HALF))
  {
    var aLo, aHi, bLo, bHi := a % HALF, a / HALF, b % HALF, b / HALF;
    HalfProductFits(aLo, bLo);
    HalfProductFits(aLo, bHi);
    HalfProductFits(aHi, bLo);
    HalfProductFits(aHi, bHi);
    ShiftKeepsLowHalf(aLo * bHi);
    ShiftKeepsLowHalf(aHi * bLo);
  }

  /** The split product is exact: no carry is lost and neither word wraps. */
  lemma MulHiLoIsExact(a: nat, b: nat)
    requires a < FULL && b < FULL
    ensures var (hi, low) := MulHiLo(a, b);
            hi * FULL + low == a * b && low < FULL && hi < FULL
  {
    var aLo, aHi, bLo, bHi := a % HALF, a / HALF, b % HALF, b / HALF;
    SplitIsAssembled(a, b);
    HalfProductFits(aLo, bLo);
    HalfProductFits(aLo, bHi);
    HalfProductFits(aHi, bLo);
    HalfProductFits(aHi, bHi);
    AssembleWords(aLo * bLo, aLo * bHi, aHi * bLo, aHi * bHi);
    hide MulHiLo, Assemble;
    ExpandProduct(aHi, aLo, bHi, bLo);
    assert a == aHi * HALF + aLo && b == bHi * HALF + bLo;
  }

  lemma AssembleWords(p0: nat, p1: nat, p2: nat, p3: nat)
    requires p0 <= 0xFFFF_FFFE_0000_0001 && p1 <= 0xFFFF_FFFE_0000_0001
    requires p2 <= 0xFFFF_FFFE_0000_0001 && p3 <= 0xFFFF_FFFE_0000_0001
    ensures var (hi, low) := Assemble(p0, p1, p2, p3);
            hi * FULL + low == p3 * FULL + (p1 + p2) * HALF + p0 && low < FULL && hi < FULL
  {
    var mid := p0 / HALF + p1 % HALF + p2 % HALF;
    assert mid < 3 * HALF && mid % FULL == mid;
    assert p0 == (p0 / HALF) * HALF + p0 % HALF;
    var sum := p0 + (p1 % HALF) * HALF + (p2 % HALF) * HALF;
    assert sum == mid * HALF + p0 % HALF;
    assert mid == (mid / HALF) * HALF + mid % HALF;
    assert sum == (mid / HALF) * FULL + ((mid % HALF) * HALF + p0 % HALF);
    assert sum % FULL == (mid % HALF) * HALF + p0 % HALF;
    assert p3 + p1 / HALF + p2 / HALF + mid / HALF < FULL;
  }

  // ---------------------------------------------------------------------------
  // Bounded draws
  // ---------------------------------------------------------------------------

  function Hi(x: nat, n: nat): nat { (x * n) / FULL }

  function Lo(x: nat, n: nat): nat { (x * n) % FULL }

  /** Lemire's rule: the low word must reach the threshold 2^64 mod n. */
  predicate Accepts(x: nat, n: nat)
    requires n > 0
  {
    Lo(x, n) >= FULL % n
  }

  lemma HiLoFromProduct(x: nat, n: nat)
    requires x < FULL && n < FULL
    ensures MulHiLo(x, n) == (Hi(x, n), Lo(x, n))
  {
    MulHiLoIsExact(x, n);
    var (hi, low) := MulHiLo(x, n);
    assert (hi * FULL + low) / FULL == hi && (hi * FULL + low) % FULL == low;
  }

  /** Quotient and remainder are unique. */
  lemma DivisionIsUnique(q: int, n: nat, r: nat, q': int, r': nat)
    requires r < n && r' < n && q * n + r == q' * n + r'
    ensures q == q' && r == r'
  {
    if q > q' {
      Scale(q' + 1, q, n);
    } else if q < q' {
      Scale(q + 1, q', n);
    }
  }

  lemma RemainderOf(q: nat, n: nat, r: nat)
    requires r < n
    ensures (q * n + r) % n == r && (q * n + r) / n == q
  {
    var x := q * n + r;
    DivisionIsUnique(x / n, n, x % n, q, r);
  }

  /** The threshold as computed in 64 bits, from minus n, is 2^64 mod n. */
  lemma ThresholdIsRemainder(n: nat)
    requires 0 < n < FULL
    ensures (FULL - n) % n == FULL % n
  {
    var q, r := (FULL - n) / n, (FULL - n) % n;
    assert FULL == (q + 1) * n + r;
    RemainderOf(q + 1, n, r);
  }

  /** Skipping the threshold when the low word is at least n accepts the same draws. */
  lemma EarlyAcceptanceIsAcceptance(x: nat, n: nat)
    requires 0 < n && Lo(x, n) >= n
    ensures Accepts(x, n)
  {
  }

  lemma ResultIsBelowBound(x: nat, n: nat)
    requires x < FULL && 0 < n
    ensures Hi(x, n) < n
  {
    Scale(x + 1, FULL, n);
  }

  /** The draws that are accepted with result k. */
  function DrawsFor(n: nat, k: nat): set<int>
    requires n > 0
  {
    set x: int | 0 <= x < FULL && Accepts(x, n) && Hi(x, n) == k
  }

  predicate Within(x: int, from: int, length: nat) { from <= x < from + length }

  function Interval(from: int, length: nat): set<int> {
    set x: int | from <= x < from + length && Within(x, from, length)
  }

  lemma {:induction false} IntervalSize(from: int, length: nat)
    ensures |Interval(from, length)| == length
  {
    if length > 0 {
      IntervalSize(from, length - 1);
      assert Interval(from, length) == Interval(from, length - 1) + {from + length - 1};
    } else {
      assert Interval(from, length) == {};
    }
  }

  function CeilDiv(a: nat, n: nat): nat
    requires n > 0
  {
    (a + n - 1) / n
  }

  lemma CeilDivIsLeast(a: nat, n: nat, x: int)
    requires n > 0
    ensures x * n >= a <==> x >= CeilDiv(a, n)
  {
    var c := CeilDiv(a, n);
    var r := (a + n - 1) % n;
    assert c * n + r == a + n - 1;
    if x >= c {
      Scale(c, x, n);
    } else {
      Scale(x, c - 1, n);
    }
  }

  /** A draw is accepted with result k exactly when its product lies in the part of the k-th block of
      2^64 numbers that remains after cutting 2^64 mod n off its front. */
  lemma AcceptedExactly(x: nat, n: nat, k: nat)
    requires 0 < n
    ensures Accepts(x, n) && Hi(x, n) == k <==> k * FULL + FULL % n <= x * n < (k + 1) * FULL
  {
  }

  /** Exact uniformity: for every bound n and every k below it, exactly floor(2^64 / n) of the 2^64
      possible draws are accepted with result k. */
  lemma BoundedIsUniform(n: nat, k: nat)
    requires 0 < n < FULL && k < n
    ensures |DrawsFor(n, k)| == FULL / n
  {
    var q, t := FULL / n, FULL % n;
    assert FULL == q * n + t;
    var least := CeilDiv(k * FULL + t, n);
    forall x: int
      ensures x in DrawsFor(n, k) <==> x in Interval(least, q)
    {
      BlockIsInterval(n, k, q, t, x);
    }
    assert DrawsFor(n, k) == Interval(least, q);
    IntervalSize(least, q);
  }

  lemma BlockIsInterval(n: nat, k: nat, q: nat, t: nat, x: int)
    requires 0 < n < FULL && k < n && FULL == q * n + t && t == FULL % n
    ensures x in DrawsFor(n, k) <==> x in Interval(CeilDiv(k * FULL + t, n), q)
  {
    var base := k * FULL + t;
    CeilDivIsLeast(base, n, x);
    UpperEnd(n, k, q, t, x);
    if x >= 0 {
      AcceptedExactly(x, n, k);
      if x * n < (k + 1) * FULL {
        DrawIsInRange(n, k, x);
      }
    } else {
      Scale(x, -1, n);
    }
    hide CeilDiv, Accepts, Hi;
  }

  lemma UpperEnd(n: nat, k: nat, q: nat, t: nat, x: int)
    requires 0 < n && FULL == q * n + t
    ensures x * n < (k + 1) * FULL <==> x < CeilDiv(k * FULL + t, n) + q
  {
    CeilDivIsLeast(k * FULL + t, n, x - q);
    hide CeilDiv;
    assert (x - q) * n == x * n - q * n;
  }

  lemma DrawIsInRange(n: nat, k: nat, x: nat)
    requires k < n && x * n < (k + 1) * FULL
    ensures x < FULL
  {
  }

  // ---------------------------------------------------------------------------
  // The generator object
  // ---------------------------------------------------------------------------

  function Draw(s: Xoshiro, k: nat): nat {
    Output(Iterate(s, k)) as nat
  }

  class DeterministicRng {
    const words: array<Word>
    const seed: Word

    ghost predicate Valid() { words.Length == 4 }

    ghost function State(): Xoshiro
      requires Valid()
      reads words
    {
      Xoshiro(words[0], words[1], words[2], words[3])
    }

    constructor (seed: Word)
      ensures Valid() && fresh(words) && this.seed == seed && State() == Seeded(seed)
    {
      this.seed := seed;
      words := new Word[4];
      new;
      hide Mix, Advance;
      var x := seed;
      var i := 0;
      while i < 4
        invariant 0 <= i <= 4 && x == Counter(seed, i)
        invariant forall k :: 0 <= k < i ==> words[k] == Mix(Counter(seed, k + 1))
      {
        x := Advance(x);
        words[i] := Mix(x);
        i := i + 1;
      }
    }

    method NextU64() returns (r: Word)
      requires Valid()
      modifies words
      ensures r == Output(old(State())) && State() == Step(old(State()))
    {
      hide Scramble, Rotl45, Shift17, Xor;
      r := Scramble(words[1]);
      var t := Shift17(words[1]);
      words[2] := Xor(words[2], words[0]);
      words[3] := Xor(words[3], words[1]);
      words[1] := Xor(words[1], words[2]);
      words[0] := Xor(words[0], words[3]);
      words[2] := Xor(words[2], t);
      words[3] := Rotl45(words[3]);
    }

    /** An unbiased draw below n, or None when every allowed draw was rejected. The source draws until
        one is accepted; `patience` is the number of redraws allowed here. */
    method Bounded(n: nat, patience: nat) returns (r: Option<nat>)
      requires Valid() && n < FULL
      modifies words
      ensures n == 0 ==> r == Some(0) && State() == old(State())
      ensures n > 0 && r.Some? ==>
                exists k: nat :: k <= patience && FirstAccepted(old(State()), n, k)
                  && r.value == Hi(Draw(old(State()), k), n) && r.value < n
                  && State() == Iterate(old(State()), k + 1)
      ensures n > 0 && r.None? ==> AllRejected(old(State()), n, patience + 1)
    {
      if n == 0 { return Some(0); }
      hide Step, Output;
      ghost var s := State();
      var x := NextU64();
      var (hi, low) := MulHiLo(x as nat, n);
      HiLoFromProduct(x as nat, n);
      ghost var k := 0;
      if low < n {
        var threshold := (FULL - n) % n;
        ThresholdIsRemainder(n);
        var left := patience;
        while low < threshold
          invariant 0 <= left <= patience && k == patience - left
          invariant State() == Iterate(s, k + 1) && x as nat == Draw(s, k)
          invariant hi == Hi(Draw(s, k), n) && low == Lo(Draw(s, k), n)
          invariant AllRejected(s, n, k)
          decreases left
        {
          assert AllRejected(s, n, k + 1);
          if left == 0 { return None; }
          left := left - 1;
          k := k + 1;
          x := NextU64();
          var split := MulHiLo(x as nat, n);
          hi, low := split.0, split.1;
          HiLoFromProduct(x as nat, n);
        }
      } else {
        EarlyAcceptanceIsAcceptance(x as nat, n);
      }
      ResultIsBelowBound(Draw(s, k), n);
      assert FirstAccepted(s, n, k);
      return Some(hi);
    }

    method Fork(stream: Word) returns (r: DeterministicRng)
      requires Valid()
      ensures fresh(r) && fresh(r.words) && r.Valid()
      ensures r.seed == ForkSeed(seed, stream) && r.State() == Seeded(ForkSeed(seed, stream))
    {
      hide Mix, Advance, TimesGolden, Seeded, Xor;
      r := new DeterministicRng(Mix(Advance(Xor(seed, TimesGolden(stream)))));
    }
  }

  predicate AllRejected(s: Xoshiro, n: nat, k: nat)
    requires n > 0
  {
    forall j: nat :: j < k ==> !Accepts(Draw(s, j), n)
  }

  predicate FirstAccepted(s: Xoshiro, n: nat, k: nat)
    requires n > 0
  {
    Accepts(Draw(s, k), n) && AllRejected(s, n, k)
  }
}
