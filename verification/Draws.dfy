/** Counting through a one-to-one map. */
module Images {

  ghost predicate OneToOne<A(!new), B(!new)>(xs: set<A>, f: A -> B) {
    forall a, b :: a in xs && b in xs && f(a) == f(b) ==> a == b
  }

  ghost predicate Onto<A(!new), B(!new)>(xs: set<A>, image: set<B>, f: A -> B) {
    (forall a :: a in xs ==> f(a) in image) && forall y :: y in image ==> exists a :: a in xs && f(a) == y
  }

  lemma NoImage<A(!new), B(!new)>(image: set<B>, f: A -> B)
    requires Onto({}, image, f)
    ensures image == {}
  {
  }

  lemma OneFewer<A(!new), B(!new)>(xs: set<A>, image: set<B>, f: A -> B, a: A)
    requires OneToOne(xs, f) && Onto(xs, image, f) && a in xs
    ensures OneToOne(xs - {a}, f) && Onto(xs - {a}, image - {f(a)}, f) && f(a) in image
  {
    forall y | y in image - {f(a)}
      ensures exists b :: b in xs - {a} && f(b) == y
    {
      var b :| b in xs && f(b) == y;
      assert b in xs - {a};
    }
  }

  /** A one-to-one image has as many elements. */
  lemma {:induction false} ImageSize<A(!new), B(!new)>(xs: set<A>, image: set<B>, f: A -> B)
    requires OneToOne(xs, f) && Onto(xs, image, f)
    ensures |xs| == |image|
    decreases |xs|
  {
    hide *;
    if xs == {} {
      NoImage(image, f);
    } else {
      var a :| a in xs;
      OneFewer(xs, image, f, a);
      ImageSize(xs - {a}, image - {f(a)}, f);
    }
  }
}

/** The draws themselves: the output in integer arithmetic, its inverse, and uniformity over the states. */
module Draws {
  import opened Rng
  import opened Images

  // ---------------------------------------------------------------------------
  // Words as numbers
  // ---------------------------------------------------------------------------

  const ONES: Word := 0xFFFF_FFFF_FFFF_FFFF

  // As in the generator itself, the word operations are named so that proofs can treat them as unknown functions.

  function Num(x: Word): nat { x as nat }
  function Plus(x: Word, y: Word): Word { x + y }
  function Less(x: Word): Word { x - 1 }
  function Double(x: Word): Word { x << 1 }
  function Halve(x: Word): Word { x >> 1 }
  function Join(x: Word, y: Word): Word { x | y }
  predicate Zero(x: Word) { x == 0 }
  predicate Top(x: Word) { x & 0x8000_0000_0000_0000 != 0 }
  predicate Odd(x: Word) { x & 1 == 1 }
  function Unit(b: bool): Word { if b then 1 else 0 }

  /** Ones followed by zeros. */
  predicate HighMask(m: Word) {
    (m ^ 0xFFFF_FFFF_FFFF_FFFF) & ((m ^ 0xFFFF_FFFF_FFFF_FFFF) + 1) == 0
  }

  /** Two words without a common bit, both within the mask. */
  predicate Apart(x: Word, y: Word, m: Word) {
    HighMask(m) && x & y == 0 && x & m == x && y & m == y
  }

  lemma NumFits(x: Word)
    ensures Num(x) < FULL
  {
  }

  lemma DoubleNum(x: Word)
    ensures Num(Double(x)) + (if Top(x) then FULL else 0) == 2 * Num(x)
  {
    DoubleRaw(x);
    TopRaw(x);
  }

  lemma DoubleRaw(x: Word)
    ensures (x << 1) as nat + ((x >> 63) as nat) * FULL == x as nat * 2
  {
  }

  lemma TopRaw(x: Word)
    ensures (x >> 63) as nat == if x & 0x8000_0000_0000_0000 != 0 then 1 else 0
  {
  }

  lemma MaskShrinks(m: Word)
    requires HighMask(m) && !Zero(m)
    ensures HighMask(Double(m)) && Double(m) < m
  {
  }

  lemma MeetsDoubled(x: Word, y: Word)
    ensures Double(x) & Double(y) == Double(x & y)
  {
  }

  lemma JoinDoubled(x: Word, y: Word)
    ensures Double(Join(x, y)) == Join(Double(x), Double(y))
  {
  }

  lemma TopOfJoin(x: Word, y: Word)
    ensures Top(Join(x, y)) <==> Top(x) || Top(y)
  {
    assert Top(Join(x, y)) == Top(x | y) by {
      hide Top;
      assert Join(x, y) == x | y;
    }
    TopOfOr(x, y);
    hide Top, Join;
  }

  lemma TopOfOr(x: Word, y: Word)
    ensures Top(x | y) <==> Top(x) || Top(y)
  {
  }

  lemma TopsMeet(x: Word, y: Word)
    requires x & y == 0
    ensures !(Top(x) && Top(y))
  {
  }

  lemma NothingDoubled()
    ensures Double(0) == 0
  {
  }

  lemma DoubleApart(x: Word, y: Word, m: Word)
    requires Apart(x, y, m) && !Zero(m)
    ensures Apart(Double(x), Double(y), Double(m)) && Double(m) < m
    ensures Double(Join(x, y)) == Join(Double(x), Double(y))
    ensures (Top(Join(x, y)) <==> Top(x) || Top(y)) && !(Top(x) && Top(y))
  {
    MaskShrinks(m);
    MeetsDoubled(x, y);
    MeetsDoubled(x, m);
    MeetsDoubled(y, m);
    JoinDoubled(x, y);
    TopOfJoin(x, y);
    TopsMeet(x, y);
    NothingDoubled();
    hide HighMask, Double, Join, Top;
  }

  lemma NothingApart(x: Word, y: Word, m: Word)
    requires Apart(x, y, m) && Zero(m)
    ensures Num(Join(x, y)) == Num(x) + Num(y)
  {
  }

  lemma JoinStep(x: Word, y: Word)
    requires Double(Join(x, y)) == Join(Double(x), Double(y))
    requires (Top(Join(x, y)) <==> Top(x) || Top(y)) && !(Top(x) && Top(y))
    requires Num(Join(Double(x), Double(y))) == Num(Double(x)) + Num(Double(y))
    ensures Num(Join(x, y)) == Num(x) + Num(y)
  {
    hide *;
    DoubleNum(x);
    DoubleNum(y);
    DoubleNum(Join(x, y));
  }

  /** Words without a common bit add up when joined: shown by shifting both out at the top. */
  lemma {:induction false} JoinNum(x: Word, y: Word, m: Word)
    requires Apart(x, y, m)
    ensures Num(Join(x, y)) == Num(x) + Num(y)
    decreases m
  {
    hide *;
    if Zero(m) {
      NothingApart(x, y, m);
    } else {
      DoubleApart(x, y, m);
      JoinNum(Double(x), Double(y), Double(m));
      JoinStep(x, y);
    }
  }

  lemma Halves(x: Word)
    ensures x == Join(Double(Halve(x)), Unit(Odd(x))) && Apart(Double(Halve(x)), Unit(Odd(x)), ONES)
    ensures !Top(Halve(x)) && Num(Unit(Odd(x))) == if Odd(x) then 1 else 0
  {
  }

  /** A word is twice its half, and one more when it is odd. */
  lemma HalfNum(x: Word)
    ensures Num(x) == 2 * Num(Halve(x)) + if Odd(x) then 1 else 0
  {
    hide *;
    Halves(x);
    JoinNum(Double(Halve(x)), Unit(Odd(x)), ONES);
    DoubleNum(Halve(x));
  }

  lemma EvenNext(x: Word)
    requires !Odd(x)
    ensures Halve(Plus(x, 1)) == Halve(x) && Odd(Plus(x, 1))
  {
  }

  lemma OddNext(x: Word)
    requires Odd(x) && x != ONES
    ensures Halve(Plus(x, 1)) == Plus(Halve(x), 1) && !Odd(Plus(x, 1))
  {
    OddNextHalf(x >> 1);
    OddIs(x);
  }

  lemma OddIs(x: Word)
    requires x & 1 == 1
    ensures x == ((x >> 1) << 1) + 1
  {
  }

  lemma OddNextHalf(h: Word)
    requires h < 0x7FFF_FFFF_FFFF_FFFF
    ensures (((h << 1) + 1) + 1) >> 1 == h + 1
  {
  }

  lemma OddIsLarger(x: Word)
    requires Odd(x) && x != ONES
    ensures Halve(x) < x && Halve(x) != ONES
  {
  }

  lemma NextStep(x: Word)
    requires x != ONES && (Odd(x) ==> Num(Plus(Halve(x), 1)) == Num(Halve(x)) + 1)
    ensures Num(Plus(x, 1)) == Num(x) + 1
  {
    hide *;
    HalfNum(x);
    HalfNum(Plus(x, 1));
    if Odd(x) {
      OddNext(x);
    } else {
      EvenNext(x);
    }
  }

  /** The carry ripples up from the lowest bit. */
  lemma {:induction false} NextNum(x: Word)
    requires x != ONES
    ensures Num(Plus(x, 1)) == Num(x) + 1
    decreases x
  {
    hide *;
    if Odd(x) {
      OddIsLarger(x);
      NextNum(Halve(x));
    }
    NextStep(x);
  }

  lemma LastWord()
    ensures Num(ONES) == FULL - 1 && Plus(ONES, 1) == 0 && Num(0) == 0
  {
  }

  lemma NextWraps(x: Word)
    ensures Num(Plus(x, 1)) == (Num(x) + 1) % FULL
  {
    hide *;
    NumFits(Plus(x, 1));
    if x == ONES {
      LastWord();
    } else {
      NextNum(x);
    }
  }

  lemma Before(x: Word, y: Word)
    requires !Zero(y)
    ensures Less(y) < y && Plus(Less(y), 1) == y && Less(y) != ONES
    ensures Plus(x, y) == Plus(Plus(x, Less(y)), 1)
  {
    BeforeOne(y);
    PlusNext(x, Less(y));
    hide *;
  }

  lemma BeforeOne(y: Word)
    requires !Zero(y)
    ensures Less(y) < y && Plus(Less(y), 1) == y && Less(y) != ONES
  {
  }

  lemma PlusNext(x: Word, z: Word)
    ensures Plus(x, Plus(z, 1)) == Plus(Plus(x, z), 1)
  {
    hide *;
    OneMore(z);
    OneMore(Plus(x, z));
    SumOneMore(x, z);
  }

  lemma OneMore(z: Word)
    ensures Plus(z, 1) == z + 1
  {
  }

  lemma SumOneMore(x: Word, z: Word)
    ensures Plus(x, z + 1) == Plus(x, z) + 1
  {
  }

  lemma PlusZero(x: Word, y: Word)
    requires Zero(y)
    ensures Num(Plus(x, y)) == (Num(x) + Num(y)) % FULL
  {
    NothingMore(x);
    NumFits(x);
    hide Plus, Num;
  }

  lemma NothingMore(x: Word)
    ensures Plus(x, 0) == x && Num(0) == 0
  {
  }

  lemma PlusStep(x: Word, z: Word)
    requires z != ONES && Num(Plus(x, z)) == (Num(x) + Num(z)) % FULL
    ensures Num(Plus(Plus(x, z), 1)) == (Num(x) + Num(Plus(z, 1))) % FULL
  {
    hide *;
    NextNum(z);
    NextWraps(Plus(x, z));
    RemainderOfNext(Num(x), Num(z), Num(Plus(x, z)));
  }

  lemma RemainderOfNext(a: nat, b: nat, s: nat)
    requires s == (a + b) % FULL
    ensures (s + 1) % FULL == (a + (b + 1)) % FULL
  {
  }

  /** The machine's addition is addition modulo 2^64. */
  lemma {:induction false} PlusNum(x: Word, y: Word)
    ensures Num(Plus(x, y)) == (Num(x) + Num(y)) % FULL
    decreases y
  {
    hide *;
    if Zero(y) {
      PlusZero(x, y);
    } else {
      Before(x, y);
      PlusNum(x, Less(y));
      PlusStep(x, Less(y));
    }
  }

  // ---------------------------------------------------------------------------
  // The output in integers
  // ---------------------------------------------------------------------------

  /** Rotation to the left by seven bits: the high seven bits become the low ones. */
  function Rotated7(x: nat): nat {
    (x % 0x200_0000_0000_0000) * 128 + x / 0x200_0000_0000_0000
  }

  lemma FiveIsFourAndOne(x: Word)
    ensures Times5(x) == Plus(x, Double(Double(x)))
  {
  }

  lemma NineIsEightAndOne(x: Word)
    ensures Times9(x) == Plus(x, Double(Double(Double(x))))
  {
  }

  lemma DoubleWraps(x: Word)
    ensures Num(Double(x)) == (2 * Num(x)) % FULL
  {
    hide *;
    DoubleNum(x);
    NumFits(Double(x));
    WrapsOnce(Num(Double(x)), Top(x), 2 * Num(x));
  }

  lemma WrapsOnce(rest: nat, wraps: bool, whole: nat)
    requires rest < FULL && rest + (if wraps then FULL else 0) == whole
    ensures rest == whole % FULL
  {
  }

  lemma Times5Num(x: Word)
    ensures Num(Times5(x)) == (5 * Num(x)) % FULL
  {
    hide *;
    FiveIsFourAndOne(x);
    DoubleWraps(x);
    DoubleWraps(Double(x));
    DoubledAgain(Num(x), 2);
    PlusNum(x, Double(Double(x)));
    AddedOnce(Num(x), 4);
  }

  lemma DoubledAgain(x: nat, k: nat)
    ensures (2 * ((k * x) % FULL)) % FULL == (2 * k * x) % FULL
  {
    var q, r := (k * x) / FULL, (k * x) % FULL;
    assert 2 * k * x == (2 * q) * FULL + 2 * r;
    Wrapped(2 * q, 2 * r);
  }

  lemma AddedOnce(x: nat, k: nat)
    ensures (x + (k * x) % FULL) % FULL == ((k + 1) * x) % FULL
  {
    var q, r := (k * x) / FULL, (k * x) % FULL;
    assert (k + 1) * x == q * FULL + (x + r);
    Wrapped(q, x + r);
  }

  lemma Wrapped(q: nat, r: nat)
    ensures (q * FULL + r) % FULL == r % FULL
  {
  }

  lemma Times9Num(x: Word)
    ensures Num(Times9(x)) == (9 * Num(x)) % FULL
  {
    hide *;
    NineIsEightAndOne(x);
    DoubleWraps(x);
    DoubleWraps(Double(x));
    DoubleWraps(Double(Double(x)));
    DoubledAgain(Num(x), 2);
    DoubledAgain(Num(x), 4);
    PlusNum(x, Double(Double(Double(x))));
    AddedOnce(Num(x), 8);
  }

  function Low57(x: Word): Word { x << 7 }
  function High7(x: Word): Word { x >> 57 }

  lemma RotlJoins(x: Word)
    ensures Rotl7(x) == Join(Low57(x), High7(x)) && Apart(Low57(x), High7(x), ONES)
  {
  }

  lemma ShiftedNum(x: Word)
    ensures (x << 7) as nat + ((x >> 57) as nat) * FULL == x as nat * 128
  {
  }

  lemma PartsNum(x: Word)
    ensures Num(Low57(x)) + Num(High7(x)) * FULL == Num(x) * 128
  {
    ShiftedNum(x);
  }

  lemma Rotl7Num(x: Word)
    ensures Num(Rotl7(x)) == Rotated7(Num(x))
  {
    RotlJoins(x);
    JoinNum(Low57(x), High7(x), ONES);
    PartsNum(x);
    NumFits(Low57(x));
    SplitAt57(Num(x), Num(Low57(x)), Num(High7(x)));
    hide *;
  }

  lemma SplitAt57(x: nat, low: nat, high: nat)
    requires low + high * FULL == x * 128 && low < FULL
    ensures low + high == Rotated7(x)
  {
  }

  /** A draw, in integers: five times the second word, rotated by seven bits, times nine, each modulo 2^64. */
  lemma OutputInIntegers(s: Xoshiro)
    ensures Output(s) as nat == (9 * Rotated7((5 * (s.s1 as nat)) % FULL)) % FULL
  {
    OutputNum(s.s1);
    hide Scramble;
  }

  lemma OutputNum(x: Word)
    ensures Num(Scramble(x)) == (9 * Rotated7((5 * Num(x)) % FULL)) % FULL
  {
    Times5Num(x);
    Rotl7Num(Times5(x));
    Times9Num(Rotl7(Times5(x)));
    hide Times5, Rotl7, Times9, Num, Rotated7;
  }

  /** The constant added per seed word is 2^64 over the golden ratio, rounded down. */
  const GAMMA: nat := 0x9E37_79B9_7F4A_7C15

  lemma AdvanceInIntegers(x: Word)
    ensures Advance(x) as nat == (x as nat + GAMMA) % FULL
    ensures GAMMA * (GAMMA + FULL) <= FULL * FULL < (GAMMA + 1) * (GAMMA + 1 + FULL)
  {
    AdvanceAdds(x);
    PlusNum(x, 0x9E3779B97F4A7C15);
    GammaNum();
    hide Advance, Plus;
  }

  lemma AdvanceAdds(x: Word)
    ensures Advance(x) == Plus(x, 0x9E3779B97F4A7C15)
  {
  }

  lemma GammaNum()
    ensures Num(0x9E3779B97F4A7C15) == GAMMA
  {
  }

  // ---------------------------------------------------------------------------
  // Every value is drawn from exactly one word
  // ---------------------------------------------------------------------------

  function Rotr7(x: Word): Word { (x >> 7) | (x << 57) }
  function Untimes5(y: Word): Word { y * 0xCCCCCCCCCCCCCCCD }
  function Untimes9(y: Word): Word { y * 0x8E38E38E38E38E39 }

  function Unscramble(y: Word): Word { Untimes5(Rotr7(Untimes9(y))) }

  lemma RotationBy7Undone(x: Word)
    ensures Rotr7(Rotl7(x)) == x && Rotl7(Rotr7(x)) == x
  {
  }

  lemma FiveUndone(x: Word)
    ensures Untimes5(Times5(x)) == x && Times5(Untimes5(x)) == x
  {
    assert Untimes5(Times5(x)) == Untimes5(x * 5) by {
      hide Untimes5;
      assert Times5(x) == x * 5;
    }
    assert Times5(Untimes5(x)) == Times5(x * 0xCCCCCCCCCCCCCCCD) by {
      hide Times5;
      assert Untimes5(x) == x * 0xCCCCCCCCCCCCCCCD;
    }
    FiveUndoneRaw(x);
    hide Times5, Untimes5;
  }

  lemma FiveUndoneRaw(x: Word)
    ensures Untimes5(x * 5) == x && Times5(x * 0xCCCCCCCCCCCCCCCD) == x
  {
  }

  lemma NineUndone(x: Word)
    ensures Untimes9(Times9(x)) == x && Times9(Untimes9(x)) == x
  {
    assert Untimes9(Times9(x)) == Untimes9(x * 9) by {
      hide Untimes9;
      assert Times9(x) == x * 9;
    }
    assert Times9(Untimes9(x)) == Times9(x * 0x8E38E38E38E38E39) by {
      hide Times9;
      assert Untimes9(x) == x * 0x8E38E38E38E38E39;
    }
    NineUndoneRaw(x);
    hide Times9, Untimes9;
  }

  lemma NineUndoneRaw(x: Word)
    ensures Untimes9(x * 9) == x && Times9(x * 0x8E38E38E38E38E39) == x
  {
  }

  lemma UnscrambleAfterScramble(x: Word)
    ensures Unscramble(Scramble(x)) == x
  {
    FiveUndone(x);
    RotationBy7Undone(Times5(x));
    NineUndone(Rotl7(Times5(x)));
    hide Times5, Times9, Untimes5, Untimes9, Rotl7, Rotr7;
  }

  lemma ScrambleAfterUnscramble(y: Word)
    ensures Scramble(Unscramble(y)) == y
  {
    NineUndone(y);
    RotationBy7Undone(Untimes9(y));
    FiveUndone(Rotr7(Untimes9(y)));
    hide Times5, Times9, Untimes5, Untimes9, Rotl7, Rotr7;
  }

  /** Whatever the other three words, each 64-bit value is the draw of exactly one second word. */
  lemma DrawnFromOneWord(s0: Word, s2: Word, s3: Word, y: Word)
    ensures forall s1: Word :: Output(Xoshiro(s0, s1, s2, s3)) == y <==> s1 == Unscramble(y)
  {
    hide Scramble, Unscramble;
    ScrambleAfterUnscramble(y);
    forall s1: Word
      ensures Output(Xoshiro(s0, s1, s2, s3)) == y <==> s1 == Unscramble(y)
    {
      UnscrambleAfterScramble(s1);
    }
  }

  // ---------------------------------------------------------------------------
  // Uniformity over the states
  // ---------------------------------------------------------------------------

  function WordOf(n: nat): Word {
    if n == 0 then 0 else Plus(WordOf(n - 1), 1)
  }

  lemma {:induction false} WordOfNum(n: nat)
    requires n < FULL
    ensures Num(WordOf(n)) == n
  {
    hide Num, Plus;
    LastWord();
    if n > 0 {
      WordOfNum(n - 1);
      hide WordOf;
      NextNum(WordOf(n - 1));
    }
  }

  lemma HalvedIsLess(x: Word)
    requires !Zero(x)
    ensures Halve(x) < x
  {
  }

  lemma ZeroNum(x: Word)
    requires Zero(x)
    ensures x == 0 && Num(x) == 0
  {
  }

  lemma {:induction false} NumIsInjective(x: Word, y: Word)
    requires Num(x) == Num(y)
    ensures x == y
    decreases x
  {
    hide *;
    HalfNum(x);
    HalfNum(y);
    Halves(x);
    Halves(y);
    if !Zero(x) {
      HalvedIsLess(x);
      NumIsInjective(Halve(x), Halve(y));
    } else {
      ZeroNum(x);
      ZeroHasNoOther(y);
    }
  }

  lemma {:induction false} ZeroHasNoOther(y: Word)
    requires Num(y) == 0
    ensures y == 0
    decreases y
  {
    hide *;
    HalfNum(y);
    Halves(y);
    if Zero(y) {
      ZeroNum(y);
    } else {
      HalvedIsLess(y);
      ZeroHasNoOther(Halve(y));
      NothingJoined(y);
    }
  }

  lemma NothingJoined(y: Word)
    requires Halve(y) == 0 && !Odd(y)
    ensures y == 0
  {
  }

  function DrawFrom(s0: Word, s2: Word, s3: Word, s1: Word): nat {
    Output(Xoshiro(s0, s1, s2, s3)) as nat
  }

  /** The second words whose draw is accepted with result k, as numbers. */
  function WordsFor(s0: Word, s2: Word, s3: Word, n: nat, k: nat): set<int>
    requires n > 0
  {
    set x: int | 0 <= x < FULL && GivenBy(s0, s2, s3, WordOf(x), n, k)
  }

  predicate GivenBy(s0: Word, s2: Word, s3: Word, s1: Word, n: nat, k: nat)
    requires n > 0
  {
    Accepts(DrawFrom(s0, s2, s3, s1), n) && Hi(DrawFrom(s0, s2, s3, s1), n) == k
  }

  lemma WordsForAre(s0: Word, s2: Word, s3: Word, n: nat, k: nat, s1: Word)
    requires n > 0
    ensures Num(s1) in WordsFor(s0, s2, s3, n, k) <==> GivenBy(s0, s2, s3, s1, n, k)
  {
    hide GivenBy, WordOf, Num;
    NumFits(s1);
    WordOfNum(Num(s1));
    NumIsInjective(WordOf(Num(s1)), s1);
  }

  lemma DrawNum(s0: Word, s2: Word, s3: Word, s1: Word)
    ensures DrawFrom(s0, s2, s3, s1) == Num(Scramble(s1)) < FULL
  {
    NumFits(Scramble(s1));
    hide Scramble;
  }

  lemma SameDrawSameWord(s0: Word, s2: Word, s3: Word, a: Word, b: Word)
    requires DrawFrom(s0, s2, s3, a) == DrawFrom(s0, s2, s3, b)
    ensures a == b
  {
    DrawNum(s0, s2, s3, a);
    DrawNum(s0, s2, s3, b);
    NumIsInjective(Scramble(a), Scramble(b));
    UnscrambleAfterScramble(a);
    UnscrambleAfterScramble(b);
    hide *;
  }

  lemma EveryDrawHasAWord(s0: Word, s2: Word, s3: Word, x: nat) returns (s1: Word)
    requires x < FULL
    ensures DrawFrom(s0, s2, s3, s1) == x
  {
    s1 := Unscramble(WordOf(x));
    ScrambleAfterUnscramble(WordOf(x));
    WordOfNum(x);
    DrawNum(s0, s2, s3, s1);
    hide *;
  }

  /** Exact uniformity over the states: whatever the other three words, every result below the bound comes from exactly
      floor(2^64 / n) of the 2^64 second words. */
  lemma BoundedIsUniformOverStates(s0: Word, s2: Word, s3: Word, n: nat, k: nat)
    requires 0 < n < FULL && k < n
    ensures |WordsFor(s0, s2, s3, n, k)| == FULL / n
    ensures forall s1: Word :: Num(s1) in WordsFor(s0, s2, s3, n, k) <==>
              Accepts(DrawFrom(s0, s2, s3, s1), n) && Hi(DrawFrom(s0, s2, s3, s1), n) == k
  {
    hide DrawFrom, Accepts, Hi, WordsFor, Num;
    forall s1: Word
      ensures Num(s1) in WordsFor(s0, s2, s3, n, k) <==>
                Accepts(DrawFrom(s0, s2, s3, s1), n) && Hi(DrawFrom(s0, s2, s3, s1), n) == k
    {
      WordsForAre(s0, s2, s3, n, k, s1);
    }
    AsManyWordsAsDraws(s0, s2, s3, n, k);
    BoundedIsUniform(n, k);
  }

  function DrawAt(s0: Word, s2: Word, s3: Word, x: int): int {
    if x < 0 then -1 else DrawFrom(s0, s2, s3, WordOf(x))
  }

  lemma SameDrawSameNumber(s0: Word, s2: Word, s3: Word, x: nat, y: nat)
    requires x < FULL && y < FULL && DrawFrom(s0, s2, s3, WordOf(x)) == DrawFrom(s0, s2, s3, WordOf(y))
    ensures x == y
  {
    hide *;
    SameDrawSameWord(s0, s2, s3, WordOf(x), WordOf(y));
    WordOfNum(x);
    WordOfNum(y);
  }

  lemma EveryDrawHasANumber(s0: Word, s2: Word, s3: Word, n: nat, k: nat, y: nat) returns (x: nat)
    requires n > 0 && y in DrawsFor(n, k)
    ensures x in WordsFor(s0, s2, s3, n, k) && DrawFrom(s0, s2, s3, WordOf(x)) == y
  {
    hide DrawFrom, Accepts, Hi, WordOf, Num;
    var s1 := EveryDrawHasAWord(s0, s2, s3, y);
    x := Num(s1);
    NumFits(s1);
    WordOfNum(x);
    NumIsInjective(WordOf(x), s1);
  }

  lemma AsManyWordsAsDraws(s0: Word, s2: Word, s3: Word, n: nat, k: nat)
    requires n > 0
    ensures |WordsFor(s0, s2, s3, n, k)| == |DrawsFor(n, k)|
  {
    hide DrawFrom, Accepts, Hi, WordOf;
    var words, draws := WordsFor(s0, s2, s3, n, k), DrawsFor(n, k);
    var f := (x: int) => DrawAt(s0, s2, s3, x);
    forall a, b | a in words && b in words && f(a) == f(b)
      ensures a == b
    {
      SameDrawSameNumber(s0, s2, s3, a, b);
    }
    forall a | a in words
      ensures f(a) in draws
    {
      DrawNum(s0, s2, s3, WordOf(a));
    }
    forall y | y in draws
      ensures exists a :: a in words && f(a) == y
    {
      var a := EveryDrawHasANumber(s0, s2, s3, n, k, y);
      assert a in words && f(a) == y;
    }
    ImageSize(words, draws, f);
  }
}
