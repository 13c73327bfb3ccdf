/** Sums of reals over finite key sets and over sequences. */
module Sums {

  /** The sum of f over the keys, in no particular order. */
  ghost function SumOver(keys: set<nat>, f: nat -> real): real {
    if keys == {} then 0.0
    else
      var k :| k in keys;
      f(k) + SumOver(keys - {k}, f)
  }

  lemma SumNone(f: nat -> real)
    ensures SumOver({}, f) == 0.0
  {
  }

  /** Any key can be taken out first: the order of summation does not matter. */
  lemma {:induction false} SumTakeOut(keys: set<nat>, f: nat -> real, k: nat)
    requires k in keys
    ensures SumOver(keys, f) == f(k) + SumOver(keys - {k}, f)
    decreases |keys|
  {
    var c :| c in keys && SumOver(keys, f) == f(c) + SumOver(keys - {c}, f);
    if c != k {
      SumTakeOut(keys - {c}, f, k);
      SumTakeOut(keys - {k}, f, c);
      assert keys - {c} - {k} == keys - {k} - {c};
    }
  }

  lemma {:induction false} SumCongruent(keys: set<nat>, f: nat -> real, g: nat -> real)
    requires forall k :: k in keys ==> f(k) == g(k)
    ensures SumOver(keys, f) == SumOver(keys, g)
    decreases |keys|
  {
    if keys != {} {
      var k :| k in keys;
      SumTakeOut(keys, f, k);
      SumTakeOut(keys, g, k);
      SumCongruent(keys - {k}, f, g);
    }
  }

  /** Changing one summand, or adding it, changes the sum by the same amount. */
  lemma SumChangeOne(keys: set<nat>, f: nat -> real, g: nat -> real, k: nat)
    requires forall j :: j in keys && j != k ==> f(j) == g(j)
    ensures SumOver(keys + {k}, g) == SumOver(keys, f) + g(k) - (if k in keys then f(k) else 0.0)
  {
    SumTakeOut(keys + {k}, g, k);
    assert keys + {k} - {k} == keys - {k};
    SumCongruent(keys - {k}, f, g);
    if k in keys {
      SumTakeOut(keys, f, k);
    } else {
      assert keys - {k} == keys;
    }
  }

  /** Keys whose summand is zero may be added. */
  lemma {:induction false} SumExtend(keys: set<nat>, more: set<nat>, f: nat -> real)
    requires keys <= more && forall k :: k in more - keys ==> f(k) == 0.0
    ensures SumOver(more, f) == SumOver(keys, f)
    decreases |more - keys|
  {
    if more - keys == {} {
      assert more == keys;
    } else {
      var k :| k in more - keys;
      SumTakeOut(more, f, k);
      assert more - {k} - keys < more - keys;
      SumExtend(keys, more - {k}, f);
    }
  }

  lemma {:induction false} SumZero(keys: set<nat>, f: nat -> real)
    requires forall k :: k in keys ==> f(k) == 0.0
    ensures SumOver(keys, f) == 0.0
    decreases |keys|
  {
    if keys != {} {
      var k :| k in keys;
      SumTakeOut(keys, f, k);
      SumZero(keys - {k}, f);
    }
  }

  lemma {:induction false} SumIsNatural(keys: set<nat>, f: nat -> real)
    requires forall k :: k in keys ==> f(k) >= 0.0
    ensures SumOver(keys, f) >= 0.0
    decreases |keys|
  {
    if keys != {} {
      var k :| k in keys;
      SumTakeOut(keys, f, k);
      SumIsNatural(keys - {k}, f);
    }
  }

  lemma {:induction false} SumAdd(keys: set<nat>, f: nat -> real, g: nat -> real, h: nat -> real)
    requires forall k :: k in keys ==> h(k) == f(k) + g(k)
    ensures SumOver(keys, h) == SumOver(keys, f) + SumOver(keys, g)
    decreases |keys|
  {
    if keys != {} {
      var k :| k in keys;
      SumTakeOut(keys, f, k);
      SumTakeOut(keys, g, k);
      SumTakeOut(keys, h, k);
      SumAdd(keys - {k}, f, g, h);
    }
  }

  /** The sum of a sequence, from the left, as an accumulating loop computes it. */
  function Total(s: seq<real>): real {
    if s == [] then 0.0 else Total(s[..|s| - 1]) + s[|s| - 1]
  }

  lemma TotalSnoc(s: seq<real>, x: real)
    ensures Total(s + [x]) == Total(s) + x
  {
  }

  lemma {:induction false} TotalAppend(s: seq<real>, t: seq<real>)
    ensures Total(s + t) == Total(s) + Total(t)
    decreases |t|
  {
    if t == [] {
      assert s + t == s;
    } else {
      var u := t[..|t| - 1];
      assert (s + t)[..|s + t| - 1] == s + u;
      TotalAppend(s, u);
    }
  }
}
