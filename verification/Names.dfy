/** Names in dictionary order, sorted lists of names, and counting. */
module Names {

  datatype Name = Name(text: string)

  /** Dictionary order, as an ordered container of strings iterates. */
  predicate TextLess(a: string, b: string) {
    b != [] && (a == [] || a[0] < b[0] || (a[0] == b[0] && TextLess(a[1..], b[1..])))
  }

  predicate Less(a: Name, b: Name) {
    TextLess(a.text, b.text)
  }

  lemma {:induction false} TextLessIsTotal(a: string, b: string)
    ensures TextLess(a, b) || a == b || TextLess(b, a)
  {
    if a != [] && b != [] && a[0] == b[0] {
      TextLessIsTotal(a[1..], b[1..]);
      if a[1..] == b[1..] {
        assert a == [a[0]] + a[1..] && b == [b[0]] + b[1..];
      }
    }
  }

  lemma {:induction false} TextLessIsTransitive(a: string, b: string, c: string)
    requires TextLess(a, b) && TextLess(b, c)
    ensures TextLess(a, c)
  {
    if a != [] && a[0] == b[0] && b[0] == c[0] {
      TextLessIsTransitive(a[1..], b[1..], c[1..]);
    }
  }

  lemma {:induction false} TextLessIsStrict(a: string)
    ensures !TextLess(a, a)
  {
    if a != [] {
      TextLessIsStrict(a[1..]);
    }
  }

  /** The order is a strict total order on names. */
  lemma LessIsTotal(a: Name, b: Name)
    ensures Less(a, b) || a == b || Less(b, a)
  {
    TextLessIsTotal(a.text, b.text);
  }

  lemma LessIsTransitive(a: Name, b: Name, c: Name)
    requires Less(a, b) && Less(b, c)
    ensures Less(a, c)
  {
    TextLessIsTransitive(a.text, b.text, c.text);
  }

  lemma LessIsStrict(a: Name)
    ensures !Less(a, a)
  {
    TextLessIsStrict(a.text);
  }

  lemma LessIsAsymmetric(a: Name, b: Name)
    requires Less(a, b)
    ensures !Less(b, a) && a != b
  {
    LessIsStrict(a);
    if Less(b, a) {
      LessIsTransitive(a, b, a);
    }
  }

  predicate Sorted(s: seq<Name>) {
    forall i, j :: 0 <= i < j < |s| ==> Less(s[i], s[j])
  }

  /** Puts a new name at its place in a sorted list, as appending and sorting again does. */
  function Insert(s: seq<Name>, x: Name): (r: seq<Name>)
    ensures |r| == |s| + 1
    ensures forall y :: y in r <==> y in s || y == x
  {
    if s == [] then [x]
    else if Less(x, s[0]) then [x] + s
    else [s[0]] + Insert(s[1..], x)
  }

  lemma {:induction false} InsertKeepsSorted(s: seq<Name>, x: Name)
    requires Sorted(s) && x !in s
    ensures Sorted(Insert(s, x))
  {
    if s == [] {
    } else if Less(x, s[0]) {
      forall j | 0 < j < |s|
        ensures Less(x, s[j])
      {
        LessIsTransitive(x, s[0], s[j]);
      }
    } else {
      var t := s[1..];
      InsertKeepsSorted(t, x);
      LessIsTotal(x, s[0]);
      var r := Insert(t, x);
      forall j | 0 <= j < |r|
        ensures Less(s[0], r[j])
      {
        assert r[j] in r;
        if r[j] in t {
          var k :| 0 <= k < |t| && t[k] == r[j];
          assert t[k] == s[k + 1];
        }
      }
    }
  }

  /** The keys of an ordered container, in the order it iterates. */
  method SortedKeys(keys: set<Name>) returns (r: seq<Name>)
    ensures Sorted(r) && forall x :: x in r <==> x in keys
  {
    r := [];
    var rest := keys;
    while rest != {}
      invariant rest <= keys && Sorted(r)
      invariant forall x :: x in r <==> x in keys - rest
      decreases |rest|
    {
      var x :| x in rest;
      InsertKeepsSorted(r, x);
      r := Insert(r, x);
      rest := rest - {x};
    }
  }

  lemma SortedIsDistinct(s: seq<Name>)
    requires Sorted(s)
    ensures forall i, j :: 0 <= i < j < |s| ==> s[i] != s[j]
  {
    forall i, j | 0 <= i < j < |s|
      ensures s[i] != s[j]
    {
      LessIsAsymmetric(s[i], s[j]);
    }
  }

  /** How often x occurs in a list. */
  function Occurs(s: seq<Name>, x: Name): nat {
    if s == [] then 0
    else Occurs(s[..|s| - 1], x) + if s[|s| - 1] == x then 1 else 0
  }

  lemma OccursSnoc(s: seq<Name>, y: Name, x: Name)
    ensures Occurs(s + [y], x) == Occurs(s, x) + if y == x then 1 else 0
  {
  }

  lemma {:induction false} OccursIffIn(s: seq<Name>, x: Name)
    ensures Occurs(s, x) > 0 <==> x in s
  {
    if s != [] {
      OccursIffIn(s[..|s| - 1], x);
      assert s == s[..|s| - 1] + [s[|s| - 1]];
    }
  }

  lemma {:induction false} OccursAppend(s: seq<Name>, t: seq<Name>, x: Name)
    ensures Occurs(s + t, x) == Occurs(s, x) + Occurs(t, x)
    decreases |t|
  {
    if t == [] {
      assert s + t == s;
    } else {
      var u := t[..|t| - 1];
      assert (s + t)[..|s + t| - 1] == s + u;
      OccursAppend(s, u, x);
    }
  }

  lemma OccursFirst(s: seq<Name>, x: Name)
    requires s != []
    ensures Occurs(s, x) == (if s[0] == x then 1 else 0) + Occurs(s[1..], x)
  {
    assert s == [s[0]] + s[1..];
    OccursAppend([s[0]], s[1..], x);
    assert [s[0]][..0] == [];
  }
}
