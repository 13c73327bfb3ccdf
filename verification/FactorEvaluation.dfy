/** Evaluating a resolved factor graph, in full or only downstream of what changed. */
module FactorEvaluation {
  import opened Types
  import opened Names
  import opened FactorGraphs

  type Values = map<Name, real>

  // ---------------------------------------------------------------------------
  // Everything downstream of a name
  // ---------------------------------------------------------------------------

  predicate Declares(g: Graph, n: Name, d: Name) {
    n in g && d in g[n].dependencies
  }

  /** Each name of the chain is a factor that declares the next one. */
  predicate IsChain(g: Graph, p: seq<Name>) {
    |p| >= 2 ==> Declares(g, p[0], p[1]) && IsChain(g, p[1..])
  }

  /** n reaches the name, which may be a factor or a base feature, through one or more declared dependencies. */
  ghost predicate Downstream(g: Graph, name: Name, n: Name) {
    exists p :: |p| >= 2 && p[0] == n && p[|p| - 1] == name && IsChain(g, p)
  }

  lemma DirectIsDownstream(g: Graph, name: Name, n: Name)
    requires Declares(g, n, name)
    ensures Downstream(g, name, n)
  {
    var p := [n, name];
    assert p[1..] == [name];
    assert IsChain(g, p[1..]);
    assert IsChain(g, p);
  }

  lemma DownstreamStep(g: Graph, name: Name, m: Name, n: Name)
    requires Downstream(g, name, m) && Declares(g, n, m)
    ensures Downstream(g, name, n)
  {
    var p :| |p| >= 2 && p[0] == m && p[|p| - 1] == name && IsChain(g, p);
    var q := [n] + p;
    assert q[1..] == p;
    assert IsChain(g, q);
  }

  /** Every factor that declares the name, or a member, is a member. */
  ghost predicate ClosedDownstream(g: Graph, name: Name, s: set<Name>) {
    forall n, c :: Declares(g, n, c) && (c == name || c in s) ==> n in s
  }

  lemma {:induction false} ChainStaysInside(g: Graph, name: Name, s: set<Name>, p: seq<Name>)
    requires ClosedDownstream(g, name, s) && IsChain(g, p) && |p| >= 2 && p[|p| - 1] == name
    ensures p[0] in s
  {
    assert Declares(g, p[0], p[1]);
    if |p| > 2 {
      ChainStaysInside(g, name, s, p[1..]);
    }
  }

  lemma ClosedHoldsDownstream(g: Graph, name: Name, s: set<Name>)
    requires ClosedDownstream(g, name, s)
    ensures forall n :: Downstream(g, name, n) ==> n in s
  {
    forall n | Downstream(g, name, n)
      ensures n in s
    {
      var p :| |p| >= 2 && p[0] == n && p[|p| - 1] == name && IsChain(g, p);
      ChainStaysInside(g, name, s, p);
    }
  }

  /** What the worklist has settled: the members' declarers are members, unless still on the frontier. */
  ghost predicate Exploring(g: Graph, name: Name, found: set<Name>, frontier: seq<Name>) {
    && found <= g.Keys
    && (forall n :: n in found ==> Downstream(g, name, n))
    && (forall c :: c in frontier ==> c == name || c in found)
    && forall n, c :: Declares(g, n, c) && (c == name || c in found) && c !in frontier ==> n in found
  }

  /** The factors downstream of a name, in dictionary order. */
  method DependentsOf(graph: FactorGraph, name: Name) returns (dependents: seq<Name>)
    ensures Sorted(dependents)
    ensures forall n :: n in dependents <==> Downstream(graph.definitions, name, n)
  {
    hide Downstream, IsChain, Declares;
    var g := graph.definitions;
    var found: set<Name>, frontier := {}, [name];
    while frontier != []
      invariant Exploring(g, name, found, frontier)
      decreases |g.Keys - found|, |frontier|
    {
      var current := frontier[|frontier| - 1];
      var rest := frontier[..|frontier| - 1];
      var found', frontier' := Expand(graph, current, found, rest);
      ExpandKeepsExploring(g, name, current, found, rest, found', frontier');
      if found' != found {
        assert g.Keys - found' <= g.Keys - found;
        MoreFound(g.Keys, found, found');
      }
      found, frontier := found', frontier';
    }
    ClosedHoldsDownstream(g, name, found);
    dependents := SortedKeys(found);
  }

  lemma MoreFound(all: set<Name>, a: set<Name>, b: set<Name>)
    requires a <= b <= all && a != b
    ensures |all - b| < |all - a|
  {
    assert b - a != {} by {
      assert b == a + (b - a);
    }
    var x :| x in b - a;
    assert all - b <= all - a - {x};
    assert |all - b| <= |all - a - {x}| by { SubsetIsSmaller(all - b, all - a - {x}); }
  }

  lemma SubsetIsSmaller(a: set<Name>, b: set<Name>)
    requires a <= b
    ensures |a| <= |b|
  {
    assert b == a + (b - a);
  }

  /** One pass over the factors: those that declare the current name and are new join the frontier. */
  method Expand(graph: FactorGraph, current: Name, found: set<Name>, frontier: seq<Name>)
    returns (found': set<Name>, frontier': seq<Name>)
    ensures found <= found' && forall n :: n in found' <==> n in found || Declares(graph.definitions, n, current)
    ensures found' == found ==> frontier' == frontier
    ensures forall c :: c in frontier' <==> c in frontier || (c in found' && c !in found)
  {
    var g := graph.definitions;
    var names := SortedKeys(g.Keys);
    found', frontier' := found, frontier;
    var k := 0;
    while k < |names|
      invariant 0 <= k <= |names| && found <= found'
      invariant forall n :: n in found' <==> n in found || (n in names[..k] && Declares(g, n, current))
      invariant found' == found ==> frontier' == frontier
      invariant forall c :: c in frontier' <==> c in frontier || (c in found' && c !in found)
    {
      var other := names[k];
      assert names[..k + 1] == names[..k] + [other];
      if other !in found' && current in g[other].dependencies {
        found' := found' + {other};
        frontier' := frontier' + [other];
      }
      k := k + 1;
    }
    assert names[..k] == names;
  }

  lemma ExpandKeepsExploring(g: Graph, name: Name, current: Name, found: set<Name>, frontier: seq<Name>,
                             found': set<Name>, frontier': seq<Name>)
    requires Exploring(g, name, found, frontier + [current])
    requires found <= found' && forall n :: n in found' <==> n in found || Declares(g, n, current)
    requires forall c :: c in frontier' <==> c in frontier || (c in found' && c !in found)
    ensures Exploring(g, name, found', frontier')
  {
    hide Downstream, IsChain;
    assert current in frontier + [current];
    forall n | n in found' && n !in found
      ensures Downstream(g, name, n)
    {
      if current == name {
        DirectIsDownstream(g, name, n);
      } else {
        DownstreamStep(g, name, current, n);
      }
    }
  }

  // ---------------------------------------------------------------------------
  // Evaluation
  // ---------------------------------------------------------------------------

  /** The inputs of a factor, reduced to what it can read. */
  function Visible(values: Values, dependencies: seq<Name>): FactorInputs {
    FactorInputs(map d | d in dependencies && d in values :: values[d], dependencies)
  }

  /** Reducing the values loses nothing a factor could have read. */
  lemma VisibleReadsTheSame(values: Values, dependencies: seq<Name>, name: Name)
    ensures Visible(values, dependencies).Get(name) == FactorInputs(values, dependencies).Get(name)
  {
  }

  predicate SameAt(a: Values, b: Values, n: Name) {
    (n in a <==> n in b) && (n in a ==> a[n] == b[n])
  }

  lemma SameEverywhere(a: Values, b: Values)
    requires forall m :: SameAt(a, b, m)
    ensures a == b
  {
    forall m
      ensures m in a.Keys <==> m in b.Keys
    {
      assert SameAt(a, b, m);
    }
    assert a.Keys == b.Keys;
    forall m | m in a
      ensures a[m] == b[m]
    {
      assert SameAt(a, b, m);
    }
  }

  /** A factor cannot tell two value maps apart that agree on its declared dependencies. */
  lemma OnlyDeclaredInputsMatter(a: Values, b: Values, dependencies: seq<Name>)
    requires forall d :: d in dependencies ==> SameAt(a, b, d)
    ensures Visible(a, dependencies) == Visible(b, dependencies)
  {
  }

  function Compute(g: Graph, n: Name, values: Values): Option<real>
    requires n in g
  {
    g[n].compute(Visible(values, g[n].dependencies))
  }

  /** Walks the order and computes the factors that are due. */
  function EvalFrom(g: Graph, order: seq<Name>, values: Values, due: set<Name>): Result<Values, GraphError> {
    if order == [] then Ok(values)
    else
      var n := order[0];
      if n in due && n in g then
        match Compute(g, n, values)
        case None => Err(NonFinite(n))
        case Some(v) => EvalFrom(g, order[1..], values[n := v], due)
      else EvalFrom(g, order[1..], values, due)
  }

  /** Without dirty names everything is due; otherwise the dirty names and all that is downstream of one. */
  ghost predicate Due(g: Graph, dirty: seq<Name>, n: Name) {
    dirty == [] || n in dirty || exists d :: d in dirty && Downstream(g, d, n)
  }

  ghost function DueSet(g: Graph, dirty: seq<Name>): set<Name> {
    set n | n in g && Due(g, dirty, n)
  }

  ghost function Evaluated(g: Graph, order: seq<Name>, base: Values, dirty: seq<Name>): Result<Values, GraphError> {
    EvalFrom(g, order, base, DueSet(g, dirty))
  }

  /** Computes the due factors in the resolved order, stopping at the first that is not finite. */
  method Evaluate(graph: FactorGraph, base: Values, dirty: seq<Name>) returns (r: Result<Values, GraphError>)
    ensures !graph.finalized ==> r == Err(NotFinalized)
    ensures graph.finalized ==> r == Evaluated(graph.definitions, graph.order, base, dirty)
  {
    hide Compute, Downstream, Due;
    if !graph.finalized { return Err(NotFinalized); }
    var g, order := graph.definitions, graph.order;
    var due := FindDue(graph, dirty);
    ghost var target := EvalFrom(g, order, base, DueSet(g, dirty));
    var values := base;
    var k := 0;
    assert order[0..] == order;
    while k < |order|
      invariant 0 <= k <= |order|
      invariant target == EvalFrom(g, order[k..], values, DueSet(g, dirty))
    {
      var name := order[k];
      assert order[k..][0] == name && order[k..][1..] == order[k + 1..];
      if name in due && name in g {
        match Compute(g, name, values) {
          case None => return Err(NonFinite(name));
          case Some(v) => values := values[name := v];
        }
      }
      k := k + 1;
    }
    r := Ok(values);
  }

  /** The names to compute: among the factors, exactly those that are due. */
  method FindDue(graph: FactorGraph, dirty: seq<Name>) returns (due: set<Name>)
    ensures forall n :: n in graph.definitions && n in graph.order ==>
              (n in due <==> n in DueSet(graph.definitions, dirty))
  {
    hide Downstream;
    var g := graph.definitions;
    if dirty == [] {
      due := set n | n in graph.order;
      return;
    }
    due := {};
    var k := 0;
    while k < |dirty|
      invariant 0 <= k <= |dirty|
      invariant forall n :: n in due <==> n in dirty[..k] || exists d :: d in dirty[..k] && Downstream(g, d, n)
    {
      var dependents := DependentsOf(graph, dirty[k]);
      assert dirty[..k + 1] == dirty[..k] + [dirty[k]];
      due := due + {dirty[k]} + set n | n in dependents;
      k := k + 1;
    }
    assert dirty[..k] == dirty;
  }

  // ---------------------------------------------------------------------------
  // Full evaluation solves the graph's equations
  // ---------------------------------------------------------------------------

  /** The values keep the base outside the graph and every factor is its computation's result on them. */
  ghost predicate IsSolution(g: Graph, base: Values, v: Values) {
    && (forall m :: m !in g ==> SameAt(v, base, m))
    && forall n :: n in g ==> n in v && Compute(g, n, v) == Some(v[n])
  }

  /** The first k factors hold their computation's result. */
  ghost predicate SolvedUpTo(g: Graph, order: seq<Name>, k: nat, v: Values)
    requires k <= |order|
  {
    forall n :: n in order[..k] ==> n in g && n in v && Compute(g, n, v) == Some(v[n])
  }

  /** The dependencies of the k-th factor are outside the graph or earlier in the order. */
  lemma DependenciesComeFirst(g: Graph, order: seq<Name>, k: nat, d: Name)
    requires InOrder(g, order) && k < |order| && d in g[order[k]].dependencies
    ensures d in g ==> d in order[..k]
    ensures d != order[k]
  {
  }

  /** Setting the k-th factor disturbs no earlier computation. */
  lemma LaterValueIsUnread(g: Graph, order: seq<Name>, k: nat, v: Values, x: real)
    requires InOrder(g, order) && k < |order| && SolvedUpTo(g, order, k, v)
    ensures SolvedUpTo(g, order, k, v[order[k] := x])
    ensures Compute(g, order[k], v[order[k] := x]) == Compute(g, order[k], v)
  {
    hide Ready;
    var w := v[order[k] := x];
    forall i | 0 <= i <= k
      ensures order[i] in g && Compute(g, order[i], w) == Compute(g, order[i], v)
    {
      forall d | d in g[order[i]].dependencies
        ensures SameAt(v, w, d)
      {
        DependenciesComeFirst(g, order, i, d);
      }
      OnlyDeclaredInputsMatter(v, w, g[order[i]].dependencies);
    }
    hide Compute, InOrder;
    forall n | n in order[..k]
      ensures n in w && Compute(g, n, w) == Some(w[n])
    {
      var i :| 0 <= i < k && order[i] == n;
      assert n != order[k];
    }
  }

  lemma {:induction false} EvaluationSolves(g: Graph, order: seq<Name>, k: nat, values: Values, v: Values)
    requires IsTopological(g, order) && k <= |order| && SolvedUpTo(g, order, k, values)
    requires EvalFrom(g, order[k..], values, g.Keys) == Ok(v)
    ensures SolvedUpTo(g, order, |order|, v)
    ensures forall m :: m !in g ==> SameAt(v, values, m)
    decreases |order| - k
  {
    hide Compute, InOrder;
    if k < |order| {
      var n := order[k];
      assert n in order && order[k..][0] == n && order[k..][1..] == order[k + 1..];
      FactorsOnly(g, order, k);
      var x := Compute(g, n, values).value;
      var next := values[n := x];
      LaterValueIsUnread(g, order, k, values, x);
      assert order[..k + 1] == order[..k] + [n];
      assert SolvedUpTo(g, order, k + 1, next);
      EvaluationSolves(g, order, k + 1, next, v);
    } else {
      assert order[..k] == order[..|order|];
    }
  }

  lemma FactorsOnly(g: Graph, order: seq<Name>, k: nat)
    requires InOrder(g, order) && k < |order|
    ensures order[k] in g
  {
  }

  lemma {:induction false} SolutionIsEvaluation(g: Graph, order: seq<Name>, k: nat, values: Values, base: Values,
                                                v: Values)
    requires IsTopological(g, order) && k <= |order| && IsSolution(g, base, v)
    requires forall m :: m !in g || m in order[..k] ==> SameAt(values, v, m)
    ensures EvalFrom(g, order[k..], values, g.Keys) == Ok(v)
    decreases |order| - k
  {
    hide InOrder, Compute;
    if k < |order| {
      var n := order[k];
      assert order[k..][0] == n && order[k..][1..] == order[k + 1..];
      FactorsOnly(g, order, k);
      AgreeingInputs(g, order, k, values, v);
      assert order[..k + 1] == order[..k] + [n];
      SolutionIsEvaluation(g, order, k + 1, values[n := v[n]], base, v);
    } else {
      assert order[..k] == order;
      forall m ensures SameAt(values, v, m) {
      }
      SameEverywhere(values, v);
    }
  }

  /** Values that agree outside the graph and on the first k factors give the k-th factor the same result. */
  lemma AgreeingInputs(g: Graph, order: seq<Name>, k: nat, a: Values, b: Values)
    requires InOrder(g, order) && k < |order|
    requires forall d :: d !in g || d in order[..k] ==> SameAt(a, b, d)
    ensures order[k] in g && Compute(g, order[k], a) == Compute(g, order[k], b)
  {
    hide Ready;
    forall d | d in g[order[k]].dependencies
      ensures SameAt(a, b, d)
    {
      DependenciesComeFirst(g, order, k, d);
    }
    OnlyDeclaredInputsMatter(a, b, g[order[k]].dependencies);
  }

  lemma EverythingIsDue(g: Graph)
    ensures DueSet(g, []) == g.Keys
  {
  }

  /** Full evaluation succeeds with v exactly when v solves the graph over the base, whatever order was resolved. */
  lemma FullEvaluationSolves(g: Graph, order: seq<Name>, base: Values, v: Values)
    requires IsTopological(g, order)
    ensures Evaluated(g, order, base, []) == Ok(v) <==> IsSolution(g, base, v)
  {
    hide Compute, InOrder;
    EverythingIsDue(g);
    assert order[0..] == order && order[..0] == [];
    if Evaluated(g, order, base, []) == Ok(v) {
      EvaluationSolves(g, order, 0, base, v);
      assert order[..|order|] == order;
    }
    if IsSolution(g, base, v) {
      SolutionIsEvaluation(g, order, 0, base, base, v);
    }
  }

  // ---------------------------------------------------------------------------
  // Incremental evaluation equals full evaluation
  // ---------------------------------------------------------------------------

  /** The previous values with the dirty names taken from the new base. */
  function Patched(prev: Values, newBase: Values, dirty: seq<Name>): Values {
    map m | m in prev.Keys + newBase.Keys && (if m in dirty then m in newBase else m in prev)
      :: if m in dirty then newBase[m] else prev[m]
  }

  /** Two runs in step: equal outside the graph and on the factors passed, the factors not due still as before. */
  ghost predicate InStep(g: Graph, order: seq<Name>, k: nat, due: set<Name>, part: Values, full: Values, prev: Values)
    requires k <= |order|
  {
    && (forall m :: m !in g || m in order[..k] ==> SameAt(part, full, m))
    && forall m :: m in g && m !in due ==> SameAt(part, prev, m)
  }

  /** A factor that is not due depends on nothing that changed. */
  lemma NotDueIsUntouched(g: Graph, dirty: seq<Name>, n: Name, d: Name)
    requires n in g && n !in DueSet(g, dirty) && d in g[n].dependencies
    ensures d !in dirty && d !in DueSet(g, dirty)
  {
    hide IsChain, Downstream;
    assert Declares(g, n, d);
    if d in dirty {
      DirectIsDownstream(g, d, n);
    } else if d in DueSet(g, dirty) {
      var e :| e in dirty && Downstream(g, e, d);
      DownstreamStep(g, e, d, n);
    }
  }

  lemma SkippedIsCurrent(g: Graph, order: seq<Name>, k: nat, dirty: seq<Name>, part: Values, full: Values,
                         base: Values, prev: Values)
    requires InOrder(g, order) && k < |order| && order[k] !in DueSet(g, dirty)
    requires InStep(g, order, k, DueSet(g, dirty), part, full, prev) && IsSolution(g, base, prev)
    requires forall m :: m !in g && m !in dirty ==> SameAt(full, prev, m)
    ensures order[k] in g && Compute(g, order[k], full) == Some(prev[order[k]])
    ensures SameAt(part, prev, order[k])
  {
    FactorsOnly(g, order, k);
    var n := order[k];
    forall d | d in g[n].dependencies
      ensures SameAt(full, prev, d)
    {
      NotDueIsUntouched(g, dirty, n, d);
      DependenciesComeFirst(g, order, k, d);
      hide InOrder, DueSet, Compute;
      if d in g {
        assert SameAt(part, full, d) && SameAt(part, prev, d);
      }
    }
    OnlyDeclaredInputsMatter(full, prev, g[n].dependencies);
  }

  lemma {:induction false} RunsStayInStep(g: Graph, order: seq<Name>, k: nat, dirty: seq<Name>, part: Values,
                                          full: Values, base: Values, prev: Values)
    requires IsTopological(g, order) && k <= |order|
    requires InStep(g, order, k, DueSet(g, dirty), part, full, prev) && IsSolution(g, base, prev)
    requires forall m :: m !in g && m !in dirty ==> SameAt(full, prev, m)
    ensures EvalFrom(g, order[k..], part, DueSet(g, dirty)) == EvalFrom(g, order[k..], full, g.Keys)
    decreases |order| - k
  {
    hide InOrder, Compute, DueSet, IsSolution;
    var due := DueSet(g, dirty);
    if k < |order| {
      var n := order[k];
      FactorsOnly(g, order, k);
      assert order[k..][0] == n && order[k..][1..] == order[k + 1..];
      assert order[..k + 1] == order[..k] + [n];
      if n in due {
        AgreeingInputs(g, order, k, part, full);
        if Compute(g, n, full).Some? {
          var x := Compute(g, n, full).value;
          RunsStayInStep(g, order, k + 1, dirty, part[n := x], full[n := x], base, prev);
        }
      } else {
        SkippedIsCurrent(g, order, k, dirty, part, full, base, prev);
        assert n in prev by { assert n in g; InSolution(g, base, prev, n); }
        RunsStayInStep(g, order, k + 1, dirty, part, full[n := prev[n]], base, prev);
      }
    } else {
      assert order[..k] == order;
      forall m ensures SameAt(part, full, m) {
      }
      SameEverywhere(part, full);
    }
  }

  lemma InSolution(g: Graph, base: Values, v: Values, n: Name)
    requires IsSolution(g, base, v) && n in g
    ensures n in v
  {
  }

  /** Re-evaluating only what is due, after the dirty names changed, gives exactly the full evaluation on the
      new base, including which factor fails when one does. */
  lemma IncrementalEqualsFull(g: Graph, order: seq<Name>, base: Values, newBase: Values, dirty: seq<Name>, prev: Values)
    requires IsTopological(g, order) && Evaluated(g, order, base, []) == Ok(prev)
    requires forall m :: m !in g && m !in dirty ==> SameAt(base, newBase, m)
    ensures Evaluated(g, order, Patched(prev, newBase, dirty), dirty) == Evaluated(g, order, newBase, [])
  {
    hide InOrder, Compute, Downstream;
    FullEvaluationSolves(g, order, base, prev);
    EverythingIsDue(g);
    var part := Patched(prev, newBase, dirty);
    forall m | m !in g
      ensures SameAt(part, newBase, m) && (m !in dirty ==> SameAt(newBase, prev, m))
    {
      assert SameAt(prev, base, m);
    }
    forall m | m in g && m !in DueSet(g, dirty)
      ensures SameAt(part, prev, m)
    {
      assert m !in dirty;
    }
    assert order[0..] == order && order[..0] == [];
    RunsStayInStep(g, order, 0, dirty, part, newBase, base, prev);
  }
}
