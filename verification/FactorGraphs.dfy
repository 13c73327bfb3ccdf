/** Named factors with declared dependencies: resolving an evaluation order. */
module FactorGraphs {
  import opened Types
  import opened Names

  datatype InputError = Undeclared | NoValue

  /** What a factor can see while it is computed: its declared inputs only. */
  datatype FactorInputs = FactorInputs(values: map<Name, real>, declared: seq<Name>)
  {
    function Get(name: Name): Result<real, InputError> {
      if name !in declared then Err(Undeclared)
      else if name !in values then Err(NoValue)
      else Ok(values[name])
    }
  }

  /** A computation over its inputs; None stands for a result that is not finite. */
  datatype FactorDefinition = FactorDefinition(dependencies: seq<Name>, compute: FactorInputs -> Option<real>)

  type Graph = map<Name, FactorDefinition>

  datatype GraphError =
    | EmptyName | Duplicate | Cycle(stuck: seq<Name>) | NotFinalized | NonFinite(name: Name)

  // ---------------------------------------------------------------------------
  // Orders and cycles
  // ---------------------------------------------------------------------------

  predicate NoDuplicates(s: seq<Name>) {
    forall i, j :: 0 <= i < j < |s| ==> s[i] != s[j]
  }

  /** All dependencies of n that are in the graph are already in the list. */
  predicate Ready(g: Graph, n: Name, done: seq<Name>)
    requires n in g
  {
    forall d :: d in g[n].dependencies && d in g ==> d in done
  }

  /** The factors of a list come after their in-graph dependencies, each at most once. */
  predicate InOrder(g: Graph, order: seq<Name>) {
    && NoDuplicates(order)
    && forall i :: 0 <= i < |order| ==> order[i] in g && Ready(g, order[i], order[..i])
  }

  /** A topological order of the whole graph. */
  predicate IsTopological(g: Graph, order: seq<Name>) {
    InOrder(g, order) && forall n :: n in g ==> n in order
  }

  /** A closed walk along dependencies inside the graph. */
  predicate IsCycle(g: Graph, p: seq<Name>) {
    |p| >= 2 && p[0] == p[|p| - 1] && IsWalk(g, p)
  }

  predicate DependsOn(g: Graph, n: Name, d: Name) {
    n in g && d in g && d in g[n].dependencies
  }

  predicate IsWalk(g: Graph, p: seq<Name>) {
    |p| >= 2 ==> DependsOn(g, p[0], p[1]) && IsWalk(g, p[1..])
  }

  ghost predicate Acyclic(g: Graph) {
    forall p :: !IsCycle(g, p)
  }

  /** Dictionary order on lists of names. */
  predicate ListLeq(a: seq<Name>, b: seq<Name>) {
    a == b || exists i :: 0 <= i < |a| && i < |b| && a[..i] == b[..i] && Less(a[i], b[i])
  }

  /** Each choice was the least of the factors that were ready at that point. */
  predicate Greedy(g: Graph, order: seq<Name>) {
    forall i, n :: 0 <= i < |order| && n in g && n !in order[..i] && Ready(g, n, order[..i]) && n != order[i]
      ==> Less(order[i], n)
  }

  // ---------------------------------------------------------------------------
  // Counting unmet dependencies
  // ---------------------------------------------------------------------------

  function Unmet(deps: seq<Name>, keys: set<Name>, done: seq<Name>): nat {
    if deps == [] then 0
    else
      var d := deps[|deps| - 1];
      Unmet(deps[..|deps| - 1], keys, done) + if d in keys && d !in done then 1 else 0
  }

  lemma {:induction false} UnmetStep(deps: seq<Name>, keys: set<Name>, done: seq<Name>, c: Name)
    requires c in keys && c !in done
    ensures Unmet(deps, keys, done + [c]) + Occurs(deps, c) == Unmet(deps, keys, done)
  {
    if deps != [] {
      UnmetStep(deps[..|deps| - 1], keys, done, c);
    }
  }

  lemma {:induction false} UnmetZero(deps: seq<Name>, keys: set<Name>, done: seq<Name>)
    ensures Unmet(deps, keys, done) == 0 <==> forall d :: d in deps && d in keys ==> d in done
  {
    if deps != [] {
      var front := deps[..|deps| - 1];
      UnmetZero(front, keys, done);
      assert deps == front + [deps[|deps| - 1]];
    }
  }

  // ---------------------------------------------------------------------------
  // The graph object
  // ---------------------------------------------------------------------------

  type Degrees = map<Name, nat>

  /** The in-degrees count the unmet dependencies, except that a batch of decrements is outstanding. */
  predicate Counted(g: Graph, degree: Degrees, order: seq<Name>, batch: seq<Name>) {
    degree.Keys == g.Keys
    && forall n :: n in g ==> degree[n] == Unmet(g[n].dependencies, g.Keys, order) + Occurs(batch, n)
  }

  ghost predicate ReadyList(g: Graph, degree: Degrees, order: seq<Name>, ready: seq<Name>) {
    Sorted(ready) && forall n :: n in ready <==> n in g && n in degree && n !in order && degree[n] == 0
  }

  ghost predicate Dependents(g: Graph, dependents: map<Name, seq<Name>>) {
    forall d, n :: d in g && n in g ==>
      Occurs(if d in dependents then dependents[d] else [], n) == Occurs(g[n].dependencies, d)
  }

  ghost predicate Inside(g: Graph, dependents: map<Name, seq<Name>>) {
    forall d, n :: d in dependents && n in dependents[d] ==> n in g
  }

  class FactorGraph {
    var definitions: Graph
    var order: seq<Name>
    var finalized: bool

    constructor ()
      ensures definitions == map[] && order == [] && !finalized
    {
      definitions, order, finalized := map[], [], false;
    }

    method Add(name: Name, definition: FactorDefinition) returns (r: Result<bool, GraphError>)
      modifies this
      ensures r.Ok? <==> name.text != "" && name !in old(definitions)
      ensures r.Ok? ==> definitions == old(definitions)[name := definition] && !finalized
      ensures r.Err? ==> definitions == old(definitions) && order == old(order) && finalized == old(finalized)
    {
      if name.text == "" { return Err(EmptyName); }
      if name in definitions { return Err(Duplicate); }
      finalized := false;
      order := [];
      definitions := definitions[name := definition];
      return Ok(true);
    }

    /** Counts the in-graph dependencies of every factor and lists the dependents of each. */
    method CountEdges() returns (degree: Degrees, dependents: map<Name, seq<Name>>)
      ensures Counted(definitions, degree, [], [])
      ensures Dependents(definitions, dependents) && Inside(definitions, dependents)
    {
      var names := SortedKeys(definitions.Keys);
      SortedIsDistinct(names);
      degree, dependents := map[], map[];
      var k := 0;
      while k < |names|
        invariant 0 <= k <= |names|
        invariant CountedUpTo(definitions, degree, dependents, names[..k])
      {
        var name := names[k];
        ghost var before, listed := degree, dependents;
        assert name !in names[..k];
        assert names[..k + 1] == names[..k] + [name];
        degree, dependents := CountOne(name, degree, dependents);
        CountedOneMore(definitions, before, listed, names[..k], name, degree, dependents);
        k := k + 1;
      }
      assert names[..k] == names;
      AllCounted(definitions, degree, dependents, names);
    }

    /** The edges of one factor. */
    method CountOne(name: Name, degree: Degrees, dependents: map<Name, seq<Name>>)
      returns (degree': Degrees, dependents': map<Name, seq<Name>>)
      requires name in definitions && name !in degree
      ensures degree' == degree[name := Unmet(definitions[name].dependencies, definitions.Keys, [])]
      ensures EdgesAdded(definitions, dependents, dependents', name, definitions[name].dependencies)
    {
      hide EdgesAdded, Unmet, Listed, Repeat, Occurs;
      var deps := definitions[name].dependencies;
      degree', dependents' := degree[name := 0], dependents;
      NoEdges(definitions, dependents, name);
      var j := 0;
      while j < |deps|
        invariant 0 <= j <= |deps|
        invariant name in degree' && degree' == degree[name := degree'[name]]
        invariant degree'[name] == Unmet(deps[..j], definitions.Keys, [])
        invariant EdgesAdded(definitions, dependents, dependents', name, deps[..j])
      {
        var dep := deps[j];
        UnmetNext(deps, definitions.Keys, j);
        EdgeAdded(definitions, dependents, dependents', name, deps[..j], dep);
        assert deps[..j] + [dep] == deps[..j + 1];
        if dep in definitions {
          degree' := degree'[name := degree'[name] + 1];
          dependents' := dependents'[dep := Listed(dependents', dep) + [name]];
        }
        j := j + 1;
      }
      assert deps[..j] == deps;
    }

    /** Resolves the evaluation order: repeatedly emits the least ready factor. */
    method Finalize() returns (r: Result<bool, GraphError>)
      modifies this
      ensures definitions == old(definitions)
      ensures r.Ok? <==> Acyclic(definitions)
      ensures r.Ok? ==> finalized && IsTopological(definitions, order)
      ensures r.Ok? ==> forall t :: IsTopological(definitions, t) ==> ListLeq(order, t)
      ensures r.Err? ==> finalized == old(finalized) && r.error.Cycle?
                         && forall n :: n in r.error.stuck <==> n in definitions && n !in order
    {
      hide Counted, ReadyList, InOrder, Greedy, Dependents, Inside, SortBatch, Listed, IsTopological, Acyclic, ListLeq;
      order := [];
      var degree, dependents := CountEdges();
      var g := definitions;
      var ready := FirstReady(degree);
      EmptyOrder(g);
      while ready != []
        invariant definitions == g && finalized == old(finalized)
        invariant Counted(g, degree, order, []) && ReadyList(g, degree, order, ready)
        invariant InOrder(g, order) && Greedy(g, order)
        invariant Dependents(g, dependents) && Inside(g, dependents)
        decreases |g.Keys - Elements(order)|
      {
        var current := ready[0];
        ghost var before := order;
        EmitKeepsOrder(g, degree, order, ready);
        AfterEmit(g, degree, order, ready, dependents);
        ready := ready[1..];
        order := order + [current];
        ElementsGrow(g, before, current);
        var batch := SortBatch(Listed(dependents, current));
        degree, ready := Release(g, batch, order, degree, ready);
      }
      if |order| != |definitions| {
        var stuck := StuckNames(g, degree, order);
        StuckMeansCycle(g, degree, order);
        return Err(Cycle(stuck));
      }
      CompleteOrder(g, order);
      TopologicalMeansAcyclic(g, order);
      forall t | IsTopological(g, t)
        ensures ListLeq(order, t)
      {
        GreedyIsLeast(g, order, t);
      }
      finalized := true;
      return Ok(true);
    }

    /** The factors without in-graph dependencies. */
    method FirstReady(degree: Degrees) returns (ready: seq<Name>)
      requires Counted(definitions, degree, [], [])
      ensures ReadyList(definitions, degree, [], ready)
    {
      assert degree.Keys == definitions.Keys;
      hide Counted, Insert, Less, Sorted;
      var names := SortedKeys(degree.Keys);
      ready := [];
      var k := 0;
      while k < |names|
        invariant 0 <= k <= |names| && Sorted(ready)
        invariant forall n :: n in ready <==> n in names[..k] && degree[n] == 0
      {
        assert names[..k + 1] == names[..k] + [names[k]];
        if degree[names[k]] == 0 {
          SortedIsDistinct(names);
          InsertKeepsSorted(ready, names[k]);
          ready := Insert(ready, names[k]);
        }
        k := k + 1;
      }
      assert names[..k] == names;
    }

    /** Carries out a batch of decrements; a factor that reaches zero joins the ready list. */
    method Release(g: Graph, batch: seq<Name>, done: seq<Name>, degree: Degrees, ready: seq<Name>)
      returns (degree': Degrees, ready': seq<Name>)
      requires Counted(g, degree, done, batch) && ReadyList(g, degree, done, ready)
      requires forall n :: n in batch ==> n in g && n !in done
      ensures Counted(g, degree', done, []) && ReadyList(g, degree', done, ready')
    {
      degree', ready' := degree, ready;
      var k := 0;
      assert batch[k..] == batch;
      while k < |batch|
        invariant 0 <= k <= |batch|
        invariant Counted(g, degree', done, batch[k..]) && ReadyList(g, degree', done, ready')
      {
        var d := batch[k];
        ghost var rest := batch[k..];
        assert rest[0] == d && rest[1..] == batch[k + 1..];
        forall n ensures Occurs(rest, n) == (if n == d then 1 else 0) + Occurs(batch[k + 1..], n) {
          OccursFirst(rest, n);
        }
        assert d in batch;
        degree' := degree'[d := degree'[d] - 1];
        if degree'[d] == 0 {
          assert d !in ready';
          InsertKeepsSorted(ready', d);
          ready' := Insert(ready', d);
        }
        k := k + 1;
      }
      assert batch[k..] == [];
    }

    /** The names still waiting for something, in order. */
    method StuckNames(g: Graph, degree: Degrees, done: seq<Name>) returns (stuck: seq<Name>)
      requires Counted(g, degree, done, []) && ReadyList(g, degree, done, []) && InOrder(g, done)
      ensures Sorted(stuck) && forall n :: n in stuck <==> n in g && n !in done
    {
      StuckHaveUnmet(g, degree, done);
      stuck := SortedKeys(set n | n in degree && degree[n] > 0);
    }
  }

  // ---------------------------------------------------------------------------
  // Counting edges
  // ---------------------------------------------------------------------------

  /** The list of d grew by one entry `name` for every occurrence of d in `deps`, when d is in the graph. */
  predicate Grew(g: Graph, before: map<Name, seq<Name>>, after: map<Name, seq<Name>>, name: Name, deps: seq<Name>,
                 d: Name)
  {
    Listed(after, d) == Listed(before, d) + if d in g then Repeat(name, Occurs(deps, d)) else []
  }

  ghost predicate EdgesAdded(g: Graph, before: map<Name, seq<Name>>, after: map<Name, seq<Name>>, name: Name,
                             deps: seq<Name>)
  {
    forall d :: Grew(g, before, after, name, deps, d)
  }

  function Repeat(name: Name, n: nat): seq<Name> {
    if n == 0 then [] else Repeat(name, n - 1) + [name]
  }

  lemma {:induction false} OccursInRepeat(name: Name, n: nat, x: Name)
    ensures Occurs(Repeat(name, n), x) == if x == name then n else 0
  {
    if n > 0 {
      OccursInRepeat(name, n - 1, x);
      OccursSnoc(Repeat(name, n - 1), name, x);
    }
  }

  lemma NoEdges(g: Graph, before: map<Name, seq<Name>>, name: Name)
    ensures EdgesAdded(g, before, before, name, []) && Unmet([], g.Keys, []) == 0
  {
  }

  lemma UnmetNext(deps: seq<Name>, keys: set<Name>, j: nat)
    requires j < |deps|
    ensures Unmet(deps[..j + 1], keys, []) == Unmet(deps[..j], keys, []) + if deps[j] in keys then 1 else 0
  {
    assert deps[..j + 1][..j] == deps[..j];
  }

  /** The lists after one more dependency of the factor has been listed. */
  function Longer(g: Graph, lists: map<Name, seq<Name>>, name: Name, dep: Name): map<Name, seq<Name>> {
    if dep in g then lists[dep := Listed(lists, dep) + [name]] else lists
  }

  lemma EdgeAdded(g: Graph, before: map<Name, seq<Name>>, after: map<Name, seq<Name>>, name: Name, deps: seq<Name>,
                  dep: Name)
    requires EdgesAdded(g, before, after, name, deps)
    ensures EdgesAdded(g, before, Longer(g, after, name, dep), name, deps + [dep])
  {
    hide Grew, Listed, Longer;
    var longer := Longer(g, after, name, dep);
    forall d
      ensures Grew(g, before, longer, name, deps + [dep], d)
    {
      assert Grew(g, before, after, name, deps, d);
      ListGrows(g, before, after, name, deps, dep, d);
    }
  }

  lemma ListGrows(g: Graph, before: map<Name, seq<Name>>, after: map<Name, seq<Name>>, name: Name, deps: seq<Name>,
                  dep: Name, d: Name)
    requires Grew(g, before, after, name, deps, d)
    ensures Grew(g, before, Longer(g, after, name, dep), name, deps + [dep], d)
  {
    OccursSnoc(deps, dep, d);
    hide Occurs;
    if d == dep && dep in g {
      var n := Occurs(deps, dep);
      assert Listed(before, dep) + Repeat(name, n) + [name] == Listed(before, dep) + Repeat(name, n + 1);
    }
  }

  /** Degrees and lists are right for the factors handled so far. */
  ghost predicate CountedUpTo(g: Graph, degree: Degrees, dependents: map<Name, seq<Name>>, names: seq<Name>) {
    && degree.Keys == Elements(names) && degree.Keys <= g.Keys
    && (forall n :: n in degree ==> degree[n] == Unmet(g[n].dependencies, g.Keys, []))
    && (forall d, n :: d in g && n in g ==>
          Occurs(Listed(dependents, d), n) == if n in degree then Occurs(g[n].dependencies, d) else 0)
    && (forall d, n :: d in dependents && n in dependents[d] ==> n in g)
  }

  lemma CountedOneMore(g: Graph, degree: Degrees, dependents: map<Name, seq<Name>>, names: seq<Name>, name: Name,
                       degree': Degrees, dependents': map<Name, seq<Name>>)
    requires CountedUpTo(g, degree, dependents, names) && name in g && name !in names
    requires degree' == degree[name := Unmet(g[name].dependencies, g.Keys, [])]
    requires EdgesAdded(g, dependents, dependents', name, g[name].dependencies)
    ensures CountedUpTo(g, degree', dependents', names + [name])
  {
    hide Occurs, Unmet, Listed, EdgesAdded;
    assert Elements(names + [name]) == Elements(names) + {name};
    forall d, n | d in g && n in g
      ensures Occurs(Listed(dependents', d), n) == if n in degree' then Occurs(g[n].dependencies, d) else 0
    {
      OneMoreCount(g, dependents, dependents', name, d, n);
      assert name !in degree;
    }
    forall d, n | d in dependents' && n in dependents'[d]
      ensures n in g
    {
      ListedBefore(g, dependents, dependents', name, d, n);
    }
  }

  /** A listed factor is the new one or was listed before. */
  lemma ListedBefore(g: Graph, before: map<Name, seq<Name>>, after: map<Name, seq<Name>>, name: Name, d: Name, n: Name)
    requires name in g && EdgesAdded(g, before, after, name, g[name].dependencies) && d in after && n in after[d]
    ensures n == name || (d in before && n in before[d])
  {
    var k := Occurs(g[name].dependencies, d);
    assert Grew(g, before, after, name, g[name].dependencies, d);
    OccursIffIn(Repeat(name, k), n);
    OccursInRepeat(name, k, n);
    hide Occurs, Repeat;
  }

  lemma OneMoreCount(g: Graph, before: map<Name, seq<Name>>, after: map<Name, seq<Name>>, name: Name, d: Name, n: Name)
    requires name in g && EdgesAdded(g, before, after, name, g[name].dependencies) && d in g
    ensures Occurs(Listed(after, d), n)
            == Occurs(Listed(before, d), n) + if n == name then Occurs(g[name].dependencies, d) else 0
  {
    var k := Occurs(g[name].dependencies, d);
    assert Grew(g, before, after, name, g[name].dependencies, d);
    OccursAppend(Listed(before, d), Repeat(name, k), n);
    OccursInRepeat(name, k, n);
  }

  lemma AllCounted(g: Graph, degree: Degrees, dependents: map<Name, seq<Name>>, names: seq<Name>)
    requires CountedUpTo(g, degree, dependents, names) && forall n :: n in names <==> n in g
    ensures Counted(g, degree, [], []) && Dependents(g, dependents) && Inside(g, dependents)
  {
    assert degree.Keys == g.Keys;
  }

  function Listed(dependents: map<Name, seq<Name>>, d: Name): seq<Name> {
    if d in dependents then dependents[d] else []
  }

  /** Sorts a batch that may hold a name more than once. */
  function SortBatch(batch: seq<Name>): (r: seq<Name>)
    ensures forall n :: Occurs(r, n) == Occurs(batch, n)
    ensures forall n :: n in r <==> n in batch
  {
    if batch == [] then []
    else
      var front := SortBatch(batch[..|batch| - 1]);
      var x := batch[|batch| - 1];
      assert forall n :: Occurs(Insert(front, x), n) == Occurs(front, n) + (if n == x then 1 else 0) by {
        forall n ensures Occurs(Insert(front, x), n) == Occurs(front, n) + (if n == x then 1 else 0) {
          InsertOccurs(front, x, n);
        }
      }
      Insert(front, x)
  }

  lemma {:induction false} InsertOccurs(s: seq<Name>, x: Name, n: Name)
    ensures Occurs(Insert(s, x), n) == Occurs(s, n) + if n == x then 1 else 0
  {
    if s == [] {
      assert [x][..0] == [];
    } else if Less(x, s[0]) {
      OccursFirst([x] + s, n);
      assert ([x] + s)[1..] == s;
    } else {
      InsertOccurs(s[1..], x, n);
      var r := [s[0]] + Insert(s[1..], x);
      assert r[1..] == Insert(s[1..], x);
      OccursFirst(r, n);
      OccursFirst(s, n);
    }
  }

  function Elements(s: seq<Name>): set<Name> {
    set n | n in s
  }

  // ---------------------------------------------------------------------------
  // Why the loop is right
  // ---------------------------------------------------------------------------

  lemma ReadyIffMet(g: Graph, n: Name, done: seq<Name>)
    requires n in g
    ensures Ready(g, n, done) <==> Unmet(g[n].dependencies, g.Keys, done) == 0
  {
    UnmetZero(g[n].dependencies, g.Keys, done);
  }

  lemma ElementsGrow(g: Graph, order: seq<Name>, c: Name)
    requires c in g && c !in order
    ensures |g.Keys - Elements(order + [c])| < |g.Keys - Elements(order)|
  {
    assert g.Keys - Elements(order + [c]) == g.Keys - Elements(order) - {c};
    assert c in g.Keys - Elements(order);
  }

  lemma EmptyOrder(g: Graph)
    ensures InOrder(g, []) && Greedy(g, [])
  {
  }

  /** The head of the ready list extends the order, and it is the least choice. */
  lemma EmitKeepsOrder(g: Graph, degree: Degrees, order: seq<Name>, ready: seq<Name>)
    requires Counted(g, degree, order, []) && ReadyList(g, degree, order, ready) && ready != []
    requires InOrder(g, order) && Greedy(g, order)
    ensures InOrder(g, order + [ready[0]]) && Greedy(g, order + [ready[0]])
    ensures ready[0] in g && ready[0] !in order
  {
    hide Unmet, Occurs, Ready, Less, InOrder, Greedy;
    var current := ready[0];
    assert current in ready;
    ReadyIffMet(g, current, order);
    OccursInNothing(current);
    forall n | n in g && n !in order && Ready(g, n, order) && n != current
      ensures Less(current, n)
    {
      ReadyIffMet(g, n, order);
      OccursInNothing(n);
      assert n in ready;
      var k :| 0 <= k < |ready| && ready[k] == n;
    }
    InOrderSnoc(g, order, current);
    GreedySnoc(g, order, current);
  }

  lemma InOrderSnoc(g: Graph, order: seq<Name>, n: Name)
    requires InOrder(g, order) && n in g && n !in order && Ready(g, n, order)
    ensures InOrder(g, order + [n])
  {
    hide Ready;
    var longer := order + [n];
    forall i | 0 <= i < |longer|
      ensures longer[i] in g && Ready(g, longer[i], longer[..i])
    {
      assert longer[..i] == order[..i];
      if i == |order| {
        assert order[..i] == order;
      }
    }
  }

  lemma GreedySnoc(g: Graph, order: seq<Name>, c: Name)
    requires Greedy(g, order)
    requires forall n :: n in g && n !in order && Ready(g, n, order) && n != c ==> Less(c, n)
    ensures Greedy(g, order + [c])
  {
    hide Ready, Less;
    var longer := order + [c];
    forall i, n | 0 <= i < |longer| && n in g && n !in longer[..i] && Ready(g, n, longer[..i]) && n != longer[i]
      ensures Less(longer[i], n)
    {
      assert longer[..i] == order[..i];
      if i == |order| {
        assert order[..i] == order;
      }
    }
  }

  /** What a factor owes after an emission: its unmet dependencies and its places among the dependents. */
  lemma DegreeAfterEmit(g: Graph, degree: Degrees, order: seq<Name>, c: Name, dependents: map<Name, seq<Name>>, n: Name)
    requires Counted(g, degree, order, []) && Dependents(g, dependents) && c in g && c !in order && n in g
    ensures degree[n]
            == Unmet(g[n].dependencies, g.Keys, order + [c]) + Occurs(SortBatch(Listed(dependents, c)), n)
  {
    hide Unmet, Occurs;
    UnmetStep(g[n].dependencies, g.Keys, order, c);
    OccursInNothing(n);
  }

  /** After an emission the pending decrements are exactly the occurrences among the dependents. */
  lemma AfterEmit(g: Graph, degree: Degrees, order: seq<Name>, ready: seq<Name>, dependents: map<Name, seq<Name>>)
    requires Counted(g, degree, order, []) && ReadyList(g, degree, order, ready) && ready != []
    requires InOrder(g, order) && Dependents(g, dependents) && Inside(g, dependents)
    ensures var batch, longer := SortBatch(Listed(dependents, ready[0])), order + [ready[0]];
            && Counted(g, degree, longer, batch) && ReadyList(g, degree, longer, ready[1..])
            && forall n :: n in batch ==> n in g && n !in longer
  {
    hide Unmet, Occurs, SortBatch, InOrder, Dependents, Inside, Sorted, Listed;
    var current, longer := ready[0], order + [ready[0]];
    var batch := SortBatch(Listed(dependents, current));
    assert current in ready && current in g && current !in order;
    forall n | n in g
      ensures degree[n] == Unmet(g[n].dependencies, g.Keys, longer) + Occurs(batch, n)
    {
      DegreeAfterEmit(g, degree, order, current, dependents, n);
    }
    TailLosesHead(ready);
    forall n | n in batch
      ensures n in g && n !in longer
    {
      NotYetEmitted(g, degree, order, current, dependents, n);
    }
  }

  lemma OccursInNothing(n: Name)
    ensures Occurs([], n) == 0
  {
  }

  lemma TailLosesHead(ready: seq<Name>)
    requires Sorted(ready) && ready != []
    ensures Sorted(ready[1..]) && forall n :: n in ready[1..] <==> n in ready && n != ready[0]
  {
    SortedIsDistinct(ready);
    assert ready == [ready[0]] + ready[1..];
    forall n | n in ready[1..]
      ensures n != ready[0]
    {
      var k :| 0 <= k < |ready[1..]| && ready[1..][k] == n;
      assert ready[k + 1] == n;
    }
  }

  /** A dependent of the factor being emitted is still waiting. */
  lemma NotYetEmitted(g: Graph, degree: Degrees, order: seq<Name>, current: Name,
                      dependents: map<Name, seq<Name>>, n: Name)
    requires Counted(g, degree, order, []) && InOrder(g, order) && Dependents(g, dependents) && Inside(g, dependents)
    requires current in g && current !in order && degree[current] == 0
    requires n in Listed(dependents, current)
    ensures n in g && n !in order && n != current
  {
    OccursIffIn(Listed(dependents, current), n);
    OccursIffIn(g[n].dependencies, current);
    ReadyIffMet(g, current, order);
    hide Unmet;
    assert Occurs([], current) == 0;
    hide Occurs;
    assert current in g[n].dependencies;
    if n in order {
      OrderedIsMet(g, order, n);
    }
  }

  /** A factor that is already in the order has nothing unmet. */
  lemma OrderedIsMet(g: Graph, order: seq<Name>, n: Name)
    requires InOrder(g, order) && n in order
    ensures n in g && Ready(g, n, order)
  {
  }

  lemma StuckHaveUnmet(g: Graph, degree: Degrees, order: seq<Name>)
    requires Counted(g, degree, order, []) && ReadyList(g, degree, order, []) && InOrder(g, order)
    ensures forall n :: n in g ==> (degree[n] > 0 <==> n !in order)
  {
    forall n | n in g
      ensures degree[n] > 0 <==> n !in order
    {
      ReadyIffMet(g, n, order);
      if n in order {
        OrderedIsMet(g, order, n);
      } else {
        assert n !in [];
      }
    }
  }

  lemma {:induction false} DistinctSize(s: seq<Name>)
    requires NoDuplicates(s)
    ensures |Elements(s)| == |s|
  {
    if s == [] {
      assert Elements(s) == {};
    } else {
      var front, x := s[..|s| - 1], s[|s| - 1];
      DistinctSize(front);
      assert s == front + [x];
      assert Elements(s) == Elements(front) + {x};
      assert x !in front;
    }
  }

  /** As many emissions as factors means that every factor was emitted. */
  lemma CompleteOrder(g: Graph, order: seq<Name>)
    requires InOrder(g, order) && |order| == |g|
    ensures IsTopological(g, order)
  {
    DistinctSize(order);
    assert Elements(order) <= g.Keys;
    SubsetOfSameSize(Elements(order), g.Keys);
  }

  lemma SubsetOfSameSize(a: set<Name>, b: set<Name>)
    requires a <= b && |a| == |b|
    ensures a == b
  {
    assert |b - a| == |b| - |a|;
    assert b == a + (b - a);
  }

  lemma StuckWaits(g: Graph, degree: Degrees, order: seq<Name>, n: Name)
    requires Counted(g, degree, order, []) && ReadyList(g, degree, order, []) && n in g && n !in order
    ensures WaitsWithin(g, g.Keys - Elements(order), n)
  {
    ReadyIffMet(g, n, order);
    hide Unmet;
    assert n !in [];
    var d :| d in g[n].dependencies && d in g && d !in order;
    assert DependsOn(g, n, d) && d in g.Keys - Elements(order);
  }

  /** If the loop stops early, the factors left over contain a cycle. */
  lemma StuckMeansCycle(g: Graph, degree: Degrees, order: seq<Name>)
    requires Counted(g, degree, order, []) && ReadyList(g, degree, order, []) && InOrder(g, order)
    requires |order| != |g|
    ensures !Acyclic(g)
  {
    hide Counted, ReadyList, WaitsWithin, Acyclic, Greedy;
    var stuck := g.Keys - Elements(order);
    SomeLeftOver(g, order);
    hide InOrder;
    forall n | n in stuck
      ensures WaitsWithin(g, stuck, n)
    {
      StuckWaits(g, degree, order, n);
    }
    var p := FindCycle(g, stuck);
    CycleRefutes(g, p);
  }

  lemma CycleRefutes(g: Graph, p: seq<Name>)
    requires IsCycle(g, p)
    ensures !Acyclic(g)
  {
  }

  lemma SomeLeftOver(g: Graph, order: seq<Name>)
    requires InOrder(g, order) && |order| != |g|
    ensures g.Keys - Elements(order) != {}
  {
    hide Ready;
    DistinctSize(order);
    var all := g.Keys;
    assert Elements(order) <= all;
    assert |all - Elements(order)| == |all| - |Elements(order)|;
  }

  lemma SingleWalk(g: Graph, n: Name)
    ensures IsWalk(g, [n])
  {
  }

  lemma Awaited(g: Graph, stuck: set<Name>, n: Name) returns (d: Name)
    requires WaitsWithin(g, stuck, n)
    ensures d in stuck && DependsOn(g, n, d)
  {
    d :| d in stuck && DependsOn(g, n, d);
  }

  lemma {:induction false} WalkSnoc(g: Graph, p: seq<Name>, n: Name)
    requires p != [] && IsWalk(g, p) && DependsOn(g, p[|p| - 1], n)
    ensures IsWalk(g, p + [n])
  {
    if |p| >= 2 {
      WalkSnoc(g, p[1..], n);
      assert (p + [n])[1..] == p[1..] + [n];
    } else {
      assert (p + [n])[1..] == [n];
    }
  }

  lemma {:induction false} WalkSuffix(g: Graph, p: seq<Name>, i: nat)
    requires IsWalk(g, p) && i < |p|
    ensures IsWalk(g, p[i..])
  {
    if i > 0 {
      WalkSuffix(g, p[1..], i - 1);
      assert p[1..][i - 1..] == p[i..];
    } else {
      assert p[0..] == p;
    }
  }

  /** n has a dependency that is itself among the stuck factors. */
  ghost predicate WaitsWithin(g: Graph, stuck: set<Name>, n: Name) {
    exists d :: d in stuck && DependsOn(g, n, d)
  }

  /** A walk whose last factor waits for one on the walk holds a cycle. */
  lemma ClosesCycle(g: Graph, walk: seq<Name>, next: Name) returns (p: seq<Name>)
    requires walk != [] && IsWalk(g, walk) && DependsOn(g, walk[|walk| - 1], next) && next in walk
    ensures IsCycle(g, p)
  {
    hide IsWalk, DependsOn;
    var i :| 0 <= i < |walk| && walk[i] == next;
    WalkSuffix(g, walk, i);
    WalkSnoc(g, walk[i..], next);
    p := walk[i..] + [next];
  }

  lemma FewerLeft(stuck: set<Name>, walk: seq<Name>, next: Name)
    requires Elements(walk) <= stuck && next in stuck && next !in walk
    ensures Elements(walk + [next]) <= stuck
    ensures |stuck - Elements(walk + [next])| < |stuck - Elements(walk)|
  {
    assert stuck - Elements(walk + [next]) == stuck - Elements(walk) - {next};
    assert next in stuck - Elements(walk);
  }

  /** A non-empty set in which everyone depends on a member contains a cycle. */
  lemma FindCycle(g: Graph, stuck: set<Name>) returns (p: seq<Name>)
    requires stuck != {}
    requires forall n :: n in stuck ==> WaitsWithin(g, stuck, n)
    ensures IsCycle(g, p)
  {
    hide WaitsWithin, IsWalk, DependsOn;
    var first :| first in stuck;
    SingleWalk(g, first);
    var walk := [first];
    while true
      invariant walk != [] && IsWalk(g, walk) && Elements(walk) <= stuck
      decreases |stuck - Elements(walk)|
    {
      var last := walk[|walk| - 1];
      assert last in Elements(walk);
      var next := Awaited(g, stuck, last);
      if next in walk {
        p := ClosesCycle(g, walk, next);
        return;
      }
      WalkSnoc(g, walk, next);
      FewerLeft(stuck, walk, next);
      walk := walk + [next];
    }
  }

  function Position(s: seq<Name>, n: Name): (i: nat)
    requires n in s
    ensures i < |s| && s[i] == n && n !in s[..i]
  {
    if s[0] == n then 0
    else
      assert s == [s[0]] + s[1..];
      1 + Position(s[1..], n)
  }

  /** Along a walk the positions in a topological order fall. */
  lemma {:induction false} WalkGoesBack(g: Graph, order: seq<Name>, p: seq<Name>)
    requires IsTopological(g, order) && IsWalk(g, p) && |p| >= 2
    ensures p[0] in order && p[|p| - 1] in order && Position(order, p[|p| - 1]) < Position(order, p[0])
  {
    hide Position;
    var i := Position(order, p[0]);
    assert DependsOn(g, p[0], p[1]);
    assert Ready(g, order[i], order[..i]);
    assert p[1] in order[..i];
    PositionBefore(order, i, p[1]);
    if |p| > 2 {
      WalkGoesBack(g, order, p[1..]);
    }
  }

  lemma PositionBefore(s: seq<Name>, i: nat, n: Name)
    requires i <= |s| && n in s[..i]
    ensures n in s && Position(s, n) < i
  {
  }

  /** A graph with a topological order has no cycle. */
  lemma TopologicalMeansAcyclic(g: Graph, order: seq<Name>)
    requires IsTopological(g, order)
    ensures Acyclic(g)
  {
    forall p
      ensures !IsCycle(g, p)
    {
      if IsWalk(g, p) && |p| >= 2 {
        WalkGoesBack(g, order, p);
      }
    }
  }

  /** Taking the least ready factor every time gives the least topological order of all. */
  lemma GreedyIsLeast(g: Graph, order: seq<Name>, t: seq<Name>)
    requires IsTopological(g, order) && Greedy(g, order) && IsTopological(g, t)
    ensures ListLeq(order, t)
  {
    SameLength(g, order, t);
    if order != t {
      var i := FirstDifference(order, t);
      assert t[i] !in t[..i];
      assert Ready(g, t[i], t[..i]);
      assert t[i] !in order[..i];
    }
  }

  lemma SameLength(g: Graph, a: seq<Name>, b: seq<Name>)
    requires IsTopological(g, a) && IsTopological(g, b)
    ensures |a| == |b|
  {
    DistinctSize(a);
    DistinctSize(b);
    assert Elements(a) == g.Keys && Elements(b) == g.Keys;
  }

  lemma {:induction false} FirstDifference(a: seq<Name>, b: seq<Name>) returns (i: nat)
    requires |a| == |b| && a != b
    ensures i < |a| && a[..i] == b[..i] && a[i] != b[i]
    decreases |a|
  {
    if a[0] != b[0] {
      i := 0;
    } else {
      assert a == [a[0]] + a[1..] && b == [b[0]] + b[1..];
      var j := FirstDifference(a[1..], b[1..]);
      i := j + 1;
      assert a[..i] == [a[0]] + a[1..][..j] && b[..i] == [b[0]] + b[1..][..j];
    }
  }
}
