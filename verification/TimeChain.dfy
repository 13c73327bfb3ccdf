/** The timestamp chain that every order and fill carries from the exchange to the acknowledgement. */
module TimeChain {
  import opened Types

  datatype Stage =
    | ExchangeTime | ReceiveTime | FeatureEndTime | DecisionTime
    | SubmittedTime | ArrivalTime | FillTime | AckTime

  datatype LifecycleTimes = LifecycleTimes(
    exchange: Timestamp, receive: Timestamp, featureEnd: Timestamp, decision: Timestamp,
    submitted: Timestamp, arrival: Timestamp, fill: Timestamp, ack: Timestamp)
  {
    function At(s: Stage): Timestamp {
      match s
      case ExchangeTime => exchange
      case ReceiveTime => receive
      case FeatureEndTime => featureEnd
      case DecisionTime => decision
      case SubmittedTime => submitted
      case ArrivalTime => arrival
      case FillTime => fill
      case AckTime => ack
    }
  }

  const NO_TIMES := LifecycleTimes(NO_TIMESTAMP, NO_TIMESTAMP, NO_TIMESTAMP, NO_TIMESTAMP,
                                   NO_TIMESTAMP, NO_TIMESTAMP, NO_TIMESTAMP, NO_TIMESTAMP)

  /** The stages in chain order; neighbours in this list are the edges of the chain. */
  const STAGES: seq<Stage> :=
    [ExchangeTime, ReceiveTime, FeatureEndTime, DecisionTime, SubmittedTime, ArrivalTime, FillTime, AckTime]

  datatype ChainRule = Monotonic | StrictlyAfter
  datatype ChainViolation = ChainViolation(earlier: Stage, later: Stage, rule: ChainRule)

  predicate EdgeBroken(t: LifecycleTimes, i: nat)
    requires i + 1 < |STAGES|
  {
    var a, b := t.At(STAGES[i]), t.At(STAGES[i + 1]);
    IsSet(a) && IsSet(b) && b < a
  }

  predicate FirstBroken(t: LifecycleTimes, i: nat)
    requires i + 1 < |STAGES|
  {
    EdgeBroken(t, i) && forall j: nat :: j < i ==> !EdgeBroken(t, j)
  }

  /** Decision and arrival are both stamped and the arrival is not strictly later. */
  predicate SameBar(t: LifecycleTimes) {
    IsSet(t.decision) && IsSet(t.arrival) && t.arrival <= t.decision
  }

  /** Reports the first broken rule; the same-bar rule is looked at before the edges. */
  method ValidateChain(t: LifecycleTimes) returns (v: Option<ChainViolation>)
    ensures v.None? <==> ChainOk(t)
    ensures SameBar(t) ==> v == Some(ChainViolation(DecisionTime, ArrivalTime, StrictlyAfter))
    ensures v.Some? && !SameBar(t) ==>
              exists i: nat :: i + 1 < |STAGES| && FirstBroken(t, i)
                && v.value == ChainViolation(STAGES[i], STAGES[i + 1], Monotonic)
  {
    if SameBar(t) {
      return Some(ChainViolation(DecisionTime, ArrivalTime, StrictlyAfter));
    }
    var i := 0;
    while i + 1 < |STAGES|
      invariant 0 <= i < |STAGES|
      invariant forall j: nat :: j < i ==> !EdgeBroken(t, j)
    {
      if EdgeBroken(t, i) {
        return Some(ChainViolation(STAGES[i], STAGES[i + 1], Monotonic));
      }
      i := i + 1;
    }
    return None;
  }

  /** The chain has no violation: neighbouring stamped stages never go backwards, and an
      arrival is strictly after its decision. */
  predicate ChainOk(t: LifecycleTimes) {
    !SameBar(t) && forall i: nat :: i + 1 < |STAGES| ==> !EdgeBroken(t, i)
  }

  /** Every two stamped stages are in order, however far apart they are. */
  predicate FullyOrdered(t: LifecycleTimes) {
    forall i: nat, k: nat :: i < k < |STAGES| && IsSet(t.At(STAGES[i])) && IsSet(t.At(STAGES[k]))
      ==> t.At(STAGES[i]) <= t.At(STAGES[k])
  }

  /** Which stages are stamped, in chain order. */
  type Pattern = p: seq<bool> | |p| == 8 witness [true, true, true, true, true, true, true, true]

  predicate HasPattern(t: LifecycleTimes, p: Pattern) {
    forall i :: 0 <= i < |STAGES| ==> (IsSet(t.At(STAGES[i])) <==> p[i])
  }

  /** Two stamped stages with no stamped stage between them. */
  predicate Consecutive(p: Pattern, i: nat, k: nat) {
    i < k < |STAGES| && p[i] && p[k] && forall j :: i < j < k ==> !p[j]
  }

  /** Consecutive stamps that some rule compares: neighbours, and a decision with an arrival. */
  predicate Compared(i: nat, k: nat) {
    k == i + 1 || (i == 3 && k == 5)
  }

  /** The only stage that may be missing between two stamped ones is the submission between decision and arrival. */
  ghost predicate Gapless(p: Pattern) {
    forall i: nat, k: nat :: Consecutive(p, i, k) ==> Compared(i, k)
  }

  /** The last stamped stage before a stamped one that is not the first. */
  ghost function LastBefore(p: Pattern, i: nat, k: nat): (j: nat)
    requires i < k < |STAGES| && p[i] && p[k]
    ensures i <= j < k && p[j] && Consecutive(p, j, k)
    decreases k - i
  {
    if exists j :: i < j < k && p[j] then
      var j: nat :| i < j < k && p[j];
      LastBefore(p, j, k)
    else i
  }

  lemma ComparedStampsAreOrdered(t: LifecycleTimes, i: nat, k: nat)
    requires ChainOk(t) && i < k < |STAGES| && Compared(i, k)
    requires IsSet(t.At(STAGES[i])) && IsSet(t.At(STAGES[k]))
    ensures t.At(STAGES[i]) <= t.At(STAGES[k])
  {
    if k == i + 1 {
      assert !EdgeBroken(t, i);
    }
  }

  /** On a gapless chain the checks order all stamped stages, not only the compared ones. */
  lemma {:induction false} GaplessChainIsOrdered(t: LifecycleTimes, p: Pattern, i: nat, k: nat)
    requires ChainOk(t) && HasPattern(t, p) && Gapless(p)
    requires i < k < |STAGES| && p[i] && p[k]
    ensures t.At(STAGES[i]) <= t.At(STAGES[k])
    decreases k
  {
    var j := LastBefore(p, i, k);
    ComparedStampsAreOrdered(t, j, k);
    if i < j {
      GaplessChainIsOrdered(t, p, i, j);
    }
  }

  /** A time for a stamped stage, or no time. */
  ghost function Stamp(p: Pattern, i: nat, time: Timestamp): Timestamp
    requires i < |STAGES|
  {
    if p[i] then time else NO_TIMESTAMP
  }

  /** A chain that ascends up to the gap and again after it, but falls over the gap. */
  ghost function FallingOver(p: Pattern, gap: nat): LifecycleTimes {
    var at := (i: nat) requires i < |STAGES| => Stamp(p, i, if i <= gap then 100 + i else i);
    LifecycleTimes(at(0), at(1), at(2), at(3), at(4), at(5), at(6), at(7))
  }

  /** Every gap that nothing compares hides disorder: a chain with these stamps is accepted and not in order. */
  lemma GapHidesDisorder(p: Pattern, i: nat, k: nat)
    requires Consecutive(p, i, k) && !Compared(i, k)
    ensures var t := FallingOver(p, i);
            HasPattern(t, p) && ChainOk(t) && t.At(STAGES[i]) > t.At(STAGES[k])
  {
    var t := FallingOver(p, i);
    assert forall j: nat :: j < |STAGES| ==> t.At(STAGES[j]) == Stamp(p, j, if j <= i then 100 + j else j);
    forall j: nat | j + 1 < |STAGES|
      ensures !EdgeBroken(t, j)
    {
      assert j != i || !p[j + 1];
    }
    assert t.decision == t.At(STAGES[3]) && t.arrival == t.At(STAGES[5]);
    assert p[3] && p[5] ==> i < 3 || i >= 5;
  }

  /** The neighbour checks order every accepted chain with given stamps exactly when these leave no gap other than a
      missing submission between decision and arrival. */
  lemma OrderedExactlyWithoutGaps(p: Pattern)
    ensures Gapless(p) <==> forall t :: HasPattern(t, p) && ChainOk(t) ==> FullyOrdered(t)
  {
    if Gapless(p) {
      forall t | HasPattern(t, p) && ChainOk(t)
        ensures FullyOrdered(t)
      {
        forall i: nat, k: nat | i < k < |STAGES| && IsSet(t.At(STAGES[i])) && IsSet(t.At(STAGES[k]))
          ensures t.At(STAGES[i]) <= t.At(STAGES[k])
        {
          GaplessChainIsOrdered(t, p, i, k);
        }
      }
    } else {
      var i: nat, k: nat :| Consecutive(p, i, k) && !Compared(i, k);
      GapHidesDisorder(p, i, k);
      assert !FullyOrdered(FallingOver(p, i));
    }
  }

  /** An accepted chain with a decision, an arrival and a fill puts the fill strictly after the decision. */
  lemma FillFollowsDecision(t: LifecycleTimes)
    requires ChainOk(t) && IsSet(t.decision) && IsSet(t.arrival) && IsSet(t.fill)
    ensures t.decision < t.arrival <= t.fill
  {
    assert !EdgeBroken(t, 5);
  }
}
