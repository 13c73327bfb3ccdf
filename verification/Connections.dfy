/** The live connection: its state machine, heartbeat, reconnect policy and message hygiene.
    What the transport answers and what the clock reads are parameters of each call. */
module Connections {
  import opened Types

  datatype ConnectionState =
    | Disconnected | Connecting | Connected | Synchronizing | Ready | Degraded | Reconnecting | Failed

  datatype MessageKind =
    | Heartbeat | OrderAccepted | OrderRejected | OrderCancelled | OrderReplaced | PartialFill | FilledWhole
    | AccountUpdate | Quote | TradePrint | Unknown

  datatype Message = Message(
    kind: MessageKind, sequence: nat, venueTime: Timestamp, receivedTime: Timestamp, venueOrderId: string,
    fillId: string, clientOrderId: string, quantity: real, price: real, commission: real, exchangeFee: real)

  datatype HeartbeatConfig = HeartbeatConfig(degradedAfter: Duration, deadAfter: Duration)
  datatype SupervisorConfig = SupervisorConfig(
    initialBackoff: Duration, maxBackoff: Duration, multiplier: real, maxAttempts: nat)
  datatype LinkConfig = LinkConfig(heartbeat: HeartbeatConfig, supervisor: SupervisorConfig)

  datatype HeartbeatState = HeartbeatState(lastHeartbeat: Timestamp, lastActivity: Timestamp)
  datatype SupervisorState = SupervisorState(backoff: Duration, nextAttempt: Timestamp, attempts: nat)

  datatype LinkState = LinkState(
    state: ConnectionState, lastSequence: nat, recentIds: seq<string>, heartbeat: HeartbeatState,
    supervisor: SupervisorState)

  datatype LinkError = OpenFailed | AttemptsExhausted | NotSynchronizing | NotPermitted | TransportRefused

  /** How many venue fill ids are remembered on a stream without sequence numbers. */
  const RECENT_ID_CAPACITY: nat := 4096

  /** A venue time this far ahead of receipt is not believed. */
  const FUTURE_ALLOWANCE: Duration := 5_000_000_000

  // ---------------------------------------------------------------------------
  // Heartbeat
  // ---------------------------------------------------------------------------

  function SinceLast(h: HeartbeatState, now: Timestamp): Duration {
    var reference := if IsSet(h.lastActivity) then h.lastActivity else h.lastHeartbeat;
    if !IsSet(reference) || !IsSet(now) || now < reference then 0 else now - reference
  }

  predicate Late(h: HeartbeatState, c: HeartbeatConfig, now: Timestamp) {
    c.degradedAfter < SinceLast(h, now) <= c.deadAfter
  }

  predicate Dead(h: HeartbeatState, c: HeartbeatConfig, now: Timestamp) {
    (IsSet(h.lastActivity) || IsSet(h.lastHeartbeat)) && SinceLast(h, now) > c.deadAfter
  }

  function Beating(h: HeartbeatState, now: Timestamp): HeartbeatState {
    HeartbeatState(now, now)
  }

  function Active(h: HeartbeatState, now: Timestamp): HeartbeatState {
    HeartbeatState(if IsSet(h.lastHeartbeat) then h.lastHeartbeat else now, now)
  }

  // ---------------------------------------------------------------------------
  // Reconnect policy
  // ---------------------------------------------------------------------------

  predicate Exhausted(s: SupervisorState, c: SupervisorConfig) {
    c.maxAttempts > 0 && s.attempts >= c.maxAttempts
  }

  predicate ShouldAttempt(s: SupervisorState, c: SupervisorConfig, now: Timestamp) {
    !Exhausted(s, c) && (!IsSet(s.nextAttempt) || (IsSet(now) && now >= s.nextAttempt))
  }

  /** The delay after the next failure: multiplied, truncated to whole nanoseconds and capped. */
  function NextBackoff(c: SupervisorConfig, backoff: Duration): Duration {
    var product := backoff as real * c.multiplier;
    var next := if product >= 0.0 then product.Floor else -(-product).Floor;
    if c.maxBackoff < next then c.maxBackoff else next
  }

  function Attempted(s: SupervisorState, c: SupervisorConfig, now: Timestamp): SupervisorState {
    SupervisorState(NextBackoff(c, s.backoff), if IsSet(now) then now + s.backoff else s.nextAttempt, s.attempts + 1)
  }

  function Succeeded(s: SupervisorState, c: SupervisorConfig, now: Timestamp): SupervisorState {
    SupervisorState(c.initialBackoff, now, 0)
  }

  function FailedAt(s: SupervisorState, now: Timestamp): SupervisorState {
    if IsSet(now) then s.(nextAttempt := now + s.backoff) else s
  }

  // ---------------------------------------------------------------------------
  // The state machine
  // ---------------------------------------------------------------------------

  function NewLink(c: LinkConfig): LinkState {
    LinkState(Disconnected, 0, [], HeartbeatState(NO_TIMESTAMP, NO_TIMESTAMP),
              SupervisorState(c.supervisor.initialBackoff, NO_TIMESTAMP, 0))
  }

  type LinkOutcome = (LinkState, Result<bool, LinkError>)

  function Connects(l: LinkState, c: LinkConfig, now: Timestamp, opens: bool): LinkOutcome {
    if l.state == Ready || l.state == Connected then (l, Ok(true))
    else
      var tried := Attempted(l.supervisor, c.supervisor, now);
      if !opens then (l.(state := Failed, supervisor := FailedAt(tried, now)), Err(OpenFailed))
      else (l.(state := Synchronizing, supervisor := Succeeded(tried, c.supervisor, now),
               heartbeat := HeartbeatState(now, now)), Ok(true))
  }

  function MaybeReconnects(l: LinkState, c: LinkConfig, now: Timestamp, opens: bool): LinkOutcome {
    if !ShouldAttempt(l.supervisor, c.supervisor, now) then (l, Ok(false))
    else if Exhausted(l.supervisor, c.supervisor) then (l.(state := Failed), Err(AttemptsExhausted))
    else Connects(l.(state := Reconnecting), c, now, opens)
  }

  function Marks(l: LinkState): LinkOutcome {
    if l.state != Synchronizing && l.state != Degraded then (l, Err(NotSynchronizing))
    else (l.(state := Ready), Ok(true))
  }

  function Ticks(l: LinkState, c: LinkConfig, now: Timestamp): LinkState {
    if l.state != Ready && l.state != Degraded then l
    else if Dead(l.heartbeat, c.heartbeat, now) then l.(state := Reconnecting)
    else if Late(l.heartbeat, c.heartbeat, now) then l.(state := Degraded)
    else l.(state := Ready)
  }

  /** A send reaches the transport only in the Ready state. */
  function Sends(l: LinkState, accepts: bool): Result<bool, LinkError> {
    if l.state != Ready then Err(NotPermitted) else if accepts then Ok(true) else Err(TransportRefused)
  }

  // ---------------------------------------------------------------------------
  // Message hygiene
  // ---------------------------------------------------------------------------

  predicate FutureDated(m: Message, now: Timestamp) {
    IsSet(m.venueTime) && IsSet(now) && m.venueTime > now + FUTURE_ALLOWANCE
  }

  predicate Considered(m: Message) {
    m.kind != Heartbeat && m.kind != Unknown
  }

  /** Remembers one more id and forgets the oldest beyond the capacity. */
  function Remember(ids: seq<string>, id: string): seq<string> {
    var more := ids + [id];
    if |more| > RECENT_ID_CAPACITY then more[1..] else more
  }

  /** Takes one message in: consumed, dropped as a duplicate or as future-dated, or accepted. */
  function Sifting(l: LinkState, m: Message, now: Timestamp): (LinkState, seq<Message>) {
    var active := l.(heartbeat := Active(l.heartbeat, now));
    if m.kind == Heartbeat then (active.(heartbeat := Beating(active.heartbeat, now)), [])
    else if m.kind == Unknown then (active, [])
    else if m.sequence != 0 && m.sequence <= l.lastSequence then (active, [])
    else if m.sequence == 0 && m.fillId != "" && m.fillId in l.recentIds then (active, [])
    else
      var noted := if m.sequence != 0 then active.(lastSequence := m.sequence)
                   else if m.fillId != "" then active.(recentIds := Remember(l.recentIds, m.fillId))
                   else active;
      (noted, if FutureDated(m, now) then [] else [m.(receivedTime := now)])
  }

  function Draining(l: LinkState, inbox: seq<Message>, now: Timestamp): (LinkState, seq<Message>) {
    if inbox == [] then (l, [])
    else
      var (before, accepted) := Draining(l, inbox[..|inbox| - 1], now);
      var (after, more) := Sifting(before, inbox[|inbox| - 1], now);
      (after, accepted + more)
  }

  function Polls(l: LinkState, isOpen: bool, inbox: seq<Message>, now: Timestamp): (LinkState, seq<Message>) {
    if isOpen then Draining(l, inbox, now) else (l, [])
  }

  // ---------------------------------------------------------------------------
  // The connection object
  // ---------------------------------------------------------------------------

  class LiveConnection {
    const config: LinkConfig
    var state: ConnectionState
    var lastSequence: nat
    var recentIds: seq<string>
    var heartbeat: HeartbeatState
    var supervisor: SupervisorState

    function State(): LinkState
      reads this
    {
      LinkState(state, lastSequence, recentIds, heartbeat, supervisor)
    }

    constructor (config: LinkConfig)
      ensures State() == NewLink(config) && this.config == config
    {
      this.config := config;
      state, lastSequence, recentIds := Disconnected, 0, [];
      heartbeat := HeartbeatState(NO_TIMESTAMP, NO_TIMESTAMP);
      supervisor := SupervisorState(config.supervisor.initialBackoff, NO_TIMESTAMP, 0);
    }

    method Connect(now: Timestamp, opens: bool) returns (r: Result<bool, LinkError>)
      modifies this
      ensures (State(), r) == Connects(old(State()), config, now, opens)
    {
      if state == Ready || state == Connected { return Ok(true); }
      state := Connecting;
      supervisor := Attempted(supervisor, config.supervisor, now);
      if !opens {
        state := Failed;
        supervisor := FailedAt(supervisor, now);
        return Err(OpenFailed);
      }
      supervisor := Succeeded(supervisor, config.supervisor, now);
      heartbeat := HeartbeatState(now, now);
      state := Synchronizing;
      return Ok(true);
    }

    method Disconnect()
      modifies this`state
      ensures state == Disconnected
    {
      state := Disconnected;
    }

    method MaybeReconnect(now: Timestamp, opens: bool) returns (r: Result<bool, LinkError>)
      modifies this
      ensures (State(), r) == MaybeReconnects(old(State()), config, now, opens)
    {
      if !ShouldAttempt(supervisor, config.supervisor, now) { return Ok(false); }
      if Exhausted(supervisor, config.supervisor) {
        assert false; // an exhausted supervisor has already declined the attempt
      }
      state := Reconnecting;
      r := Connect(now, opens);
    }

    method MarkSynchronized() returns (r: Result<bool, LinkError>)
      modifies this`state
      ensures (State(), r) == Marks(old(State()))
    {
      if state != Synchronizing && state != Degraded { return Err(NotSynchronizing); }
      state := Ready;
      return Ok(true);
    }

    method Send(accepts: bool) returns (r: Result<bool, LinkError>)
      ensures r == Sends(State(), accepts)
    {
      if state != Ready { return Err(NotPermitted); }
      if accepts { return Ok(true); }
      return Err(TransportRefused);
    }

    method Tick(now: Timestamp)
      modifies this`state
      ensures State() == Ticks(old(State()), config, now)
    {
      if state == Ready || state == Degraded {
        if Dead(heartbeat, config.heartbeat, now) {
          state := Reconnecting;
        } else if Late(heartbeat, config.heartbeat, now) {
          state := Degraded;
        } else if state == Degraded {
          state := Ready;
        }
      }
    }

    method Poll(isOpen: bool, inbox: seq<Message>, now: Timestamp) returns (accepted: seq<Message>)
      modifies this
      ensures (State(), accepted) == Polls(old(State()), isOpen, inbox, now)
    {
      accepted := [];
      if !isOpen { return; }
      var k := 0;
      while k < |inbox|
        invariant 0 <= k <= |inbox|
        invariant (State(), accepted) == Draining(old(State()), inbox[..k], now)
      {
        var m := inbox[k];
        assert inbox[..k + 1][..k] == inbox[..k];
        k := k + 1;
        ghost var before, passed := State(), accepted;
        heartbeat := Active(heartbeat, now);
        if m.kind == Heartbeat {
          heartbeat := Beating(heartbeat, now);
        } else if m.kind != Unknown {
          var duplicate := false;
          if m.sequence != 0 {
            duplicate := m.sequence <= lastSequence;
            if !duplicate { lastSequence := m.sequence; }
          } else if m.fillId != "" {
            duplicate := m.fillId in recentIds;
            if !duplicate {
              recentIds := recentIds + [m.fillId];
              if |recentIds| > RECENT_ID_CAPACITY { recentIds := recentIds[1..]; }
            }
          }
          if !duplicate && !FutureDated(m, now) {
            accepted := accepted + [m.(receivedTime := now)];
          }
        }
        assert passed + [] == passed;
        assert (State(), accepted) == (Sifting(before, m, now).0, passed + Sifting(before, m, now).1);
      }
      assert inbox[..k] == inbox;
    }
  }
}
