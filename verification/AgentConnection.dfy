/** The agent's connection to the controller: connecting, being accepted, noticing that the
    controller is gone, and trying again with every tick of the heartbeat timer. */
module AgentConnection {
  import opened CStrings
  import opened Liveness

  datatype State = Disconnected | Connected | Retry | Connecting

  /** `serials` counts the Register calls made; `slot` is the call the agent still has a slot
      for, `awaited` the one whose reply can still come, `acceptedBy` the call whose reply set
      the state to Connected.  `registered` is the connection the last call was made on. */
  datatype Link = Link(
    state: State, bus: Option<nat>, buses: nat, slot: Option<nat>, awaited: Option<nat>, serials: nat,
    registered: nat, acceptedBy: nat, retries: nat, lastSeen: nat, lostAt: nat, lostAtMonotonic: nat,
    attempts: nat, beats: nat)

  /** How an attempt turns out: whether the address resolves, the bus opens and the call is sent. */
  datatype Attempt = Attempt(resolved: bool, opens: bool, called: bool)

  /** Clock readings, real time and monotonic. */
  datatype Clock = Clock(real_: nat, monotonic: nat)

  const USEC_INFINITY := 0xFFFF_FFFF_FFFF_FFFF

  predicate Readable(now: Clock) {
    now.real_ != USEC_INFINITY && now.monotonic != USEC_INFINITY
  }

  datatype Event =
    | Started(a: Attempt)
    | RegisterReply(serial: nat, ok: bool, now: Clock)
    | ConnectionLost(now: Clock, a: Attempt)
    | ControllerSwitched(now: Clock, a: Attempt)
    | ControllerHeartbeat(now: Clock)
    | Tick(thresholdMsec: int, now: Clock, first: Attempt, second: Attempt)
    | Stopped

  // ---------------------------------------------------------------- what the handlers do

  function BusClosed(l: Link): Link {
    l.(slot := None, awaited := None, bus := None)
  }

  function ConnectTried(l: Link, a: Attempt): Link {
    var connecting := l.(state := Connecting);
    if !a.opens then connecting.(bus := None)
    else
      var open := connecting.(bus := Some(l.buses), buses := l.buses + 1);
      if !a.called then open
      else open.(serials := l.serials + 1, slot := Some(l.serials + 1), awaited := Some(l.serials + 1),
                 registered := l.buses)
  }

  /** An address that does not resolve leaves everything as it is. */
  function ReconnectTried(l: Link, a: Attempt): Link {
    var tried := l.(attempts := l.attempts + 1);
    if a.resolved then ConnectTried(BusClosed(tried), a) else tried
  }

  predicate Succeeds(a: Attempt) {
    a.resolved && a.opens && a.called
  }

  function LostController(l: Link, now: Clock, a: Attempt): Link {
    ReconnectTried(l.(state := Retry, lostAt := now.real_, lostAtMonotonic := now.monotonic), a)
  }

  /** A rejected Register leaves the agent connecting: the handler's negative result counts as true. */
  function ReplyTaken(l: Link, ok: bool, now: Clock): Link
    requires l.awaited.Some?
  {
    var answered := l.(awaited := None);
    if l.state != Connecting then answered.(slot := None)
    else if !ok then answered
    else answered.(state := Connected, retries := 0, lastSeen := now.monotonic, lostAt := 0, lostAtMonotonic := 0,
                   acceptedBy := l.awaited.value)
  }

  predicate ControllerSilent(l: Link, thresholdMsec: int, now: nat) {
    now != USEC_INFINITY && Overdue(thresholdMsec, now, l.lastSeen)
  }

  function GivenUp(l: Link): Link {
    if l.state == Connecting then l.(state := Retry, slot := None, awaited := if l.slot.Some? then None else l.awaited)
    else l
  }

  function Retried(l: Link, a: Attempt): Link {
    ReconnectTried(l.(retries := l.retries + 1), a)
  }

  function Ticked(l: Link, thresholdMsec: int, now: Clock, first: Attempt, second: Attempt): Link {
    var m := GivenUp(l);
    if m.state == Connected then
      if !ControllerSilent(m, thresholdMsec, now.monotonic) then m.(beats := m.beats + 1)
      else
        var lost := LostController(m, now, first);
        if lost.state == Retry then Retried(lost, second) else lost
    else if m.state == Retry then Retried(m, first)
    else m
  }

  function After(l: Link, e: Event): Link
    requires Enabled(l, e)
  {
    match e
    case Started(a) =>
      var tried := ConnectTried(l.(attempts := l.attempts + 1), a);
      if a.opens && a.called then tried else tried.(state := Retry)
    case RegisterReply(_, ok, now) => ReplyTaken(l, ok, now)
    case ConnectionLost(now, a) => LostController(l, now, a)
    case ControllerSwitched(now, a) => LostController(l, now, a)
    case ControllerHeartbeat(now) => if Readable(now) then l.(lastSeen := now.monotonic) else l
    case Tick(t, now, first, second) => Ticked(l, t, now, first, second)
    case Stopped => BusClosed(l).(state := Disconnected)
  }

  /** The agent was accepted on the connection it has now. */
  predicate AcceptedHere(l: Link) {
    l.bus == Some(l.registered) && l.acceptedBy == l.serials > 0
  }

  /** A reply comes for the awaited call only.  The handlers for a lost connection and for
      heartbeats are put in place when the agent is accepted on it. */
  predicate Enabled(l: Link, e: Event) {
    match e
    case Started(_) => l == INITIAL
    case RegisterReply(serial, _, _) => l.awaited == Some(serial)
    case ConnectionLost(_, _) => AcceptedHere(l)
    case ControllerSwitched(_, _) => l.state != Disconnected
    case ControllerHeartbeat(_) => AcceptedHere(l)
    case Tick(_, _, _, _) => l.state != Disconnected
    case Stopped => l.state != Disconnected
  }

  const INITIAL := Link(Disconnected, None, 0, None, None, 0, 0, 0, 0, 0, 0, 0, 0, 0)

  function RunOf(es: seq<Event>): Option<Link> {
    if es == [] then Some(INITIAL)
    else
      var before, e := RunOf(es[..|es| - 1]), es[|es| - 1];
      if before.Some? && Enabled(before.value, e) then Some(After(before.value, e)) else None
  }

  // ---------------------------------------------------------------- the invariant

  ghost predicate Inv(l: Link) {
    && (l.bus.Some? ==> l.bus.value < l.buses)
    && (l.awaited.Some? ==> l.slot == l.awaited && l.awaited.value == l.serials && l.bus == Some(l.registered))
    && (l.slot.Some? ==> l.slot.value == l.serials > 0 && l.bus == Some(l.registered))
    && (l.state == Connected ==>
          && l.acceptedBy == l.serials > 0 && l.awaited == None
          && l.bus == Some(l.registered)
          && l.retries == 0 && l.lostAt == 0 && l.lostAtMonotonic == 0)
    && (l.state == Disconnected ==> l.bus == None)
    && l.acceptedBy <= l.serials
    && (l.awaited.Some? ==> l.acceptedBy < l.serials)
  }

  lemma ReconnectKeeps(l: Link, a: Attempt)
    requires Inv(l) && l.state == Retry
    ensures Inv(ReconnectTried(l, a)) && ReconnectTried(l, a).state != Connected
  {
  }

  lemma LostKeeps(l: Link, now: Clock, a: Attempt)
    requires Inv(l)
    ensures Inv(LostController(l, now, a)) && LostController(l, now, a).state != Connected
  {
    var lost := l.(state := Retry, lostAt := now.real_, lostAtMonotonic := now.monotonic);
    ReconnectKeeps(lost, a);
  }

  lemma GivenUpKeeps(l: Link)
    requires Inv(l)
    ensures Inv(GivenUp(l))
  {
  }

  lemma RetriedKeeps(l: Link, a: Attempt)
    requires Inv(l) && l.state == Retry
    ensures Inv(Retried(l, a))
  {
    ReconnectKeeps(l.(retries := l.retries + 1), a);
  }

  /** A dead connection: given up at once, and a second attempt if the address did not resolve. */
  lemma DeadKeeps(l: Link, now: Clock, first: Attempt, second: Attempt)
    requires Inv(l)
    ensures var lost := LostController(l, now, first);
      Inv(if lost.state == Retry then Retried(lost, second) else lost)
  {
    LostKeeps(l, now, first);
    var lost := LostController(l, now, first);
    if lost.state == Retry {
      RetriedKeeps(lost, second);
    }
  }

  lemma TickKeeps(l: Link, thresholdMsec: int, now: Clock, first: Attempt, second: Attempt)
    requires Inv(l)
    ensures Inv(Ticked(l, thresholdMsec, now, first, second))
  {
    var m := GivenUp(l);
    GivenUpKeeps(l);
    if m.state == Connected {
      DeadKeeps(m, now, first, second);
    } else if m.state == Retry {
      RetriedKeeps(m, first);
    }
  }

  lemma AfterKeeps(l: Link, e: Event)
    requires Inv(l) && Enabled(l, e)
    ensures Inv(After(l, e))
  {
    match e
    case ConnectionLost(now, a) => LostKeeps(l, now, a);
    case ControllerSwitched(now, a) => LostKeeps(l, now, a);
    case Tick(t, now, first, second) => TickKeeps(l, t, now, first, second);
    case _ =>
  }

  lemma {:induction false} RunKeeps(es: seq<Event>)
    requires RunOf(es).Some?
    ensures Inv(RunOf(es).value)
  {
    if es != [] {
      RunKeeps(es[..|es| - 1]);
      AfterKeeps(RunOf(es[..|es| - 1]).value, es[|es| - 1]);
    }
  }

  /** The agent becomes connected only by a good reply to the last Register call it made, and
      on the connection it made that call on. */
  lemma ConnectedByLatestRegister(es: seq<Event>, e: Event)
    requires RunOf(es).Some? && Enabled(RunOf(es).value, e)
    ensures var l := RunOf(es).value;
      l.state != Connected && After(l, e).state == Connected ==>
        e.RegisterReply? && e.ok && e.serial == l.serials && l.bus == Some(l.registered) && l.state == Connecting
  {
    RunKeeps(es);
  }

  /** While connected: the connection is open and the one the last call was accepted on, no
      retries are counted, and no disconnect time is set. */
  lemma ConnectedMeans(es: seq<Event>)
    requires RunOf(es).Some? && RunOf(es).value.state == Connected
    ensures var l := RunOf(es).value;
      && l.bus == Some(l.registered) && l.acceptedBy == l.serials && l.awaited == None
      && l.retries == 0 && l.lostAt == 0 && l.lostAtMonotonic == 0
  {
    RunKeeps(es);
  }

  // ---------------------------------------------------------------- what the agent has heard

  /** When the controller was last heard of, from the events alone: the last good reply to
      Register, or the last heartbeat with a readable clock. */
  function LastHeard(es: seq<Event>): nat {
    if es == [] then 0
    else
      match es[|es| - 1]
      case RegisterReply(_, true, now) => now.monotonic
      case ControllerHeartbeat(now) => if Readable(now) then now.monotonic else LastHeard(es[..|es| - 1])
      case _ => LastHeard(es[..|es| - 1])
  }

  lemma {:induction false} HeardInTime(es: seq<Event>)
    requires RunOf(es).Some? && RunOf(es).value.state == Connected
    ensures RunOf(es).value.lastSeen == LastHeard(es)
  {
    if es != [] {
      var front, e := es[..|es| - 1], es[|es| - 1];
      var before := RunOf(front).value;
      RunKeeps(front);
      StaysConnected(before, e);
      if before.state == Connected {
        HeardInTime(front);
      }
    }
  }

  /** What leaves the agent connected or makes it so, and what it remembers then. */
  lemma StaysConnected(l: Link, e: Event)
    requires Inv(l) && Enabled(l, e) && After(l, e).state == Connected
    ensures l.state == Connected || (e.RegisterReply? && e.ok)
    ensures After(l, e).lastSeen == match e
      case RegisterReply(_, true, now) => now.monotonic
      case ControllerHeartbeat(now) => if Readable(now) then now.monotonic else l.lastSeen
      case _ => l.lastSeen
  {
  }

  /** A tick gives up a connection exactly if the controller was last heard of longer ago than
      the threshold allows, and otherwise sends a heartbeat on it. */
  lemma TickGivesUpExactly(es: seq<Event>, e: Event)
    requires RunOf(es).Some? && e.Tick? && Enabled(RunOf(es).value, e) && RunOf(es).value.state == Connected
    ensures var l, m := RunOf(es).value, After(RunOf(es).value, e);
      var silent := e.now.monotonic != USEC_INFINITY && e.thresholdMsec > 0
                    && e.now.monotonic > LastHeard(es) + e.thresholdMsec * USEC_PER_MSEC;
      && (m.state != Connected <==> silent)
      && m.beats == l.beats + (if silent then 0 else 1)
      && m.attempts == l.attempts + (if !silent then 0 else if e.first.resolved then 1 else 2)
  {
    HeardInTime(es);
  }

  /** The agent gives its connection up, or its attempts at one. */
  predicate GivesUp(es: seq<Event>, e: Event)
    requires RunOf(es).Some?
  {
    || e.ConnectionLost?
    || e.ControllerSwitched?
    || (e.Tick? && RunOf(es).value.state == Connected && e.now.monotonic != USEC_INFINITY
        && Overdue(e.thresholdMsec, e.now.monotonic, LastHeard(es)))
  }

  /** When the agent last gave up since it was accepted last. */
  function LastLoss(es: seq<Event>): Option<Clock>
    requires RunOf(es).Some?
  {
    if es == [] then None
    else
      var front, e := es[..|es| - 1], es[|es| - 1];
      if GivesUp(front, e) then Some(e.now)
      else if e.RegisterReply? && RunOf(es).value.state == Connected then None
      else LastLoss(front)
  }

  /** The disconnect times are those of the last loss, and zero while there is none. */
  lemma {:induction false} LossIsTimed(es: seq<Event>)
    requires RunOf(es).Some?
    ensures var l := RunOf(es).value;
      (l.lostAt, l.lostAtMonotonic) == if LastLoss(es).Some? then (LastLoss(es).value.real_, LastLoss(es).value.monotonic)
                                       else (0, 0)
  {
    if es != [] {
      var front, e := es[..|es| - 1], es[|es| - 1];
      LossIsTimed(front);
      RunKeeps(front);
      if RunOf(front).value.state == Connected {
        HeardInTime(front);
      }
      LossStep(RunOf(front).value, e);
    }
  }

  lemma LossStep(l: Link, e: Event)
    requires Inv(l) && Enabled(l, e)
    ensures var m := After(l, e);
      var lost := e.ConnectionLost? || e.ControllerSwitched?
                  || (e.Tick? && l.state == Connected && ControllerSilent(l, e.thresholdMsec, e.now.monotonic));
      (m.lostAt, m.lostAtMonotonic) == if lost then (e.now.real_, e.now.monotonic)
                                       else if e.RegisterReply? && m.state == Connected then (0, 0)
                                       else (l.lostAt, l.lostAtMonotonic)
  {
  }

  /** Every tick of a running agent either finds a live connection, and sends a heartbeat on
      it, or makes at least one attempt to connect; and it is never both. */
  lemma TickBeatsOrAttempts(es: seq<Event>, e: Event)
    requires RunOf(es).Some? && e.Tick? && Enabled(RunOf(es).value, e)
    ensures var l, m := RunOf(es).value, After(RunOf(es).value, e);
      var alive := l.state == Connected && !ControllerSilent(l, e.thresholdMsec, e.now.monotonic);
      && m.beats == l.beats + (if alive then 1 else 0)
      && (alive ==> m.attempts == l.attempts && m.state == Connected)
      && (!alive ==> l.attempts < m.attempts <= l.attempts + 2 && m.state != Connected)
      && (m.attempts == l.attempts + 2 <==> l.state == Connected && !alive && !e.first.resolved)
  {
    RunKeeps(es);
  }

  /** A running agent whose connection is not alive gets it back with one tick whose attempt
      succeeds and one good reply. */
  lemma OneTickAndReplyReconnect(es: seq<Event>, e: Event, now: Clock)
    requires RunOf(es).Some? && e.Tick? && Enabled(RunOf(es).value, e)
    requires Succeeds(e.first)
    requires var l := RunOf(es).value; l.state != Connected || ControllerSilent(l, e.thresholdMsec, e.now.monotonic)
    ensures var m := After(RunOf(es).value, e);
      && Enabled(m, RegisterReply(m.serials, true, now))
      && After(m, RegisterReply(m.serials, true, now)).state == Connected
  {
    RunKeeps(es);
  }

  /** After a rejected Register nothing but the next tick, a switch or the end takes the agent
      out of the connecting state: no reply can make it connected any more, and even the loss
      of the connection goes unnoticed. */
  lemma RejectedWaitsForTick(es: seq<Event>, serial: nat, now: Clock, e: Event)
    requires RunOf(es).Some? && RunOf(es).value.state == Connecting
    requires Enabled(RunOf(es).value, RegisterReply(serial, false, now))
    requires Enabled(After(RunOf(es).value, RegisterReply(serial, false, now)), e)
    ensures var m := After(RunOf(es).value, RegisterReply(serial, false, now));
      && m.state == Connecting && m.awaited == None && !e.RegisterReply?
      && (After(m, e).state != Connecting || After(m, e).attempts > m.attempts ==>
            e.Tick? || e.ControllerSwitched? || e.Stopped?)
  {
    RunKeeps(es);
  }

  /** Retries are the attempts of ticks since the agent was last connected: the count grows by
      one with each tick that tries, and by nothing else. */
  lemma RetriesCountTicks(l: Link, e: Event)
    requires Inv(l) && Enabled(l, e)
    ensures var m := After(l, e);
      && (m.retries == l.retries + 1 <==> e.Tick? && m.attempts > l.attempts && (l.state == Connected ==> !e.first.resolved))
      && (m.retries != l.retries + 1 ==> m.retries == l.retries || m.state == Connected)
  {
  }

  // ---------------------------------------------------------------- the agent's code

  class AgentLink {
    var state: State
    var bus: Option<nat>
    var buses: nat
    var slot: Option<nat>
    var serials: nat
    var retries: nat
    var lastSeen: nat
    var lostAt: nat
    var lostAtMonotonic: nat
    var thresholdMsec: int
    var beats: nat
    ghost var awaited: Option<nat>
    ghost var registered: nat
    ghost var acceptedBy: nat
    ghost var attempts: nat

    ghost function Value(): Link
      reads this
    {
      Link(state, bus, buses, slot, awaited, serials, registered, acceptedBy, retries, lastSeen,
           lostAt, lostAtMonotonic, attempts, beats)
    }

    constructor (thresholdMsec: int)
      ensures Value() == INITIAL && this.thresholdMsec == thresholdMsec
    {
      state, bus, buses, slot, serials, retries := Disconnected, None, 0, None, 0, 0;
      lastSeen, lostAt, lostAtMonotonic, beats := 0, 0, 0, 0;
      awaited, registered, acceptedBy, attempts := None, 0, 0, 0;
      this.thresholdMsec := thresholdMsec;
    }

    /** agent_peer_bus_close */
    method PeerBusClose()
      modifies `slot, `awaited, `bus
      ensures Value() == BusClosed(old(Value()))
    {
      slot, awaited, bus := None, None, None;
    }

    /** agent_connect */
    method Connect(a: Attempt) returns (done: bool)
      modifies `state, `bus, `buses, `slot, `awaited, `serials, `registered
      ensures Value() == ConnectTried(old(Value()), a)
      ensures done <==> a.opens && a.called
    {
      state := Connecting;
      if !a.opens {
        bus := None;
        return false;
      }
      bus, buses := Some(buses), buses + 1;
      if !a.called {
        return false;
      }
      serials := serials + 1;
      slot, awaited, registered := Some(serials), Some(serials), bus.value;
      return true;
    }

    /** agent_reconnect */
    method Reconnect(a: Attempt) returns (done: bool)
      modifies this
      ensures Value() == ReconnectTried(old(Value()), a) && thresholdMsec == old(thresholdMsec)
      ensures done <==> Succeeds(a)
    {
      attempts := attempts + 1;
      if !a.resolved {
        return false;
      }
      PeerBusClose();
      done := Connect(a);
    }

    /** agent_disconnected */
    method OnDisconnected(now: Clock, a: Attempt)
      modifies this
      ensures Value() == LostController(old(Value()), now, a) && thresholdMsec == old(thresholdMsec)
    {
      state := Retry;
      lostAt, lostAtMonotonic := now.real_, now.monotonic;
      var _ := Reconnect(a);
    }

    /** agent_check_controller_liveness */
    method CheckControllerLiveness(now: Clock, a: Attempt) returns (alive: bool)
      modifies this
      ensures thresholdMsec == old(thresholdMsec)
      ensures alive <==> !ControllerSilent(old(Value()), thresholdMsec, now.monotonic)
      ensures Value() == if alive then old(Value()) else LostController(old(Value()), now, a)
    {
      if thresholdMsec <= 0 || now.monotonic == USEC_INFINITY || now.monotonic < lastSeen {
        return true;
      }
      var diff := now.monotonic - lastSeen;
      if diff > thresholdMsec * USEC_PER_MSEC {
        OnDisconnected(now, a);
        return false;
      }
      return true;
    }

    /** agent_match_heartbeat */
    method MatchHeartbeat(now: Clock)
      modifies `lastSeen
      ensures Value() == old(Value()).(lastSeen := if Readable(now) then now.monotonic else old(lastSeen))
    {
      if now.real_ == USEC_INFINITY {
        return;
      }
      if now.monotonic == USEC_INFINITY {
        return;
      }
      lastSeen := now.monotonic;
    }

    /** agent_heartbeat_timer_callback */
    method HeartbeatTimer(now: Clock, first: Attempt, second: Attempt)
      modifies this
      ensures Value() == Ticked(old(Value()), thresholdMsec, now, first, second)
    {
      if state == Connecting {
        if slot.Some? {
          slot, awaited := None, None;
        }
        state := Retry;
      }
      var alive := false;
      var checked := state == Connected;
      if checked {
        alive := CheckControllerLiveness(now, first);
      }
      if checked && alive {
        beats := beats + 1;
      } else if state == Retry {
        retries := retries + 1;
        var _ := Reconnect(if checked then second else first);
      }
    }

    /** agent_register_callback with agent_process_register_callback */
    method RegisterCallback(isError: bool, now: Clock)
      requires awaited.Some?
      modifies this
      ensures Value() == ReplyTaken(old(Value()), !isError, now)
    {
      ghost var serial := awaited.value;
      awaited := None;
      if state != Connecting {
        slot := None;
        return;
      }
      if isError {
        // The result -EPERM converts to true, so the state is kept.
        return;
      }
      state, retries, lastSeen, lostAt, lostAtMonotonic := Connected, 0, now.monotonic, 0, 0;
      acceptedBy := serial;
    }

    /** agent_stop, as far as the connection goes */
    method Stop()
      modifies this
      ensures Value() == BusClosed(old(Value())).(state := Disconnected)
    {
      PeerBusClose();
      state := Disconnected;
    }
  }
}
