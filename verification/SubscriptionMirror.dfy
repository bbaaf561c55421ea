/** The controller, its FIFO connections and the agents together.  Whatever was lost on the
    way, once a connected agent has taken every message of the current connection it is
    subscribed to everything the controller has an entry for. */
module SubscriptionMirror {
  import opened CStrings
  import opened ControllerState
  import opened ConnectionLog
  import opened ControllerRuns
  import A = AgentUnits

  /** An agent and its end of the current connection: it took the first `taken` messages of
      the node's `sent` log, and the controller took its signals up to position `reported`.
      `base` is what it wanted when the connection was made.  An agent that is not attached
      will not see another message of this connection. */
  datatype Peer = Peer(agent: A.AgentState, attached: bool, taken: nat, reported: nat, base: set<CString>)

  datatype System = System(c: ControllerState, peers: seq<Peer>)

  datatype SystemStep =
    | ControllerMoves(step: Step)
    | Connects(i: nat)
    | Takes(i: nat)
    | Reports(i: nat)
    | SystemdMoves(i: nat, agent: A.AgentState)
    | Restarts(i: nat, agent: A.AgentState)

  function Take(a: A.AgentState, m: AgentMessage): A.AgentState {
    match m
    case Subscribe(u) => A.OnSubscribe(a, u).0
    case Unsubscribe(u) => A.OnUnsubscribe(a, u).0
    case _ => a
  }

  function TakeAll(a: A.AgentState, ms: seq<AgentMessage>): A.AgentState
    decreases |ms|
  {
    if ms == [] then a else TakeAll(Take(a, ms[0]), ms[1..])
  }

  /** One systemd event at the agent. */
  ghost predicate SystemdStep(a: A.AgentState, aNext: A.AgentState) {
    || (exists u :: aNext == A.OnUnitNew(a, u))
    || (exists p :: aNext == A.OnUnitRemoved(a, p))
    || (exists p, st, sub :: aNext == A.OnUnitChanged(a, p, st, sub))
  }

  ghost predicate SystemNext(s: System, step: SystemStep, sNext: System) {
    match step
    case ControllerMoves(st) =>
      !st.AgentConnects? && !st.AgentReports? && Next(s.c, st, sNext.c) && sNext.peers == s.peers
    case Connects(i) =>
      && i < |s.peers|
      && Next(s.c, AgentConnects(i), sNext.c)
      && sNext.peers == s.peers[i := Peer(s.peers[i].agent, true, 0, |s.peers[i].agent.emitted|, A.Wants(s.peers[i].agent))]
    case Reports(i) =>
      && i < |s.peers| && i < |s.c.nodes|
      && s.c.nodes[i].online && s.peers[i].attached && s.peers[i].reported < |s.peers[i].agent.emitted|
      && Next(s.c, AgentReports(i, s.peers[i].agent.emitted[s.peers[i].reported]), sNext.c)
      && sNext.peers == s.peers[i := s.peers[i].(reported := s.peers[i].reported + 1)]
    case Takes(i) =>
      && i < |s.peers| && i < |s.c.nodes|
      && s.peers[i].attached && s.peers[i].taken < |s.c.nodes[i].sent|
      && sNext.c == s.c
      && sNext.peers == s.peers[i := s.peers[i].(agent := Take(s.peers[i].agent, s.c.nodes[i].sent[s.peers[i].taken]),
                                              taken := s.peers[i].taken + 1)]
    case SystemdMoves(i, a) =>
      && i < |s.peers|
      && SystemdStep(s.peers[i].agent, a)
      && sNext.c == s.c
      && sNext.peers == s.peers[i := s.peers[i].(agent := a)]
    case Restarts(i, a) =>
      && i < |s.peers|
      && A.TableOk(a) && A.Wants(a) == {}
      && sNext.c == s.c
      && sNext.peers == s.peers[i := Peer(a, false, 0, 0, {})]
  }

  ghost predicate SystemInitial(s: System) {
    && Initial(s.c)
    && |s.peers| == |s.c.nodes|
    && forall i :: 0 <= i < |s.peers| ==>
         A.TableOk(s.peers[i].agent) && A.Wants(s.peers[i].agent) == {} && !s.peers[i].attached
  }

  ghost predicate PeerOk(p: Peer, n: NodeState) {
    && A.TableOk(p.agent)
    && (p.attached ==> p.taken <= |n.sent| && A.Wants(p.agent) == Wanted(n.sent[..p.taken], p.base))
  }

  ghost predicate SystemInv(s: System) {
    && Inv(s.c)
    && |s.peers| == |s.c.nodes|
    && forall i :: 0 <= i < |s.peers| ==> PeerOk(s.peers[i], s.c.nodes[i])
  }

  // ---------------------------------------------------------------- messages only accumulate

  lemma {:induction false} AnnouncedKeepsSent(steps: seq<NodeState>, order: seq<CString>)
    requires Announced(steps, order)
    ensures steps[|order|].sent == steps[0].sent
    decreases |order|
  {
    if order != [] {
      var k := |order| - 1;
      AnnouncedKeepsSent(steps[..|order|], order[..k]);
      assert AnnouncedUnit(steps[k], steps[k + 1], order[k]);
    }
  }

  lemma SentOnlyGrows(c: ControllerState, step: Step, cNext: ControllerState)
    requires Inv(c) && Next(c, step, cNext) && !step.AgentConnects?
    ensures SentExtends(c.nodes, cNext.nodes)
  {
    match step
    case MonitorSubscribes(s) => AddSubscriptionTold(c, s);
    case MonitorUnsubscribes(s) => RemoveSubscriptionTold(c, s);
    case AgentReports(i, ev) =>
    case ProxyAnnounced(i, s, unit) => ProxyNewTold(c, i, s, unit);
    case ProxyWithdrawn(i, target, unit) => ProxyRemovedTold(c, i, target, unit);
    case AgentLost(i) =>
      var order: seq<CString>, steps: seq<NodeState> :|
        && IsOrderOf(order, c.nodes[i].index.Keys)
        && Announced(steps, order)
        && steps[0] == c.nodes[i]
        && var cleared := RemoveAllProxies(c.(nodes := c.nodes[i := steps[|order|]]), i);
        cNext == cleared.(nodes := cleared.nodes[i := cleared.nodes[i].(online := false)]);
      AnnouncedKeepsSent(steps, order);
      AnnouncedInv(c, i, steps, order);
      RemoveAllProxiesTold(c.(nodes := c.nodes[i := steps[|order|]]), i);
  }

  // ---------------------------------------------------------------- agents

  lemma TakeWants(a: A.AgentState, m: AgentMessage)
    requires A.TableOk(a)
    ensures A.TableOk(Take(a, m))
    ensures A.Wants(Take(a, m)) == WantedAfter(m, A.Wants(a))
  {
    match m
    case Subscribe(u) => A.SubscribeOk(a, u); A.SubscribeWants(a, u);
    case Unsubscribe(u) => A.UnsubscribeOk(a, u); A.UnsubscribeWants(a, u);
    case _ =>
  }

  lemma SystemdKeeps(a: A.AgentState, aNext: A.AgentState)
    requires A.TableOk(a) && SystemdStep(a, aNext)
    ensures A.TableOk(aNext) && A.Wants(aNext) == A.Wants(a)
  {
    if u :| aNext == A.OnUnitNew(a, u) {
      A.UnitNewKeeps(a, u);
    } else if p :| aNext == A.OnUnitRemoved(a, p) {
      A.UnitRemovedKeeps(a, p);
    } else {
      var p, st, sub :| aNext == A.OnUnitChanged(a, p, st, sub);
      A.UnitChangedKeeps(a, p, st, sub);
    }
  }

  /** Draining the rest of the connection. */
  lemma {:induction false} TakeAllWants(a: A.AgentState, sent: seq<AgentMessage>, k: nat, base: set<CString>)
    requires A.TableOk(a) && k <= |sent| && A.Wants(a) == Wanted(sent[..k], base)
    ensures A.TableOk(TakeAll(a, sent[k..])) && A.Wants(TakeAll(a, sent[k..])) == Wanted(sent, base)
    decreases |sent| - k
  {
    if k == |sent| {
      assert sent[..k] == sent;
    } else {
      TakeWants(a, sent[k]);
      assert sent[..k + 1][..k] == sent[..k];
      TakeAllWants(Take(a, sent[k]), sent, k + 1, base);
      assert sent[k..][1..] == sent[k + 1..];
    }
  }

  // ---------------------------------------------------------------- runs

  lemma ControllerMovesInv(s: System, st: Step, sNext: System)
    requires SystemInv(s) && Next(s.c, st, sNext.c) && !st.AgentConnects?
    requires |sNext.peers| == |s.peers|
    requires forall i :: 0 <= i < |s.peers| ==>
               sNext.peers[i] == s.peers[i].(reported := sNext.peers[i].reported)
    ensures SystemInv(sNext)
  {
    NextInv(s.c, st, sNext.c);
    SentOnlyGrows(s.c, st, sNext.c);
    forall i | 0 <= i < |sNext.peers| ensures PeerOk(sNext.peers[i], sNext.c.nodes[i]) {
      var p := s.peers[i];
      assert PeerOk(p, s.c.nodes[i]);
      if p.attached {
        assert s.c.nodes[i].sent[..p.taken] == sNext.c.nodes[i].sent[..p.taken];
      }
    }
  }

  lemma TakesOk(p: Peer, n: NodeState)
    requires PeerOk(p, n) && p.attached && p.taken < |n.sent|
    ensures PeerOk(p.(agent := Take(p.agent, n.sent[p.taken]), taken := p.taken + 1), n)
  {
    TakeWants(p.agent, n.sent[p.taken]);
    assert n.sent[..p.taken + 1][..p.taken] == n.sent[..p.taken];
  }

  lemma SystemNextInv(s: System, step: SystemStep, sNext: System)
    requires SystemInv(s) && SystemNext(s, step, sNext)
    ensures SystemInv(sNext)
  {
    match step
    case ControllerMoves(st) => ControllerMovesInv(s, st, sNext);
    case Connects(i) => NextInv(s.c, AgentConnects(i), sNext.c);
    case Reports(i) => ControllerMovesInv(s, AgentReports(i, s.peers[i].agent.emitted[s.peers[i].reported]), sNext);
    case Takes(i) => TakesOk(s.peers[i], s.c.nodes[i]);
    case SystemdMoves(i, a) => SystemdKeeps(s.peers[i].agent, a);
    case Restarts(i, a) =>
  }

  ghost predicate SystemRun(states: seq<System>, steps: seq<SystemStep>) {
    && |states| == |steps| + 1
    && SystemInitial(states[0])
    && forall k :: 0 <= k < |steps| ==> SystemNext(states[k], steps[k], states[k + 1])
  }

  lemma {:induction false} SystemRunSafe(states: seq<System>, steps: seq<SystemStep>, k: nat)
    requires SystemRun(states, steps) && k < |states|
    ensures SystemInv(states[k])
  {
    if k == 0 {
      InitialInv(states[0].c);
    } else {
      SystemRunSafe(states, steps, k - 1);
      SystemNextInv(states[k - 1], steps[k - 1], states[k]);
    }
  }

  /** In any reachable state, let the connected agent of node `i` take what is left of the
      connection: it then wants every unit with an entry, and beyond that at most what it
      already wanted when the connection was made.  An agent that wanted nothing then, as one
      that was just started does, wants exactly the units with an entry. */
  lemma MirrorsIndex(states: seq<System>, steps: seq<SystemStep>, k: nat, i: nat)
    requires SystemRun(states, steps) && k < |states|
    requires i < |states[k].peers| && i < |states[k].c.nodes|
    requires states[k].c.nodes[i].online && states[k].peers[i].attached
    ensures states[k].peers[i].taken <= |states[k].c.nodes[i].sent|
    ensures var n, p := states[k].c.nodes[i], states[k].peers[i];
            var drained := TakeAll(p.agent, n.sent[p.taken..]);
            && A.TableOk(drained)
            && n.index.Keys <= A.Wants(drained) <= n.index.Keys + p.base
            && (p.base == {} ==> A.Wants(drained) == n.index.Keys)
  {
    SystemRunSafe(states, steps, k);
    var n, p := states[k].c.nodes[i], states[k].peers[i];
    assert PeerOk(p, n) && Told(n);
    TakeAllWants(p.agent, n.sent, p.taken, p.base);
    WantedFromBase(n.sent, p.base);
  }
}
