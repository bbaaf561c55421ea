/** The state and substate the controller has cached for a unit, once the queues have run dry.
    The agent tells it of changes only, and what systemd resets with a new load is no change to
    the agent; so the cached state is the agent's, in any run, unless the unit is inactive and
    dead there, and then it may be the one from before the load. */
module StateOutcome {
  import opened CStrings
  import opened ControllerState
  import opened UnitEvents
  import opened ConnectionLog
  import opened ControllerRuns
  import opened PathEscape
  import opened SubscriptionMirror
  import opened CacheFollowsAgent
  import opened CacheOutcome
  import A = AgentUnits

  datatype Shown = Shown(active: ActiveState, sub: CString)

  /** How the agent puts every unit that systemd announces as new. */
  const DEAD := Shown(Inactive, Ascii("dead"))

  function ShownEvent(x: Shown, e: Event, u: CString): Shown {
    if e.unit == u && e.UnitStateChanged? then Shown(e.state, e.substate) else x
  }

  /** The state of `u` after the events. */
  function ShownAfter(x: Shown, es: seq<Event>, u: CString): Shown {
    if es == [] then x else ShownEvent(ShownAfter(x, es[..|es| - 1], u), es[|es| - 1], u)
  }

  function CachedShown(ix: UnitIndex, u: CString): Shown {
    var e := Cache(ix, u);
    Shown(e.state, if e.substate.Some? then e.substate.value else Ascii("invalid"))
  }

  function Actual(a: A.AgentState, u: CString): Shown {
    Shown(A.Info(a, u).state, A.Substate(A.Info(a, u)))
  }

  /** Whether the agent has a state to report to a new subscriber. */
  predicate Reportable(a: A.AgentState, u: CString) {
    A.Info(a, u).loaded && A.Info(a, u).state != Invalid
  }

  lemma {:induction false} ShownAfterConcat(x: Shown, es: seq<Event>, ds: seq<Event>, u: CString)
    ensures ShownAfter(x, es + ds, u) == ShownAfter(ShownAfter(x, es, u), ds, u)
  {
    if ds == [] {
      assert es + ds == es;
    } else {
      ShownAfterConcat(x, es, ds[..|ds| - 1], u);
      assert (es + ds)[..|es + ds| - 1] == es + ds[..|ds| - 1];
    }
  }

  lemma ShownAfterFirst(x: Shown, es: seq<Event>, u: CString)
    requires es != []
    ensures ShownAfter(x, es, u) == ShownAfter(ShownEvent(x, es[0], u), es[1..], u)
  {
    ShownAfterConcat(x, [es[0]], es[1..], u);
    assert [es[0]] + es[1..] == es;
    assert ShownAfter(x, [es[0]], u) == ShownEvent(ShownAfter(x, [es[0]][..0], u), es[0], u);
  }

  lemma {:induction false} ShownElsewhere(x: Shown, es: seq<Event>, u: CString)
    requires forall e :: e in es ==> e.unit != u
    ensures ShownAfter(x, es, u) == x
  {
    if es != [] {
      ShownElsewhere(x, es[..|es| - 1], u);
      assert es[|es| - 1] in es;
    }
  }

  // ---------------------------------------------------------------- messages at the agent

  lemma VirtualEventsShown(x: Shown, info: A.UnitInfo)
    ensures ShownAfter(x, A.VirtualEvents(info), info.unit)
              == if info.loaded && info.state != Invalid then Shown(info.state, A.Substate(info)) else x
  {
  }

  lemma SubscribeSelfShown(a: A.AgentState, x: Shown, u: CString)
    requires A.TableOk(a) && u != WILDCARD
    ensures var b := A.OnSubscribe(a, u).0;
      && a.emitted <= b.emitted && Actual(b, u) == Actual(a, u)
      && ShownAfter(x, Since(a, b), u) == if u !in A.Wants(a) && Reportable(a, u) then Actual(a, u) else x
  {
    var b := A.OnSubscribe(a, u).0;
    A.EntriesAreOfTheirUnit(a, u);
    A.WantsUnit(a, u);
    VirtualEventsShown(x, A.Info(a, u));
    assert Since(a, b) == if A.Info(a, u).subscribed then [] else A.VirtualEvents(A.Info(a, u));
  }

  lemma SubscribeOtherShown(a: A.AgentState, v: CString, x: Shown, u: CString)
    requires A.TableOk(a) && u != WILDCARD && v != u
    ensures var b := A.OnSubscribe(a, v).0;
      && a.emitted <= b.emitted && Actual(b, u) == Actual(a, u)
      && ShownAfter(x, Since(a, b), u) == x
  {
    var b := A.OnSubscribe(a, v).0;
    SubscribeElsewhere(a, v);
    ShownElsewhere(x, Since(a, b), u);
    if MakeUnitPath(u) == MakeUnitPath(v) {
      UnitPathsDiffer(u, v);
    }
    OtherInfo(a, b, MakeUnitPath(v), u);
  }

  lemma UnsubscribeShown(a: A.AgentState, v: CString, u: CString)
    requires A.TableOk(a) && u != WILDCARD
    ensures A.OnUnsubscribe(a, v).0.emitted == a.emitted
    ensures A.Info(a, u).loaded ==> Actual(A.OnUnsubscribe(a, v).0, u) == Actual(a, u)
  {
    if v != WILDCARD && v != u {
      if MakeUnitPath(u) == MakeUnitPath(v) {
        UnitPathsDiffer(u, v);
      }
      OtherInfo(a, A.OnUnsubscribe(a, v).0, MakeUnitPath(v), u);
    }
  }

  /** A message makes the agent tell the state exactly if it is an accepted Subscribe of a unit
      that has one. */
  lemma TakeShown(a: A.AgentState, m: AgentMessage, x: Shown, u: CString)
    requires A.TableOk(a) && u != WILDCARD
    ensures a.emitted <= Take(a, m).emitted
    ensures A.Info(a, u).loaded ==> Actual(Take(a, m), u) == Actual(a, u)
    ensures ShownAfter(x, Since(a, Take(a, m)), u)
              == if m == Subscribe(u) && u !in A.Wants(a) && Reportable(a, u) then Actual(a, u) else x
  {
    if m == Subscribe(u) {
      SubscribeSelfShown(a, x, u);
    } else if m.Subscribe? {
      SubscribeOtherShown(a, m.unit, x, u);
    } else {
      if m.Unsubscribe? {
        UnsubscribeShown(a, m.unit, u);
      }
      assert Since(a, Take(a, m)) == [];
    }
  }

  // ---------------------------------------------------------------- the settled state

  /** The cached state once the reports under way have been taken. */
  function ShownBelief(n: NodeState, p: Peer, u: CString): Shown
    requires p.reported <= |p.agent.emitted|
  {
    ShownAfter(CachedShown(n.index, u), p.agent.emitted[p.reported..], u)
  }

  /** The cached state once both queues have run dry and nothing else happened. */
  ghost function ShownSettled(n: NodeState, p: Peer, u: CString): Shown
    requires p.reported <= |p.agent.emitted|
  {
    if WillReport(n, p, u) && Reportable(p.agent, u) then Actual(p.agent, u) else ShownBelief(n, p, u)
  }

  lemma ShownBeliefGrows(n: NodeState, p: Peer, a: A.AgentState, taken: nat, u: CString)
    requires p.reported <= |p.agent.emitted| && p.agent.emitted <= a.emitted
    ensures ShownBelief(n, p.(agent := a, taken := taken), u) == ShownAfter(ShownBelief(n, p, u), Since(p.agent, a), u)
  {
    ShownAfterConcat(CachedShown(n.index, u), p.agent.emitted[p.reported..], Since(p.agent, a), u);
    assert p.agent.emitted[p.reported..] + Since(p.agent, a) == a.emitted[p.reported..];
  }

  /** Both connections lead to the same cached state for the same actual one. */
  ghost predicate SameShown(n: NodeState, p: Peer, nNext: NodeState, pNext: Peer, u: CString) {
    && p.reported <= |p.agent.emitted| && pNext.reported <= |pNext.agent.emitted|
    && A.Info(pNext.agent, u).loaded == A.Info(p.agent, u).loaded
    && (A.Info(p.agent, u).loaded ==> Actual(pNext.agent, u) == Actual(p.agent, u))
    && ShownSettled(nNext, pNext, u) == ShownSettled(n, p, u)
  }

  lemma TakeSettlesShown(n: NodeState, p: Peer, u: CString)
    requires A.TableOk(p.agent) && p.reported <= |p.agent.emitted| && p.taken < |n.sent| && u != WILDCARD
    ensures SameShown(n, p, n, p.(agent := Take(p.agent, n.sent[p.taken]), taken := p.taken + 1), u)
  {
    var m := n.sent[p.taken];
    TakeLoad(p.agent, m, false, u);
    TakeShown(p.agent, m, ShownBelief(n, p, u), u);
    ShownBeliefGrows(n, p, Take(p.agent, m), p.taken + 1, u);
    TakeAccepts(n, p, u);
  }

  lemma ReportCachesShown(n: NodeState, nNext: NodeState, e: Event, u: CString)
    requires AgentEvent(n, nNext, e) && u in n.index && u != WILDCARD
    ensures u in nNext.index && nNext.sent == n.sent && nNext.online == n.online
    ensures CachedShown(nNext.index, u) == ShownEvent(CachedShown(n.index, u), e, u)
  {
  }

  lemma ReportSettlesShown(n: NodeState, nNext: NodeState, p: Peer, u: CString)
    requires p.reported < |p.agent.emitted| && AgentEvent(n, nNext, p.agent.emitted[p.reported])
    requires u in n.index && u != WILDCARD
    ensures SameShown(n, p, nNext, p.(reported := p.reported + 1), u)
  {
    var es := p.agent.emitted[p.reported..];
    ReportCachesShown(n, nNext, es[0], u);
    ShownAfterFirst(CachedShown(n.index, u), es, u);
    assert es[1..] == p.agent.emitted[p.reported + 1..];
  }

  // ---------------------------------------------------------------- running dry

  ghost predicate SameShownAt(s: System, sNext: System, i: nat, u: CString) {
    && i < |s.peers| && i < |s.c.nodes| && i < |sNext.peers| && i < |sNext.c.nodes|
    && SameShown(s.c.nodes[i], s.peers[i], sNext.c.nodes[i], sNext.peers[i], u)
  }

  lemma SameShownTrans(s: System, s1: System, s2: System, i: nat, u: CString)
    requires SameShownAt(s, s1, i, u) && SameShownAt(s1, s2, i, u)
    ensures SameShownAt(s, s2, i, u)
  {
  }

  lemma DrainOwnShown(s: System, step: SystemStep, sNext: System, i: nat, u: CString)
    requires Connection(s, i) && PeerOk(s.peers[i], s.c.nodes[i]) && s.peers[i].reported <= |s.peers[i].agent.emitted|
    requires SystemNext(s, step, sNext) && Draining(step) && step.i == i
    requires u in s.c.nodes[i].index && u != WILDCARD
    ensures SameShownAt(s, sNext, i, u)
  {
    if step.Takes? {
      TakeSettlesShown(s.c.nodes[i], s.peers[i], u);
    } else {
      ReportSettlesShown(s.c.nodes[i], sNext.c.nodes[i], s.peers[i], u);
    }
  }

  lemma DrainOneShown(states: seq<System>, steps: seq<SystemStep>, k: nat, i: nat, u: CString)
    requires SystemRun(states, steps) && k < |steps| && Draining(steps[k])
    requires Connection(states[k], i) && u in states[k].c.nodes[i].index && u != WILDCARD
    ensures SameShownAt(states[k], states[k + 1], i, u)
  {
    ReachableStep(states, steps, k);
    PeerTold(states[k], i);
    if steps[k].i == i {
      DrainOwnShown(states[k], steps[k], states[k + 1], i, u);
    } else {
      SamePeer(states[k], steps[k], states[k + 1], i);
    }
  }

  lemma DrainNoneShown(states: seq<System>, steps: seq<SystemStep>, k: nat, i: nat, u: CString)
    requires SystemRun(states, steps) && k < |states| && Connection(states[k], i)
    ensures SameShownAt(states[k], states[k], i, u)
  {
    RunInRange(states, steps, k);
  }

  lemma DrainedConnection(states: seq<System>, steps: seq<SystemStep>, k: nat, l: nat, i: nat, u: CString)
    requires SystemRun(states, steps) && k <= l < |states| && forall j :: k <= j < l ==> Draining(steps[j])
    requires Connection(states[k], i) && u in states[k].c.nodes[i].index && u != WILDCARD
    ensures Connection(states[l], i) && u in states[l].c.nodes[i].index
  {
    DrainRun(states, steps, k, l, i, u);
  }

  lemma {:induction false} DrainRunShown(states: seq<System>, steps: seq<SystemStep>, k: nat, l: nat, i: nat, u: CString)
    requires SystemRun(states, steps) && k <= l < |states| && forall j :: k <= j < l ==> Draining(steps[j])
    requires Connection(states[k], i) && u in states[k].c.nodes[i].index && u != WILDCARD
    ensures SameShownAt(states[k], states[l], i, u)
    decreases l
  {
    if k == l {
      DrainNoneShown(states, steps, k, i, u);
    } else {
      DrainRunShown(states, steps, k, l - 1, i, u);
      DrainedConnection(states, steps, k, l - 1, i, u);
      DrainOneShown(states, steps, l - 1, i, u);
      SameShownTrans(states[k], states[l - 1], states[l], i, u);
    }
  }

  /** From any reachable state, when the queues run dry and nothing else happens: the state the
      controller ends with, and, for a loaded unit, exactly when it is the agent's: the reports
      under way have to say so, or a Subscribe the agent will accept is under way and the agent
      has a state to report. */
  lemma ShownSettlesExactly(states: seq<System>, steps: seq<SystemStep>, k: nat, l: nat, i: nat, u: CString)
    requires SystemRun(states, steps) && k <= l < |states| && forall j :: k <= j < l ==> Draining(steps[j])
    requires Connection(states[k], i) && u in states[k].c.nodes[i].index && u != WILDCARD
    requires Connection(states[l], i) ==> Drained(states[l], i)
    ensures Connection(states[l], i) && u in states[l].c.nodes[i].index
    ensures states[k].peers[i].reported <= |states[k].peers[i].agent.emitted|
    ensures var n, p := states[k].c.nodes[i], states[k].peers[i];
      var cached, actual := CachedShown(states[l].c.nodes[i].index, u), Actual(states[l].peers[i].agent, u);
      && cached == ShownSettled(n, p, u)
      && (A.Info(p.agent, u).loaded ==>
            && actual == Actual(p.agent, u)
            && (cached == actual <==> ShownBelief(n, p, u) == actual || (WillReport(n, p, u) && actual.active != Invalid)))
  {
    DrainRun(states, steps, k, l, i, u);
    DrainRunShown(states, steps, k, l, i, u);
    var n, p := states[l].c.nodes[i], states[l].peers[i];
    assert p.agent.emitted[p.reported..] == [];
    assert n.sent[p.taken..] == [];
  }

  // ---------------------------------------------------------------- a unit loaded again

  lemma ReloadBelief(n: NodeState, p: Peer, u: CString)
    requires A.TableOk(p.agent) && p.reported <= |p.agent.emitted| && u != WILDCARD
    ensures var q := p.(agent := A.OnUnitNew(p.agent, u));
      && q.reported <= |q.agent.emitted| && A.Info(q.agent, u).loaded && Actual(q.agent, u) == DEAD
      && ShownBelief(n, q, u) == ShownBelief(n, p, u)
      && (WillReport(n, q, u) <==> WillReport(n, p, u))
  {
    var b := A.OnUnitNew(p.agent, u);
    A.EntriesAreOfTheirUnit(p.agent, u);
    A.UnitNewKeeps(p.agent, u);
    ShownBeliefGrows(n, p, b, p.taken, u);
    assert Since(p.agent, b) == [] || Since(p.agent, b) == [UnitNew(u, Real)];
    assert forall x, e :: ShownAfter(x, [e], u) == ShownEvent(ShownAfter(x, [e][..0], u), e, u);
  }

  /** systemd loads a unit, in any reachable state, and from then on only what is under way is
      delivered.  The unit is inactive and dead now, but no report says so: the controller has
      the right state exactly if it had that one already, or if a Subscribe the agent will
      accept is under way. */
  lemma ReloadOutcome(states: seq<System>, steps: seq<SystemStep>, k: nat, l: nat, i: nat, u: CString)
    requires SystemRun(states, steps) && k < l < |states| && forall j :: k < j < l ==> Draining(steps[j])
    requires Connection(states[k], i) && u in states[k].c.nodes[i].index && u != WILDCARD
    requires steps[k] == SystemdMoves(i, A.OnUnitNew(states[k].peers[i].agent, u))
    requires Connection(states[l], i) ==> Drained(states[l], i)
    ensures Connection(states[l], i) && u in states[l].c.nodes[i].index
    ensures states[k].peers[i].reported <= |states[k].peers[i].agent.emitted|
    ensures var n, p := states[k].c.nodes[i], states[k].peers[i];
      && Actual(states[l].peers[i].agent, u) == DEAD
      && (CachedShown(states[l].c.nodes[i].index, u) == DEAD <==> ShownBelief(n, p, u) == DEAD || WillReport(n, p, u))
  {
    ReachableStep(states, steps, k);
    PeerTold(states[k], i);
    ReloadBelief(states[k].c.nodes[i], states[k].peers[i], u);
    ShownSettlesExactly(states, steps, k + 1, l, i, u);
  }

  // ---------------------------------------------------------------- every other state is right

  /** A loaded unit with a state that systemd reported after it was loaded. */
  predicate Due(a: A.AgentState, u: CString) {
    Reportable(a, u) && Actual(a, u) != DEAD
  }

  /** The state that is due will be the cached one. */
  ghost predicate ShownRight(n: NodeState, p: Peer, u: CString) {
    n.online && p.attached && u in n.index && Learned(n, p, u) ==>
      p.reported <= |p.agent.emitted| && (Due(p.agent, u) ==> ShownSettled(n, p, u) == Actual(p.agent, u))
  }

  /** About a unit it wants the agent reports every change of the state. */
  ghost predicate NoChangeLost(a: A.AgentState, b: A.AgentState, x: Shown, u: CString) {
    && a.emitted <= b.emitted
    && (Due(b, u) ==>
          || ShownAfter(x, Since(a, b), u) == Actual(b, u)
          || (Due(a, u) && Actual(b, u) == Actual(a, u) && ShownAfter(x, Since(a, b), u) == x))
  }

  lemma NewShown(a: A.AgentState, v: CString, x: Shown, u: CString)
    requires A.TableOk(a) && u != WILDCARD
    ensures NoChangeLost(a, A.OnUnitNew(a, v), x, u)
  {
    var b := A.OnUnitNew(a, v);
    A.EntriesAreOfTheirUnit(a, v);
    if v != u {
      ShownElsewhere(x, Since(a, b), u);
      if MakeUnitPath(u) == MakeUnitPath(v) {
        UnitPathsDiffer(u, v);
      }
      OtherInfo(a, b, MakeUnitPath(v), u);
    }
  }

  lemma RemovedShown(a: A.AgentState, p: CString, x: Shown, u: CString)
    requires A.TableOk(a) && u != WILDCARD
    ensures NoChangeLost(a, A.OnUnitRemoved(a, p), x, u)
  {
    var b := A.OnUnitRemoved(a, p);
    if p != MakeUnitPath(u) {
      UnitRemovedElsewhere(a, p, u);
      ShownElsewhere(x, Since(a, b), u);
      OtherInfo(a, b, p, u);
    }
  }

  lemma ChangedElsewhere(a: A.AgentState, p: CString, st: ActiveState, sub: CString, x: Shown, u: CString)
    requires A.TableOk(a) && p != MakeUnitPath(u)
    ensures NoChangeLost(a, A.OnUnitChanged(a, p, st, sub), x, u)
  {
    var b := A.OnUnitChanged(a, p, st, sub);
    UnitChangedElsewhere(a, p, st, sub, u);
    ShownElsewhere(x, Since(a, b), u);
    OtherInfo(a, b, p, u);
  }

  lemma ChangedSelf(a: A.AgentState, st: ActiveState, sub: CString, x: Shown, u: CString)
    requires A.TableOk(a) && u in A.Wants(a) && u != WILDCARD
    ensures NoChangeLost(a, A.OnUnitChanged(a, MakeUnitPath(u), st, sub), x, u)
  {
    var b := A.OnUnitChanged(a, MakeUnitPath(u), st, sub);
    A.EntriesAreOfTheirUnit(a, u);
    A.WantsUnit(a, u);
    assert Actual(b, u) == Shown(st, sub);
    if Actual(a, u) == Shown(st, sub) {
      assert Since(a, b) == [];
    } else {
      assert Since(a, b) == [UnitStateChanged(u, st, sub, Real)];
    }
  }

  lemma WantedSystemdShown(a: A.AgentState, b: A.AgentState, x: Shown, u: CString)
    requires A.TableOk(a) && SystemdStep(a, b) && u in A.Wants(a) && u != WILDCARD
    ensures NoChangeLost(a, b, x, u)
  {
    if v :| b == A.OnUnitNew(a, v) {
      NewShown(a, v, x, u);
    } else if p :| b == A.OnUnitRemoved(a, p) {
      RemovedShown(a, p, x, u);
    } else {
      var p, st, sub :| b == A.OnUnitChanged(a, p, st, sub);
      if p == MakeUnitPath(u) {
        ChangedSelf(a, st, sub, x, u);
      } else {
        ChangedElsewhere(a, p, st, sub, x, u);
      }
    }
  }

  lemma SystemdShownRight(n: NodeState, p: Peer, a: A.AgentState, u: CString)
    requires PeerOk(p, n) && Told(n) && ShownRight(n, p, u) && SystemdStep(p.agent, a) && u != WILDCARD
    ensures ShownRight(n, p.(agent := a), u)
  {
    SystemdStepGrows(p.agent, a);
    SystemdKeeps(p.agent, a);
    if n.online && p.attached && u in n.index && Learned(n, p, u) {
      if u !in A.Wants(p.agent) {
        WantedIsAhead(n, p, u);
      } else {
        ShownBeliefGrows(n, p, a, p.taken, u);
        WantedSystemdShown(p.agent, a, ShownBelief(n, p, u), u);
      }
    }
  }

  lemma KeptShownRight(n: NodeState, nNext: NodeState, p: Peer, u: CString)
    requires ShownRight(n, p, u) && p.taken <= |n.sent| && p.reported <= |p.agent.emitted|
    requires n.online && p.attached && n.sent <= nNext.sent && u in n.index
    requires Cache(nNext.index, u) == Cache(n.index, u) && Unsubscribe(u) !in nNext.sent[|n.sent|..]
    ensures ShownRight(nNext, p, u)
  {
    assert nNext.sent == n.sent + nNext.sent[|n.sent|..];
    if WillReport(n, p, u) {
      AcceptsMore(n.sent[p.taken..], nNext.sent[|n.sent|..], u in A.Wants(p.agent), u);
      assert nNext.sent[p.taken..] == n.sent[p.taken..] + nNext.sent[|n.sent|..];
    }
  }

  lemma ControllerShownRight(s: System, st: Step, sNext: System, i: nat, u: CString)
    requires SystemInv(s) && InRange(s) && SystemNext(s, ControllerMoves(st), sNext) && i < |s.peers|
    requires SystemInv(sNext) && ShownRight(s.c.nodes[i], s.peers[i], u)
    ensures ShownRight(sNext.c.nodes[i], s.peers[i], u)
  {
    StepCacheKept(s.c, st, sNext.c, i, u);
    var n, nNext, p := s.c.nodes[i], sNext.c.nodes[i], s.peers[i];
    PeerTold(s, i);
    PeerTold(sNext, i);
    if nNext.online && p.attached && u in nNext.index && Learned(nNext, p, u) {
      if u !in n.index || Unsubscribe(u) in nNext.sent[|n.sent|..] {
        RenewedIsAhead(n, nNext, p, u);
      } else {
        KeptShownRight(n, nNext, p, u);
      }
    }
  }

  lemma ConnectsShownRight(n: NodeState, nNext: NodeState, a: A.AgentState, u: CString)
    requires A.TableOk(a) && Connected(n, nNext)
    ensures ShownRight(nNext, Peer(a, true, 0, |a.emitted|, A.Wants(a)), u)
  {
    var p := Peer(a, true, 0, |a.emitted|, A.Wants(a));
    ConnectedTold(n, nNext);
    if u in nNext.index && Learned(nNext, p, u) {
      NothingTakenBack(n, nNext, u);
      assert nNext.sent[..0] == [];
      WantedIsAhead(nNext, p, u);
    }
  }

  lemma NothingTakenBack(n: NodeState, nNext: NodeState, u: CString)
    requires Connected(n, nNext)
    ensures nNext.online && Unsubscribe(u) !in nNext.sent
  {
    var order :| IsOrderOf(order, n.index.Keys) && nNext == n.(online := true, sent := Greeting(order, n.deps));
  }

  lemma TakeShownRight(n: NodeState, p: Peer, u: CString)
    requires PeerOk(p, n) && p.attached && p.taken < |n.sent| && ShownRight(n, p, u) && u != WILDCARD
    requires p.reported <= |p.agent.emitted|
    ensures ShownRight(n, p.(agent := Take(p.agent, n.sent[p.taken]), taken := p.taken + 1), u)
  {
    TakeSettlesShown(n, p, u);
  }

  lemma ReportShownRight(n: NodeState, nNext: NodeState, p: Peer, u: CString)
    requires p.reported < |p.agent.emitted| && AgentEvent(n, nNext, p.agent.emitted[p.reported])
    requires ShownRight(n, p, u) && u != WILDCARD
    ensures ShownRight(nNext, p.(reported := p.reported + 1), u)
  {
    if u in n.index {
      ReportSettlesShown(n, nNext, p, u);
    }
  }

  lemma PeerMovesShownRight(s: System, step: SystemStep, sNext: System, i: nat, u: CString)
    requires SystemNext(s, step, sNext) && !step.ControllerMoves? && i == step.i && u != WILDCARD
    requires i < |s.peers| && i < |sNext.peers| && i < |s.c.nodes| && i < |sNext.c.nodes|
    requires PeerOk(s.peers[i], s.c.nodes[i]) && Told(s.c.nodes[i]) && ShownRight(s.c.nodes[i], s.peers[i], u)
    requires s.peers[i].attached ==> s.peers[i].reported <= |s.peers[i].agent.emitted|
    ensures ShownRight(sNext.c.nodes[i], sNext.peers[i], u)
  {
    var n, p := s.c.nodes[i], s.peers[i];
    match step
    case Connects(_) => ConnectsShownRight(n, sNext.c.nodes[i], p.agent, u);
    case Takes(_) => TakeShownRight(n, p, u);
    case Reports(_) => ReportShownRight(n, sNext.c.nodes[i], p, u);
    case SystemdMoves(_, a) => SystemdShownRight(n, p, a, u);
    case Restarts(_, _) => assert !sNext.peers[i].attached;
  }

  lemma PeerShownRight(s: System, step: SystemStep, sNext: System, i: nat, u: CString)
    requires SystemInv(s) && SystemInv(sNext) && InRange(s) && SystemNext(s, step, sNext) && u != WILDCARD
    requires i < |s.peers| && i < |sNext.peers| && ShownRight(s.c.nodes[i], s.peers[i], u)
    ensures ShownRight(sNext.c.nodes[i], sNext.peers[i], u)
  {
    if step.ControllerMoves? {
      ControllerShownRight(s, step.step, sNext, i, u);
    } else if i == step.i {
      PeerTold(s, i);
      PeerMovesShownRight(s, step, sNext, i, u);
    } else {
      SamePeer(s, step, sNext, i);
    }
  }

  ghost predicate AllShownRight(s: System, u: CString) {
    |s.peers| <= |s.c.nodes| && forall i :: 0 <= i < |s.peers| ==> ShownRight(s.c.nodes[i], s.peers[i], u)
  }

  lemma StepShownRight(s: System, step: SystemStep, sNext: System, u: CString)
    requires SystemInv(s) && InRange(s) && SystemNext(s, step, sNext) && AllShownRight(s, u) && u != WILDCARD
    ensures AllShownRight(sNext, u)
  {
    SamePeers(s, step, sNext);
    forall i | 0 <= i < |sNext.peers| ensures ShownRight(sNext.c.nodes[i], sNext.peers[i], u) {
      PeerShownRight(s, step, sNext, i, u);
    }
  }

  lemma {:induction false} RunShownRight(states: seq<System>, steps: seq<SystemStep>, k: nat, u: CString)
    requires SystemRun(states, steps) && k < |states| && u != WILDCARD
    ensures AllShownRight(states[k], u)
  {
    if k > 0 {
      RunShownRight(states, steps, k - 1, u);
      ReachableStep(states, steps, k - 1);
      StepShownRight(states[k - 1], steps[k - 1], states[k], u);
    }
  }

  /** In any reachable state with both queues drained, whatever was taken back and renewed on
      the way: the cached state of a loaded unit with an entry is the agent's, if that is a
      state at all and not the one a unit is loaded with, unless the agent kept the
      subscription from before the connection. */
  lemma CachedStateIsAgents(states: seq<System>, steps: seq<SystemStep>, k: nat, i: nat, u: CString)
    requires SystemRun(states, steps) && k < |states| && u != WILDCARD
    requires Connection(states[k], i) && Drained(states[k], i)
    requires Learned(states[k].c.nodes[i], states[k].peers[i], u) && u in states[k].c.nodes[i].index
    requires Reportable(states[k].peers[i].agent, u) && Actual(states[k].peers[i].agent, u) != DEAD
    ensures CachedShown(states[k].c.nodes[i].index, u) == Actual(states[k].peers[i].agent, u)
  {
    RunShownRight(states, steps, k, u);
    var n, p := states[k].c.nodes[i], states[k].peers[i];
    assert ShownRight(n, p, u);
    assert p.agent.emitted[p.reported..] == [] && n.sent[p.taken..] == [];
  }
}
