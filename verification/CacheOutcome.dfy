/** What the controller will believe about a unit once the queues have run dry, from any state
    of any run: subscriptions may have been kept, taken back and renewed.  It may believe a
    unit to be loaded that is not; the exact condition is here, with the runs that lead to it.
    It misses a loaded unit only if the agent had the subscription before the connection. */
module CacheOutcome {
  import opened CStrings
  import opened ControllerState
  import opened SubscriptionIndex
  import opened ConnectionLog
  import opened ControllerRuns
  import opened PathEscape
  import opened SubscriptionMirror
  import opened CacheFollowsAgent
  import A = AgentUnits

  // ---------------------------------------------------------------- what is still to be taken

  function WantedThen(m: AgentMessage, wanted: bool, u: CString): bool {
    if m == Subscribe(u) then true else if m == Unsubscribe(u) then false else wanted
  }

  /** Some Subscribe of the unit among the messages finds it not wanted, so it is not refused. */
  predicate Accepts(ms: seq<AgentMessage>, wanted: bool, u: CString) {
    ms != [] && ((ms[0] == Subscribe(u) && !wanted) || Accepts(ms[1..], WantedThen(ms[0], wanted, u), u))
  }

  lemma {:induction false} AcceptsMore(ms: seq<AgentMessage>, more: seq<AgentMessage>, wanted: bool, u: CString)
    requires Accepts(ms, wanted, u)
    ensures Accepts(ms + more, wanted, u)
  {
    assert (ms + more)[1..] == ms[1..] + more;
    if !(ms[0] == Subscribe(u) && !wanted) {
      AcceptsMore(ms[1..], more, WantedThen(ms[0], wanted, u), u);
    }
  }

  /** Without a take-back only the first Subscribe can be accepted. */
  lemma {:induction false} AcceptsNoTakeBack(ms: seq<AgentMessage>, wanted: bool, u: CString)
    requires Unsubscribe(u) !in ms
    ensures Accepts(ms, wanted, u) <==> !wanted && Subscribe(u) in ms
  {
    if ms != [] {
      assert ms == [ms[0]] + ms[1..];
      AcceptsNoTakeBack(ms[1..], WantedThen(ms[0], wanted, u), u);
    }
  }

  lemma WantedOneMore(sent: seq<AgentMessage>, k: nat, base: set<CString>, u: CString)
    requires k < |sent|
    ensures u in Wanted(sent[..k + 1], base) <==> WantedThen(sent[k], u in Wanted(sent[..k], base), u)
  {
    assert sent[..k + 1][..k] == sent[..k];
  }

  /** A unit that is not wanted at some point and is wanted in the end was accepted between. */
  lemma {:induction false} AcceptsThroughGap(sent: seq<AgentMessage>, base: set<CString>, taken: nat, k: nat, u: CString)
    requires taken <= k <= |sent|
    requires u !in Wanted(sent[..k], base) && u in Wanted(sent, base)
    ensures Accepts(sent[taken..], u in Wanted(sent[..taken], base), u)
    decreases |sent| - taken
  {
    assert sent[..|sent|] == sent;
    assert taken < |sent|;
    WantedOneMore(sent, taken, base, u);
    assert sent[taken..][1..] == sent[taken + 1..];
    if taken < k {
      AcceptsThroughGap(sent, base, taken + 1, k, u);
    } else if sent[taken] != Subscribe(u) {
      AcceptsThroughGap(sent, base, taken + 1, k + 1, u);
    }
  }

  /** What was kept from before does not matter once it was taken back. */
  lemma {:induction false} BaseForgotten(sent: seq<AgentMessage>, base: set<CString>, u: CString)
    requires u !in base || Unsubscribe(u) in sent
    ensures u in Wanted(sent, base) <==> u in Wanted(sent, {})
  {
    if sent != [] {
      var last := sent[|sent| - 1];
      assert sent == sent[..|sent| - 1] + [last];
      if last != Subscribe(u) && last != Unsubscribe(u) {
        BaseForgotten(sent[..|sent| - 1], base, u);
      }
    }
  }

  // ---------------------------------------------------------------- messages at the agent

  lemma UnsubscribeLoad(a: A.AgentState, v: CString, u: CString)
    requires A.TableOk(a) && u != WILDCARD
    ensures A.OnUnsubscribe(a, v).0.emitted == a.emitted
    ensures A.Info(A.OnUnsubscribe(a, v).0, u).loaded == A.Info(a, u).loaded
  {
    if v != WILDCARD && v != u {
      if MakeUnitPath(u) == MakeUnitPath(v) {
        UnitPathsDiffer(u, v);
      }
      OtherInfo(a, A.OnUnsubscribe(a, v).0, MakeUnitPath(v), u);
    }
  }

  lemma SubscribeSelfLoad(a: A.AgentState, x: bool, u: CString)
    requires A.TableOk(a) && u != WILDCARD
    ensures var b := A.OnSubscribe(a, u).0;
      && a.emitted <= b.emitted && A.Info(b, u).loaded == A.Info(a, u).loaded
      && LoadedAfter(x, Since(a, b), u) == (x || (u !in A.Wants(a) && A.Info(a, u).loaded))
  {
    var b := A.OnSubscribe(a, u).0;
    A.EntriesAreOfTheirUnit(a, u);
    A.WantsUnit(a, u);
    VirtualEventsLoad(x, A.Info(a, u));
    assert Since(a, b) == if A.Info(a, u).subscribed then [] else A.VirtualEvents(A.Info(a, u));
  }

  lemma SubscribeOtherLoad(a: A.AgentState, v: CString, x: bool, u: CString)
    requires A.TableOk(a) && u != WILDCARD && v != u
    ensures var b := A.OnSubscribe(a, v).0;
      && a.emitted <= b.emitted && A.Info(b, u).loaded == A.Info(a, u).loaded
      && LoadedAfter(x, Since(a, b), u) == x
  {
    var b := A.OnSubscribe(a, v).0;
    SubscribeElsewhere(a, v);
    NotAbout(x, Since(a, b), u);
    if MakeUnitPath(u) == MakeUnitPath(v) {
      UnitPathsDiffer(u, v);
    }
    OtherInfo(a, b, MakeUnitPath(v), u);
  }

  /** A message makes the agent report a unit as loaded exactly if it is an accepted Subscribe
      of a loaded unit, and never makes it report anything else about the loaded bit. */
  lemma TakeLoad(a: A.AgentState, m: AgentMessage, x: bool, u: CString)
    requires A.TableOk(a) && u != WILDCARD
    ensures a.emitted <= Take(a, m).emitted
    ensures A.Info(Take(a, m), u).loaded == A.Info(a, u).loaded
    ensures LoadedAfter(x, Since(a, Take(a, m)), u)
              == (x || (m == Subscribe(u) && u !in A.Wants(a) && A.Info(a, u).loaded))
  {
    if m == Subscribe(u) {
      SubscribeSelfLoad(a, x, u);
    } else if m.Subscribe? {
      SubscribeOtherLoad(a, m.unit, x, u);
    } else {
      if m.Unsubscribe? {
        UnsubscribeLoad(a, m.unit, u);
      }
      assert Since(a, Take(a, m)) == [];
    }
  }

  // ---------------------------------------------------------------- the settled belief

  /** The loaded bit once the reports under way have been taken. */
  function Belief(n: NodeState, p: Peer, u: CString): bool
    requires p.reported <= |p.agent.emitted|
  {
    LoadedAfter(Loaded(n.index, u), p.agent.emitted[p.reported..], u)
  }

  /** The messages under way will make the agent report the unit, if it is loaded. */
  ghost predicate WillReport(n: NodeState, p: Peer, u: CString) {
    p.taken <= |n.sent| && Accepts(n.sent[p.taken..], u in A.Wants(p.agent), u)
  }

  /** The loaded bit once both queues have run dry and nothing else happened. */
  ghost predicate Settled(n: NodeState, p: Peer, u: CString)
    requires p.reported <= |p.agent.emitted|
  {
    Belief(n, p, u) || (WillReport(n, p, u) && A.Info(p.agent, u).loaded)
  }

  /** The belief after the agent did something. */
  lemma BeliefGrows(n: NodeState, p: Peer, a: A.AgentState, taken: nat, u: CString)
    requires p.reported <= |p.agent.emitted| && p.agent.emitted <= a.emitted
    ensures Belief(n, p.(agent := a, taken := taken), u) == LoadedAfter(Belief(n, p, u), Since(p.agent, a), u)
  {
    LoadedAfterConcat(Loaded(n.index, u), p.agent.emitted[p.reported..], Since(p.agent, a), u);
    assert p.agent.emitted[p.reported..] + Since(p.agent, a) == a.emitted[p.reported..];
  }

  lemma TakeSettles(n: NodeState, p: Peer, u: CString)
    requires A.TableOk(p.agent) && p.reported <= |p.agent.emitted| && p.taken < |n.sent| && u != WILDCARD
    ensures var q := p.(agent := Take(p.agent, n.sent[p.taken]), taken := p.taken + 1);
      && q.reported <= |q.agent.emitted|
      && A.Info(q.agent, u).loaded == A.Info(p.agent, u).loaded
      && Settled(n, q, u) == Settled(n, p, u)
  {
    var m := n.sent[p.taken];
    TakeLoad(p.agent, m, Belief(n, p, u), u);
    BeliefGrows(n, p, Take(p.agent, m), p.taken + 1, u);
    TakeAccepts(n, p, u);
  }

  /** Taking a message that is accepted is the first way in which the agent will report. */
  lemma TakeAccepts(n: NodeState, p: Peer, u: CString)
    requires A.TableOk(p.agent) && p.taken < |n.sent|
    ensures var q := p.(agent := Take(p.agent, n.sent[p.taken]), taken := p.taken + 1);
      WillReport(n, p, u) <==> (n.sent[p.taken] == Subscribe(u) && u !in A.Wants(p.agent)) || WillReport(n, q, u)
  {
    TakeWants(p.agent, n.sent[p.taken]);
    assert n.sent[p.taken..][1..] == n.sent[p.taken + 1..];
  }

  lemma ReportCaches(n: NodeState, nNext: NodeState, e: Event, u: CString)
    requires AgentEvent(n, nNext, e) && u in n.index
    ensures u in nNext.index && nNext.sent == n.sent && nNext.online == n.online
    ensures Loaded(nNext.index, u) == LoadEvent(Loaded(n.index, u), e, u)
  {
  }

  lemma ReportSettles(n: NodeState, nNext: NodeState, p: Peer, u: CString)
    requires p.reported < |p.agent.emitted| && AgentEvent(n, nNext, p.agent.emitted[p.reported]) && u in n.index
    ensures u in nNext.index && nNext.online == n.online
    ensures Settled(nNext, p.(reported := p.reported + 1), u) == Settled(n, p, u)
  {
    var es := p.agent.emitted[p.reported..];
    ReportCaches(n, nNext, es[0], u);
    LoadedAfterFirst(Loaded(n.index, u), es, u);
    assert es[1..] == p.agent.emitted[p.reported + 1..];
  }

  // ---------------------------------------------------------------- running dry

  ghost predicate InRange(s: System) {
    forall i :: 0 <= i < |s.peers| && s.peers[i].attached ==> s.peers[i].reported <= |s.peers[i].agent.emitted|
  }

  lemma SystemdStepGrows(a: A.AgentState, aNext: A.AgentState)
    requires SystemdStep(a, aNext)
    ensures a.emitted <= aNext.emitted
  {
    if u :| aNext == A.OnUnitNew(a, u) {
    } else if p :| aNext == A.OnUnitRemoved(a, p) {
    } else {
      var p, st, sub :| aNext == A.OnUnitChanged(a, p, st, sub);
    }
  }

  lemma InRangeNext(s: System, step: SystemStep, sNext: System)
    requires InRange(s) && SystemNext(s, step, sNext)
    ensures InRange(sNext)
  {
    match step
    case Takes(i) => assert s.peers[i].agent.emitted <= sNext.peers[i].agent.emitted;
    case SystemdMoves(i, a) => SystemdStepGrows(s.peers[i].agent, a);
    case _ =>
  }

  lemma {:induction false} RunInRange(states: seq<System>, steps: seq<SystemStep>, k: nat)
    requires SystemRun(states, steps) && k < |states|
    ensures InRange(states[k])
  {
    if k > 0 {
      RunInRange(states, steps, k - 1);
      InRangeNext(states[k - 1], steps[k - 1], states[k]);
    }
  }

  /** What under way is taken, and nothing new happens. */
  predicate Draining(step: SystemStep) {
    step.Takes? || step.Reports?
  }

  ghost predicate Connection(s: System, i: nat) {
    i < |s.peers| && i < |s.c.nodes| && s.c.nodes[i].online && s.peers[i].attached
  }

  ghost predicate Drained(s: System, i: nat)
    requires Connection(s, i)
  {
    s.peers[i].taken == |s.c.nodes[i].sent| && s.peers[i].reported == |s.peers[i].agent.emitted|
  }

  /** Both connections are up, and lead to the same cached bit for the same actual one. */
  ghost predicate SameOutcome(n: NodeState, p: Peer, nNext: NodeState, pNext: Peer, u: CString) {
    && nNext.online && pNext.attached && u in nNext.index
    && p.reported <= |p.agent.emitted| && pNext.reported <= |pNext.agent.emitted|
    && A.Info(pNext.agent, u).loaded == A.Info(p.agent, u).loaded
    && Settled(nNext, pNext, u) == Settled(n, p, u)
  }

  lemma DrainStep(s: System, step: SystemStep, sNext: System, i: nat, u: CString)
    requires SystemInv(s) && InRange(s) && SystemNext(s, step, sNext) && Draining(step)
    requires Connection(s, i) && u in s.c.nodes[i].index && u != WILDCARD
    ensures i < |sNext.peers| && i < |sNext.c.nodes|
    ensures SameOutcome(s.c.nodes[i], s.peers[i], sNext.c.nodes[i], sNext.peers[i], u)
  {
    assert PeerOk(s.peers[i], s.c.nodes[i]);
    if step.i == i {
      DrainOwn(s, step, sNext, i, u);
    }
  }

  lemma DrainOwn(s: System, step: SystemStep, sNext: System, i: nat, u: CString)
    requires Connection(s, i) && PeerOk(s.peers[i], s.c.nodes[i]) && s.peers[i].reported <= |s.peers[i].agent.emitted|
    requires SystemNext(s, step, sNext) && Draining(step) && step.i == i
    requires u in s.c.nodes[i].index && u != WILDCARD
    ensures i < |sNext.peers| && i < |sNext.c.nodes|
    ensures SameOutcome(s.c.nodes[i], s.peers[i], sNext.c.nodes[i], sNext.peers[i], u)
  {
    if step.Takes? {
      TakeSettles(s.c.nodes[i], s.peers[i], u);
    } else {
      ReportSettles(s.c.nodes[i], sNext.c.nodes[i], s.peers[i], u);
    }
  }

  lemma ReachableStep(states: seq<System>, steps: seq<SystemStep>, k: nat)
    requires SystemRun(states, steps) && k < |steps|
    ensures SystemInv(states[k]) && InRange(states[k]) && SystemNext(states[k], steps[k], states[k + 1])
  {
    SystemRunSafe(states, steps, k);
    RunInRange(states, steps, k);
  }

  ghost predicate SameOutcomeAt(s: System, sNext: System, i: nat, u: CString) {
    && i < |s.peers| && i < |s.c.nodes| && i < |sNext.peers| && i < |sNext.c.nodes|
    && SameOutcome(s.c.nodes[i], s.peers[i], sNext.c.nodes[i], sNext.peers[i], u)
  }

  lemma OutcomeTrans(s: System, s1: System, s2: System, i: nat, u: CString)
    requires SameOutcomeAt(s, s1, i, u) && SameOutcomeAt(s1, s2, i, u)
    ensures SameOutcomeAt(s, s2, i, u)
  {
  }

  lemma DrainOne(states: seq<System>, steps: seq<SystemStep>, k: nat, i: nat, u: CString)
    requires SystemRun(states, steps) && k < |steps| && Draining(steps[k])
    requires Connection(states[k], i) && u in states[k].c.nodes[i].index && u != WILDCARD
    ensures SameOutcomeAt(states[k], states[k + 1], i, u)
  {
    ReachableStep(states, steps, k);
    DrainStep(states[k], steps[k], states[k + 1], i, u);
  }

  lemma DrainNone(states: seq<System>, steps: seq<SystemStep>, k: nat, i: nat, u: CString)
    requires SystemRun(states, steps) && k < |states|
    requires Connection(states[k], i) && u in states[k].c.nodes[i].index
    ensures SameOutcomeAt(states[k], states[k], i, u)
  {
    RunInRange(states, steps, k);
  }

  lemma {:induction false} DrainRun(states: seq<System>, steps: seq<SystemStep>, k: nat, l: nat, i: nat, u: CString)
    requires SystemRun(states, steps) && k <= l < |states| && forall j :: k <= j < l ==> Draining(steps[j])
    requires Connection(states[k], i) && u in states[k].c.nodes[i].index && u != WILDCARD
    ensures SameOutcomeAt(states[k], states[l], i, u)
    decreases l
  {
    if k == l {
      DrainNone(states, steps, k, i, u);
    } else {
      DrainRun(states, steps, k, l - 1, i, u);
      DrainOne(states, steps, l - 1, i, u);
      OutcomeTrans(states[k], states[l - 1], states[l], i, u);
    }
  }

  /** From any reachable state, when the queues run dry and nothing else happens: the bit the
      controller ends with, and exactly when it is the agent's.  For a loaded unit the
      controller has to believe it already, or be told by a Subscribe the agent will accept;
      for any other it must not believe it. */
  lemma SettlesExactly(states: seq<System>, steps: seq<SystemStep>, k: nat, l: nat, i: nat, u: CString)
    requires SystemRun(states, steps) && k <= l < |states| && forall j :: k <= j < l ==> Draining(steps[j])
    requires Connection(states[k], i) && u in states[k].c.nodes[i].index && u != WILDCARD
    requires Connection(states[l], i) ==> Drained(states[l], i)
    ensures Connection(states[l], i) && u in states[l].c.nodes[i].index
    ensures states[k].peers[i].reported <= |states[k].peers[i].agent.emitted|
    ensures var n, p := states[k].c.nodes[i], states[k].peers[i];
      var cached, actual := states[l].c.nodes[i].index[u].loaded, A.Info(states[l].peers[i].agent, u).loaded;
      && actual == A.Info(p.agent, u).loaded
      && cached == (Belief(n, p, u) || (WillReport(n, p, u) && actual))
      && (cached == actual <==> if actual then Belief(n, p, u) || WillReport(n, p, u) else !Belief(n, p, u))
  {
    DrainRun(states, steps, k, l, i, u);
    var n, p := states[l].c.nodes[i], states[l].peers[i];
    assert p.agent.emitted[p.reported..] == [];
    assert n.sent[p.taken..] == [];
  }

  // ---------------------------------------------------------------- an entry made anew

  /** The agent did not keep the subscription from before the connection, or lost it since. */
  predicate Learned(n: NodeState, p: Peer, u: CString) {
    u !in p.base || Unsubscribe(u) in n.sent
  }

  lemma LearnedWants(n: NodeState, u: CString, base: set<CString>)
    requires Told(n) && n.online && (u !in base || Unsubscribe(u) in n.sent)
    ensures u in Wanted(n.sent, base) <==> u in n.index
  {
    BaseForgotten(n.sent, base, u);
  }

  /** The controller made the entry anew, possibly in one step with dropping the old one. */
  lemma RenewedIsAhead(n: NodeState, nNext: NodeState, p: Peer, u: CString)
    requires PeerOk(p, n) && Told(n) && Told(nNext) && n.online && nNext.online && p.attached
    requires n.sent <= nNext.sent && u in nNext.index && Learned(nNext, p, u)
    requires u !in n.index || Unsubscribe(u) in nNext.sent[|n.sent|..]
    ensures WillReport(nNext, p, u)
  {
    var sent := nNext.sent;
    LearnedWants(nNext, u, p.base);
    assert sent[..p.taken] == n.sent[..p.taken] && sent[..|n.sent|] == n.sent;
    if Unsubscribe(u) in sent[|n.sent|..] {
      var j :| 0 <= j < |sent| - |n.sent| && sent[|n.sent|..][j] == Unsubscribe(u);
      var k := |n.sent| + j;
      WantedOneMore(sent, k, p.base, u);
      AcceptsThroughGap(sent, p.base, p.taken, k + 1, u);
    } else {
      assert Unsubscribe(u) in sent ==> Unsubscribe(u) in n.sent by {
        assert sent == n.sent + sent[|n.sent|..];
      }
      LearnedWants(n, u, p.base);
      AcceptsThroughGap(sent, p.base, p.taken, |n.sent|, u);
    }
  }

  lemma {:induction false} SubscribeUnitsLoaded(n: NodeState, s: Subscription, units: seq<CString>, u: CString)
    ensures Loaded(SubscribeUnits(n, s, units).index, u) == Loaded(n.index, u)
    ensures u in SubscribeUnits(n, s, units).index <==> u in n.index || u in units
  {
    if units != [] {
      SubscribeUnitsLoaded(n, s, units[..|units| - 1], u);
      assert units == units[..|units| - 1] + [units[|units| - 1]];
    }
  }

  /** The new entry of a unit: nothing is believed yet, and the agent will report it. */
  lemma RenewalBelief(n: NodeState, s: Subscription, p: Peer, u: CString)
    requires PeerOk(p, n) && Told(n) && n.online && p.attached && p.reported <= |p.agent.emitted|
    requires u !in n.index && u in s.units && Learned(n, p, u) && u != WILDCARD
    ensures var nNext := SubscribeUnits(n, s, s.units);
      && nNext.online && u in nNext.index
      && Belief(nNext, p, u) == LoadedAfter(false, p.agent.emitted[p.reported..], u)
      && WillReport(nNext, p, u)
  {
    var nNext := SubscribeUnits(n, s, s.units);
    SubscribeUnitsTold(n, s, s.units);
    SubscribeUnitsKeepsRest(n, s, s.units);
    SubscribeUnitsLoaded(n, s, s.units, u);
    assert forall k :: 0 <= k < |n.sent| ==> nNext.sent[k] == n.sent[k];
    RenewedIsAhead(n, nNext, p, u);
  }

  /** The controller makes an entry anew, in any reachable state and whatever messages and
      reports `q` are under way then; these are delivered and nothing else happens.  The bit it
      ends with is what the old reports say, or the truth; so it is right exactly if they do
      not make a unit loaded that is not. */
  lemma RenewalOutcome(
    states: seq<System>, steps: seq<SystemStep>, k: nat, l: nat, i: nat, s: Subscription, u: CString)
    requires SystemRun(states, steps) && k < l < |states| && forall j :: k < j < l ==> Draining(steps[j])
    requires steps[k] == ControllerMoves(MonitorSubscribes(s)) && u in s.units && u != WILDCARD
    requires Connection(states[k], i) && Matches(s, states[k].c.nodes[i].name)
    requires u !in states[k].c.nodes[i].index && Learned(states[k].c.nodes[i], states[k].peers[i], u)
    requires Connection(states[l], i) ==> Drained(states[l], i)
    ensures Connection(states[l], i) && u in states[l].c.nodes[i].index
    ensures states[k].peers[i].reported <= |states[k].peers[i].agent.emitted|
    ensures var p := states[k].peers[i];
      var q := p.agent.emitted[p.reported..];
      var cached, actual := states[l].c.nodes[i].index[u].loaded, A.Info(states[l].peers[i].agent, u).loaded;
      && actual == A.Info(p.agent, u).loaded
      && cached == (LoadedAfter(false, q, u) || actual)
      && (cached == actual <==> !LoadedAfter(false, q, u) || actual)
  {
    ReachableStep(states, steps, k);
    var n, p := states[k].c.nodes[i], states[k].peers[i];
    assert PeerOk(p, n) && Told(n);
    assert states[k + 1].c.nodes[i] == SubscribeUnits(n, s, s.units) && states[k + 1].peers[i] == p;
    RenewalBelief(n, s, p, u);
    SettlesExactly(states, steps, k + 1, l, i, u);
  }

  lemma RemovalBelief(n: NodeState, p: Peer, u: CString)
    requires A.TableOk(p.agent) && p.reported <= |p.agent.emitted| && u != WILDCARD
    requires MakeUnitPath(u) in p.agent.infos
    ensures var q := p.(agent := A.OnUnitRemoved(p.agent, MakeUnitPath(u)));
      && q.reported <= |q.agent.emitted| && !A.Info(q.agent, u).loaded
      && (Settled(n, q, u) <==> Belief(n, p, u) && u !in A.Wants(p.agent) && WILDCARD !in A.Wants(p.agent))
  {
    var path := MakeUnitPath(u);
    var b := A.OnUnitRemoved(p.agent, path);
    A.EntriesAreOfTheirUnit(p.agent, u);
    InterestedWants(p.agent, u);
    assert Since(p.agent, b) == if A.Interested(p.agent, A.Info(p.agent, u)) then [UnitRemoved(u, Real)] else [];
    BeliefGrows(n, p, b, p.taken, u);
  }

  /** systemd removes a unit the agent knows, in any reachable state, and from then on only
      what is under way is delivered.  A removal the agent does not report, because nobody's
      subscription has reached it, leaves the belief as it was: this is what makes the
      controller wrong, and exactly if the belief said loaded. */
  lemma RemovalOutcome(states: seq<System>, steps: seq<SystemStep>, k: nat, l: nat, i: nat, u: CString)
    requires SystemRun(states, steps) && k < l < |states| && forall j :: k < j < l ==> Draining(steps[j])
    requires Connection(states[k], i) && u in states[k].c.nodes[i].index && u != WILDCARD
    requires MakeUnitPath(u) in states[k].peers[i].agent.infos
    requires steps[k] == SystemdMoves(i, A.OnUnitRemoved(states[k].peers[i].agent, MakeUnitPath(u)))
    requires Connection(states[l], i) ==> Drained(states[l], i)
    ensures Connection(states[l], i) && u in states[l].c.nodes[i].index
    ensures states[k].peers[i].reported <= |states[k].peers[i].agent.emitted|
    ensures var n, p := states[k].c.nodes[i], states[k].peers[i];
      && !A.Info(states[l].peers[i].agent, u).loaded
      && (states[l].c.nodes[i].index[u].loaded <==>
            Belief(n, p, u) && u !in A.Wants(p.agent) && WILDCARD !in A.Wants(p.agent))
  {
    ReachableStep(states, steps, k);
    assert PeerOk(states[k].peers[i], states[k].c.nodes[i]);
    RemovalBelief(states[k].c.nodes[i], states[k].peers[i], u);
    SettlesExactly(states, steps, k + 1, l, i, u);
  }

  // ---------------------------------------------------------------- nothing loaded is missed

  /** A unit that is loaded will be believed to be. */
  ghost predicate NotMissed(n: NodeState, p: Peer, u: CString) {
    n.online && p.attached && u in n.index && Learned(n, p, u) ==>
      p.reported <= |p.agent.emitted| && (A.Info(p.agent, u).loaded ==> Settled(n, p, u))
  }

  /** An entry in the log of a learned subscription that the agent has not come to yet. */
  lemma WantedIsAhead(n: NodeState, p: Peer, u: CString)
    requires PeerOk(p, n) && Told(n) && n.online && p.attached && u in n.index && Learned(n, p, u)
    requires u !in A.Wants(p.agent)
    ensures WillReport(n, p, u)
  {
    BaseForgotten(n.sent, p.base, u);
    AcceptsThroughGap(n.sent, p.base, p.taken, p.taken, u);
  }

  /** The entry stays as it is while the log grows. */
  lemma KeptNotMissed(n: NodeState, nNext: NodeState, p: Peer, u: CString)
    requires NotMissed(n, p, u) && p.taken <= |n.sent| && p.reported <= |p.agent.emitted|
    requires n.online && p.attached && n.sent <= nNext.sent && u in n.index
    requires Loaded(nNext.index, u) == Loaded(n.index, u) && Unsubscribe(u) !in nNext.sent[|n.sent|..]
    ensures NotMissed(nNext, p, u)
  {
    assert nNext.sent == n.sent + nNext.sent[|n.sent|..];
    if WillReport(n, p, u) {
      AcceptsMore(n.sent[p.taken..], nNext.sent[|n.sent|..], u in A.Wants(p.agent), u);
      assert nNext.sent[p.taken..] == n.sent[p.taken..] + nNext.sent[|n.sent|..];
    }
  }

  lemma ControllerNotMissed(s: System, st: Step, sNext: System, i: nat, u: CString)
    requires SystemInv(s) && InRange(s) && SystemNext(s, ControllerMoves(st), sNext) && i < |s.peers|
    requires SystemInv(sNext) && NotMissed(s.c.nodes[i], s.peers[i], u)
    ensures NotMissed(sNext.c.nodes[i], s.peers[i], u)
  {
    StepCacheKept(s.c, st, sNext.c, i, u);
    var n, nNext, p := s.c.nodes[i], sNext.c.nodes[i], s.peers[i];
    assert PeerOk(p, n) && Told(n) && Told(nNext);
    if nNext.online && p.attached && u in nNext.index && Learned(nNext, p, u) {
      if u !in n.index || Unsubscribe(u) in nNext.sent[|n.sent|..] {
        RenewedIsAhead(n, nNext, p, u);
      } else {
        KeptNotMissed(n, nNext, p, u);
      }
    }
  }

  lemma ConnectsNotMissed(n: NodeState, nNext: NodeState, a: A.AgentState, u: CString)
    requires A.TableOk(a) && Connected(n, nNext)
    ensures NotMissed(nNext, Peer(a, true, 0, |a.emitted|, A.Wants(a)), u)
  {
    var order :| IsOrderOf(order, n.index.Keys) && nNext == n.(online := true, sent := Greeting(order, n.deps));
    assert nNext.sent[0..] == nNext.sent;
    if u in n.index && u !in A.Wants(a) {
      assert u in order;
      var k :| 0 <= k < |order| && order[k] == u;
      assert nNext.sent[k] == Subscribe(u);
      AcceptsNoTakeBack(nNext.sent, false, u);
    }
  }

  lemma SystemdNotMissed(n: NodeState, p: Peer, a: A.AgentState, u: CString)
    requires PeerOk(p, n) && Told(n) && NotMissed(n, p, u) && SystemdStep(p.agent, a) && u != WILDCARD
    ensures NotMissed(n, p.(agent := a), u)
  {
    SystemdStepGrows(p.agent, a);
    SystemdKeeps(p.agent, a);
    if n.online && p.attached && u in n.index && Learned(n, p, u) {
      if u !in A.Wants(p.agent) {
        WantedIsAhead(n, p, u);
      } else {
        BeliefGrows(n, p, a, p.taken, u);
        WantedSystemdLoad(p.agent, a, Belief(n, p, u), u);
      }
    }
  }

  /** The unit was reported as loaded, or nothing about it changed, or it is not loaded. */
  ghost predicate NoLoadLost(a: A.AgentState, b: A.AgentState, x: bool, u: CString) {
    && a.emitted <= b.emitted
    && (A.Info(b, u).loaded ==>
          LoadedAfter(x, Since(a, b), u) || (A.Info(a, u).loaded && LoadedAfter(x, Since(a, b), u) == x))
  }

  lemma RemovedLoad(a: A.AgentState, p: CString, x: bool, u: CString)
    requires A.TableOk(a) && u != WILDCARD
    ensures NoLoadLost(a, A.OnUnitRemoved(a, p), x, u)
  {
    var b := A.OnUnitRemoved(a, p);
    if p != MakeUnitPath(u) {
      UnitRemovedElsewhere(a, p, u);
      NotAbout(x, Since(a, b), u);
      OtherInfo(a, b, p, u);
    }
  }

  /** About a unit it wants the agent reports every loading and every removal. */
  lemma WantedSystemdLoad(a: A.AgentState, b: A.AgentState, x: bool, u: CString)
    requires A.TableOk(a) && SystemdStep(a, b) && u in A.Wants(a) && u != WILDCARD
    ensures NoLoadLost(a, b, x, u)
  {
    if v :| b == A.OnUnitNew(a, v) {
      WantedNewLoad(a, v, x, u);
    } else if p :| b == A.OnUnitRemoved(a, p) {
      RemovedLoad(a, p, x, u);
    } else {
      var p, st, sub :| b == A.OnUnitChanged(a, p, st, sub);
      ChangedLoad(a, p, st, sub, x, u);
    }
  }

  lemma WantedNewLoad(a: A.AgentState, v: CString, x: bool, u: CString)
    requires A.TableOk(a) && u in A.Wants(a) && u != WILDCARD
    ensures NoLoadLost(a, A.OnUnitNew(a, v), x, u)
  {
    var b := A.OnUnitNew(a, v);
    A.EntriesAreOfTheirUnit(a, v);
    InterestedWants(a, u);
    if v == u {
      assert Since(a, b) == [UnitNew(u, Real)];
    } else {
      NotAbout(x, Since(a, b), u);
      if MakeUnitPath(u) == MakeUnitPath(v) {
        UnitPathsDiffer(u, v);
      }
      OtherInfo(a, b, MakeUnitPath(v), u);
    }
  }

  lemma ChangedLoad(a: A.AgentState, p: CString, st: ActiveState, sub: CString, x: bool, u: CString)
    requires A.TableOk(a) && u != WILDCARD
    ensures NoLoadLost(a, A.OnUnitChanged(a, p, st, sub), x, u)
  {
    if p == MakeUnitPath(u) {
      A.EntriesAreOfTheirUnit(a, u);
    } else {
      UnitChangedElsewhere(a, p, st, sub, u);
      NotAbout(x, Since(a, A.OnUnitChanged(a, p, st, sub)), u);
      OtherInfo(a, A.OnUnitChanged(a, p, st, sub), p, u);
    }
  }

  ghost predicate NothingMissed(s: System, u: CString) {
    |s.peers| <= |s.c.nodes| && forall i :: 0 <= i < |s.peers| ==> NotMissed(s.c.nodes[i], s.peers[i], u)
  }

  lemma PeerNotMissed(s: System, step: SystemStep, sNext: System, i: nat, u: CString)
    requires SystemInv(s) && SystemInv(sNext) && InRange(s) && SystemNext(s, step, sNext) && u != WILDCARD
    requires i < |s.peers| && i < |sNext.peers| && NotMissed(s.c.nodes[i], s.peers[i], u)
    ensures NotMissed(sNext.c.nodes[i], sNext.peers[i], u)
  {
    if step.ControllerMoves? {
      ControllerNotMissed(s, step.step, sNext, i, u);
    } else if i == step.i {
      PeerTold(s, i);
      PeerMovesNotMissed(s, step, sNext, i, u);
    } else {
      SamePeer(s, step, sNext, i);
    }
  }

  lemma PeerTold(s: System, i: nat)
    requires SystemInv(s) && i < |s.peers|
    ensures PeerOk(s.peers[i], s.c.nodes[i]) && Told(s.c.nodes[i])
  {
  }

  /** A step of one node's connection is nothing to the others. */
  lemma SamePeer(s: System, step: SystemStep, sNext: System, i: nat)
    requires SystemNext(s, step, sNext) && !step.ControllerMoves? && step.i != i && i < |s.peers| && i < |s.c.nodes|
    ensures i < |sNext.peers| && i < |sNext.c.nodes| && sNext.peers[i] == s.peers[i] && sNext.c.nodes[i] == s.c.nodes[i]
  {
  }

  lemma TakeNotMissed(n: NodeState, p: Peer, u: CString)
    requires PeerOk(p, n) && p.attached && p.taken < |n.sent| && NotMissed(n, p, u) && u != WILDCARD
    requires p.reported <= |p.agent.emitted|
    ensures NotMissed(n, p.(agent := Take(p.agent, n.sent[p.taken]), taken := p.taken + 1), u)
  {
    TakeSettles(n, p, u);
  }

  lemma ReportNotMissed(n: NodeState, nNext: NodeState, p: Peer, u: CString)
    requires p.reported < |p.agent.emitted| && AgentEvent(n, nNext, p.agent.emitted[p.reported])
    requires NotMissed(n, p, u)
    ensures NotMissed(nNext, p.(reported := p.reported + 1), u)
  {
    if u in n.index {
      ReportSettles(n, nNext, p, u);
    }
  }

  lemma PeerMovesNotMissed(s: System, step: SystemStep, sNext: System, i: nat, u: CString)
    requires SystemNext(s, step, sNext) && !step.ControllerMoves? && i == step.i && u != WILDCARD
    requires i < |s.peers| && i < |sNext.peers| && i < |s.c.nodes| && i < |sNext.c.nodes|
    requires PeerOk(s.peers[i], s.c.nodes[i]) && Told(s.c.nodes[i]) && NotMissed(s.c.nodes[i], s.peers[i], u)
    requires s.peers[i].attached ==> s.peers[i].reported <= |s.peers[i].agent.emitted|
    ensures NotMissed(sNext.c.nodes[i], sNext.peers[i], u)
  {
    var n, p := s.c.nodes[i], s.peers[i];
    match step
    case Connects(_) => ConnectsNotMissed(n, sNext.c.nodes[i], p.agent, u);
    case Takes(_) => TakeNotMissed(n, p, u);
    case Reports(_) => ReportNotMissed(n, sNext.c.nodes[i], p, u);
    case SystemdMoves(_, a) => SystemdNotMissed(n, p, a, u);
    case Restarts(_, _) => assert !sNext.peers[i].attached;
  }

  lemma StepNotMissed(s: System, step: SystemStep, sNext: System, u: CString)
    requires SystemInv(s) && InRange(s) && SystemNext(s, step, sNext) && NothingMissed(s, u) && u != WILDCARD
    ensures NothingMissed(sNext, u)
  {
    SamePeers(s, step, sNext);
    forall i | 0 <= i < |sNext.peers| ensures NotMissed(sNext.c.nodes[i], sNext.peers[i], u) {
      PeerNotMissed(s, step, sNext, i, u);
    }
  }

  lemma {:induction false} RunNotMissed(states: seq<System>, steps: seq<SystemStep>, k: nat, u: CString)
    requires SystemRun(states, steps) && k < |states| && u != WILDCARD
    ensures NothingMissed(states[k], u)
  {
    if k > 0 {
      RunNotMissed(states, steps, k - 1, u);
      ReachableStep(states, steps, k - 1);
      StepNotMissed(states[k - 1], steps[k - 1], states[k], u);
    }
  }

  /** In any reachable state with both queues drained, whatever was taken back and renewed on
      the way: a loaded unit with an entry is cached as loaded, unless the agent kept the
      subscription from before the connection. */
  lemma LoadedIsNeverMissed(states: seq<System>, steps: seq<SystemStep>, k: nat, i: nat, u: CString)
    requires SystemRun(states, steps) && k < |states| && u != WILDCARD
    requires Connection(states[k], i) && Drained(states[k], i)
    requires Learned(states[k].c.nodes[i], states[k].peers[i], u) && u in states[k].c.nodes[i].index
    ensures A.Info(states[k].peers[i].agent, u).loaded ==> states[k].c.nodes[i].index[u].loaded
  {
    RunNotMissed(states, steps, k, u);
    var n, p := states[k].c.nodes[i], states[k].peers[i];
    assert NotMissed(n, p, u);
    assert p.agent.emitted[p.reported..] == [] && n.sent[p.taken..] == [];
  }

  // ---------------------------------------------------------------- reconnecting

  /** `b` is reached from `a` by taking the messages: what that says about the unit. */
  ghost predicate TookLoad(a: A.AgentState, b: A.AgentState, ms: seq<AgentMessage>, x: bool, u: CString) {
    && a.emitted <= b.emitted
    && A.Info(b, u).loaded == A.Info(a, u).loaded
    && LoadedAfter(x, Since(a, b), u) == (x || (Accepts(ms, u in A.Wants(a), u) && A.Info(a, u).loaded))
  }

  lemma SinceConcat(x: bool, a: A.AgentState, b: A.AgentState, c: A.AgentState, u: CString)
    requires a.emitted <= b.emitted <= c.emitted
    ensures a.emitted <= c.emitted
    ensures LoadedAfter(x, Since(a, c), u) == LoadedAfter(LoadedAfter(x, Since(a, b), u), Since(b, c), u)
  {
    assert Since(a, c) == Since(a, b) + Since(b, c);
    LoadedAfterConcat(x, Since(a, b), Since(b, c), u);
  }

  lemma TookOneMore(a: A.AgentState, c: A.AgentState, ms: seq<AgentMessage>, x: bool, u: CString)
    requires A.TableOk(a) && u != WILDCARD && ms != []
    requires a.emitted <= Take(a, ms[0]).emitted
    requires TookLoad(Take(a, ms[0]), c, ms[1..], LoadedAfter(x, Since(a, Take(a, ms[0])), u), u)
    ensures TookLoad(a, c, ms, x, u)
  {
    var b := Take(a, ms[0]);
    TakeWants(a, ms[0]);
    TakeLoad(a, ms[0], x, u);
    SinceConcat(x, a, b, c, u);
  }

  lemma {:induction false} TakeAllLoad(a: A.AgentState, ms: seq<AgentMessage>, x: bool, u: CString)
    requires A.TableOk(a) && u != WILDCARD
    ensures TookLoad(a, TakeAll(a, ms), ms, x, u)
    decreases |ms|
  {
    if ms == [] {
      assert Since(a, a) == [];
    } else {
      var b := Take(a, ms[0]);
      TakeWants(a, ms[0]);
      TakeLoad(a, ms[0], x, u);
      TakeAllLoad(b, ms[1..], LoadedAfter(x, Since(a, b), u), u);
      TookOneMore(a, TakeAll(a, ms), ms, x, u);
    }
  }

  /** The exact outcome of a reconnection.  When a new connection is drained in both
      directions and nothing else happened, the controller believes a unit of its index to be
      loaded if and only if it is loaded and the agent had not kept the subscription from
      before: the agent refuses to subscribe twice, and then repeats nothing. */
  lemma ReconnectionOutcome(n: NodeState, nNext: NodeState, a: A.AgentState, u: CString)
    requires A.TableOk(a) && u != WILDCARD
    requires Connected(n, nNext) && Unloaded(n) && u in n.index
    ensures var drained := TakeAll(a, nNext.sent);
            && a.emitted <= drained.emitted
            && (LoadedAfter(Loaded(nNext.index, u), Since(a, drained), u) <==>
                A.Info(drained, u).loaded && u !in A.Wants(a))
  {
    var order :| IsOrderOf(order, n.index.Keys) && nNext == n.(online := true, sent := Greeting(order, n.deps));
    assert u in order;
    var k :| 0 <= k < |order| && order[k] == u;
    assert nNext.sent[k] == Subscribe(u);
    TakeAllLoad(a, nNext.sent, false, u);
    AcceptsNoTakeBack(nNext.sent, u in A.Wants(a), u);
  }
}
