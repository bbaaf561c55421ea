/** Runs of the whole system, from its start, that end with everything delivered and with a unit
    the controller believes to be loaded and that is not: the conclusion of
    CachedLoadedIsAgents fails, and of its conditions only one is not met.

    There is one node, and its agent has just started. */
module CacheRaces {
  import opened CStrings
  import opened ControllerState
  import opened Sequences
  import opened ControllerRuns
  import opened PathEscape
  import opened SubscriptionMirror
  import opened CacheFollowsAgent
  import opened CacheOutcome
  import A = AgentUnits

  const NAME := Ascii("node")

  function Node(online: bool, ix: UnitIndex, h: seq<Observation>, sent: seq<AgentMessage>): NodeState {
    NodeState(NAME, [], online, ix, h, sent, [], [])
  }

  function Single(n: NodeState, all: seq<Subscription>, p: Peer): System {
    System(ControllerState([n], all), [p])
  }

  function At(a: A.AgentState, taken: nat, reported: nat): Peer {
    Peer(a, true, taken, reported, {})
  }

  /** The entry of a unit somebody just subscribed to. */
  function Entry(s: Subscription): UnitEntry {
    UnitEntry([s], false, Invalid, None)
  }

  function Known(u: CString, subscribed: bool, loaded: bool): map<CString, A.UnitInfo> {
    map[MakeUnitPath(u) := if loaded then A.UnitInfo(u, subscribed, true, Inactive, Some(Ascii("dead")))
                           else A.UnitInfo(u, subscribed, false, Invalid, None)]
  }

  const START := Single(Node(false, map[], [], []), [], Peer(A.NEW_AGENT, false, 0, 0, {}))
  const ONLINE := Single(Node(true, map[], [], []), [], At(A.NEW_AGENT, 0, 0))

  // ---------------------------------------------------------------- steps of one node

  lemma Starts()
    ensures SystemInitial(START)
  {
    assert A.Wants(A.NEW_AGENT) == {};
  }

  lemma ConnectsOnce()
    ensures SystemNext(START, Connects(0), ONLINE)
  {
    var order: seq<CString> := [];
    var n := START.c.nodes[0];
    assert IsOrderOf(order, n.index.Keys);
    assert Greeting(order, n.deps) == [];
    assert ONLINE.c.nodes[0] == n.(online := true, sent := Greeting(order, n.deps));
    assert A.Wants(A.NEW_AGENT) == {};
  }

  lemma Subscribes(n: NodeState, all: seq<Subscription>, p: Peer, s: Subscription, u: CString)
    requires s.node == n.name && s.units == [u] && forall x :: x in all ==> x.ref != s.ref
    ensures SystemNext(Single(n, all, p), ControllerMoves(MonitorSubscribes(s)),
                       Single(SubscribeUnit(n, s, u), all + [s], p))
  {
    assert s.units[..0] == [] && Matches(s, n.name);
    assert SubscribeUnits(n, s, s.units) == SubscribeUnit(SubscribeUnits(n, s, []), s, u);
    assert AddSubscription(ControllerState([n], all), s).nodes == [SubscribeUnit(n, s, u)];
  }

  lemma Unsubscribes(n: NodeState, p: Peer, s: Subscription, u: CString)
    requires s.node == n.name && s.units == [u] && n.monitors == []
    ensures SystemNext(Single(n, [s], p), ControllerMoves(MonitorUnsubscribes(s)),
                       Single(UnsubscribeUnit(n, s, u), [], p))
  {
    assert s.units[..0] == [] && Matches(s, n.name);
    assert UnsubscribeUnits(n, s, s.units) == UnsubscribeUnit(UnsubscribeUnits(n, s, []), s, u);
    assert RemoveSubscription(ControllerState([n], [s]), s).nodes == [UnsubscribeUnit(n, s, u)];
    assert RemoveFirst([s], s) == [];
  }

  lemma Reporting(n: NodeState, nNext: NodeState, all: seq<Subscription>, p: Peer)
    requires n.online && p.attached && p.reported < |p.agent.emitted|
    requires AgentEvent(n, nNext, p.agent.emitted[p.reported])
    ensures SystemNext(Single(n, all, p), Reports(0), Single(nNext, all, p.(reported := p.reported + 1)))
  {
  }

  lemma Taking(n: NodeState, all: seq<Subscription>, p: Peer)
    requires p.attached && p.taken < |n.sent|
    ensures SystemNext(Single(n, all, p), Takes(0),
                       Single(n, all, p.(agent := Take(p.agent, n.sent[p.taken]), taken := p.taken + 1)))
  {
  }

  ghost predicate Moves(s: System, step: SystemStep, sNext: System) {
    SystemNext(s, step, sNext) && WellBehaved(s, step)
  }

  lemma Loading(n: NodeState, all: seq<Subscription>, p: Peer, u: CString, a: A.AgentState)
    requires a == A.OnUnitNew(p.agent, u)
    ensures Moves(Single(n, all, p), SystemdMoves(0, a), Single(n, all, p.(agent := a)))
  {
  }

  lemma Removing(n: NodeState, all: seq<Subscription>, p: Peer, path: CString, a: A.AgentState)
    requires a == A.OnUnitRemoved(p.agent, path)
    ensures Moves(Single(n, all, p), SystemdMoves(0, a), Single(n, all, p.(agent := a)))
  {
  }

  lemma IsRun(states: seq<System>, steps: seq<SystemStep>)
    requires |states| == |steps| + 1 && states[0] == START
    requires forall k :: 0 <= k < |steps| ==> Moves(states[k], steps[k], states[k + 1])
    ensures WellBehavedRun(states, steps)
  {
    Starts();
    forall k | 0 <= k < |steps| ensures SystemNext(states[k], steps[k], states[k + 1]) && WellBehaved(states[k], steps[k]) {
      assert Moves(states[k], steps[k], states[k + 1]);
    }
  }

  // ---------------------------------------------------------------- the renewal race

  function Own(ref: nat, monitor: nat, u: CString): Subscription {
    Subscription(ref, monitor, NAME, [u])
  }

  function Waiting(u: CString): A.AgentState {
    A.AgentState(Known(u, true, false), false, [])
  }

  function Running(u: CString, subscribed: bool): A.AgentState {
    A.AgentState(Known(u, subscribed, true), false, [UnitNew(u, Real)])
  }

  function Gone(u: CString): A.AgentState {
    A.AgentState(map[], false, [UnitNew(u, Real)])
  }

  function Mistaken(u: CString): A.AgentState {
    A.AgentState(Known(u, true, false), false, [UnitNew(u, Real)])
  }

  function Told(u: CString): NodeState {
    Node(true, map[u := Entry(Own(1, 7, u))], [Joined(7, u)], [Subscribe(u)])
  }

  function TakenBack(u: CString): NodeState {
    Node(true, map[], [Joined(7, u)], [Subscribe(u), Unsubscribe(u)])
  }

  function Renewed(u: CString, loaded: bool): NodeState {
    Node(true, map[u := Entry(Own(2, 8, u)).(loaded := loaded)],
         [Joined(7, u), Joined(8, u)] + if loaded then [Delivered(8, UnitNew(u, Real))] else [],
         [Subscribe(u), Unsubscribe(u), Subscribe(u)])
  }

  /** A monitor subscribes and the agent is told; systemd loads the unit and the agent reports
      it.  Before the report arrives the monitor unsubscribes and another one subscribes.  The
      report then goes to the new entry.  The agent takes the Unsubscribe, systemd removes the
      unit, which nobody is told, and the agent takes the second Subscribe. */
  function RenewalState(u: CString, k: nat): System {
    var one, two := [Own(1, 7, u)], [Own(2, 8, u)];
    match k
    case 0 => START
    case 1 => ONLINE
    case 2 => Single(Told(u), one, At(A.NEW_AGENT, 0, 0))
    case 3 => Single(Told(u), one, At(Waiting(u), 1, 0))
    case 4 => Single(Told(u), one, At(Running(u, true), 1, 0))
    case 5 => Single(TakenBack(u), [], At(Running(u, true), 1, 0))
    case 6 => Single(Renewed(u, false), two, At(Running(u, true), 1, 0))
    case 7 => Single(Renewed(u, true), two, At(Running(u, true), 1, 1))
    case 8 => Single(Renewed(u, true), two, At(Running(u, false), 2, 1))
    case 9 => Single(Renewed(u, true), two, At(Gone(u), 2, 1))
    case _ => Single(Renewed(u, true), two, At(Mistaken(u), 3, 1))
  }

  function RenewalStep(u: CString, k: nat): SystemStep {
    match k
    case 0 => Connects(0)
    case 1 => ControllerMoves(MonitorSubscribes(Own(1, 7, u)))
    case 2 => Takes(0)
    case 3 => SystemdMoves(0, Running(u, true))
    case 4 => ControllerMoves(MonitorUnsubscribes(Own(1, 7, u)))
    case 5 => ControllerMoves(MonitorSubscribes(Own(2, 8, u)))
    case 6 => Reports(0)
    case 7 => Takes(0)
    case 8 => SystemdMoves(0, Gone(u))
    case _ => Takes(0)
  }

  lemma RenewalSubscribes(u: CString)
    ensures Moves(RenewalState(u, 1), RenewalStep(u, 1), RenewalState(u, 2))
  {
    var n := Node(true, map[], [], []);
    Subscribes(n, [], At(A.NEW_AGENT, 0, 0), Own(1, 7, u), u);
    assert [] + [Own(1, 7, u)] == [Own(1, 7, u)];
    assert SubscribeUnit(n, Own(1, 7, u), u) == RenewalState(u, 2).c.nodes[0];
  }

  lemma RenewalTakes(u: CString)
    requires u != WILDCARD
    ensures Moves(RenewalState(u, 2), RenewalStep(u, 2), RenewalState(u, 3))
  {
    var s := RenewalState(u, 2);
    Taking(s.c.nodes[0], s.c.all, s.peers[0]);
    assert Take(A.NEW_AGENT, Subscribe(u)) == Waiting(u);
  }

  lemma AgentReports(u: CString)
    ensures A.OnUnitNew(Waiting(u), u) == Running(u, true)
  {
  }

  lemma RenewalLoads(u: CString)
    ensures Moves(RenewalState(u, 3), RenewalStep(u, 3), RenewalState(u, 4))
  {
    var s := RenewalState(u, 3);
    AgentReports(u);
    Loading(s.c.nodes[0], s.c.all, s.peers[0], u, Running(u, true));
  }

  lemma EntryGoes(u: CString)
    ensures UnsubscribeUnit(Told(u), Own(1, 7, u), u) == TakenBack(u)
  {
    assert RemoveFirst([Own(1, 7, u)], Own(1, 7, u)) == [];
  }

  lemma RenewalUnsubscribes(u: CString)
    ensures Moves(RenewalState(u, 4), RenewalStep(u, 4), RenewalState(u, 5))
  {
    EntryGoes(u);
    Unsubscribes(Told(u), At(Running(u, true), 1, 0), Own(1, 7, u), u);
  }

  lemma RenewalRenews(u: CString)
    ensures Moves(RenewalState(u, 5), RenewalStep(u, 5), RenewalState(u, 6))
  {
    var s := RenewalState(u, 5);
    Subscribes(s.c.nodes[0], [], s.peers[0], Own(2, 8, u), u);
    assert [] + [Own(2, 8, u)] == [Own(2, 8, u)];
    assert SubscribeUnit(s.c.nodes[0], Own(2, 8, u), u) == Renewed(u, false);
  }

  lemma RenewalReports(u: CString)
    requires u != WILDCARD
    ensures Moves(RenewalState(u, 6), RenewalStep(u, 6), RenewalState(u, 7))
  {
    var n, nNext := Renewed(u, false), Renewed(u, true);
    assert Audience(n.index, u) == {8};
    assert nNext.observed == n.observed + [Delivered(8, UnitNew(u, Real))];
    assert nNext.observed[|n.observed|..] == [Delivered(8, UnitNew(u, Real))];
    Reporting(n, nNext, RenewalState(u, 6).c.all, RenewalState(u, 6).peers[0]);
  }

  lemma RenewalTakesBack(u: CString)
    requires u != WILDCARD
    ensures Moves(RenewalState(u, 7), RenewalStep(u, 7), RenewalState(u, 8))
  {
    var s := RenewalState(u, 7);
    Taking(s.c.nodes[0], s.c.all, s.peers[0]);
    assert Take(Running(u, true), Unsubscribe(u)) == Running(u, false);
  }

  /** Nobody is told, since nobody's subscription has reached the agent. */
  lemma AgentForgets(u: CString)
    ensures A.OnUnitRemoved(Running(u, false), MakeUnitPath(u)) == Gone(u)
  {
  }

  lemma RenewalRemoves(u: CString)
    ensures Moves(RenewalState(u, 8), RenewalStep(u, 8), RenewalState(u, 9))
  {
    var s := RenewalState(u, 8);
    AgentForgets(u);
    Removing(s.c.nodes[0], s.c.all, s.peers[0], MakeUnitPath(u), Gone(u));
  }

  lemma RenewalTakesAgain(u: CString)
    requires u != WILDCARD
    ensures Moves(RenewalState(u, 9), RenewalStep(u, 9), RenewalState(u, 10))
  {
    var s := RenewalState(u, 9);
    Taking(s.c.nodes[0], s.c.all, s.peers[0]);
    assert Take(s.peers[0].agent, Subscribe(u)) == RenewalState(u, 10).peers[0].agent;
  }

  function RenewalStates(u: CString): seq<System> {
    seq(11, (k: nat) => RenewalState(u, k))
  }

  function RenewalSteps(u: CString): seq<SystemStep> {
    seq(10, (k: nat) => RenewalStep(u, k))
  }

  lemma RenewalMoves(u: CString, k: nat)
    requires u != WILDCARD && k < 10
    ensures Moves(RenewalState(u, k), RenewalStep(u, k), RenewalState(u, k + 1))
  {
    match k
    case 0 => ConnectsOnce();
    case 1 => RenewalSubscribes(u);
    case 2 => RenewalTakes(u);
    case 3 => RenewalLoads(u);
    case 4 => RenewalUnsubscribes(u);
    case 5 => RenewalRenews(u);
    case 6 => RenewalReports(u);
    case 7 => RenewalTakesBack(u);
    case 8 => RenewalRemoves(u);
    case _ => RenewalTakesAgain(u);
  }

  /** Of the conditions of CachedLoadedIsAgents only the absence of an Unsubscribe for the
      unit fails, and so does its conclusion. */
  lemma RenewalRace(u: CString)
    requires u != WILDCARD
    ensures WellBehavedRun(RenewalStates(u), RenewalSteps(u))
    ensures var s := RenewalStates(u)[10];
      && Connection(s, 0) && Drained(s, 0)
      && u !in s.peers[0].base && Unsubscribe(WILDCARD) !in s.c.nodes[0].sent
      && u in s.c.nodes[0].index && s.c.nodes[0].index[u].loaded && !A.Info(s.peers[0].agent, u).loaded
  {
    forall k | 0 <= k < 10 ensures Moves(RenewalStates(u)[k], RenewalSteps(u)[k], RenewalStates(u)[k + 1]) {
      RenewalMoves(u, k);
    }
    IsRun(RenewalStates(u), RenewalSteps(u));
  }

  // ---------------------------------------------------------------- the wildcard race

  const EVERYTHING := Own(1, 7, WILDCARD)
  const ALL_NEW := UnitNew(WILDCARD, Virtual)

  function Watching(u: CString, wildcard: bool): A.AgentState {
    A.AgentState(Known(u, false, true), wildcard, [ALL_NEW, UnitNew(u, Real)])
  }

  function Unwatched(u: CString): A.AgentState {
    A.AgentState(map[], false, [ALL_NEW, UnitNew(u, Real)])
  }

  function MistakenToo(u: CString): A.AgentState {
    A.AgentState(Known(u, true, false), false, [ALL_NEW, UnitNew(u, Real)])
  }

  const ALL_TOLD := Node(true, map[WILDCARD := Entry(EVERYTHING)], [Joined(7, WILDCARD)], [Subscribe(WILDCARD)])
  const ALL_BACK := Node(true, map[], [Joined(7, WILDCARD)], [Subscribe(WILDCARD), Unsubscribe(WILDCARD)])

  function Narrowed(u: CString, loaded: bool): NodeState {
    Node(true, map[u := Entry(Own(2, 8, u)).(loaded := loaded)],
         [Joined(7, WILDCARD), Joined(8, u)] + if loaded then [Delivered(8, UnitNew(u, Real))] else [],
         [Subscribe(WILDCARD), Unsubscribe(WILDCARD), Subscribe(u)])
  }

  /** A monitor subscribes to all units of the node, and the agent reports that and a unit
      that is loaded.  Before the reports arrive the monitor unsubscribes and another one
      subscribes to the unit alone, so the second report goes to its entry.  The agent takes
      the Unsubscribe, the unit is removed, and the agent takes the new Subscribe. */
  function WildcardState(u: CString, k: nat): System {
    var one, two := [EVERYTHING], [Own(2, 8, u)];
    match k
    case 0 => START
    case 1 => ONLINE
    case 2 => Single(ALL_TOLD, one, At(A.NEW_AGENT, 0, 0))
    case 3 => Single(ALL_TOLD, one, At(A.AgentState(map[], true, [ALL_NEW]), 1, 0))
    case 4 => Single(ALL_TOLD, one, At(Watching(u, true), 1, 0))
    case 5 => Single(ALL_BACK, [], At(Watching(u, true), 1, 0))
    case 6 => Single(Narrowed(u, false), two, At(Watching(u, true), 1, 0))
    case 7 => Single(Narrowed(u, false), two, At(Watching(u, true), 1, 1))
    case 8 => Single(Narrowed(u, true), two, At(Watching(u, true), 1, 2))
    case 9 => Single(Narrowed(u, true), two, At(Watching(u, false), 2, 2))
    case 10 => Single(Narrowed(u, true), two, At(Unwatched(u), 2, 2))
    case _ => Single(Narrowed(u, true), two, At(MistakenToo(u), 3, 2))
  }

  function WildcardStep(u: CString, k: nat): SystemStep {
    match k
    case 0 => Connects(0)
    case 1 => ControllerMoves(MonitorSubscribes(EVERYTHING))
    case 2 => Takes(0)
    case 3 => SystemdMoves(0, Watching(u, true))
    case 4 => ControllerMoves(MonitorUnsubscribes(EVERYTHING))
    case 5 => ControllerMoves(MonitorSubscribes(Own(2, 8, u)))
    case 6 => Reports(0)
    case 7 => Reports(0)
    case 8 => Takes(0)
    case 9 => SystemdMoves(0, Unwatched(u))
    case _ => Takes(0)
  }

  lemma WildcardSubscribes(u: CString)
    ensures Moves(WildcardState(u, 1), WildcardStep(u, 1), WildcardState(u, 2))
  {
    var n := Node(true, map[], [], []);
    Subscribes(n, [], At(A.NEW_AGENT, 0, 0), EVERYTHING, WILDCARD);
    assert [] + [EVERYTHING] == [EVERYTHING];
    assert SubscribeUnit(n, EVERYTHING, WILDCARD) == ALL_TOLD;
  }

  lemma WildcardTakes(u: CString)
    ensures Moves(WildcardState(u, 2), WildcardStep(u, 2), WildcardState(u, 3))
  {
    Taking(ALL_TOLD, [EVERYTHING], At(A.NEW_AGENT, 0, 0));
    assert Take(A.NEW_AGENT, Subscribe(WILDCARD)) == A.AgentState(map[], true, [ALL_NEW]);
  }

  lemma AgentReportsAll(u: CString)
    ensures A.OnUnitNew(A.AgentState(map[], true, [ALL_NEW]), u) == Watching(u, true)
  {
  }

  lemma WildcardLoads(u: CString)
    ensures Moves(WildcardState(u, 3), WildcardStep(u, 3), WildcardState(u, 4))
  {
    var s := WildcardState(u, 3);
    AgentReportsAll(u);
    Loading(s.c.nodes[0], s.c.all, s.peers[0], u, Watching(u, true));
  }

  lemma WildcardUnsubscribes(u: CString)
    ensures Moves(WildcardState(u, 4), WildcardStep(u, 4), WildcardState(u, 5))
  {
    Unsubscribes(ALL_TOLD, WildcardState(u, 4).peers[0], EVERYTHING, WILDCARD);
    assert RemoveFirst([EVERYTHING], EVERYTHING) == [];
    assert UnsubscribeUnit(ALL_TOLD, EVERYTHING, WILDCARD) == ALL_BACK;
  }

  lemma WildcardNarrows(u: CString)
    ensures Moves(WildcardState(u, 5), WildcardStep(u, 5), WildcardState(u, 6))
  {
    Subscribes(ALL_BACK, [], WildcardState(u, 5).peers[0], Own(2, 8, u), u);
    assert [] + [Own(2, 8, u)] == [Own(2, 8, u)];
    assert SubscribeUnit(ALL_BACK, Own(2, 8, u), u) == Narrowed(u, false);
  }

  /** Nobody is left to hear that all units are reported. */
  lemma WildcardReportsAll(u: CString)
    requires u != WILDCARD
    ensures Moves(WildcardState(u, 6), WildcardStep(u, 6), WildcardState(u, 7))
  {
    var n := Narrowed(u, false);
    assert Audience(n.index, WILDCARD) == {};
    assert AgentEvent(n, n, ALL_NEW);
    Reporting(n, n, [Own(2, 8, u)], WildcardState(u, 6).peers[0]);
  }

  lemma WildcardReports(u: CString)
    requires u != WILDCARD
    ensures Moves(WildcardState(u, 7), WildcardStep(u, 7), WildcardState(u, 8))
  {
    var n, nNext := Narrowed(u, false), Narrowed(u, true);
    assert Audience(n.index, u) == {8};
    assert nNext.observed == n.observed + [Delivered(8, UnitNew(u, Real))];
    assert nNext.observed[|n.observed|..] == [Delivered(8, UnitNew(u, Real))];
    Reporting(n, nNext, [Own(2, 8, u)], WildcardState(u, 7).peers[0]);
  }

  lemma WildcardTakesBack(u: CString)
    ensures Moves(WildcardState(u, 8), WildcardStep(u, 8), WildcardState(u, 9))
  {
    Taking(Narrowed(u, true), [Own(2, 8, u)], WildcardState(u, 8).peers[0]);
    assert Take(Watching(u, true), Unsubscribe(WILDCARD)) == Watching(u, false);
  }

  lemma AgentForgetsToo(u: CString)
    ensures A.OnUnitRemoved(Watching(u, false), MakeUnitPath(u)) == Unwatched(u)
  {
  }

  lemma WildcardRemoves(u: CString)
    ensures Moves(WildcardState(u, 9), WildcardStep(u, 9), WildcardState(u, 10))
  {
    AgentForgetsToo(u);
    Removing(Narrowed(u, true), [Own(2, 8, u)], WildcardState(u, 9).peers[0], MakeUnitPath(u), Unwatched(u));
  }

  lemma WildcardTakesAgain(u: CString)
    requires u != WILDCARD
    ensures Moves(WildcardState(u, 10), WildcardStep(u, 10), WildcardState(u, 11))
  {
    Taking(Narrowed(u, true), [Own(2, 8, u)], WildcardState(u, 10).peers[0]);
    assert Take(Unwatched(u), Subscribe(u)) == MistakenToo(u);
  }

  function WildcardStates(u: CString): seq<System> {
    seq(12, (k: nat) => WildcardState(u, k))
  }

  function WildcardSteps(u: CString): seq<SystemStep> {
    seq(11, (k: nat) => WildcardStep(u, k))
  }

  lemma WildcardMoves(u: CString, k: nat)
    requires u != WILDCARD && k < 11
    ensures Moves(WildcardState(u, k), WildcardStep(u, k), WildcardState(u, k + 1))
  {
    match k
    case 0 => ConnectsOnce();
    case 1 => WildcardSubscribes(u);
    case 2 => WildcardTakes(u);
    case 3 => WildcardLoads(u);
    case 4 => WildcardUnsubscribes(u);
    case 5 => WildcardNarrows(u);
    case 6 => WildcardReportsAll(u);
    case 7 => WildcardReports(u);
    case 8 => WildcardTakesBack(u);
    case 9 => WildcardRemoves(u);
    case _ => WildcardTakesAgain(u);
  }

  /** Of the conditions of CachedLoadedIsAgents only the absence of an Unsubscribe for the
      wildcard fails, and so does its conclusion. */
  lemma WildcardRace(u: CString)
    requires u != WILDCARD
    ensures WellBehavedRun(WildcardStates(u), WildcardSteps(u))
    ensures var s := WildcardStates(u)[11];
      && Connection(s, 0) && Drained(s, 0)
      && u !in s.peers[0].base && Unsubscribe(u) !in s.c.nodes[0].sent
      && u in s.c.nodes[0].index && s.c.nodes[0].index[u].loaded && !A.Info(s.peers[0].agent, u).loaded
  {
    forall k | 0 <= k < 11 ensures Moves(WildcardStates(u)[k], WildcardSteps(u)[k], WildcardStates(u)[k + 1]) {
      WildcardMoves(u, k);
    }
    IsRun(WildcardStates(u), WildcardSteps(u));
  }
}
