/** A run of the whole system, from its start, that ends with everything delivered and with a
    loaded unit that is cached as active and running while it is inactive and dead.  Whoever
    subscribes then is told that it is active. */
module StaleState {
  import opened CStrings
  import opened ControllerState
  import opened ControllerRuns
  import opened PathEscape
  import opened SubscriptionMirror
  import opened CacheFollowsAgent
  import opened CacheOutcome
  import opened CacheRaces
  import opened StateOutcome
  import A = AgentUnits

  const RUNNING := Shown(Active, Ascii("running"))

  function Wanting(u: CString, loaded: bool, st: ActiveState, sub: Option<CString>, emitted: seq<Event>): A.AgentState {
    A.AgentState(map[MakeUnitPath(u) := A.UnitInfo(u, true, loaded, st, sub)], false, emitted)
  }

  function Changed(u: CString): Event {
    UnitStateChanged(u, Active, Ascii("running"), Real)
  }

  /** What the agent has reported after the unit was loaded, started, removed and loaded again. */
  function Reported(u: CString): seq<Event> {
    [UnitNew(u, Real), Changed(u), UnitRemoved(u, Real), UnitNew(u, Real)]
  }

  function DeadAgent(u: CString, reports: nat): A.AgentState
    requires reports <= 4
  {
    Wanting(u, true, Inactive, Some(Ascii("dead")), Reported(u)[..reports])
  }

  function StartedAgent(u: CString): A.AgentState {
    Wanting(u, true, Active, Some(Ascii("running")), Reported(u)[..2])
  }

  function StoppedAgent(u: CString): A.AgentState {
    Wanting(u, false, Invalid, None, Reported(u)[..3])
  }

  function History(u: CString, k: nat): (h: seq<Observation>)
    requires k <= 4
  {
    if k == 0 then [Joined(7, u)] else History(u, k - 1) + [Delivered(7, Reported(u)[k - 1])]
  }

  /** The node with what monitor 7 was handed of the reports. */
  function Heard(u: CString, e: UnitEntry, k: nat): NodeState
    requires k <= 4
  {
    Node(true, map[u := e], History(u, k), [Subscribe(u)])
  }

  function LoadedEntry(u: CString): UnitEntry {
    Entry(Own(1, 7, u)).(loaded := true)
  }

  function RunningEntry(u: CString): UnitEntry {
    UnitEntry([Own(1, 7, u)], true, Active, Some(Ascii("running")))
  }

  /** What the second subscriber adds. */
  function Joined8(u: CString): NodeState {
    var n := Heard(u, RunningEntry(u), 4);
    n.(index := map[u := RunningEntry(u).(subs := [Own(1, 7, u), Own(2, 8, u)])],
       observed := n.observed + [Joined(8, u), Delivered(8, UnitNew(u, Virtual)),
                                 Delivered(8, UnitStateChanged(u, Active, Ascii("running"), Virtual))])
  }

  /** A monitor subscribes; systemd loads the unit and starts it, which is reported; systemd
      removes it and loads it again, which is reported too, but not that it is inactive now.
      Then another monitor subscribes. */
  function State(u: CString, k: nat): System {
    var one := [Own(1, 7, u)];
    match k
    case 0 => START
    case 1 => ONLINE
    case 2 => Single(Heard(u, Entry(one[0]), 0), one, At(A.NEW_AGENT, 0, 0))
    case 3 => Single(Heard(u, Entry(one[0]), 0), one, At(Waiting(u), 1, 0))
    case 4 => Single(Heard(u, Entry(one[0]), 0), one, At(DeadAgent(u, 1), 1, 0))
    case 5 => Single(Heard(u, Entry(one[0]), 0), one, At(StartedAgent(u), 1, 0))
    case 6 => Single(Heard(u, LoadedEntry(u), 1), one, At(StartedAgent(u), 1, 1))
    case 7 => Single(Heard(u, RunningEntry(u), 2), one, At(StartedAgent(u), 1, 2))
    case 8 => Single(Heard(u, RunningEntry(u), 2), one, At(StoppedAgent(u), 1, 2))
    case 9 => Single(Heard(u, RunningEntry(u).(loaded := false), 3), one, At(StoppedAgent(u), 1, 3))
    case 10 => Single(Heard(u, RunningEntry(u).(loaded := false), 3), one, At(DeadAgent(u, 4), 1, 3))
    case 11 => Single(Heard(u, RunningEntry(u), 4), one, At(DeadAgent(u, 4), 1, 4))
    case _ => Single(Joined8(u), one + [Own(2, 8, u)], At(DeadAgent(u, 4), 1, 4))
  }

  function StepAt(u: CString, k: nat): SystemStep {
    match k
    case 0 => Connects(0)
    case 1 => ControllerMoves(MonitorSubscribes(Own(1, 7, u)))
    case 2 => Takes(0)
    case 3 => SystemdMoves(0, DeadAgent(u, 1))
    case 4 => SystemdMoves(0, StartedAgent(u))
    case 7 => SystemdMoves(0, StoppedAgent(u))
    case 9 => SystemdMoves(0, DeadAgent(u, 4))
    case 11 => ControllerMoves(MonitorSubscribes(Own(2, 8, u)))
    case _ => Reports(0)
  }

  lemma ReportedSoFar(u: CString)
    ensures Reported(u)[..0] == [] && Reported(u)[..1] == [UnitNew(u, Real)]
    ensures Reported(u)[..2] == Reported(u)[..1] + [Changed(u)]
    ensures Reported(u)[..3] == Reported(u)[..2] + [UnitRemoved(u, Real)]
    ensures Reported(u)[..4] == Reported(u)[..3] + [UnitNew(u, Real)]
  {
  }

  lemma FirstSubscribes(u: CString)
    ensures Moves(State(u, 1), StepAt(u, 1), State(u, 2))
  {
    var n := Node(true, map[], [], []);
    Subscribes(n, [], At(A.NEW_AGENT, 0, 0), Own(1, 7, u), u);
    assert [] + [Own(1, 7, u)] == [Own(1, 7, u)];
    assert SubscribeUnit(n, Own(1, 7, u), u) == Heard(u, Entry(Own(1, 7, u)), 0);
  }

  lemma AgentSubscribes(u: CString)
    requires u != WILDCARD
    ensures Moves(State(u, 2), StepAt(u, 2), State(u, 3))
  {
    var s := State(u, 2);
    Taking(s.c.nodes[0], s.c.all, s.peers[0]);
    assert Take(A.NEW_AGENT, Subscribe(u)) == Waiting(u);
  }

  lemma AgentLoads(u: CString, k: nat)
    requires k == 3 || k == 9
    ensures A.OnUnitNew(if k == 3 then Waiting(u) else StoppedAgent(u), u) == DeadAgent(u, if k == 3 then 1 else 4)
  {
    ReportedSoFar(u);
  }

  lemma Loads(u: CString, k: nat)
    requires k == 3 || k == 9
    ensures Moves(State(u, k), StepAt(u, k), State(u, k + 1))
  {
    var s := State(u, k);
    AgentLoads(u, k);
    Loading(s.c.nodes[0], s.c.all, s.peers[0], u, DeadAgent(u, if k == 3 then 1 else 4));
  }

  lemma Starts(u: CString)
    ensures Moves(State(u, 4), StepAt(u, 4), State(u, 5))
  {
    var s, path := State(u, 4), MakeUnitPath(u);
    ReportedSoFar(u);
    var a := A.OnUnitChanged(DeadAgent(u, 1), path, Active, Ascii("running"));
    assert a == StartedAgent(u) by {
      assert Ascii("running")[0] != Ascii("dead")[0];
    }
    assert path in DeadAgent(u, 1).infos && DeadAgent(u, 1).infos[path].loaded;
  }

  lemma AgentStops(u: CString)
    ensures A.OnUnitRemoved(StartedAgent(u), MakeUnitPath(u)) == StoppedAgent(u)
  {
    ReportedSoFar(u);
  }

  lemma Stops(u: CString)
    ensures Moves(State(u, 7), StepAt(u, 7), State(u, 8))
  {
    var s := State(u, 7);
    AgentStops(u);
    Removing(s.c.nodes[0], s.c.all, s.peers[0], MakeUnitPath(u), StoppedAgent(u));
  }

  lemma OneDelivery(h: seq<Observation>, m: nat, e: Event)
    ensures DeliveredTo(h, h + [Delivered(m, e)], {m}, e)
  {
    assert (h + [Delivered(m, e)])[|h|..] == [Delivered(m, e)];
  }

  lemma HeardReaches(u: CString, e: UnitEntry, k: nat)
    requires u != WILDCARD && k < 4 && e.subs == [Own(1, 7, u)]
    ensures AgentEvent(Heard(u, e, k), Heard(u, Cached(e, Reported(u)[k]), k + 1), Reported(u)[k])
  {
    var n, nNext, ev := Heard(u, e, k), Heard(u, Cached(e, Reported(u)[k]), k + 1), Reported(u)[k];
    OneDelivery(History(u, k), 7, ev);
    assert ev.unit == u;
    assert Audience(n.index, u) == {7};
  }

  /** The report number `k` reaches the controller and monitor 7. */
  lemma Hears(u: CString, e: UnitEntry, k: nat, p: Peer)
    requires u != WILDCARD && k < 4 && e.subs == [Own(1, 7, u)]
    requires p.attached && p.reported == k < |p.agent.emitted| && p.agent.emitted[k] == Reported(u)[k]
    ensures SystemNext(Single(Heard(u, e, k), e.subs, p), Reports(0),
                       Single(Heard(u, Cached(e, Reported(u)[k]), k + 1), e.subs, p.(reported := k + 1)))
  {
    HeardReaches(u, e, k);
    Reporting(Heard(u, e, k), Heard(u, Cached(e, Reported(u)[k]), k + 1), e.subs, p);
  }

  lemma HearsLoad(u: CString)
    requires u != WILDCARD
    ensures Moves(State(u, 5), StepAt(u, 5), State(u, 6))
  {
    Hears(u, Entry(Own(1, 7, u)), 0, At(StartedAgent(u), 1, 0));
  }

  lemma HearsStart(u: CString)
    requires u != WILDCARD
    ensures Moves(State(u, 6), StepAt(u, 6), State(u, 7))
  {
    Hears(u, LoadedEntry(u), 1, At(StartedAgent(u), 1, 1));
  }

  lemma HearsRemoval(u: CString)
    requires u != WILDCARD
    ensures Moves(State(u, 8), StepAt(u, 8), State(u, 9))
  {
    Hears(u, RunningEntry(u), 2, At(StoppedAgent(u), 1, 2));
  }

  lemma HearsReload(u: CString)
    requires u != WILDCARD
    ensures Moves(State(u, 10), StepAt(u, 10), State(u, 11))
  {
    var e := RunningEntry(u).(loaded := false);
    assert Cached(e, Reported(u)[3]) == RunningEntry(u);
    Hears(u, e, 3, At(DeadAgent(u, 4), 1, 3));
  }

  lemma CatchesUp(u: CString)
    ensures SubscribeUnit(Heard(u, RunningEntry(u), 4), Own(2, 8, u), u) == Joined8(u)
  {
    assert [Own(1, 7, u)] + [Own(2, 8, u)] == [Own(1, 7, u), Own(2, 8, u)];
    assert Monitors(RunningEntry(u).subs) == {7};
  }

  lemma SecondSubscribes(u: CString)
    ensures Moves(State(u, 11), StepAt(u, 11), State(u, 12))
  {
    CatchesUp(u);
    Subscribes(Heard(u, RunningEntry(u), 4), [Own(1, 7, u)], At(DeadAgent(u, 4), 1, 4), Own(2, 8, u), u);
  }

  lemma AllMove(u: CString, k: nat)
    requires u != WILDCARD && k < 12
    ensures Moves(State(u, k), StepAt(u, k), State(u, k + 1))
  {
    match k
    case 0 => ConnectsOnce();
    case 1 => FirstSubscribes(u);
    case 2 => AgentSubscribes(u);
    case 3 => Loads(u, 3);
    case 4 => Starts(u);
    case 5 => HearsLoad(u);
    case 6 => HearsStart(u);
    case 7 => Stops(u);
    case 8 => HearsRemoval(u);
    case 9 => Loads(u, 9);
    case 10 => HearsReload(u);
    case _ => SecondSubscribes(u);
  }

  function States(u: CString): seq<System> {
    seq(13, (k: nat) => State(u, k))
  }

  function Steps(u: CString): seq<SystemStep> {
    seq(12, (k: nat) => StepAt(u, k))
  }

  /** Of the conditions of CachedStateIsAgents only the one on the state itself fails, and so
      does its conclusion; the last thing the second monitor is told is the stale state. */
  lemma ReloadLeavesStaleState(u: CString)
    requires u != WILDCARD
    ensures WellBehavedRun(States(u), Steps(u))
    ensures var s := States(u)[12];
      var n, p := s.c.nodes[0], s.peers[0];
      && Connection(s, 0) && Drained(s, 0) && Learned(n, p, u) && u in n.index
      && Reportable(p.agent, u) && Actual(p.agent, u) == DEAD
      && n.index[u].loaded && CachedShown(n.index, u) == RUNNING
      && |n.observed| > 0
      && n.observed[|n.observed| - 1] == Delivered(8, UnitStateChanged(u, Active, Ascii("running"), Virtual))
  {
    forall k | 0 <= k < 12 ensures Moves(States(u)[k], Steps(u)[k], States(u)[k + 1]) {
      AllMove(u, k);
    }
    IsRun(States(u), Steps(u));
  }
}
