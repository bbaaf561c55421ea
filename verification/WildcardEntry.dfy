/** For the unit "*" a monitor's last state need not be the cached one: a run of the
    controller, from its start, that ends so. */
module WildcardEntry {
  import opened CStrings
  import opened ControllerState
  import opened UnitEvents
  import opened ControllerRuns

  const NAME := Ascii("node")
  const SUB := Subscription(1, 7, NAME, [WILDCARD])
  const NEW := UnitNew(WILDCARD, Virtual)
  const LOST := UnitStateChanged(WILDCARD, Inactive, Ascii("agent-offline"), Virtual)
  const GONE := UnitRemoved(WILDCARD, Virtual)

  const JOINED := [Joined(7, WILDCARD)]
  const HEARD := JOINED + [Delivered(7, NEW)]
  const TOLD_OFFLINE := HEARD + [Delivered(7, LOST)]
  const TOLD_GONE := TOLD_OFFLINE + [Delivered(7, GONE)]

  const NEVER_LOADED := UnitEntry([SUB], false, Invalid, None)
  const RUNNING := UnitEntry([SUB], true, Active, Some(Ascii("running")))
  const OFFLINE := UnitEntry([SUB], false, Inactive, Some(Ascii("agent-offline")))

  function Single(online: bool, ix: UnitIndex, h: seq<Observation>, sent: seq<AgentMessage>): ControllerState {
    ControllerState([NodeState(NAME, [], online, ix, h, sent, [], [])], if ix == map[] then [] else [SUB])
  }

  /** A monitor subscribes to "*", the agent accepts and reports "*" as new, so that the
      controller caches it as active; the agent is lost and "*" is announced inactive and
      removed; an agent connects again, is told, and reports "*" as new. */
  function State(k: nat): ControllerState {
    match k
    case 0 => Single(false, map[], [], [])
    case 1 => Single(true, map[], [], [])
    case 2 => Single(true, map[WILDCARD := NEVER_LOADED], JOINED, [Subscribe(WILDCARD)])
    case 3 => Single(true, map[WILDCARD := RUNNING], HEARD, [Subscribe(WILDCARD)])
    case 4 => Single(false, map[WILDCARD := OFFLINE], TOLD_GONE, [Subscribe(WILDCARD)])
    case 5 => Single(true, map[WILDCARD := OFFLINE], TOLD_GONE, [Subscribe(WILDCARD)])
    case _ => Single(true, map[WILDCARD := RUNNING], TOLD_GONE + [Delivered(7, NEW)], [Subscribe(WILDCARD)])
  }

  function StepAt(k: nat): Step {
    match k
    case 0 => AgentConnects(0)
    case 1 => MonitorSubscribes(SUB)
    case 2 => AgentReports(0, NEW)
    case 3 => AgentLost(0)
    case 4 => AgentConnects(0)
    case _ => AgentReports(0, NEW)
  }

  lemma ConnectsFirst()
    ensures Next(State(0), AgentConnects(0), State(1))
  {
    var n, order: seq<CString> := State(0).nodes[0], [];
    assert IsOrderOf(order, n.index.Keys);
    assert Greeting(order, n.deps) == [];
    assert State(1).nodes[0] == n.(online := true, sent := Greeting(order, n.deps));
  }

  lemma Subscribes()
    ensures Next(State(1), MonitorSubscribes(SUB), State(2))
  {
    var n := State(1).nodes[0];
    assert [] + [SUB] == [SUB];
    assert SUB.units[..0] == [] && Matches(SUB, n.name);
    assert SubscribeUnits(n, SUB, SUB.units) == SubscribeUnit(SubscribeUnits(n, SUB, []), SUB, WILDCARD);
    assert SubscribeUnit(n, SUB, WILDCARD) == State(2).nodes[0];
    assert AddSubscription(State(1), SUB).nodes == State(2).nodes;
  }

  lemma OneDelivery(h: seq<Observation>, m: nat, e: Event)
    ensures DeliveredTo(h, h + [Delivered(m, e)], {m}, e)
  {
    assert (h + [Delivered(m, e)])[|h|..] == [Delivered(m, e)];
  }

  lemma Reports(k: nat)
    requires k == 2 || k == 5
    ensures Next(State(k), AgentReports(0, NEW), State(k + 1))
  {
    var n := State(k).nodes[0];
    OneDelivery(n.observed, 7, NEW);
    assert Audience(n.index, WILDCARD) == {7};
    assert AgentEvent(n, State(k + 1).nodes[0], NEW);
  }

  lemma Announces()
    ensures AnnouncedUnit(State(3).nodes[0], State(4).nodes[0].(online := true), WILDCARD)
  {
    var n, nNext := State(3).nodes[0], State(4).nodes[0].(online := true);
    OneDelivery(HEARD, 7, LOST);
    OneDelivery(TOLD_OFFLINE, 7, GONE);
    assert Audience(n.index, WILDCARD) == {7};
    assert Offline(RUNNING) == OFFLINE;
    assert DeliveredTo(n.observed, TOLD_OFFLINE, Audience(n.index, WILDCARD), LOST);
    assert DeliveredTo(TOLD_OFFLINE, nNext.observed, Audience(n.index, WILDCARD), GONE);
    assert nNext == n.(index := n.index[WILDCARD := Offline(n.index[WILDCARD])], observed := nNext.observed);
  }

  lemma Loses()
    ensures Next(State(3), AgentLost(0), State(4))
  {
    var n := State(3).nodes[0];
    var order, steps := [WILDCARD], [n, State(4).nodes[0].(online := true)];
    Announces();
    assert IsOrderOf(order, n.index.Keys);
    assert Announced(steps, order) && steps[0] == n;
    var c1 := State(3).(nodes := State(3).nodes[0 := steps[|order|]]);
    assert RemoveAllProxies(c1, 0) == c1;
    assert State(4) == c1.(nodes := c1.nodes[0 := c1.nodes[0].(online := false)]);
  }

  lemma ConnectsAgain()
    ensures Next(State(4), AgentConnects(0), State(5))
  {
    var n, order := State(4).nodes[0], [WILDCARD];
    assert IsOrderOf(order, n.index.Keys);
    assert Greeting(order, n.deps) == [Subscribe(WILDCARD)];
    assert State(5).nodes[0] == n.(online := true, sent := Greeting(order, n.deps));
  }

  lemma Moves(k: nat)
    requires k < 6
    ensures Next(State(k), StepAt(k), State(k + 1))
  {
    match k
    case 0 => ConnectsFirst();
    case 1 => Subscribes();
    case 2 => Reports(2);
    case 3 => Loses();
    case 4 => ConnectsAgain();
    case _ => Reports(5);
  }

  lemma HeardSoFar()
    ensures Replay(TOLD_GONE + [Delivered(7, NEW)], 7, WILDCARD) == View(true, Some((Inactive, Ascii("agent-offline"))))
  {
    ReplayStep(HEARD, Delivered(7, LOST), 7, WILDCARD);
    ReplayStep(TOLD_OFFLINE, Delivered(7, GONE), 7, WILDCARD);
    ReplayStep(TOLD_GONE, Delivered(7, NEW), 7, WILDCARD);
  }

  /** The run ends with "*" cached as active, and its subscriber last saw it inactive. */
  lemma WildcardStateIsNotReported()
    ensures Run(seq(7, (k: nat) => State(k)), seq(6, (k: nat) => StepAt(k)))
    ensures var n := State(6).nodes[0];
      && WILDCARD in n.index && 7 in Monitors(n.index[WILDCARD].subs)
      && n.index[WILDCARD].state == Active
      && Replay(n.observed, 7, WILDCARD).last == Some((Inactive, Ascii("agent-offline")))
  {
    var states, steps := seq(7, (k: nat) => State(k)), seq(6, (k: nat) => StepAt(k));
    forall k | 0 <= k < |steps| ensures Next(states[k], steps[k], states[k + 1]) {
      Moves(k);
    }
    HeardSoFar();
    assert SUB in State(6).nodes[0].index[WILDCARD].subs;
  }
}
