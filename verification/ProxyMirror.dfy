/** The proxies of an agent and the proxy monitors the controller keeps for it, with the signals
    of a connection between them.  The agent tells its proxies apart by service, node and unit,
    the controller its monitors by node and unit only: two services that use one unit share a
    monitor, and the first of them to go takes it away. */
module ProxyMirror {
  import opened CStrings
  import opened ControllerState
  import opened Sequences
  import opened SubscriptionIndex
  import opened UnitEvents
  import opened ProxyDependencies
  import opened ControllerRuns
  import P = ProxyServices

  // ---------------------------------------------------------------- what a step leaves alone

  /** The name of a node, what it may ask for, and the monitors it has. */
  function Meta(n: NodeState): NodeState {
    n.(index := map[], observed := [], sent := [], deps := [])
  }

  ghost predicate SameMeta(a: seq<NodeState>, b: seq<NodeState>) {
    |a| == |b| && forall x :: 0 <= x < |a| ==> Meta(b[x]) == Meta(a[x])
  }

  /** Only node `j` changed, and there only the monitors. */
  ghost predicate MonitorsBecome(a: seq<NodeState>, b: seq<NodeState>, j: nat, ms: seq<ProxyMonitor>) {
    && |a| == |b|
    && forall x :: 0 <= x < |a| ==> Meta(b[x]) == if x == j then Meta(a[x]).(monitors := ms) else Meta(a[x])
  }

  function WithoutProxy(ms: seq<ProxyMonitor>, target: CString, unit: CString): seq<ProxyMonitor> {
    var k := FindProxy(ms, target, unit);
    if k < |ms| then RemoveAt(ms, k) else ms
  }

  lemma AddSubscriptionMeta(c: ControllerState, s: Subscription)
    ensures SameMeta(c.nodes, AddSubscription(c, s).nodes)
  {
    forall x | 0 <= x < |c.nodes| {
      SubscribeUnitsKeepsRest(c.nodes[x], s, s.units);
    }
  }

  lemma RemoveSubscriptionMeta(c: ControllerState, s: Subscription)
    ensures SameMeta(c.nodes, RemoveSubscription(c, s).nodes)
  {
    forall x | 0 <= x < |c.nodes| {
      UnsubscribeUnitsKeepsRest(c.nodes[x], s, s.units);
    }
  }

  lemma RemoveProxyMeta(c: ControllerState, j: nat, k: nat)
    requires j < |c.nodes| && k < |c.nodes[j].monitors|
    ensures MonitorsBecome(c.nodes, RemoveProxy(c, j, k).nodes, j, RemoveAt(c.nodes[j].monitors, k))
  {
    var pm := c.nodes[j].monitors[k];
    var c1 := DropDep(c, pm.target, pm.unit);
    assert SameMeta(c.nodes, c1.nodes);
    RemoveSubscriptionMeta(c1, pm.subscription);
  }

  lemma ProxyRemovedMeta(c: ControllerState, j: nat, target: CString, unit: CString)
    requires j < |c.nodes|
    ensures MonitorsBecome(c.nodes, ProxyRemoved(c, j, target, unit).nodes, j,
                           WithoutProxy(c.nodes[j].monitors, target, unit))
  {
    var k := FindProxy(c.nodes[j].monitors, target, unit);
    if k < |c.nodes[j].monitors| {
      RemoveProxyMeta(c, j, k);
    }
  }

  /** Whether node `j` may have proxies on the target. */
  predicate Accepts(nodes: seq<NodeState>, j: nat, target: CString)
    requires j < |nodes|
  {
    FindNode(nodes, target) < |nodes| && target in nodes[j].allowed
  }

  lemma InstalledMeta(c: ControllerState, j: nat, t: nat, s: Subscription, unit: CString)
    requires j < |c.nodes| && t < |c.nodes|
    ensures MonitorsBecome(c.nodes, Installed(c, j, t, s, unit).nodes, j,
                           c.nodes[j].monitors + [ProxyMonitor(s.node, unit, s)])
  {
    var c2 := c.(nodes := c.nodes[t := AddDep(c.nodes[t], unit)]);
    assert SameMeta(c.nodes, c2.nodes);
    AddSubscriptionMeta(c2, s);
  }

  lemma ProxyNewMeta(c: ControllerState, j: nat, s: Subscription, unit: CString)
    requires j < |c.nodes|
    ensures var ms := c.nodes[j].monitors;
      MonitorsBecome(c.nodes, ProxyNew(c, j, s, unit).nodes, j,
                     if Accepts(c.nodes, j, s.node)
                     then WithoutProxy(ms, s.node, unit) + [ProxyMonitor(s.node, unit, s)] else ms)
  {
    if Accepts(c.nodes, j, s.node) {
      ProxyRemovedMeta(c, j, s.node, unit);
      InstalledMeta(ProxyRemoved(c, j, s.node, unit), j, FindNode(c.nodes, s.node), s, unit);
    }
  }

  lemma {:induction false} RemoveAllMeta(c: ControllerState, j: nat)
    requires j < |c.nodes|
    ensures MonitorsBecome(c.nodes, RemoveAllProxies(c, j).nodes, j, [])
    decreases |c.nodes[j].monitors|
  {
    if c.nodes[j].monitors != [] {
      RemoveProxyMeta(c, j, 0);
      RemoveAllMeta(RemoveProxy(c, j, 0), j);
    }
  }

  lemma DisconnectedMeta(c: ControllerState, cNext: ControllerState, j: nat)
    requires Inv(c) && Disconnected(c, cNext, j)
    ensures MonitorsBecome(c.nodes[j := c.nodes[j].(online := false)], cNext.nodes, j, [])
  {
    var order: seq<CString>, steps: seq<NodeState> :|
      && IsOrderOf(order, c.nodes[j].index.Keys)
      && Announced(steps, order)
      && steps[0] == c.nodes[j]
      && var cleared := RemoveAllProxies(c.(nodes := c.nodes[j := steps[|order|]]), j);
      cNext == cleared.(nodes := cleared.nodes[j := cleared.nodes[j].(online := false)]);
    assert Replays(c.nodes[j]);
    AnnouncedReplays(steps, order);
    RemoveAllMeta(c.(nodes := c.nodes[j := steps[|order|]]), j);
  }

  /** Steps that node `i` has no part in. */
  predicate Others(step: Step, i: nat) {
    match step
    case ProxyAnnounced(j, _, _) => j != i
    case ProxyWithdrawn(j, _, _) => j != i
    case AgentConnects(j) => j != i
    case AgentLost(j) => j != i
    case _ => true
  }

  /** Names and rights stay, and what node `i` has. */
  ghost predicate Bystander(a: seq<NodeState>, b: seq<NodeState>, i: nat) {
    && |a| == |b| && i < |a|
    && (forall x :: 0 <= x < |a| ==> b[x].name == a[x].name && b[x].allowed == a[x].allowed)
    && b[i].monitors == a[i].monitors && b[i].online == a[i].online
  }

  lemma OtherMonitorsBecome(a: seq<NodeState>, b: seq<NodeState>, j: nat, ms: seq<ProxyMonitor>, i: nat)
    requires MonitorsBecome(a, b, j, ms) && i < |a| && i != j
    ensures Bystander(a, b, i)
  {
    forall x | 0 <= x < |a| ensures b[x].name == a[x].name && b[x].allowed == a[x].allowed {
      assert Meta(b[x]).name == Meta(a[x]).name && Meta(b[x]).allowed == Meta(a[x]).allowed;
    }
    assert Meta(b[i]).monitors == Meta(a[i]).monitors && Meta(b[i]).online == Meta(a[i]).online;
  }

  lemma SameMetaBystander(a: seq<NodeState>, b: seq<NodeState>, i: nat)
    requires SameMeta(a, b) && i < |a|
    ensures Bystander(a, b, i)
  {
    forall x | 0 <= x < |a| ensures b[x].name == a[x].name && b[x].allowed == a[x].allowed {
      assert Meta(b[x]).name == Meta(a[x]).name && Meta(b[x]).allowed == Meta(a[x]).allowed;
    }
    assert Meta(b[i]).monitors == Meta(a[i]).monitors && Meta(b[i]).online == Meta(a[i]).online;
  }

  lemma OthersBystander(c: ControllerState, step: Step, cNext: ControllerState, i: nat)
    requires Inv(c) && ControllerRuns.Next(c, step, cNext) && Others(step, i) && i < |c.nodes|
    ensures Bystander(c.nodes, cNext.nodes, i)
  {
    match step
    case MonitorSubscribes(s) =>
      AddSubscriptionMeta(c, s);
      SameMetaBystander(c.nodes, cNext.nodes, i);
    case MonitorUnsubscribes(s) =>
      RemoveSubscriptionMeta(c, s);
      SameMetaBystander(c.nodes, cNext.nodes, i);
    case ProxyAnnounced(j, s, unit) =>
      ProxyNewMeta(c, j, s, unit);
      OtherMonitorsBecome(c.nodes, cNext.nodes, j, cNext.nodes[j].monitors, i);
    case ProxyWithdrawn(j, target, unit) =>
      ProxyRemovedMeta(c, j, target, unit);
      OtherMonitorsBecome(c.nodes, cNext.nodes, j, cNext.nodes[j].monitors, i);
    case AgentLost(j) =>
      DisconnectedMeta(c, cNext, j);
      OtherMonitorsBecome(c.nodes[j := c.nodes[j].(online := false)], cNext.nodes, j, [], i);
    case _ =>
  }

  // ---------------------------------------------------------------- both ends

  /** `linked` says that the controller's connection to the node is the agent's present one, and
      `taken` how many of its signals the controller has handled. */
  datatype Both = Both(c: ControllerState, agent: P.Proxies, linked: bool, taken: nat)

  datatype BothStep =
    | ControllerMoves(step: Step)
    | AgentMoves(e: P.Happening)
    | Connects
    | Loses
    | Takes(s: Subscription)

  /** What the controller does about a signal; `s` is the subscription of a new monitor. */
  ghost predicate Handles(c: ControllerState, i: nat, g: P.Signal, s: Subscription, cNext: ControllerState) {
    match g
    case ProxyNew(node, unit, _) =>
      s.node == node && s.units == [unit] && ControllerRuns.Next(c, ProxyAnnounced(i, s, unit), cNext)
    case ProxyRemoved(node, unit) => ControllerRuns.Next(c, ProxyWithdrawn(i, node, unit), cNext)
  }

  /** The agent is registered once the controller has accepted its connection; another
      connection, or none, cuts it off from the controller. */
  ghost predicate BothNext(b: Both, i: nat, step: BothStep, bNext: Both) {
    match step
    case ControllerMoves(st) =>
      Others(st, i) && ControllerRuns.Next(b.c, st, bNext.c) && bNext == b.(c := bNext.c)
    case AgentMoves(e) =>
      && P.Enabled(b.agent, e) && (e.Registered? ==> b.linked)
      && bNext == b.(agent := P.After(b.agent, e),
                     linked := b.linked && !e.BusOpened? && !e.BusFailed? && !e.AgentStopped?)
    case Connects =>
      && b.agent.link == P.Registering
      && ControllerRuns.Next(b.c, AgentConnects(i), bNext.c) && bNext == Both(bNext.c, b.agent, true, 0)
    case Loses => ControllerRuns.Next(b.c, AgentLost(i), bNext.c) && bNext == b.(c := bNext.c, linked := false)
    case Takes(s) =>
      && b.linked && b.taken < |b.agent.signals|
      && Handles(b.c, i, b.agent.signals[b.taken], s, bNext.c)
      && bNext == b.(c := bNext.c, taken := b.taken + 1)
  }

  ghost predicate BothInitial(b: Both, i: nat) {
    Initial(b.c) && i < |b.c.nodes| && b.agent == P.STARTED && !b.linked
  }

  ghost predicate BothRun(states: seq<Both>, steps: seq<BothStep>, i: nat) {
    && |states| == |steps| + 1
    && BothInitial(states[0], i)
    && forall k :: 0 <= k < |steps| ==> BothNext(states[k], i, steps[k], states[k + 1])
  }

  // ---------------------------------------------------------------- what the signals say

  /** The last signal about the target is ProxyNew. */
  function LastIsNew(signals: seq<P.Signal>, node: CString, unit: CString): bool {
    if signals == [] then false
    else
      var g := signals[|signals| - 1];
      if g.node == node && g.unit == unit then g.ProxyNew? else LastIsNew(signals[..|signals| - 1], node, unit)
  }

  /** At no point were more proxies withdrawn than announced. */
  ghost predicate NeverBelow(signals: seq<P.Signal>) {
    forall k, node, unit :: 0 <= k <= |signals| ==> P.Announced(signals[..k], node, unit) >= 0
  }

  lemma {:induction false} LastNewAnnounced(signals: seq<P.Signal>, node: CString, unit: CString)
    requires forall k :: 0 <= k <= |signals| ==> P.Announced(signals[..k], node, unit) >= 0
    requires LastIsNew(signals, node, unit)
    ensures P.Announced(signals, node, unit) > 0
  {
    var front := signals[..|signals| - 1];
    var g := signals[|signals| - 1];
    assert P.Announced(front, node, unit) >= 0;
    if !(g.node == node && g.unit == unit) {
      assert forall k :: 0 <= k <= |front| ==> front[..k] == signals[..k];
      LastNewAnnounced(front, node, unit);
    }
  }

  /** With never more than one announced, something is announced only if the last signal did. */
  lemma {:induction false} AnnouncedLastNew(signals: seq<P.Signal>, node: CString, unit: CString)
    requires forall k :: 0 <= k <= |signals| ==> P.Announced(signals[..k], node, unit) <= 1
    requires P.Announced(signals, node, unit) > 0
    ensures LastIsNew(signals, node, unit)
  {
    var front := signals[..|signals| - 1];
    var g := signals[|signals| - 1];
    assert P.Announced(front, node, unit) <= 1;
    if !(g.node == node && g.unit == unit) {
      assert forall k :: 0 <= k <= |front| ==> front[..k] == signals[..k];
      AnnouncedLastNew(front, node, unit);
    }
  }

  /** At most one signal more, and that only while connected. */
  ghost predicate OneMoreSent(s: P.Proxies, t: P.Proxies) {
    || t.signals == s.signals
    || (t.link == P.Connected && |t.signals| == |s.signals| + 1 && t.signals[..|s.signals|] == s.signals)
  }

  lemma UnlistSends(s: P.Proxies, k: nat)
    requires k < |s.listed|
    ensures OneMoreSent(s, P.Unlist(s, k, true))
  {
  }

  lemma InitialStateSends(s: P.Proxies, k: nat, success: bool)
    requires k < |s.listed|
    ensures OneMoreSent(s, P.InitialStateReached(s, k, success))
  {
    UnlistSends(P.Replied(s, k, success), k);
  }

  lemma TargetSends(s: P.Proxies, e: P.Happening)
    requires P.Enabled(s, e) && (e.TargetStateChanged? || e.TargetRemoved? || e.TargetError?)
    ensures OneMoreSent(s, P.After(s, e))
  {
    var k := P.ById(s.listed, e.id);
    UnlistSends(s, k);
    InitialStateSends(s, k, true);
    InitialStateSends(s, k, false);
  }

  lemma RemoveSends(s: P.Proxies, key: P.Key)
    ensures OneMoreSent(s, P.Removed(s, key))
  {
    var k := P.ByKey(s.listed, key);
    if k < |s.listed| {
      UnlistSends(s.(listed := s.listed[k := s.listed[k].(dontStop := true)]), k);
    }
  }

  /** The agent adds at most one signal, except when it is accepted on a new connection. */
  lemma SignalsGrow(s: P.Proxies, e: P.Happening)
    requires P.Balanced(s) && P.Enabled(s, e)
    ensures var t := P.After(s, e);
      || (e.BusOpened? && t.signals == [])
      || (e.Registered? && t.signals == P.Announcements(s.listed) && s.signals == [])
      || OneMoreSent(s, t)
  {
    match e
    case TargetStateChanged(_, _, _) => TargetSends(s, e);
    case TargetRemoved(_, _) => TargetSends(s, e);
    case TargetError(_) => TargetSends(s, e);
    case Remove(key) => RemoveSends(s, key);
    case AgentStopped => P.AllUnlistedLink(s.(link := P.Down, bus := None));
    case _ =>
  }

  lemma {:induction false} AnnouncementsAdd(l: seq<P.Proxy>, k: nat, node: CString, unit: CString)
    requires k <= |l|
    ensures P.Announced(P.Announcements(l)[..k], node, unit) >= 0
  {
    if k > 0 {
      AnnouncementsAdd(l, k - 1, node, unit);
      assert P.Announcements(l)[..k][..k - 1] == P.Announcements(l)[..k - 1];
    }
  }

  lemma SignalsNeverBelow(s: P.Proxies, e: P.Happening)
    requires P.Inv(s) && P.Enabled(s, e) && NeverBelow(s.signals)
    ensures NeverBelow(P.After(s, e).signals)
  {
    var t := P.After(s, e);
    SignalsGrow(s, e);
    P.AfterKeeps(s, e);
    forall k, node, unit | 0 <= k <= |t.signals| ensures P.Announced(t.signals[..k], node, unit) >= 0 {
      if e.Registered? && t.signals == P.Announcements(s.listed) {
        AnnouncementsAdd(s.listed, k, node, unit);
      } else if t.signals != [] && t.signals != s.signals {
        if k == |t.signals| {
          assert t.signals[..k] == t.signals;
          assert P.Announced(t.signals, node, unit) == P.ListedFor(t.listed, node, unit);
        } else {
          assert t.signals[..k] == s.signals[..k];
        }
      } else if t.signals == [] {
        assert t.signals[..k] == [];
      }
    }
  }

  // ---------------------------------------------------------------- the invariant

  /** Node `i` has one monitor for each target it may use and was last told is used. */
  ghost predicate MonitorsFollow(nodes: seq<NodeState>, i: nat, signals: seq<P.Signal>)
    requires i < |nodes|
  {
    forall node, unit ::
      HoldersIn(nodes[i].monitors, node, unit) == if Accepts(nodes, i, node) && LastIsNew(signals, node, unit) then 1 else 0
  }

  ghost predicate BothInv(b: Both, i: nat) {
    && Inv(b.c) && i < |b.c.nodes|
    && P.Inv(b.agent) && NeverBelow(b.agent.signals)
    && (!b.c.nodes[i].online ==> b.c.nodes[i].monitors == [])
    && (b.linked ==>
          && b.c.nodes[i].online && b.taken <= |b.agent.signals|
          && MonitorsFollow(b.c.nodes, i, b.agent.signals[..b.taken]))
  }

  lemma BystanderAccepts(a: seq<NodeState>, b: seq<NodeState>, i: nat, node: CString)
    requires |a| == |b| && i < |a|
    requires forall x :: 0 <= x < |a| ==> b[x].name == a[x].name && b[x].allowed == a[x].allowed
    ensures Accepts(b, i, node) <==> Accepts(a, i, node)
  {
    FindNodeSame(a, b, node);
  }

  lemma FollowKept(a: seq<NodeState>, b: seq<NodeState>, i: nat, signals: seq<P.Signal>)
    requires Bystander(a, b, i) && MonitorsFollow(a, i, signals)
    ensures MonitorsFollow(b, i, signals)
  {
    forall node, unit
      ensures HoldersIn(b[i].monitors, node, unit)
              == if Accepts(b, i, node) && LastIsNew(signals, node, unit) then 1 else 0
    {
      BystanderAccepts(a, b, i, node);
      assert HoldersIn(a[i].monitors, node, unit)
             == if Accepts(a, i, node) && LastIsNew(signals, node, unit) then 1 else 0;
    }
  }

  lemma {:induction false} NoHolder(ms: seq<ProxyMonitor>, target: CString, unit: CString)
    requires forall k :: 0 <= k < |ms| ==> !(ms[k].target == target && ms[k].unit == unit)
    ensures HoldersIn(ms, target, unit) == 0
  {
    if ms != [] {
      NoHolder(ms[..|ms| - 1], target, unit);
    }
  }

  /** Removing a monitor from a list without duplicates. */
  lemma WithoutHolders(ms: seq<ProxyMonitor>, target: CString, unit: CString, node: CString, u: CString)
    requires HoldersIn(ms, target, unit) <= 1
    ensures HoldersIn(WithoutProxy(ms, target, unit), node, u)
            == if node == target && u == unit then 0 else HoldersIn(ms, node, u)
  {
    var k := FindProxy(ms, target, unit);
    if k < |ms| {
      HoldersInRemoveAt(ms, k, node, u);
      HoldersInRemoveAt(ms, k, target, unit);
    } else {
      NoHolder(ms, target, unit);
    }
  }

  lemma OneMoreTaken(signals: seq<P.Signal>, k: nat, node: CString, unit: CString)
    requires k < |signals|
    ensures var g := signals[k];
      LastIsNew(signals[..k + 1], node, unit)
        == if g.node == node && g.unit == unit then g.ProxyNew? else LastIsNew(signals[..k], node, unit)
  {
    assert signals[..k + 1][..k] == signals[..k];
  }

  /** What handling one signal makes of the monitors. */
  function Handled(ms: seq<ProxyMonitor>, accepts: bool, g: P.Signal, s: Subscription): seq<ProxyMonitor> {
    match g
    case ProxyNew(node, unit, _) =>
      if accepts then WithoutProxy(ms, node, unit) + [ProxyMonitor(node, unit, s)] else ms
    case ProxyRemoved(node, unit) => WithoutProxy(ms, node, unit)
  }

  lemma HandlesMeta(c: ControllerState, i: nat, g: P.Signal, s: Subscription, cNext: ControllerState)
    requires i < |c.nodes| && Handles(c, i, g, s, cNext)
    ensures MonitorsBecome(c.nodes, cNext.nodes, i, Handled(c.nodes[i].monitors, Accepts(c.nodes, i, g.node), g, s))
  {
    match g
    case ProxyNew(node, unit, _) => ProxyNewMeta(c, i, s, unit);
    case ProxyRemoved(node, unit) => ProxyRemovedMeta(c, i, node, unit);
  }

  lemma HandledHolders(ms: seq<ProxyMonitor>, accepts: bool, g: P.Signal, s: Subscription, node: CString, u: CString)
    requires HoldersIn(ms, g.node, g.unit) <= if accepts then 1 else 0
    ensures HoldersIn(Handled(ms, accepts, g, s), node, u)
            == if node == g.node && u == g.unit then (if accepts && g.ProxyNew? then 1 else 0) else HoldersIn(ms, node, u)
  {
    WithoutHolders(ms, g.node, g.unit, node, u);
    if g.ProxyNew? && accepts {
      HoldersInAppend(WithoutProxy(ms, g.node, g.unit), ProxyMonitor(g.node, g.unit, s), node, u);
    }
  }

  lemma OwnMonitorsBecome(a: seq<NodeState>, b: seq<NodeState>, i: nat, ms: seq<ProxyMonitor>)
    requires MonitorsBecome(a, b, i, ms) && i < |a|
    ensures b[i].monitors == ms && b[i].online == a[i].online
    ensures forall x :: 0 <= x < |a| ==> b[x].name == a[x].name && b[x].allowed == a[x].allowed
  {
    forall x | 0 <= x < |a| ensures b[x].name == a[x].name && b[x].allowed == a[x].allowed {
      assert Meta(b[x]).name == Meta(a[x]).name && Meta(b[x]).allowed == Meta(a[x]).allowed;
    }
    assert Meta(b[i]).monitors == ms && Meta(b[i]).online == Meta(a[i]).online;
  }

  lemma HandlesFollow(
    c: ControllerState, i: nat, signals: seq<P.Signal>, k: nat, s: Subscription, cNext: ControllerState)
    requires i < |c.nodes| && k < |signals| && Handles(c, i, signals[k], s, cNext)
    requires MonitorsFollow(c.nodes, i, signals[..k])
    ensures |cNext.nodes| == |c.nodes|
    ensures cNext.nodes[i].online == c.nodes[i].online
    ensures MonitorsFollow(cNext.nodes, i, signals[..k + 1])
  {
    var g := signals[k];
    var ms := Handled(c.nodes[i].monitors, Accepts(c.nodes, i, g.node), g, s);
    HandlesMeta(c, i, g, s, cNext);
    OwnMonitorsBecome(c.nodes, cNext.nodes, i, ms);
    forall node, unit
      ensures HoldersIn(ms, node, unit)
              == if Accepts(cNext.nodes, i, node) && LastIsNew(signals[..k + 1], node, unit) then 1 else 0
    {
      BystanderAccepts(c.nodes, cNext.nodes, i, node);
      HandledFollow(c.nodes, i, signals, k, s, node, unit);
    }
  }

  lemma HandledFollow(
    nodes: seq<NodeState>, i: nat, signals: seq<P.Signal>, k: nat, s: Subscription, node: CString, unit: CString)
    requires i < |nodes| && k < |signals| && MonitorsFollow(nodes, i, signals[..k])
    ensures var g := signals[k];
      HoldersIn(Handled(nodes[i].monitors, Accepts(nodes, i, g.node), g, s), node, unit)
        == if Accepts(nodes, i, node) && LastIsNew(signals[..k + 1], node, unit) then 1 else 0
  {
    var g, ms := signals[k], nodes[i].monitors;
    assert HoldersIn(ms, g.node, g.unit) <= if Accepts(nodes, i, g.node) then 1 else 0;
    assert HoldersIn(ms, node, unit) == if Accepts(nodes, i, node) && LastIsNew(signals[..k], node, unit) then 1 else 0;
    HandledHolders(ms, Accepts(nodes, i, g.node), g, s, node, unit);
    OneMoreTaken(signals, k, node, unit);
  }

  lemma HandlesInv(c: ControllerState, i: nat, g: P.Signal, s: Subscription, cNext: ControllerState)
    requires Inv(c) && Handles(c, i, g, s, cNext)
    ensures Inv(cNext)
  {
    match g
    case ProxyNew(node, unit, _) => NextInv(c, ProxyAnnounced(i, s, unit), cNext);
    case ProxyRemoved(node, unit) => NextInv(c, ProxyWithdrawn(i, node, unit), cNext);
  }

  lemma HandlesKeeps(
    c: ControllerState, i: nat, signals: seq<P.Signal>, k: nat, s: Subscription, cNext: ControllerState)
    requires Inv(c) && i < |c.nodes| && k < |signals| && Handles(c, i, signals[k], s, cNext)
    requires MonitorsFollow(c.nodes, i, signals[..k])
    ensures Inv(cNext) && |cNext.nodes| == |c.nodes| && cNext.nodes[i].online == c.nodes[i].online
    ensures MonitorsFollow(cNext.nodes, i, signals[..k + 1])
  {
    HandlesInv(c, i, signals[k], s, cNext);
    HandlesFollow(c, i, signals, k, s, cNext);
  }

  lemma TakesKeeps(b: Both, i: nat, s: Subscription, bNext: Both)
    requires BothInv(b, i) && BothNext(b, i, Takes(s), bNext)
    ensures BothInv(bNext, i)
  {
    HandlesKeeps(b.c, i, b.agent.signals, b.taken, s, bNext.c);
  }

  lemma AgentMovesKeeps(b: Both, i: nat, e: P.Happening, bNext: Both)
    requires BothInv(b, i) && BothNext(b, i, AgentMoves(e), bNext)
    ensures BothInv(bNext, i)
  {
    P.AfterKeeps(b.agent, e);
    SignalsNeverBelow(b.agent, e);
    SignalsGrow(b.agent, e);
    if bNext.linked {
      assert bNext.agent.signals[..b.taken] == b.agent.signals[..b.taken];
    }
  }

  lemma ConnectsKeeps(b: Both, i: nat, bNext: Both)
    requires BothInv(b, i) && BothNext(b, i, Connects, bNext)
    ensures BothInv(bNext, i)
  {
    NextInv(b.c, AgentConnects(i), bNext.c);
    assert bNext.c.nodes[i].monitors == [];
    assert b.agent.signals[..0] == [];
  }

  lemma LosesKeeps(b: Both, i: nat, bNext: Both)
    requires BothInv(b, i) && BothNext(b, i, Loses, bNext)
    ensures BothInv(bNext, i)
  {
    NextInv(b.c, AgentLost(i), bNext.c);
    AgentLostInv(b.c, bNext.c, i);
    LostKeepsOthers(b.c, bNext.c, i);
  }

  lemma BothNextInv(b: Both, i: nat, step: BothStep, bNext: Both)
    requires BothInv(b, i) && BothNext(b, i, step, bNext)
    ensures BothInv(bNext, i)
  {
    match step
    case ControllerMoves(st) =>
      NextInv(b.c, st, bNext.c);
      OthersBystander(b.c, st, bNext.c, i);
      if b.linked {
        FollowKept(b.c.nodes, bNext.c.nodes, i, b.agent.signals[..b.taken]);
      }
    case AgentMoves(e) => AgentMovesKeeps(b, i, e, bNext);
    case Connects => ConnectsKeeps(b, i, bNext);
    case Loses => LosesKeeps(b, i, bNext);
    case Takes(s) => TakesKeeps(b, i, s, bNext);
  }

  lemma BothInitialInv(b: Both, i: nat)
    requires BothInitial(b, i)
    ensures BothInv(b, i)
  {
    InitialInv(b.c);
    P.RunKeeps([]);
    assert forall k :: 0 <= k <= |b.agent.signals| ==> b.agent.signals[..k] == [];
  }

  lemma {:induction false} BothRunSafe(states: seq<Both>, steps: seq<BothStep>, i: nat, k: nat)
    requires BothRun(states, steps, i) && k < |states|
    ensures BothInv(states[k], i)
  {
    if k == 0 {
      BothInitialInv(states[0], i);
    } else {
      BothRunSafe(states, steps, i, k - 1);
      BothNextInv(states[k - 1], i, steps[k - 1], states[k]);
    }
  }

  // ---------------------------------------------------------------- when they mirror each other

  /** Both ends are connected and the controller has handled every signal. */
  ghost predicate Settled(b: Both) {
    b.linked && b.agent.link == P.Connected && b.taken == |b.agent.signals|
  }

  /** In any reachable state in which every signal was handled: the controller has at most one
      monitor for a unit on a target and none without a listed proxy; and the two agree on
      whether there is one, for a target that is known and allowed, exactly if the agent lists
      none or has announced one since it last withdrew one. */
  lemma MonitorsMirrorProxies(
    states: seq<Both>, steps: seq<BothStep>, i: nat, k: nat, node: CString, unit: CString)
    requires BothRun(states, steps, i) && k < |states| && Settled(states[k])
    ensures i < |states[k].c.nodes|
    ensures var nodes, signals := states[k].c.nodes, states[k].agent.signals;
      var held, listed := HoldersIn(nodes[i].monitors, node, unit), P.ListedFor(states[k].agent.listed, node, unit);
      && held <= 1
      && (held > 0 ==> listed > 0)
      && (Accepts(nodes, i, node) ==> ((held > 0 <==> listed > 0) <==> listed == 0 || LastIsNew(signals, node, unit)))
      && (!Accepts(nodes, i, node) ==> held == 0)
  {
    BothRunSafe(states, steps, i, k);
    var b := states[k];
    assert b.agent.signals[..b.taken] == b.agent.signals;
    assert P.Announced(b.agent.signals, node, unit) == P.ListedFor(b.agent.listed, node, unit);
    if LastIsNew(b.agent.signals, node, unit) {
      LastNewAnnounced(b.agent.signals, node, unit);
    }
  }

  /** They agree on every unit for which no two proxies were announced at a time. */
  lemma LoneProxiesAreMirrored(
    states: seq<Both>, steps: seq<BothStep>, i: nat, k: nat, node: CString, unit: CString)
    requires BothRun(states, steps, i) && k < |states| && Settled(states[k])
    requires var signals := states[k].agent.signals;
      forall l :: 0 <= l <= |signals| ==> P.Announced(signals[..l], node, unit) <= 1
    ensures i < |states[k].c.nodes|
    ensures Accepts(states[k].c.nodes, i, node) ==>
      HoldersIn(states[k].c.nodes[i].monitors, node, unit) == P.ListedFor(states[k].agent.listed, node, unit)
  {
    MonitorsMirrorProxies(states, steps, i, k, node, unit);
    BothRunSafe(states, steps, i, k);
    var b := states[k];
    assert b.agent.signals[..|b.agent.signals|] == b.agent.signals;
    assert P.Announced(b.agent.signals, node, unit) == P.ListedFor(b.agent.listed, node, unit);
    if P.Announced(b.agent.signals, node, unit) > 0 {
      AnnouncedLastNew(b.agent.signals, node, unit);
    }
  }

  // ---------------------------------------------------------------- two services on one unit

  const AGENT := Ascii("agent")
  const TARGET := Ascii("target")
  const ONE := Ascii("one")
  const TWO := Ascii("two")

  /** An agent that may have proxies on one other node, which is offline. */
  function Tables(online: bool): ControllerState {
    ControllerState([NodeState(AGENT, [TARGET], online, map[], [], [], [], []),
                     NodeState(TARGET, [], false, map[], [], [], [], [])], [])
  }

  function Own(ref: nat, u: CString): Subscription {
    Subscription(ref, ref, TARGET, [u])
  }

  function Uses(service: CString, u: CString): P.Key {
    P.Key(service, TARGET, u)
  }

  function Listed(call: nat, service: CString, u: CString): P.Proxy {
    P.Proxy(call + 1, Uses(service, u), call, true, true, false, false, 0)
  }

  function Agent(
    link: P.Link, listed: seq<P.Proxy>, made: nat, out: seq<P.Output>, signals: seq<P.Signal>): P.Proxies
  {
    P.Proxies(link, Some(0), 1, listed, made, made, out, signals)
  }

  function Announce(u: CString, id: nat): P.Signal {
    P.ProxyNew(TARGET, u, id)
  }

  function AgentAt(u: CString, k: nat): P.Proxies {
    var one, two := Listed(0, ONE, u), Listed(1, TWO, u);
    match k
    case 0 => P.STARTED
    case 1 => Agent(P.Registering, [], 0, [], [])
    case 2 => Agent(P.Connected, [], 0, [], [])
    case 3 => Agent(P.Connected, [one], 1, [], [Announce(u, 1)])
    case 4 => Agent(P.Connected, [one, two], 2, [], [Announce(u, 1), Announce(u, 2)])
    case _ => Agent(P.Connected, [two], 2, [P.Reply(0, P.ServiceStopped)],
                    [Announce(u, 1), Announce(u, 2), P.ProxyRemoved(TARGET, u)])
  }

  /** What the controller is told. */
  function ToldAt(u: CString, k: nat): Step {
    if k == 0 then ProxyAnnounced(0, Own(1, u), u)
    else if k == 1 then ProxyAnnounced(0, Own(2, u), u)
    else ProxyWithdrawn(0, TARGET, u)
  }

  ghost predicate Told(u: CString, k: nat, c: ControllerState, cNext: ControllerState) {
    ControllerRuns.Next(c, ToldAt(u, k), cNext) && |c.nodes| == 2
  }

  /** The tables of the connected controller before and after each of the first signals. */
  ghost predicate Handling(u: CString, cs: seq<ControllerState>) {
    && 0 < |cs| <= 4 && cs[0] == Tables(true) && TargetIdle(cs[|cs| - 1])
    && forall k {:trigger Told(u, k, cs[k], cs[k + 1])} :: 0 <= k < |cs| - 1 ==> Told(u, k, cs[k], cs[k + 1])
  }

  /** The agent gets a proxy for one service and then for another one, both on the same unit, and
      the first is removed; the controller handles each signal at once. */
  function State(u: CString, cs: seq<ControllerState>, k: nat): Both
    requires |cs| == 4
  {
    match k
    case 0 => Both(Tables(false), AgentAt(u, 0), false, 0)
    case 1 => Both(Tables(false), AgentAt(u, 1), false, 0)
    case 2 => Both(cs[0], AgentAt(u, 1), true, 0)
    case 3 => Both(cs[0], AgentAt(u, 2), true, 0)
    case 4 => Both(cs[0], AgentAt(u, 3), true, 0)
    case 5 => Both(cs[1], AgentAt(u, 3), true, 1)
    case 6 => Both(cs[1], AgentAt(u, 4), true, 1)
    case 7 => Both(cs[2], AgentAt(u, 4), true, 2)
    case 8 => Both(cs[2], AgentAt(u, 5), true, 2)
    case _ => Both(cs[3], AgentAt(u, 5), true, 3)
  }

  function StepAt(u: CString, k: nat): BothStep {
    match k
    case 0 => AgentMoves(P.BusOpened)
    case 1 => Connects
    case 2 => AgentMoves(P.Registered)
    case 3 => AgentMoves(P.Create(Uses(ONE, u)))
    case 4 => Takes(Own(1, u))
    case 5 => AgentMoves(P.Create(Uses(TWO, u)))
    case 6 => Takes(Own(2, u))
    case 7 => AgentMoves(P.Remove(Uses(ONE, u)))
    case _ => Takes(Own(2, u))
  }

  lemma AgentAccepted(u: CString)
    ensures P.Enabled(AgentAt(u, 1), P.Registered) && P.After(AgentAt(u, 1), P.Registered) == AgentAt(u, 2)
  {
    assert P.MarkSent(AgentAt(u, 1).listed) == [];
    assert AgentAt(u, 1).signals + P.Announcements(AgentAt(u, 1).listed) == [];
  }

  lemma AgentCreates(u: CString, k: nat)
    requires k == 2 || k == 3
    ensures P.After(AgentAt(u, k), P.Create(Uses(if k == 2 then ONE else TWO, u))) == AgentAt(u, k + 1)
  {
    var s := AgentAt(u, k);
    assert ONE[0] != TWO[0];
    assert P.ByKey(s.listed, Uses(if k == 2 then ONE else TWO, u)) == |s.listed|;
  }

  lemma AgentRemoves(u: CString)
    ensures P.After(AgentAt(u, 4), P.Remove(Uses(ONE, u))) == AgentAt(u, 5)
  {
    var s := AgentAt(u, 4);
    assert P.ByKey(s.listed, Uses(ONE, u)) == 0;
    var t := s.(listed := s.listed[0 := s.listed[0].(dontStop := true)]);
    assert RemoveAt(t.listed, 0) == AgentAt(u, 5).listed;
    assert P.Removed(s, Uses(ONE, u)) == P.Unlist(t, 0, true);
  }

  lemma ControllerConnects(u: CString)
    ensures ControllerRuns.Next(Tables(false), AgentConnects(0), Tables(true))
  {
    var n, order: seq<CString> := Tables(false).nodes[0], [];
    assert IsOrderOf(order, n.index.Keys);
    assert Greeting(order, n.deps) == [];
    assert Tables(true).nodes[0] == n.(online := true, sent := Greeting(order, n.deps));
  }

  /** The target has no monitors of its own. */
  ghost predicate TargetIdle(c: ControllerState) {
    |c.nodes| == 2 && c.nodes[1].monitors == [] && c.nodes[1].name == TARGET
  }

  lemma IdleStays(c: ControllerState, s: Subscription, u: CString)
    requires TargetIdle(c)
    ensures TargetIdle(ProxyNew(c, 0, s, u)) && TargetIdle(ProxyRemoved(c, 0, TARGET, u))
  {
    var c1, c2 := ProxyNew(c, 0, s, u), ProxyRemoved(c, 0, TARGET, u);
    ProxyNewMeta(c, 0, s, u);
    ProxyRemovedMeta(c, 0, TARGET, u);
    assert Meta(c1.nodes[1]) == Meta(c.nodes[1]) && Meta(c2.nodes[1]) == Meta(c.nodes[1]);
    assert Meta(c1.nodes[1]).monitors == [] && Meta(c1.nodes[1]).name == TARGET;
    assert Meta(c2.nodes[1]).monitors == [] && Meta(c2.nodes[1]).name == TARGET;
  }

  lemma FirstAnnounced(u: CString) returns (c: ControllerState)
    ensures Told(u, 0, Tables(true), c)
    ensures TargetIdle(c) && c.all == [Own(1, u)]
  {
    var start := Tables(true);
    c := ProxyNew(start, 0, Own(1, u), u);
    IdleStays(start, Own(1, u), u);
    assert |AGENT| != |TARGET|;
    assert start.nodes[0].name == AGENT && start.nodes[1].name == TARGET;
    assert FindNode(start.nodes, TARGET) == 1;
    assert ProxyRemoved(start, 0, TARGET, u) == start;
    assert [] + [Own(1, u)] == [Own(1, u)];
  }

  /** One signal more, if a new subscription does not use the address of another. */
  lemma HandlesMore(u: CString, cs: seq<ControllerState>) returns (more: seq<ControllerState>)
    requires Handling(u, cs) && (|cs| == 2 || |cs| == 3)
    requires |cs| == 2 ==> ControllerRuns.Fresh(cs[1], Own(2, u))
    ensures Handling(u, more) && |more| == |cs| + 1
  {
    var c := cs[|cs| - 1];
    var cNext := if |cs| == 2 then ProxyNew(c, 0, Own(2, u), u) else ProxyRemoved(c, 0, TARGET, u);
    HandlesOne(u, c, |cs| - 1);
    more := cs + [cNext];
    ToldMore(u, cs, cNext);
  }

  lemma HandlesOne(u: CString, c: ControllerState, k: nat)
    requires TargetIdle(c) && (k == 1 || k == 2)
    requires k == 1 ==> ControllerRuns.Fresh(c, Own(2, u))
    ensures var cNext := if k == 1 then ProxyNew(c, 0, Own(2, u), u) else ProxyRemoved(c, 0, TARGET, u);
      Told(u, k, c, cNext) && TargetIdle(cNext)
  {
    IdleStays(c, Own(2, u), u);
  }

  lemma ToldMore(u: CString, cs: seq<ControllerState>, cNext: ControllerState)
    requires cs != []
    requires forall k {:trigger Told(u, k, cs[k], cs[k + 1])} :: 0 <= k < |cs| - 1 ==> Told(u, k, cs[k], cs[k + 1])
    requires Told(u, |cs| - 1, cs[|cs| - 1], cNext)
    ensures var more := cs + [cNext];
      forall k {:trigger Told(u, k, more[k], more[k + 1])} :: 0 <= k < |more| - 1 ==> Told(u, k, more[k], more[k + 1])
  {
  }

  lemma TablesOf(u: CString) returns (cs: seq<ControllerState>)
    ensures Handling(u, cs) && |cs| == 4
  {
    var c := FirstAnnounced(u);
    cs := [Tables(true), c];
    assert Told(u, 0, cs[0], cs[1]);
    cs := HandlesMore(u, cs);
    cs := HandlesMore(u, cs);
  }

  lemma TakesOne(u: CString, k: nat, c: ControllerState, cNext: ControllerState, agent: P.Proxies, s: Subscription)
    requires Told(u, k, c, cNext) && k < 3 && k < |agent.signals|
    requires agent.signals[k] == if k < 2 then Announce(u, k + 1) else P.ProxyRemoved(TARGET, u)
    requires k < 2 ==> s == Own(k + 1, u)
    ensures BothNext(Both(c, agent, true, k), 0, Takes(s), Both(cNext, agent, true, k + 1))
  {
  }

  lemma TakesAt(u: CString, cs: seq<ControllerState>, k: nat, agent: P.Proxies, s: Subscription)
    requires Handling(u, cs) && |cs| == 4 && k < 3 && k < |agent.signals|
    requires agent.signals[k] == if k < 2 then Announce(u, k + 1) else P.ProxyRemoved(TARGET, u)
    requires k < 2 ==> s == Own(k + 1, u)
    ensures BothNext(Both(cs[k], agent, true, k), 0, Takes(s), Both(cs[k + 1], agent, true, k + 1))
  {
    TakesOne(u, k, cs[k], cs[k + 1], agent, s);
  }

  lemma BothMove(u: CString, cs: seq<ControllerState>, k: nat)
    requires Handling(u, cs) && |cs| == 4 && k < 9
    ensures BothNext(State(u, cs, k), 0, StepAt(u, k), State(u, cs, k + 1))
  {
    match k
    case 1 => ControllerConnects(u);
    case 2 => AgentAccepted(u);
    case 3 => AgentCreates(u, 2);
    case 4 => TakesAt(u, cs, 0, AgentAt(u, 3), Own(1, u));
    case 5 => AgentCreates(u, 3);
    case 6 => TakesAt(u, cs, 1, AgentAt(u, 4), Own(2, u));
    case 7 => AgentRemoves(u);
    case 8 => TakesAt(u, cs, 2, AgentAt(u, 5), Own(2, u));
    case _ =>
  }

  lemma TwoProxiesStart(u: CString, cs: seq<ControllerState>)
    requires |cs| == 4
    ensures BothInitial(State(u, cs, 0), 0)
  {
    assert |AGENT| != |TARGET|;
  }

  /** A run that ends with every signal handled, a proxy listed at the agent, no monitor for it
      at the controller, and nobody counted as depending on the unit. */
  lemma FirstToGoTakesMonitor(u: CString) returns (states: seq<Both>, steps: seq<BothStep>)
    ensures BothRun(states, steps, 0)
    ensures var b := states[|steps|];
      && Settled(b) && |b.c.nodes| == 2
      && P.ListedFor(b.agent.listed, TARGET, u) == 1
      && HoldersIn(b.c.nodes[0].monitors, TARGET, u) == 0
      && b.c.nodes[1].name == TARGET && DepCount(b.c.nodes[1].deps, u) == 0
  {
    var cs := TablesOf(u);
    states, steps := seq(10, (k: nat) => State(u, cs, k)), seq(9, (k: nat) => StepAt(u, k));
    TwoProxiesStart(u, cs);
    forall k | 0 <= k < 9 ensures BothNext(states[k], 0, steps[k], states[k + 1]) {
      BothMove(u, cs, k);
    }
    BothRunSafe(states, steps, 0, 9);
    LastWithdrawn(u);
    NobodyElseHolds(states[9], u);
  }

  lemma LastWithdrawn(u: CString)
    ensures !LastIsNew(AgentAt(u, 5).signals, TARGET, u)
    ensures P.ListedFor(AgentAt(u, 5).listed, TARGET, u) == 1
  {
    assert AgentAt(u, 5).listed[..0] == [];
  }

  lemma NobodyElseHolds(b: Both, u: CString)
    requires BothInv(b, 0) && b.linked && b.taken == |b.agent.signals| && TargetIdle(b.c)
    requires !LastIsNew(b.agent.signals, TARGET, u)
    ensures HoldersIn(b.c.nodes[0].monitors, TARGET, u) == 0 && DepCount(b.c.nodes[1].deps, u) == 0
  {
    var nodes := b.c.nodes;
    assert b.agent.signals[..b.taken] == b.agent.signals;
    assert DepCount(nodes[1].deps, u) == Holders(nodes, nodes[1].name, u);
    assert nodes[..1] == [nodes[0]] && nodes[..1][..0] == [];
    assert Holders(nodes, TARGET, u) == Holders(nodes[..1], TARGET, u) + HoldersIn(nodes[1].monitors, TARGET, u);
    assert Holders(nodes[..1], TARGET, u) == Holders(nodes[..1][..0], TARGET, u) + HoldersIn(nodes[0].monitors, TARGET, u);
  }
}
