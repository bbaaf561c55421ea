/** Every run of the controller: what clients, agents and lost connections can do to the
    tables, in any order, and the invariant all of it keeps. */
module ControllerRuns {
  import opened CStrings
  import opened ControllerState
  import opened Sequences
  import opened SubscriptionIndex
  import opened UnitEvents
  import opened ProxyDependencies
  import opened ConnectionLog

  datatype Step =
    | MonitorSubscribes(s: Subscription)
    | MonitorUnsubscribes(s: Subscription)
    | AgentReports(i: nat, event: Event)
    | ProxyAnnounced(i: nat, s: Subscription, unit: CString)
    | ProxyWithdrawn(i: nat, target: CString, unit: CString)
    | AgentConnects(i: nat)
    | AgentLost(i: nat)

  /** No live subscription object has the address of `s`. */
  ghost predicate Fresh(c: ControllerState, s: Subscription) {
    forall j :: 0 <= j < |c.all| ==> c.all[j].ref != s.ref
  }

  ghost predicate OwnedByProxy(c: ControllerState, s: Subscription) {
    exists i, k :: 0 <= i < |c.nodes| && 0 <= k < |c.nodes[i].monitors| && c.nodes[i].monitors[k].subscription == s
  }

  ghost predicate Next(c: ControllerState, step: Step, cNext: ControllerState) {
    match step
    case MonitorSubscribes(s) => Fresh(c, s) && cNext == AddSubscription(c, s)
    case MonitorUnsubscribes(s) => s in c.all && !OwnedByProxy(c, s) && cNext == RemoveSubscription(c, s)
    case AgentReports(i, ev) =>
      && i < |c.nodes| == |cNext.nodes|
      && cNext == c.(nodes := c.nodes[i := cNext.nodes[i]])
      && AgentEvent(c.nodes[i], cNext.nodes[i], ev)
    case ProxyAnnounced(i, s, unit) =>
      i < |c.nodes| && Fresh(c, s) && s.units == [unit] && cNext == ProxyNew(c, i, s, unit)
    case ProxyWithdrawn(i, target, unit) => i < |c.nodes| && cNext == ProxyRemoved(c, i, target, unit)
    case AgentConnects(i) =>
      && i < |c.nodes| == |cNext.nodes|
      && cNext == c.(nodes := c.nodes[i := cNext.nodes[i]])
      && Connected(c.nodes[i], cNext.nodes[i])
    case AgentLost(i) => Disconnected(c, cNext, i)
  }

  /** The configured nodes, before anything happened. */
  ghost predicate Initial(c: ControllerState) {
    && c.all == []
    && UniqueNames(c.nodes)
    && forall i :: 0 <= i < |c.nodes| ==>
         var n := c.nodes[i];
         !n.online && n.index == map[] && n.monitors == [] && n.deps == []
  }

  // ---------------------------------------------------------------- the invariant

  ghost predicate UniqueRefs(all: seq<Subscription>) {
    forall i, j :: 0 <= i < j < |all| ==> all[i].ref != all[j].ref
  }

  /** Every proxy monitor has a listed subscription of its own, for its unit and target. */
  ghost predicate OwnsSubscriptions(c: ControllerState) {
    && (forall i, k :: 0 <= i < |c.nodes| && 0 <= k < |c.nodes[i].monitors| ==>
          var pm := c.nodes[i].monitors[k];
          pm.subscription in c.all && pm.subscription.node == pm.target && pm.subscription.units == [pm.unit])
    && (forall i, k, j, l ::
          0 <= i < |c.nodes| && 0 <= k < |c.nodes[i].monitors| && 0 <= j < |c.nodes| && 0 <= l < |c.nodes[j].monitors|
          && c.nodes[i].monitors[k].subscription == c.nodes[j].monitors[l].subscription
          ==> i == j && k == l)
  }

  ghost predicate AllReplay(nodes: seq<NodeState>) {
    forall i :: 0 <= i < |nodes| ==> Replays(nodes[i])
  }

  ghost predicate Inv(c: ControllerState) {
    && UniqueRefs(c.all)
    && Indexed(c)
    && AllReplay(c.nodes)
    && OwnsSubscriptions(c)
    && Conserved(c.nodes)
    && AllTold(c.nodes)
  }

  // ---------------------------------------------------------------- operations, component by component

  /** The part of a node the unit index lives in is the same. */
  ghost predicate SameIndex(a: seq<NodeState>, b: seq<NodeState>) {
    && |a| == |b|
    && forall i :: 0 <= i < |a| ==> a[i].name == b[i].name && a[i].index == b[i].index && a[i].observed == b[i].observed
  }

  lemma SameIndexKeeps(c: ControllerState, cNext: ControllerState)
    requires c.all == cNext.all && SameIndex(c.nodes, cNext.nodes)
    ensures Indexed(c) ==> Indexed(cNext)
    ensures AllReplay(c.nodes) ==> AllReplay(cNext.nodes)
  {
    forall i | Indexed(c) && 0 <= i < |cNext.nodes| ensures NodeIndexed(cNext.all, cNext.nodes[i]) {
      assert NodeIndexed(c.all, c.nodes[i]);
    }
    forall i | AllReplay(c.nodes) && 0 <= i < |cNext.nodes| ensures Replays(cNext.nodes[i]) {
      assert Replays(c.nodes[i]);
    }
  }

  lemma RefsAreDistinct(all: seq<Subscription>)
    requires UniqueRefs(all)
    ensures NoDuplicates(all)
  {
  }

  lemma WithoutFirst(all: seq<Subscription>, s: Subscription)
    requires UniqueRefs(all) && s in all
    ensures UniqueRefs(RemoveFirst(all, s))
    ensures forall x :: x in RemoveFirst(all, s) <==> x in all && x != s
  {
    var i := Find(all, s);
    var r := RemoveFirst(all, s);
    forall j | 0 <= j < |r| ensures r[j] == all[if j < i then j else j + 1] {
    }
    forall x | x in all && x != s ensures x in r {
      var j :| 0 <= j < |all| && all[j] == x;
      assert r[if j < i then j else j - 1] == x;
    }
  }

  lemma AddSubscriptionReplays(c: ControllerState, s: Subscription)
    requires AllReplay(c.nodes)
    ensures AllReplay(AddSubscription(c, s).nodes)
  {
    forall i | 0 <= i < |c.nodes| {
      SubscribeUnitsReplays(c.nodes[i], s, s.units);
    }
  }

  lemma RemoveSubscriptionReplays(c: ControllerState, s: Subscription)
    requires AllReplay(c.nodes)
    ensures AllReplay(RemoveSubscription(c, s).nodes)
  {
    forall i | 0 <= i < |c.nodes| {
      UnsubscribeUnitsReplays(c.nodes[i], s, s.units);
    }
  }

  /** The tables of subscriptions alone. */
  ghost predicate Subscribed(c: ControllerState) {
    UniqueRefs(c.all) && Indexed(c) && AllReplay(c.nodes) && OwnsSubscriptions(c)
  }

  lemma AddSubscriptionSubscribed(c: ControllerState, s: Subscription)
    requires Subscribed(c) && Fresh(c, s)
    ensures Subscribed(AddSubscription(c, s))
  {
    AddSubscriptionIndexes(c, s);
    AddSubscriptionReplays(c, s);
    AddSubscriptionSame(c, s);
    AddSubscriptionOwns(c, s);
  }

  lemma AddSubscriptionOwns(c: ControllerState, s: Subscription)
    requires OwnsSubscriptions(c)
    ensures OwnsSubscriptions(AddSubscription(c, s))
  {
    AddSubscriptionSame(c, s);
    var cNext := AddSubscription(c, s);
    assert forall i :: 0 <= i < |c.nodes| ==> cNext.nodes[i].monitors == c.nodes[i].monitors;
  }

  lemma RemoveSubscriptionOwns(c: ControllerState, s: Subscription)
    requires UniqueRefs(c.all) && s in c.all && OwnsSubscriptions(c) && !OwnedByProxy(c, s)
    ensures OwnsSubscriptions(RemoveSubscription(c, s))
  {
    RemoveSubscriptionSame(c, s);
    WithoutFirst(c.all, s);
    var cNext := RemoveSubscription(c, s);
    assert forall i :: 0 <= i < |c.nodes| ==> cNext.nodes[i].monitors == c.nodes[i].monitors;
  }

  lemma RemoveSubscriptionSubscribed(c: ControllerState, s: Subscription)
    requires Subscribed(c) && s in c.all && !OwnedByProxy(c, s)
    ensures Subscribed(RemoveSubscription(c, s))
  {
    RefsAreDistinct(c.all);
    WithoutFirst(c.all, s);
    RemoveSubscriptionIndexes(c, s);
    RemoveSubscriptionReplays(c, s);
    RemoveSubscriptionOwns(c, s);
  }

  lemma RemoveProxyOwns(c: ControllerState, i: nat, k: nat)
    requires UniqueRefs(c.all) && OwnsSubscriptions(c) && i < |c.nodes| && k < |c.nodes[i].monitors|
    ensures OwnsSubscriptions(RemoveProxy(c, i, k))
  {
    var s := c.nodes[i].monitors[k].subscription;
    var cNext := RemoveProxy(c, i, k);
    RemoveProxyReleases(c, i, k);
    WithoutFirst(c.all, s);
    assert cNext.nodes[i].monitors == RemoveAt(c.nodes[i].monitors, k);
    assert forall j :: 0 <= j < |c.nodes| && j != i ==> cNext.nodes[j].monitors == c.nodes[j].monitors;
    MonitorsAfterRemoval(c, cNext, i, k);
  }

  lemma MonitorsAfterRemoval(c: ControllerState, cNext: ControllerState, i: nat, k: nat)
    requires OwnsSubscriptions(c) && i < |c.nodes| == |cNext.nodes| && k < |c.nodes[i].monitors|
    requires cNext.nodes[i].monitors == RemoveAt(c.nodes[i].monitors, k)
    requires forall j :: 0 <= j < |c.nodes| && j != i ==> cNext.nodes[j].monitors == c.nodes[j].monitors
    requires forall x :: x in cNext.all <==> x in c.all && x != c.nodes[i].monitors[k].subscription
    ensures OwnsSubscriptions(cNext)
  {
    forall j, l | 0 <= j < |cNext.nodes| && 0 <= l < |cNext.nodes[j].monitors|
      ensures var lNext := if j != i || l < k then l else l + 1;
              cNext.nodes[j].monitors[l] == c.nodes[j].monitors[lNext] && !(j == i && lNext == k)
    {
    }
  }

  lemma DropDepKeeps(c: ControllerState, target: CString, unit: CString)
    requires Indexed(c) && AllReplay(c.nodes)
    ensures Indexed(DropDep(c, target, unit)) && AllReplay(DropDep(c, target, unit).nodes)
  {
    SameIndexKeeps(c, DropDep(c, target, unit));
  }

  lemma RemoveProxySubscribed(c: ControllerState, i: nat, k: nat)
    requires Subscribed(c) && i < |c.nodes| && k < |c.nodes[i].monitors|
    ensures Subscribed(RemoveProxy(c, i, k))
  {
    var pm := c.nodes[i].monitors[k];
    var c1 := DropDep(c, pm.target, pm.unit);
    DropDepKeeps(c, pm.target, pm.unit);
    RefsAreDistinct(c.all);
    WithoutFirst(c.all, pm.subscription);
    RemoveSubscriptionIndexes(c1, pm.subscription);
    RemoveSubscriptionReplays(c1, pm.subscription);
    SameIndexKeeps(RemoveSubscription(c1, pm.subscription), RemoveProxy(c, i, k));
    RemoveProxyOwns(c, i, k);
  }

  lemma RemoveProxyInv(c: ControllerState, i: nat, k: nat)
    requires Inv(c) && i < |c.nodes| && k < |c.nodes[i].monitors|
    ensures Inv(RemoveProxy(c, i, k))
  {
    RemoveProxySubscribed(c, i, k);
    RemoveProxyConserves(c, i, k);
    RemoveProxyTold(c, i, k);
  }

  lemma ProxyRemovedInv(c: ControllerState, i: nat, target: CString, unit: CString)
    requires Inv(c) && i < |c.nodes|
    ensures Inv(ProxyRemoved(c, i, target, unit))
    ensures forall x :: x in ProxyRemoved(c, i, target, unit).all ==> x in c.all
  {
    var k := FindProxy(c.nodes[i].monitors, target, unit);
    if k < |c.nodes[i].monitors| {
      RemoveProxyInv(c, i, k);
      WithoutFirst(c.all, c.nodes[i].monitors[k].subscription);
    }
  }

  lemma AppendMonitorOwns(c: ControllerState, cNext: ControllerState, i: nat, pm: ProxyMonitor)
    requires OwnsSubscriptions(c) && i < |c.nodes| == |cNext.nodes|
    requires pm.subscription !in c.all && pm.subscription.node == pm.target && pm.subscription.units == [pm.unit]
    requires cNext.all == c.all + [pm.subscription]
    requires cNext.nodes[i].monitors == c.nodes[i].monitors + [pm]
    requires forall j :: 0 <= j < |c.nodes| && j != i ==> cNext.nodes[j].monitors == c.nodes[j].monitors
    ensures OwnsSubscriptions(cNext)
  {
    forall j, l | 0 <= j < |cNext.nodes| && 0 <= l < |cNext.nodes[j].monitors|
      ensures cNext.nodes[j].monitors[l] == if j == i && l == |c.nodes[i].monitors| then pm else c.nodes[j].monitors[l]
    {
    }
  }

  /** What a new proxy does once nothing it duplicates is left. */
  function Installed(c: ControllerState, i: nat, t: nat, s: Subscription, unit: CString): (cNext: ControllerState)
    requires i < |c.nodes| && t < |c.nodes|
    ensures |cNext.nodes| == |c.nodes|
  {
    var c2 := c.(nodes := c.nodes[t := AddDep(c.nodes[t], unit)]);
    var c3 := AddSubscription(c2, s);
    c3.(nodes := c3.nodes[i := c3.nodes[i].(monitors := c3.nodes[i].monitors + [ProxyMonitor(s.node, unit, s)])])
  }

  lemma InstalledSubscribed(c: ControllerState, i: nat, t: nat, s: Subscription, unit: CString)
    requires Subscribed(c) && i < |c.nodes| && t < |c.nodes| && Fresh(c, s) && s.units == [unit]
    ensures Subscribed(Installed(c, i, t, s, unit))
  {
    var c2 := c.(nodes := c.nodes[t := AddDep(c.nodes[t], unit)]);
    SameIndexKeeps(c, c2);
    AddSubscriptionIndexes(c2, s);
    AddSubscriptionReplays(c2, s);
    AddSubscriptionSame(c2, s);
    SameIndexKeeps(AddSubscription(c2, s), Installed(c, i, t, s, unit));
    InstalledOwns(c, i, t, s, unit);
  }

  lemma InstalledOwns(c: ControllerState, i: nat, t: nat, s: Subscription, unit: CString)
    requires OwnsSubscriptions(c) && i < |c.nodes| && t < |c.nodes| && Fresh(c, s) && s.units == [unit]
    ensures OwnsSubscriptions(Installed(c, i, t, s, unit))
  {
    var c2 := c.(nodes := c.nodes[t := AddDep(c.nodes[t], unit)]);
    AddSubscriptionSame(c2, s);
    assert forall j :: 0 <= j < |c.nodes| ==> c2.nodes[j].monitors == c.nodes[j].monitors;
    AppendMonitorOwns(c, Installed(c, i, t, s, unit), i, ProxyMonitor(s.node, unit, s));
  }

  lemma ProxyNewSubscribed(c: ControllerState, i: nat, s: Subscription, unit: CString)
    requires Inv(c) && i < |c.nodes| && Fresh(c, s) && s.units == [unit]
    ensures Subscribed(ProxyNew(c, i, s, unit))
  {
    var t := FindNode(c.nodes, s.node);
    if t < |c.nodes| && s.node in c.nodes[i].allowed {
      ProxyRemovedInv(c, i, s.node, unit);
      var c1 := ProxyRemoved(c, i, s.node, unit);
      forall j | 0 <= j < |c1.all| ensures c1.all[j].ref != s.ref {
        assert c1.all[j] in c.all;
      }
      InstalledSubscribed(c1, i, t, s, unit);
    }
  }

  lemma {:induction false} RemoveAllProxiesInv(c: ControllerState, i: nat)
    requires Inv(c) && i < |c.nodes|
    ensures Inv(RemoveAllProxies(c, i))
    decreases |c.nodes[i].monitors|
  {
    if c.nodes[i].monitors != [] {
      RemoveProxyInv(c, i, 0);
      RemoveAllProxiesInv(RemoveProxy(c, i, 0), i);
    }
  }

  // ---------------------------------------------------------------- node-local steps

  /** One node changed its cache, its log or its connection, but none of the tables that
      other nodes refer to. */
  lemma LocalStepInv(c: ControllerState, i: nat, n: NodeState)
    requires Inv(c) && i < |c.nodes|
    requires n.name == c.nodes[i].name && n.monitors == c.nodes[i].monitors && n.deps == c.nodes[i].deps
    requires forall u :: Subs(n.index, u) == Subs(c.nodes[i].index, u)
    requires n.index.Keys == c.nodes[i].index.Keys
    requires Replays(n) && Told(n)
    ensures Inv(c.(nodes := c.nodes[i := n]))
  {
    var cNext := c.(nodes := c.nodes[i := n]);
    SameConserved(c.nodes, cNext.nodes);
    assert forall j :: 0 <= j < |cNext.nodes| ==> cNext.nodes[j].monitors == c.nodes[j].monitors;
    forall j | 0 <= j < |cNext.nodes| ensures NodeIndexed(cNext.all, cNext.nodes[j]) {
      assert NodeIndexed(c.all, c.nodes[j]);
      if j == i {
        assert forall u :: u in n.index ==> n.index[u].subs == Subs(n.index, u);
      }
    }
  }

  lemma AgentReportsInv(c: ControllerState, i: nat, n: NodeState, ev: Event)
    requires Inv(c) && i < |c.nodes| && AgentEvent(c.nodes[i], n, ev)
    ensures Inv(c.(nodes := c.nodes[i := n]))
  {
    AgentEventReplays(c.nodes[i], n, ev);
    assert n.index.Keys == c.nodes[i].index.Keys;
    LocalStepInv(c, i, n);
  }

  lemma AgentConnectsInv(c: ControllerState, i: nat, n: NodeState)
    requires Inv(c) && i < |c.nodes| && Connected(c.nodes[i], n)
    ensures Inv(c.(nodes := c.nodes[i := n]))
  {
    ConnectedTold(c.nodes[i], n);
    assert Replays(c.nodes[i]);
    LocalStepInv(c, i, n);
  }

  lemma AnnouncedInv(c: ControllerState, i: nat, steps: seq<NodeState>, order: seq<CString>)
    requires Inv(c) && i < |c.nodes|
    requires IsOrderOf(order, c.nodes[i].index.Keys) && Announced(steps, order) && steps[0] == c.nodes[i]
    ensures Inv(c.(nodes := c.nodes[i := steps[|order|]]))
  {
    assert Replays(c.nodes[i]);
    AnnouncedReplays(steps, order);
    LocalStepInv(c, i, steps[|order|]);
  }

  lemma AgentLostInv(c: ControllerState, cNext: ControllerState, i: nat)
    requires Inv(c) && Disconnected(c, cNext, i)
    ensures Inv(cNext)
    ensures cNext.nodes[i].monitors == []
  {
    var order: seq<CString>, steps: seq<NodeState> :|
      && IsOrderOf(order, c.nodes[i].index.Keys)
      && Announced(steps, order)
      && steps[0] == c.nodes[i]
      && var cleared := RemoveAllProxies(c.(nodes := c.nodes[i := steps[|order|]]), i);
      cNext == cleared.(nodes := cleared.nodes[i := cleared.nodes[i].(online := false)]);
    var c1 := c.(nodes := c.nodes[i := steps[|order|]]);
    AnnouncedInv(c, i, steps, order);
    RemoveAllProxiesInv(c1, i);
    RemoveAllProxiesConserves(c1, i);
    var cleared := RemoveAllProxies(c1, i);
    assert Replays(cleared.nodes[i]);
    LocalStepInv(cleared, i, cleared.nodes[i].(online := false));
  }

  // ---------------------------------------------------------------- the theorems

  /** Every step keeps every table right. */
  lemma NextInv(c: ControllerState, step: Step, cNext: ControllerState)
    requires Inv(c) && Next(c, step, cNext)
    ensures Inv(cNext)
  {
    match step
    case MonitorSubscribes(s) =>
      AddSubscriptionSubscribed(c, s);
      AddSubscriptionSame(c, s);
      SameConserved(c.nodes, cNext.nodes);
      AddSubscriptionTold(c, s);
    case MonitorUnsubscribes(s) =>
      RemoveSubscriptionSubscribed(c, s);
      RemoveSubscriptionSame(c, s);
      SameConserved(c.nodes, cNext.nodes);
      RemoveSubscriptionTold(c, s);
    case AgentReports(i, ev) => AgentReportsInv(c, i, cNext.nodes[i], ev);
    case ProxyAnnounced(i, s, unit) =>
      ProxyNewSubscribed(c, i, s, unit);
      ProxyNewConserves(c, i, s, unit);
      ProxyNewTold(c, i, s, unit);
    case ProxyWithdrawn(i, target, unit) => ProxyRemovedInv(c, i, target, unit);
    case AgentConnects(i) => AgentConnectsInv(c, i, cNext.nodes[i]);
    case AgentLost(i) => AgentLostInv(c, cNext, i);
  }

  lemma InitialInv(c: ControllerState)
    requires Initial(c)
    ensures Inv(c)
  {
    forall t, u | 0 <= t < |c.nodes|
      ensures DepCount(c.nodes[t].deps, u) == Holders(c.nodes, c.nodes[t].name, u)
    {
      NobodyHolds(c.nodes, c.nodes[t].name, u);
    }
  }

  lemma {:induction false} NobodyHolds(nodes: seq<NodeState>, target: CString, u: CString)
    requires forall i :: 0 <= i < |nodes| ==> nodes[i].monitors == []
    ensures Holders(nodes, target, u) == 0
  {
    if nodes != [] {
      NobodyHolds(nodes[..|nodes| - 1], target, u);
    }
  }

  /** A run: |states| == |steps| + 1 states, each the result of a step on the one before. */
  ghost predicate Run(states: seq<ControllerState>, steps: seq<Step>) {
    && |states| == |steps| + 1
    && Initial(states[0])
    && forall k :: 0 <= k < |steps| ==> Next(states[k], steps[k], states[k + 1])
  }

  /** Safety: the invariant holds in every state of every run. */
  lemma {:induction false} RunSafe(states: seq<ControllerState>, steps: seq<Step>, k: nat)
    requires Run(states, steps) && k < |states|
    ensures Inv(states[k])
  {
    if k == 0 {
      InitialInv(states[0]);
    } else {
      RunSafe(states, steps, k - 1);
      NextInv(states[k - 1], steps[k - 1], states[k]);
    }
  }

  /** What the invariant says about one unit of one node, in any reachable state: its list of
      subscriptions is what the flat list says, its dependency counter is the number of proxy
      monitors anywhere, and the agent on the current connection was told exactly this. */
  lemma RunTablesAgree(states: seq<ControllerState>, steps: seq<Step>, k: nat, i: nat, u: CString, s: Subscription)
    requires Run(states, steps) && k < |states| && i < |states[k].nodes|
    ensures var c, n := states[k], states[k].nodes[i];
            && multiset(Subs(n.index, u))[s] == (if s in c.all && Matches(s, n.name) then Count(s.units, u) else 0)
            && (u in n.index <==> exists t :: t in c.all && Matches(t, n.name) && u in t.units)
            && DepCount(n.deps, u) == Holders(c.nodes, n.name, u)
            && (n.online ==> (u in Wanted(n.sent, {}) <==> u in n.index))
            && (n.online ==> (u in Started(n.sent, {}) <==> Holders(c.nodes, n.name, u) > 0))
  {
    RunSafe(states, steps, k);
    var c, n := states[k], states[k].nodes[i];
    RefsAreDistinct(c.all);
    IndexHolds(c, i, u, s);
    assert Told(n);
    DependedOnCounts(n.deps, u);
  }

  lemma DependedOnCounts(deps: seq<Dependency>, u: CString)
    requires DepsWellFormed(deps)
    ensures u in DependedOn(deps) <==> DepCount(deps, u) > 0
  {
    var i := FindDep(deps, u);
    if u in DependedOn(deps) {
      var d :| d in deps && d.unit == u;
      var j :| 0 <= j < |deps| && deps[j] == d;
      assert i < |deps|;
    }
  }

  /** In any reachable state a monitor that replays what it was handed since it joined a unit
      knows whether the unit is loaded, and the last state it heard, if any, is the current one. */
  lemma RunReplaysAgree(states: seq<ControllerState>, steps: seq<Step>, k: nat, i: nat, u: CString, m: nat)
    requires Run(states, steps) && k < |states| && i < |states[k].nodes|
    requires u in states[k].nodes[i].index && m in Monitors(states[k].nodes[i].index[u].subs)
    ensures var n := states[k].nodes[i];
            var v := Replay(n.observed, m, u);
            && v.loaded == n.index[u].loaded
            && (u != WILDCARD && v.last.Some? ==>
                  v.last.value.0 == n.index[u].state && Some(v.last.value.1) == n.index[u].substate)
  {
    RunSafe(states, steps, k);
    assert Replays(states[k].nodes[i]);
  }

  /** When an agent is lost, nobody is left believing that one of its units is loaded, none of
      its proxy monitors is left, and every dependency counter anywhere dropped by exactly the
      monitors it held. */
  lemma LostAgentLeavesNothing(c: ControllerState, cNext: ControllerState, i: nat, u: CString, m: nat, t: nat, v: CString)
    requires Inv(c) && Disconnected(c, cNext, i) && t < |c.nodes|
    ensures u in cNext.nodes[i].index && m in Monitors(cNext.nodes[i].index[u].subs) ==>
              !Replay(cNext.nodes[i].observed, m, u).loaded
    ensures cNext.nodes[i].monitors == [] && !cNext.nodes[i].online
    ensures |cNext.nodes| == |c.nodes|
    ensures DepCount(cNext.nodes[t].deps, v)
              == DepCount(c.nodes[t].deps, v) - HoldersIn(c.nodes[i].monitors, c.nodes[t].name, v)
  {
    AgentLostInv(c, cNext, i);
    LostIndexUnloaded(c, cNext, i);
    LostKeepsOthers(c, cNext, i);
    assert Replays(cNext.nodes[i]);
    HoldersUpdate(c.nodes, i, cNext.nodes[i], c.nodes[t].name, v);
    HoldersSame(cNext.nodes, c.nodes[i := cNext.nodes[i]], c.nodes[t].name, v);
  }

  // ---------------------------------------------------------------- the other nodes

  /** The list without the elements of the set. */
  function Without(l: seq<Subscription>, gone: set<Subscription>): seq<Subscription> {
    if l == [] then []
    else Without(l[..|l| - 1], gone) + if l[|l| - 1] in gone then [] else [l[|l| - 1]]
  }

  lemma {:induction false} WithoutConcat(a: seq<Subscription>, b: seq<Subscription>, gone: set<Subscription>)
    ensures Without(a + b, gone) == Without(a, gone) + Without(b, gone)
  {
    if b == [] {
      assert a + b == a;
    } else {
      WithoutConcat(a, b[..|b| - 1], gone);
      assert (a + b)[..|a + b| - 1] == a + b[..|b| - 1];
    }
  }

  lemma {:induction false} WithoutAbsent(l: seq<Subscription>, gone: set<Subscription>)
    requires forall x :: x in l ==> x !in gone
    ensures Without(l, gone) == l
  {
    if l != [] {
      WithoutAbsent(l[..|l| - 1], gone);
      assert l == l[..|l| - 1] + [l[|l| - 1]];
    }
  }

  lemma WithoutMore(l: seq<Subscription>, x: Subscription, gone: set<Subscription>)
    ensures Without(l + [x], gone) == Without(l, gone) + if x in gone then [] else [x]
  {
    assert (l + [x])[..|l + [x]| - 1] == l;
  }

  lemma {:induction false} WithoutTwice(l: seq<Subscription>, gone: set<Subscription>, more: set<Subscription>)
    ensures Without(Without(l, gone), more) == Without(l, gone + more)
  {
    if l != [] {
      var init, x := l[..|l| - 1], l[|l| - 1];
      WithoutTwice(init, gone, more);
      WithoutMore(Without(init, gone), x, more);
      assert Without(l, gone) == Without(init, gone) + if x in gone then [] else [x];
      assert Without(init, gone) + [] == Without(init, gone);
    }
  }

  lemma {:induction false} WithoutRepeat(s: Subscription, k: nat, gone: set<Subscription>)
    ensures Without(Repeat(s, k), gone) == if s in gone then [] else Repeat(s, k)
  {
    if k > 0 {
      WithoutRepeat(s, k - 1, gone);
      assert Repeat(s, k)[..k - 1] == Repeat(s, k - 1);
      assert Repeat(s, k) == Repeat(s, k - 1) + [s];
    }
  }

  /** Filtering the flat list filters every list of the index. */
  lemma {:induction false} ExpectedOfWithout(all: seq<Subscription>, gone: set<Subscription>, name: CString, u: CString)
    ensures Expected(Without(all, gone), name, u) == Without(Expected(all, name, u), gone)
  {
    if all != [] {
      var init, s := all[..|all| - 1], all[|all| - 1];
      var block := if Matches(s, name) then Repeat(s, Count(s.units, u)) else [];
      ExpectedOfWithout(init, gone, name, u);
      WithoutConcat(Expected(init, name, u), block, gone);
      WithoutRepeat(s, Count(s.units, u), gone);
      var kept := Without(init, gone);
      if s in gone {
        assert Without(all, gone) == kept && Without(block, gone) == [];
      } else {
        assert Without(all, gone) == kept + [s] && (kept + [s])[..|kept + [s]| - 1] == kept;
      }
    }
  }

  lemma RemoveFirstIsWithout(all: seq<Subscription>, s: Subscription)
    requires NoDuplicates(all)
    ensures RemoveFirst(all, s) == Without(all, {s})
  {
    var i := Find(all, s);
    if i == |all| {
      assert s !in all;
      WithoutAbsent(all, {s});
    } else {
      var a, b := all[..i], all[i + 1..];
      assert all == a + [s] + b;
      FoundOnce(all, s);
      WithoutMiddle(a, s, b);
    }
  }

  lemma WithoutOthers(l: seq<Subscription>, s: Subscription)
    requires s !in l
    ensures Without(l, {s}) == l
  {
    WithoutAbsent(l, {s});
  }

  lemma WithoutMiddle(a: seq<Subscription>, s: Subscription, b: seq<Subscription>)
    requires s !in a && s !in b
    ensures Without(a + [s] + b, {s}) == a + b
  {
    var front := a + [s];
    WithoutConcat(front, b, {s});
    WithoutMore(a, s, {s});
    WithoutOthers(a, s);
    WithoutOthers(b, s);
    assert Without(front, {s}) == a;
  }

  lemma FoundOnce(all: seq<Subscription>, s: Subscription)
    requires NoDuplicates(all) && Find(all, s) < |all|
    ensures s !in all[..Find(all, s)] && s !in all[Find(all, s) + 1..]
  {
  }

  function Owned(monitors: seq<ProxyMonitor>): set<Subscription> {
    set pm | pm in monitors :: pm.subscription
  }

  lemma FirstProxyDrops(c: ControllerState, i: nat)
    requires UniqueRefs(c.all) && OwnsSubscriptions(c) && i < |c.nodes| && c.nodes[i].monitors != []
    ensures var s, cNext := c.nodes[i].monitors[0].subscription, RemoveProxy(c, i, 0);
      && UniqueRefs(cNext.all) && OwnsSubscriptions(cNext)
      && cNext.all == Without(c.all, {s})
      && cNext.nodes[i].monitors == c.nodes[i].monitors[1..]
  {
    var s := c.nodes[i].monitors[0].subscription;
    RefsAreDistinct(c.all);
    RemoveFirstIsWithout(c.all, s);
    WithoutFirst(c.all, s);
    RemoveProxyOwns(c, i, 0);
  }

  lemma OwnedFirst(ms: seq<ProxyMonitor>)
    requires ms != []
    ensures Owned(ms) == {ms[0].subscription} + Owned(ms[1..])
  {
    assert ms == [ms[0]] + ms[1..];
  }

  lemma {:induction false} RemoveAllDrops(c: ControllerState, i: nat)
    requires UniqueRefs(c.all) && OwnsSubscriptions(c) && i < |c.nodes|
    ensures RemoveAllProxies(c, i).all == Without(c.all, Owned(c.nodes[i].monitors))
    decreases |c.nodes[i].monitors|
  {
    var ms := c.nodes[i].monitors;
    if ms == [] {
      assert Owned(ms) == {};
      WithoutAbsent(c.all, {});
    } else {
      FirstProxyDrops(c, i);
      RemoveAllDrops(RemoveProxy(c, i, 0), i);
      OwnedFirst(ms);
      WithoutTwice(c.all, {ms[0].subscription}, Owned(ms[1..]));
    }
  }

  /** Entries only lose subscriptions. */
  ghost predicate EntriesKept(ix: UnitIndex, ixNext: UnitIndex) {
    forall u :: u in ixNext ==> u in ix && ixNext[u] == ix[u].(subs := ixNext[u].subs)
  }

  /** Nothing but index, messages and dependencies changes, and in the index only lists. */
  ghost predicate OnlyTables(n: NodeState, nNext: NodeState) {
    && nNext == n.(index := nNext.index, sent := nNext.sent, deps := nNext.deps)
    && EntriesKept(n.index, nNext.index)
  }

  /** Names stay, and what the other nodes have cached, told and listed as proxy monitors. */
  ghost predicate KeepsOthers(a: seq<NodeState>, b: seq<NodeState>, i: nat) {
    && |a| == |b|
    && forall j :: 0 <= j < |a| ==> a[j].name == b[j].name && (j != i ==> OnlyTables(a[j], b[j]))
  }

  lemma {:induction false} UnsubscribeOnlyTables(n: NodeState, s: Subscription, units: seq<CString>)
    ensures OnlyTables(n, UnsubscribeUnits(n, s, units))
  {
    if units != [] {
      UnsubscribeOnlyTables(n, s, units[..|units| - 1]);
    }
  }

  lemma KeepsOthersTrans(a: seq<NodeState>, b: seq<NodeState>, c: seq<NodeState>, i: nat)
    requires KeepsOthers(a, b, i) && KeepsOthers(b, c, i)
    ensures KeepsOthers(a, c, i)
  {
    forall j | 0 <= j < |a| && j != i ensures OnlyTables(a[j], c[j]) {
      assert OnlyTables(a[j], b[j]) && OnlyTables(b[j], c[j]);
    }
  }

  lemma RemoveSubscriptionKeepsOthers(c: ControllerState, s: Subscription, i: nat)
    ensures KeepsOthers(c.nodes, RemoveSubscription(c, s).nodes, i)
  {
    forall j | 0 <= j < |c.nodes| {
      UnsubscribeOnlyTables(c.nodes[j], s, s.units);
    }
  }

  lemma RemoveProxyKeepsOthers(c: ControllerState, i: nat, k: nat)
    requires i < |c.nodes| && k < |c.nodes[i].monitors|
    ensures KeepsOthers(c.nodes, RemoveProxy(c, i, k).nodes, i)
  {
    var pm := c.nodes[i].monitors[k];
    var c1 := DropDep(c, pm.target, pm.unit);
    var c2 := RemoveSubscription(c1, pm.subscription);
    assert KeepsOthers(c.nodes, c1.nodes, i);
    RemoveSubscriptionKeepsOthers(c1, pm.subscription, i);
    KeepsOthersTrans(c.nodes, c1.nodes, c2.nodes, i);
    assert KeepsOthers(c2.nodes, RemoveProxy(c, i, k).nodes, i);
    KeepsOthersTrans(c.nodes, c2.nodes, RemoveProxy(c, i, k).nodes, i);
  }

  lemma {:induction false} RemoveAllKeepsOthers(c: ControllerState, i: nat)
    requires i < |c.nodes|
    ensures KeepsOthers(c.nodes, RemoveAllProxies(c, i).nodes, i)
    decreases |c.nodes[i].monitors|
  {
    if c.nodes[i].monitors != [] {
      RemoveProxyKeepsOthers(c, i, 0);
      RemoveAllKeepsOthers(RemoveProxy(c, i, 0), i);
      KeepsOthersTrans(c.nodes, RemoveProxy(c, i, 0).nodes, RemoveAllProxies(c, i).nodes, i);
    }
  }

  /** The index of a node lost exactly the given subscriptions: an entry exists for as long as
      somebody is left on its list, and is cached as it was. */
  ghost predicate OnlyDropped(n: NodeState, nNext: NodeState, gone: set<Subscription>) {
    && OnlyTables(n, nNext)
    && forall u ::
         && Subs(nNext.index, u) == Without(Subs(n.index, u), gone)
         && (u in nNext.index <==> Without(Subs(n.index, u), gone) != [])
  }

  lemma DroppedFromIndex(c: ControllerState, cNext: ControllerState, j: nat, gone: set<Subscription>)
    requires Indexed(c) && Indexed(cNext) && j < |c.nodes| == |cNext.nodes|
    requires cNext.all == Without(c.all, gone) && OnlyTables(c.nodes[j], cNext.nodes[j])
    ensures OnlyDropped(c.nodes[j], cNext.nodes[j], gone)
  {
    assert NodeIndexed(c.all, c.nodes[j]) && NodeIndexed(cNext.all, cNext.nodes[j]);
    forall u ensures Subs(cNext.nodes[j].index, u) == Without(Subs(c.nodes[j].index, u), gone) {
      ExpectedOfWithout(c.all, gone, c.nodes[j].name, u);
    }
  }

  /** A lost agent takes the subscriptions of its proxies with it, from the flat list and from
      every index, and the other nodes keep everything else: what is cached, what monitors
      were told, their own proxy monitors and their connections. */
  lemma LostKeepsOthers(c: ControllerState, cNext: ControllerState, i: nat)
    requires Inv(c) && Disconnected(c, cNext, i)
    ensures KeepsOthers(c.nodes, cNext.nodes, i)
    ensures cNext.all == Without(c.all, Owned(c.nodes[i].monitors))
    ensures forall j :: 0 <= j < |c.nodes| && j != i ==>
              OnlyDropped(c.nodes[j], cNext.nodes[j], Owned(c.nodes[i].monitors))
  {
    var order: seq<CString>, steps: seq<NodeState> :|
      && IsOrderOf(order, c.nodes[i].index.Keys)
      && Announced(steps, order)
      && steps[0] == c.nodes[i]
      && var cleared := RemoveAllProxies(c.(nodes := c.nodes[i := steps[|order|]]), i);
      cNext == cleared.(nodes := cleared.nodes[i := cleared.nodes[i].(online := false)]);
    var c1 := c.(nodes := c.nodes[i := steps[|order|]]);
    assert Replays(c.nodes[i]);
    AnnouncedReplays(steps, order);
    AnnouncedInv(c, i, steps, order);
    RemoveAllKeepsOthers(c1, i);
    RemoveAllDrops(c1, i);
    AgentLostInv(c, cNext, i);
    forall j | 0 <= j < |c.nodes| && j != i
      ensures OnlyDropped(c.nodes[j], cNext.nodes[j], Owned(c.nodes[i].monitors))
    {
      DroppedFromIndex(c, cNext, j, Owned(c.nodes[i].monitors));
    }
  }

  lemma LostIndexUnloaded(c: ControllerState, cNext: ControllerState, i: nat)
    requires Inv(c) && Disconnected(c, cNext, i)
    ensures forall u :: u in cNext.nodes[i].index ==> !cNext.nodes[i].index[u].loaded
  {
    var order: seq<CString>, steps: seq<NodeState> :|
      && IsOrderOf(order, c.nodes[i].index.Keys)
      && Announced(steps, order)
      && steps[0] == c.nodes[i]
      && var cleared := RemoveAllProxies(c.(nodes := c.nodes[i := steps[|order|]]), i);
      cNext == cleared.(nodes := cleared.nodes[i := cleared.nodes[i].(online := false)]);
    assert Replays(c.nodes[i]);
    AnnouncedReplays(steps, order);
    assert forall u :: u in steps[|order|].index ==> u in order;
    RemoveAllKeepsUnloaded(c.(nodes := c.nodes[i := steps[|order|]]), i, i);
  }

  ghost predicate Unloaded(n: NodeState) {
    forall u :: u in n.index ==> !n.index[u].loaded
  }

  lemma {:induction false} UnsubscribeKeepsUnloaded(n: NodeState, s: Subscription, units: seq<CString>)
    requires Unloaded(n)
    ensures Unloaded(UnsubscribeUnits(n, s, units))
  {
    if units != [] {
      UnsubscribeKeepsUnloaded(n, s, units[..|units| - 1]);
    }
  }

  lemma {:induction false} RemoveAllKeepsUnloaded(c: ControllerState, i: nat, j: nat)
    requires i < |c.nodes| && j < |c.nodes| && Unloaded(c.nodes[j])
    ensures Unloaded(RemoveAllProxies(c, i).nodes[j])
    decreases |c.nodes[i].monitors|
  {
    if c.nodes[i].monitors != [] {
      var pm := c.nodes[i].monitors[0];
      var dropped := DropDep(c, pm.target, pm.unit);
      UnsubscribeKeepsUnloaded(dropped.nodes[j], pm.subscription, pm.subscription.units);
      RemoveAllKeepsUnloaded(RemoveProxy(c, i, 0), i, j);
    }
  }
}
