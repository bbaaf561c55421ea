/** A managed node of the controller, updated in place.  Every method is proved against the
    function or relation of the same step in ControllerState. */
module Nodes {
  import opened CStrings
  import opened ControllerState
  import opened Sequences

  lemma ExtendOrder(order: seq<CString>, units: set<CString>, u: CString)
    requires IsOrderOf(order, units) && u !in units
    ensures IsOrderOf(order + [u], units + {u})
  {
    forall i | 0 <= i < |order| ensures order[i] != u {
      assert order[i] in units;
    }
    assert (set v | v in order + [u]) == (set v | v in order) + {u};
  }

  lemma AnnouncedUnitKeys(n: NodeState, nNext: NodeState, u: CString)
    requires AnnouncedUnit(n, nNext, u)
    ensures nNext.index.Keys == n.index.Keys
  {
  }

  lemma ExtendAnnounced(steps: seq<NodeState>, order: seq<CString>, n: NodeState, u: CString)
    requires Announced(steps, order) && AnnouncedUnit(steps[|order|], n, u)
    ensures Announced(steps + [n], order + [u])
  {
    var stepsNext, orderNext := steps + [n], order + [u];
    forall k | 0 <= k < |orderNext| ensures AnnouncedUnit(stepsNext[k], stepsNext[k + 1], orderNext[k]) {
      if k < |order| {
        assert AnnouncedUnit(steps[k], steps[k + 1], order[k]);
      }
    }
  }

  class Node {
    const name: CString
    /** The hash the de-duplication of subscribers uses on subscription addresses. */
    const hash: nat -> nat
    var allowedProxyTargets: seq<CString>
    var hasAgent: bool
    var unitSubscriptions: UnitIndex
    var observed: seq<Observation>
    var sent: seq<AgentMessage>
    var proxyMonitors: seq<ProxyMonitor>
    var proxyDependencies: seq<Dependency>

    function State(): NodeState
      reads this
    {
      NodeState(name, allowedProxyTargets, hasAgent, unitSubscriptions, observed, sent, proxyMonitors, proxyDependencies)
    }

    constructor (name: CString, allowed: seq<CString>, hash: nat -> nat)
      ensures State() == NodeState(name, allowed, false, map[], [], [], [], [])
    {
      this.name, this.hash, allowedProxyTargets := name, hash, allowed;
      hasAgent, unitSubscriptions := false, map[];
      observed, sent, proxyMonitors, proxyDependencies := [], [], [], [];
    }

    method SendMessage(m: AgentMessage)
      modifies this`sent
      ensures State() == Send(old(State()), m)
    {
      if !hasAgent {
        return;
      }
      sent := sent + [m];
    }

    // -------------------------------------------------------------- subscriptions

    method SubscribeToUnit(s: Subscription, u: CString)
      modifies this`unitSubscriptions, this`observed, this`sent
      ensures State() == SubscribeUnit(old(State()), s, u)
    {
      if u !in unitSubscriptions {
        unitSubscriptions := unitSubscriptions[u := NO_ENTRY];
        SendMessage(AgentMessage.Subscribe(u));
      }
      var e := unitSubscriptions[u];
      if s.monitor !in Monitors(e.subs) {
        observed := observed + [Joined(s.monitor, u)];
      }
      ghost var joined := observed;
      unitSubscriptions := unitSubscriptions[u := e.(subs := e.subs + [s])];
      if e.loaded {
        observed := observed + [Delivered(s.monitor, UnitNew(u, Virtual))];
        if e.state != Invalid {
          var sub := if e.substate.Some? then e.substate.value else Ascii("invalid");
          observed := observed + [Delivered(s.monitor, UnitStateChanged(u, e.state, sub, Virtual))];
        }
      }
      assert unitSubscriptions == old(unitSubscriptions)[u := e.(subs := e.subs + [s])];
      assert observed == joined + CatchUp(e, s.monitor, u);
    }

    method Subscribe(s: Subscription)
      modifies this`unitSubscriptions, this`observed, this`sent
      ensures State() == SubscribeUnits(old(State()), s, s.units)
    {
      for i := 0 to |s.units|
        invariant State() == SubscribeUnits(old(State()), s, s.units[..i])
      {
        SubscribeToUnit(s, s.units[i]);
        assert s.units[..i + 1][..i] == s.units[..i];
      }
      assert s.units[..|s.units|] == s.units;
    }

    method UnsubscribeFromUnit(s: Subscription, u: CString)
      modifies this`unitSubscriptions, this`sent
      ensures State() == UnsubscribeUnit(old(State()), s, u)
    {
      if u !in unitSubscriptions {
        return;
      }
      var subs := unitSubscriptions[u].subs;
      var i := 0;
      while i < |subs| && subs[i] != s
        invariant 0 <= i <= |subs|
        invariant forall j :: 0 <= j < i ==> subs[j] != s
      {
        i := i + 1;
      }
      if i == |subs| {
        return;
      }
      assert Find(subs, s) == i;
      var rest := subs[..i] + subs[i + 1..];
      if rest == [] {
        SendMessage(AgentMessage.Unsubscribe(u));
        unitSubscriptions := unitSubscriptions - {u};
      } else {
        unitSubscriptions := unitSubscriptions[u := unitSubscriptions[u].(subs := rest)];
      }
    }

    method Unsubscribe(s: Subscription)
      modifies this`unitSubscriptions, this`sent
      ensures State() == UnsubscribeUnits(old(State()), s, s.units)
    {
      for i := 0 to |s.units|
        invariant State() == UnsubscribeUnits(old(State()), s, s.units[..i])
      {
        UnsubscribeFromUnit(s, s.units[i]);
        assert s.units[..i + 1][..i] == s.units[..i];
      }
      assert s.units[..|s.units|] == s.units;
    }

    // -------------------------------------------------------------- events

    /** The subscribers of a unit and of the wildcard.  The set hashes by subscription but
        compares by monitor, so a monitor can be in it more than once; none is missing. */
    method UniqueSubscriptions(u: CString) returns (unique: map<(nat, nat), Subscription>)
      ensures forall k :: k in unique ==>
                unique[k] in Subs(unitSubscriptions, u) || (u != WILDCARD && unique[k] in Subs(unitSubscriptions, WILDCARD))
      ensures forall k :: k in unique ==> unique[k].monitor in Audience(unitSubscriptions, u)
      ensures forall m :: m in Audience(unitSubscriptions, u) ==> exists k :: k in unique && unique[k].monitor == m
    {
      var direct := if u in unitSubscriptions then unitSubscriptions[u].subs else [];
      var wild := if u != WILDCARD && WILDCARD in unitSubscriptions then unitSubscriptions[WILDCARD].subs else [];
      unique := map[];
      unique := Collect(unique, direct);
      unique := Collect(unique, wild);
      assert Audience(unitSubscriptions, u) == Monitors(direct) + Monitors(wild);
    }

    method Collect(before: map<(nat, nat), Subscription>, subs: seq<Subscription>)
        returns (unique: map<(nat, nat), Subscription>)
      requires forall k :: k in before ==> before[k].monitor == k.1
      ensures forall k :: k in unique ==> unique[k].monitor == k.1
      ensures forall k :: k in before ==> k in unique
      ensures forall k :: k in unique ==> unique[k] in subs || (k in before && unique[k] == before[k])
      ensures forall m :: m in Monitors(subs) ==> exists k :: k in unique && unique[k].monitor == m
    {
      unique := before;
      for i := 0 to |subs|
        invariant forall k :: k in unique ==> unique[k].monitor == k.1
        invariant forall k :: k in before ==> k in unique
        invariant forall k :: k in unique ==> unique[k] in subs || (k in before && unique[k] == before[k])
        invariant forall j :: 0 <= j < i ==> (hash(subs[j].ref), subs[j].monitor) in unique
      {
        unique := unique[(hash(subs[i].ref), subs[i].monitor) := subs[i]];
      }
    }

    /** Hands an event about a unit to everybody who subscribed to it. */
    method Notify(u: CString, e: Event)
      modifies this`observed
      ensures DeliveredTo(old(observed), observed, Audience(unitSubscriptions, u), e)
    {
      var unique := UniqueSubscriptions(u);
      var rest := unique.Keys;
      ghost var told: seq<Observation> := [];
      while rest != {}
        invariant rest <= unique.Keys
        invariant observed == old(observed) + told
        invariant forall i :: 0 <= i < |told| ==>
                    told[i].Delivered? && told[i].event == e && told[i].monitor in Audience(unitSubscriptions, u)
        invariant forall k :: k in unique.Keys - rest ==> Delivered(unique[k].monitor, e) in told
        decreases |rest|
      {
        var k :| k in rest;
        observed := observed + [Delivered(unique[k].monitor, e)];
        told := told + [Delivered(unique[k].monitor, e)];
        rest := rest - {k};
      }
      assert observed[|old(observed)|..] == told;
    }

    method MatchUnitNew(u: CString, reason: Reason)
      modifies this`unitSubscriptions, this`observed
      ensures AgentEvent(old(State()), State(), UnitNew(u, reason))
    {
      if u in unitSubscriptions {
        var e := unitSubscriptions[u].(loaded := true);
        if u == WILDCARD {
          e := e.(state := Active, substate := Some(Ascii("running")));
        }
        unitSubscriptions := unitSubscriptions[u := e];
      }
      Notify(u, UnitNew(u, reason));
      assert Audience(unitSubscriptions, u) == Audience(old(unitSubscriptions), u);
    }

    method MatchUnitStateChanged(u: CString, st: ActiveState, sub: CString, reason: Reason)
      modifies this`unitSubscriptions, this`observed
      ensures AgentEvent(old(State()), State(), UnitStateChanged(u, st, sub, reason))
    {
      if u in unitSubscriptions {
        unitSubscriptions := unitSubscriptions[u := unitSubscriptions[u].(loaded := true, state := st, substate := Some(sub))];
      }
      Notify(u, UnitStateChanged(u, st, sub, reason));
      assert Audience(unitSubscriptions, u) == Audience(old(unitSubscriptions), u);
    }

    method MatchUnitRemoved(u: CString)
      modifies this`unitSubscriptions, this`observed
      ensures AgentEvent(old(State()), State(), UnitRemoved(u, Real))
    {
      if u in unitSubscriptions {
        unitSubscriptions := unitSubscriptions[u := unitSubscriptions[u].(loaded := false)];
      }
      Notify(u, UnitRemoved(u, Real));
      assert Audience(unitSubscriptions, u) == Audience(old(unitSubscriptions), u);
    }

    method AnnounceUnitOffline(u: CString)
      requires u in unitSubscriptions
      modifies this`unitSubscriptions, this`observed
      ensures AnnouncedUnit(old(State()), State(), u)
    {
      var e := unitSubscriptions[u];
      if !e.loaded {
        return;
      }
      ghost var audience := Audience(unitSubscriptions, u);
      var sendStateChange := false;
      if e.state != Invalid && e.state != Inactive {
        e := e.(state := Inactive, substate := Some(Ascii("agent-offline")));
        sendStateChange := true;
      }
      e := e.(loaded := false);
      unitSubscriptions := unitSubscriptions[u := e];
      assert Audience(unitSubscriptions, u) == audience;
      if sendStateChange {
        Notify(u, UnitStateChanged(u, Inactive, Ascii("agent-offline"), Virtual));
      }
      ghost var mid := observed;
      Notify(u, UnitRemoved(u, Virtual));
      assert DeliveredTo(mid, observed, audience, UnitRemoved(u, Virtual));
    }

    /** Tells all monitors that the units of this node are gone; the order is the hash
        table's. */
    method AnnounceOffline() returns (ghost order: seq<CString>, ghost steps: seq<NodeState>)
      modifies this`unitSubscriptions, this`observed
      ensures IsOrderOf(order, old(unitSubscriptions).Keys)
      ensures Announced(steps, order)
      ensures steps[0] == old(State()) && steps[|order|] == State()
    {
      order, steps := [], [State()];
      var rest := unitSubscriptions.Keys;
      ghost var all, done := rest, {};
      while rest != {}
        invariant unitSubscriptions.Keys == all
        invariant done !! rest && done + rest == all
        invariant IsOrderOf(order, done)
        invariant Announced(steps, order)
        invariant steps[0] == old(State()) && steps[|order|] == State()
        decreases |rest|
      {
        var u :| u in rest;
        steps := AnnounceOneMore(u, order, steps);
        ExtendOrder(order, done, u);
        order := order + [u];
        rest, done := rest - {u}, done + {u};
      }
    }

    method AnnounceOneMore(u: CString, ghost order: seq<CString>, ghost steps: seq<NodeState>)
      returns (ghost more: seq<NodeState>)
      requires u in unitSubscriptions && Announced(steps, order) && steps[|order|] == State()
      modifies this`unitSubscriptions, this`observed
      ensures unitSubscriptions.Keys == old(unitSubscriptions.Keys)
      ensures Announced(more, order + [u]) && more == steps + [State()]
    {
      ghost var n := State();
      AnnounceUnitOffline(u);
      AnnouncedUnitKeys(n, State(), u);
      ExtendAnnounced(steps, order, State(), u);
      more := steps + [State()];
    }

    // -------------------------------------------------------------- dependencies

    method FindProxyDependency(u: CString) returns (i: nat)
      ensures i == FindDep(proxyDependencies, u)
    {
      i := 0;
      while i < |proxyDependencies| && proxyDependencies[i].unit != u
        invariant i <= |proxyDependencies|
        invariant forall j :: 0 <= j < i ==> proxyDependencies[j].unit != u
      {
        i := i + 1;
      }
    }

    method AddProxyDependency(u: CString)
      modifies this`proxyDependencies, this`sent
      ensures State() == AddDep(old(State()), u)
    {
      var i := FindProxyDependency(u);
      if i < |proxyDependencies| {
        proxyDependencies := proxyDependencies[i := Dependency(u, proxyDependencies[i].count + 1)];
      } else {
        proxyDependencies := proxyDependencies + [Dependency(u, 1)];
      }
      SendMessage(StartDep(u));
    }

    method RemoveProxyDependency(u: CString) returns (found: bool)
      modifies this`proxyDependencies, this`sent
      ensures State() == RemoveDep(old(State()), u)
      ensures found <==> FindDep(old(proxyDependencies), u) < |old(proxyDependencies)|
    {
      var i := FindProxyDependency(u);
      if i == |proxyDependencies| {
        return false;
      }
      var n := proxyDependencies[i].count - 1;
      if n == 0 {
        SendMessage(StopDep(u));
        proxyDependencies := proxyDependencies[..i] + proxyDependencies[i + 1..];
      } else {
        proxyDependencies := proxyDependencies[i := Dependency(u, n)];
      }
      return true;
    }

    method FindProxyMonitor(target: CString, unit: CString) returns (i: nat)
      ensures i == FindProxy(proxyMonitors, target, unit)
    {
      i := 0;
      while i < |proxyMonitors| && !(proxyMonitors[i].target == target && proxyMonitors[i].unit == unit)
        invariant i <= |proxyMonitors|
        invariant forall j :: 0 <= j < i ==> !(proxyMonitors[j].target == target && proxyMonitors[j].unit == unit)
      {
        i := i + 1;
      }
    }

    // -------------------------------------------------------------- the connection

    method SendAgentSubscribeAll() returns (ghost order: seq<CString>)
      requires hasAgent && sent == []
      modifies this`sent
      ensures IsOrderOf(order, unitSubscriptions.Keys)
      ensures sent == Greeting(order, [])
    {
      order := [];
      var rest := unitSubscriptions.Keys;
      ghost var done := {};
      while rest != {}
        invariant done !! rest && done + rest == unitSubscriptions.Keys
        invariant IsOrderOf(order, done)
        invariant sent == Greeting(order, [])
        decreases |rest|
      {
        var u :| u in rest;
        SendMessage(AgentMessage.Subscribe(u));
        ExtendOrder(order, done, u);
        order := order + [u];
        rest, done := rest - {u}, done + {u};
      }
    }

    method StartProxyDependencyAll(ghost order: seq<CString>)
      requires hasAgent && sent == Greeting(order, [])
      modifies this`sent
      ensures sent == Greeting(order, proxyDependencies)
    {
      for i := 0 to |proxyDependencies|
        invariant sent == Greeting(order, proxyDependencies[..i])
      {
        SendMessage(StartDep(proxyDependencies[i].unit));
      }
      assert proxyDependencies[..|proxyDependencies|] == proxyDependencies;
    }

    /** A named node gets an agent: all subscriptions and dependencies are sent again. */
    method SetAgentBus() returns (ok: bool)
      modifies this`hasAgent, this`sent
      ensures ok <==> !old(hasAgent)
      ensures ok ==> Connected(old(State()), State())
      ensures !ok ==> State() == old(State())
    {
      if hasAgent {
        return false;
      }
      hasAgent, sent := true, [];
      ghost var order := SendAgentSubscribeAll();
      StartProxyDependencyAll(order);
      return true;
    }

    method UnsetAgentBus()
      modifies this`hasAgent
      ensures State() == old(State()).(online := false)
    {
      hasAgent := false;
    }
  }
}
