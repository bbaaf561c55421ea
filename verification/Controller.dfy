/** The controller's side of subscriptions and proxies, updated in place. */
module Controllers {
  import opened CStrings
  import opened Model = ControllerState
  import opened Sequences
  import opened ProxyDependencies
  import opened ControllerRuns
  import opened Nodes

  lemma ProxySubscriptionListed(c: Model.ControllerState, i: nat, k: nat)
    requires Inv(c) && i < |c.nodes| && k < |c.nodes[i].monitors|
    ensures c.nodes[i].monitors[k].subscription in c.all
  {
  }

  class Controller {
    var nodes: seq<Node>
    var allSubscriptions: seq<Subscription>

    /** The nodes are different objects with different names. */
    ghost predicate Valid()
      reads this, nodes
    {
      && (forall i, j :: 0 <= i < j < |nodes| ==> nodes[i] != nodes[j])
      && (forall i, j :: 0 <= i < j < |nodes| ==> nodes[i].name != nodes[j].name)
    }

    ghost function State(): (c: Model.ControllerState)
      reads this, nodes
      ensures |c.nodes| == |nodes|
      ensures forall i :: 0 <= i < |nodes| ==> c.nodes[i] == nodes[i].State()
    {
      Model.ControllerState(seq(|nodes|, i requires 0 <= i < |nodes| reads this, nodes => nodes[i].State()), allSubscriptions)
    }

    constructor (nodes: seq<Node>)
      requires forall i, j :: 0 <= i < j < |nodes| ==> nodes[i] != nodes[j] && nodes[i].name != nodes[j].name
      requires forall i :: 0 <= i < |nodes| ==>
                 !nodes[i].hasAgent && nodes[i].unitSubscriptions == map[]
                 && nodes[i].proxyMonitors == [] && nodes[i].proxyDependencies == []
      ensures Valid() && this.nodes == nodes && Initial(State())
    {
      this.nodes, allSubscriptions := nodes, [];
    }

    method FindNodeByName(name: CString) returns (i: nat)
      ensures i == FindNode(State().nodes, name)
    {
      i := 0;
      while i < |nodes| && nodes[i].name != name
        invariant i <= |nodes|
        invariant forall j :: 0 <= j < i ==> nodes[j].name != name
      {
        i := i + 1;
      }
    }

    method SubscribeEveryNode(s: Subscription)
      requires Valid()
      modifies nodes
      ensures Valid()
      ensures forall j :: 0 <= j < |nodes| ==> nodes[j].State() == SubscribeUnits(old(nodes[j].State()), s, s.units)
    {
      var i := 0;
      while i < |nodes|
        invariant 0 <= i <= |nodes|
        invariant forall j :: 0 <= j < i ==> nodes[j].State() == SubscribeUnits(old(nodes[j].State()), s, s.units)
        invariant forall j :: i <= j < |nodes| ==> nodes[j].State() == old(nodes[j].State())
      {
        nodes[i].Subscribe(s);
        i := i + 1;
      }
    }

    method AddSubscription(s: Subscription)
      requires Valid()
      modifies this`allSubscriptions, nodes
      ensures Valid() && nodes == old(nodes)
      ensures State() == Model.AddSubscription(old(State()), s)
    {
      allSubscriptions := allSubscriptions + [s];
      if s.node == WILDCARD {
        SubscribeEveryNode(s);
      } else {
        var i := FindNodeByName(s.node);
        if i < |nodes| {
          nodes[i].Subscribe(s);
        }
      }
      assert State().nodes == Model.AddSubscription(old(State()), s).nodes;
    }

    method UnsubscribeEveryNode(s: Subscription)
      requires Valid()
      modifies nodes
      ensures Valid()
      ensures forall j :: 0 <= j < |nodes| ==> nodes[j].State() == UnsubscribeUnits(old(nodes[j].State()), s, s.units)
    {
      var i := 0;
      while i < |nodes|
        invariant 0 <= i <= |nodes|
        invariant forall j :: 0 <= j < i ==> nodes[j].State() == UnsubscribeUnits(old(nodes[j].State()), s, s.units)
        invariant forall j :: i <= j < |nodes| ==> nodes[j].State() == old(nodes[j].State())
      {
        nodes[i].Unsubscribe(s);
        i := i + 1;
      }
    }

    method RemoveSubscription(s: Subscription)
      requires Valid() && s in allSubscriptions
      modifies this`allSubscriptions, nodes
      ensures Valid() && nodes == old(nodes)
      ensures State() == Model.RemoveSubscription(old(State()), s)
    {
      if s.node == WILDCARD {
        UnsubscribeEveryNode(s);
      } else {
        var i := FindNodeByName(s.node);
        if i < |nodes| {
          nodes[i].Unsubscribe(s);
        }
      }
      allSubscriptions := RemoveFirst(allSubscriptions, s);
      assert State().nodes == Model.RemoveSubscription(old(State()), s).nodes;
    }

    method DropDependency(target: CString, unit: CString)
      requires Valid()
      modifies nodes
      ensures Valid()
      ensures State() == DropDep(old(State()), target, unit)
    {
      var t := FindNodeByName(target);
      if t < |nodes| {
        var _ := nodes[t].RemoveProxyDependency(unit);
      }
      assert State().nodes == DropDep(old(State()), target, unit).nodes;
    }

    /** node_remove_proxy_monitor: give back the dependency, then the subscription, then the
        place on the list. */
    method RemoveProxyMonitor(i: nat, k: nat)
      requires Valid() && i < |nodes| && k < |nodes[i].proxyMonitors|
      requires nodes[i].proxyMonitors[k].subscription in allSubscriptions
      modifies this`allSubscriptions, nodes
      ensures Valid() && nodes == old(nodes)
      ensures State() == RemoveProxy(old(State()), i, k)
    {
      ghost var c0 := State();
      var pm := nodes[i].proxyMonitors[k];
      DropDependency(pm.target, pm.unit);
      RemoveSubscription(pm.subscription);
      RemoveSubscriptionSame(DropDep(c0, pm.target, pm.unit), pm.subscription);
      assert State().nodes[i].monitors == c0.nodes[i].monitors;
      SetMonitors(i, nodes[i].proxyMonitors[..k] + nodes[i].proxyMonitors[k + 1..]);
    }

    /** Replaces the proxy monitors of one node. */
    method SetMonitors(i: nat, monitors: seq<ProxyMonitor>)
      requires Valid() && i < |nodes|
      modifies nodes
      ensures Valid() && nodes == old(nodes)
      ensures State() == old(State()).(nodes := old(State()).nodes[i := old(State()).nodes[i].(monitors := monitors)])
    {
      ghost var c := State();
      nodes[i].proxyMonitors := monitors;
      assert State().nodes == c.nodes[i := c.nodes[i].(monitors := monitors)];
    }

    method OnMatchProxyRemoved(i: nat, target: CString, unit: CString)
      requires Valid() && Inv(State()) && i < |nodes|
      modifies this`allSubscriptions, nodes
      ensures Valid() && nodes == old(nodes)
      ensures State() == ProxyRemoved(old(State()), i, target, unit)
    {
      var k := nodes[i].FindProxyMonitor(target, unit);
      if k < |nodes[i].proxyMonitors| {
        ProxySubscriptionListed(State(), i, k);
        RemoveProxyMonitor(i, k);
      }
    }

    method InstallProxy(i: nat, t: nat, s: Subscription, unit: CString)
      requires Valid() && i < |nodes| && t < |nodes|
      modifies this`allSubscriptions, nodes
      ensures Valid() && nodes == old(nodes)
      ensures State() == Installed(old(State()), i, t, s, unit)
    {
      ghost var c1 := State();
      nodes[t].AddProxyDependency(unit);
      assert State().nodes == c1.nodes[t := AddDep(c1.nodes[t], unit)];
      AddSubscription(s);
      assert State().nodes[i].monitors == nodes[i].proxyMonitors;
      SetMonitors(i, nodes[i].proxyMonitors + [ProxyMonitor(s.node, unit, s)]);
    }

    /** The agent of node `i` announced a proxy; `s` is the subscription made for it.  The
        result says which error is sent back, if any. */
    method OnMatchProxyNew(i: nat, s: Subscription, unit: CString) returns (error: Option<string>)
      requires Valid() && Inv(State()) && i < |nodes|
      requires Fresh(State(), s) && s.units == [unit]
      modifies this`allSubscriptions, nodes
      ensures Valid() && nodes == old(nodes)
      ensures State() == ProxyNew(old(State()), i, s, unit)
      ensures error == if FindNode(old(State()).nodes, s.node) == |old(nodes)| then Some("No such node")
                       else if s.node !in old(State()).nodes[i].allowed then Some("Proxy on node not allowed")
                       else None
    {
      var t := FindNodeByName(s.node);
      if t == |nodes| {
        return Some("No such node");
      }
      if s.node !in nodes[i].allowedProxyTargets {
        return Some("Proxy on node not allowed");
      }
      OnMatchProxyRemoved(i, s.node, unit);
      InstallProxy(i, t, s, unit);
      return None;
    }

    method RemoveAllProxyMonitors(i: nat)
      requires Valid() && Inv(State()) && i < |nodes|
      modifies this`allSubscriptions, nodes
      ensures Valid() && nodes == old(nodes)
      ensures State() == RemoveAllProxies(old(State()), i)
    {
      while nodes[i].proxyMonitors != []
        invariant Valid() && nodes == old(nodes) && Inv(State())
        invariant RemoveAllProxies(State(), i) == RemoveAllProxies(old(State()), i)
        decreases |nodes[i].proxyMonitors|
      {
        ghost var c := State();
        ProxySubscriptionListed(c, i, 0);
        RemoveProxyMonitor(i, 0);
        RemoveProxyInv(c, i, 0);
        RemoveProxyReleases(c, i, 0);
        assert State().nodes[i].monitors == RemoveAt(c.nodes[i].monitors, 0);
      }
    }

    /** node_disconnect of a named node, without its jobs. */
    method NodeDisconnect(i: nat)
      requires Valid() && Inv(State()) && i < |nodes|
      modifies this`allSubscriptions, nodes
      ensures Valid() && nodes == old(nodes)
      ensures Disconnected(old(State()), State(), i)
      ensures Inv(State())
    {
      ghost var c0 := State();
      ghost var order, steps := AnnounceOffline(i);
      AnnouncedInv(c0, i, steps, order);
      RemoveAllProxyMonitors(i);
      UnsetAgentBus(i);
      AgentLostInv(c0, State(), i);
    }

    /** The virtual events of the first part. */
    method AnnounceOffline(i: nat) returns (ghost order: seq<CString>, ghost steps: seq<NodeState>)
      requires Valid() && i < |nodes|
      modifies nodes
      ensures Valid() && nodes == old(nodes)
      ensures IsOrderOf(order, old(State()).nodes[i].index.Keys) && Announced(steps, order)
      ensures steps[0] == old(State()).nodes[i]
      ensures State() == old(State()).(nodes := old(State()).nodes[i := steps[|order|]])
    {
      ghost var c := State();
      order, steps := nodes[i].AnnounceOffline();
      assert State().nodes == c.nodes[i := steps[|order|]];
    }

    method UnsetAgentBus(i: nat)
      requires Valid() && i < |nodes|
      modifies nodes
      ensures Valid() && nodes == old(nodes)
      ensures State() == old(State()).(nodes := old(State()).nodes[i := old(State()).nodes[i].(online := false)])
    {
      ghost var c := State();
      nodes[i].UnsetAgentBus();
      assert State().nodes == c.nodes[i := c.nodes[i].(online := false)];
    }
  }
}
