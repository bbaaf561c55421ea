/** Conservation of cross-node dependencies: a target node counts, for every unit, exactly the
    proxy monitors that all nodes together keep on it. */
module ProxyDependencies {
  import opened CStrings
  import opened ControllerState
  import opened Sequences
  import opened SubscriptionIndex

  /** How many of the listed monitors are for `unit` on `target`. */
  function HoldersIn(monitors: seq<ProxyMonitor>, target: CString, unit: CString): nat {
    if monitors == [] then 0
    else
      var pm := monitors[|monitors| - 1];
      HoldersIn(monitors[..|monitors| - 1], target, unit) + if pm.target == target && pm.unit == unit then 1 else 0
  }

  function Holders(nodes: seq<NodeState>, target: CString, unit: CString): nat {
    if nodes == [] then 0
    else Holders(nodes[..|nodes| - 1], target, unit) + HoldersIn(nodes[|nodes| - 1].monitors, target, unit)
  }

  function DepCount(deps: seq<Dependency>, u: CString): int {
    var i := FindDep(deps, u);
    if i < |deps| then deps[i].count else 0
  }

  /** Entries are positive and name different units. */
  ghost predicate DepsWellFormed(deps: seq<Dependency>) {
    && (forall i :: 0 <= i < |deps| ==> deps[i].count >= 1)
    && forall i, j :: 0 <= i < j < |deps| ==> deps[i].unit != deps[j].unit
  }

  ghost predicate NoTwoMonitors(monitors: seq<ProxyMonitor>) {
    forall i, j :: 0 <= i < j < |monitors| ==>
      !(monitors[i].target == monitors[j].target && monitors[i].unit == monitors[j].unit)
  }

  ghost predicate UniqueNames(nodes: seq<NodeState>) {
    forall i, j :: 0 <= i < j < |nodes| ==> nodes[i].name != nodes[j].name
  }

  ghost predicate TablesWellFormed(nodes: seq<NodeState>) {
    forall i :: 0 <= i < |nodes| ==>
      && DepsWellFormed(nodes[i].deps)
      && NoTwoMonitors(nodes[i].monitors)
      && forall k :: 0 <= k < |nodes[i].monitors| ==> FindNode(nodes, nodes[i].monitors[k].target) < |nodes|
  }

  ghost predicate Balanced(nodes: seq<NodeState>) {
    forall t, u :: 0 <= t < |nodes| ==> DepCount(nodes[t].deps, u) == Holders(nodes, nodes[t].name, u)
  }

  ghost predicate Conserved(nodes: seq<NodeState>) {
    UniqueNames(nodes) && TablesWellFormed(nodes) && Balanced(nodes)
  }

  // ---------------------------------------------------------------- dependency counters

  lemma DepAt(deps: seq<Dependency>, i: nat)
    requires DepsWellFormed(deps) && i < |deps|
    ensures FindDep(deps, deps[i].unit) == i
    ensures DepCount(deps, deps[i].unit) == deps[i].count
  {
    var j := FindDep(deps, deps[i].unit);
    assert !(i < j);
  }

  lemma AddDepWellFormed(n: NodeState, u: CString)
    requires DepsWellFormed(n.deps)
    ensures DepsWellFormed(AddDep(n, u).deps)
  {
    var i := FindDep(n.deps, u);
  }

  lemma AddDepCounts(n: NodeState, u: CString, v: CString)
    requires DepsWellFormed(n.deps)
    ensures DepCount(AddDep(n, u).deps, v) == DepCount(n.deps, v) + if v == u then 1 else 0
  {
    AddDepWellFormed(n, u);
    var d := AddDep(n, u).deps;
    var k := FindDep(n.deps, v);
    if k < |n.deps| {
      assert d[k].unit == v;
      DepAt(d, k);
    } else if v == u {
      DepAt(d, |n.deps|);
    }
  }

  lemma RemoveDepWellFormed(n: NodeState, u: CString)
    requires DepsWellFormed(n.deps)
    ensures DepsWellFormed(RemoveDep(n, u).deps)
  {
    var i := FindDep(n.deps, u);
  }

  lemma {:induction false} RemoveDepCounts(n: NodeState, u: CString, v: CString)
    requires DepsWellFormed(n.deps) && DepCount(n.deps, u) >= 1
    ensures DepCount(RemoveDep(n, u).deps, v) == DepCount(n.deps, v) - if v == u then 1 else 0
    ensures FindDep(RemoveDep(n, u).deps, u) == |RemoveDep(n, u).deps| <==> DepCount(n.deps, u) == 1
  {
    RemoveDepWellFormed(n, u);
    var d := RemoveDep(n, u).deps;
    var i, j := FindDep(n.deps, u), FindDep(n.deps, v);
    assert n.deps[i].count >= 1;
    if n.deps[i].count > 1 {
      DepAt(d, i);
      if j < |n.deps| {
        assert d[j].unit == v;
        DepAt(d, j);
      }
    } else {
      RemovedDep(n.deps, i, v);
      RemovedDep(n.deps, i, u);
    }
  }

  lemma RemovedDep(deps: seq<Dependency>, i: nat, v: CString)
    requires DepsWellFormed(deps) && i < |deps|
    ensures DepsWellFormed(RemoveAt(deps, i))
    ensures DepCount(RemoveAt(deps, i), v) == if v == deps[i].unit then 0 else DepCount(deps, v)
  {
    var d := RemoveAt(deps, i);
    forall k | 0 <= k < |d| ensures d[k] == deps[if k < i then k else k + 1] {
    }
    var j := FindDep(deps, v);
    if j < |deps| && j != i {
      var k := if j < i then j else j - 1;
      assert d[k] == deps[j];
      DepAt(d, k);
    }
  }

  // ---------------------------------------------------------------- holders

  lemma {:induction false} HoldersUpdate(nodes: seq<NodeState>, i: nat, n: NodeState, target: CString, unit: CString)
    requires i < |nodes|
    ensures Holders(nodes[i := n], target, unit)
              == Holders(nodes, target, unit) - HoldersIn(nodes[i].monitors, target, unit)
                 + HoldersIn(n.monitors, target, unit)
  {
    var l := |nodes| - 1;
    if i < l {
      HoldersUpdate(nodes[..l], i, n, target, unit);
      assert nodes[i := n][..l] == nodes[..l][i := n];
    } else {
      assert nodes[i := n][..l] == nodes[..l];
    }
  }

  lemma {:induction false} HoldersSame(a: seq<NodeState>, b: seq<NodeState>, target: CString, unit: CString)
    requires |a| == |b|
    requires forall i :: 0 <= i < |a| ==> a[i].monitors == b[i].monitors
    ensures Holders(a, target, unit) == Holders(b, target, unit)
  {
    if a != [] {
      HoldersSame(a[..|a| - 1], b[..|b| - 1], target, unit);
    }
  }

  lemma {:induction false} HoldersInRemoveAt(ms: seq<ProxyMonitor>, k: nat, target: CString, unit: CString)
    requires k < |ms|
    ensures HoldersIn(RemoveAt(ms, k), target, unit)
              == HoldersIn(ms, target, unit) - if ms[k].target == target && ms[k].unit == unit then 1 else 0
  {
    var l := |ms| - 1;
    if k < l {
      HoldersInRemoveAt(ms[..l], k, target, unit);
      assert RemoveAt(ms, k)[..l - 1] == RemoveAt(ms[..l], k);
    } else {
      assert RemoveAt(ms, k) == ms[..l];
    }
  }

  lemma HoldersInAppend(ms: seq<ProxyMonitor>, pm: ProxyMonitor, target: CString, unit: CString)
    ensures HoldersIn(ms + [pm], target, unit)
              == HoldersIn(ms, target, unit) + if pm.target == target && pm.unit == unit then 1 else 0
  {
    assert (ms + [pm])[..|ms|] == ms;
  }

  lemma {:induction false} HoldersPositive(nodes: seq<NodeState>, i: nat, k: nat)
    requires i < |nodes| && k < |nodes[i].monitors|
    ensures Holders(nodes, nodes[i].monitors[k].target, nodes[i].monitors[k].unit) >= 1
  {
    var pm := nodes[i].monitors[k];
    HoldersInRemoveAt(nodes[i].monitors, k, pm.target, pm.unit);
    HoldersUpdate(nodes, i, nodes[i].(monitors := []), pm.target, pm.unit);
  }

  // ---------------------------------------------------------------- the operations

  /** Names, monitors and dependencies are the same. */
  ghost predicate SameProxies(a: seq<NodeState>, b: seq<NodeState>) {
    && |a| == |b|
    && forall i :: 0 <= i < |a| ==>
         a[i].name == b[i].name && a[i].monitors == b[i].monitors && a[i].deps == b[i].deps
  }

  lemma FindNodeSame(a: seq<NodeState>, b: seq<NodeState>, name: CString)
    requires |a| == |b| && forall i :: 0 <= i < |a| ==> a[i].name == b[i].name
    ensures FindNode(a, name) == FindNode(b, name)
  {
    var i, j := FindNode(a, name), FindNode(b, name);
    assert !(j < i) && !(i < j);
  }

  lemma SameConserved(a: seq<NodeState>, b: seq<NodeState>)
    requires Conserved(a) && SameProxies(a, b)
    ensures Conserved(b)
  {
    forall i, k | 0 <= i < |b| && 0 <= k < |b[i].monitors|
      ensures FindNode(b, b[i].monitors[k].target) < |b|
    {
      FindNodeSame(a, b, b[i].monitors[k].target);
      assert a[i].monitors == b[i].monitors;
    }
    assert TablesWellFormed(b);
    forall t, u | 0 <= t < |b|
      ensures DepCount(b[t].deps, u) == Holders(b, b[t].name, u)
    {
      HoldersSame(a, b, b[t].name, u);
      assert a[t].deps == b[t].deps;
    }
  }

  lemma AddSubscriptionSame(c: ControllerState, s: Subscription)
    ensures SameProxies(c.nodes, AddSubscription(c, s).nodes)
  {
    forall i | 0 <= i < |c.nodes| {
      SubscribeUnitsKeepsRest(c.nodes[i], s, s.units);
    }
  }

  lemma RemoveSubscriptionSame(c: ControllerState, s: Subscription)
    ensures SameProxies(c.nodes, RemoveSubscription(c, s).nodes)
  {
    forall i | 0 <= i < |c.nodes| {
      UnsubscribeUnitsKeepsRest(c.nodes[i], s, s.units);
    }
  }

  /** The tables after node `i` lost its monitor `k`, without the subscription. */
  function Released(nodes: seq<NodeState>, i: nat, k: nat): (r: seq<NodeState>)
    requires i < |nodes| && k < |nodes[i].monitors|
    ensures |r| == |nodes|
  {
    var pm := nodes[i].monitors[k];
    var t := FindNode(nodes, pm.target);
    var dropped := if t == |nodes| then nodes else nodes[t := RemoveDep(nodes[t], pm.unit)];
    dropped[i := dropped[i].(monitors := RemoveAt(nodes[i].monitors, k))]
  }

  lemma NamesKept(a: seq<NodeState>, b: seq<NodeState>, i: nat)
    requires TablesWellFormed(a) && UniqueNames(a)
    requires |a| == |b| && i < |a|
    requires forall j :: 0 <= j < |a| ==> a[j].name == b[j].name
    requires forall j :: 0 <= j < |a| && j != i ==> a[j].monitors == b[j].monitors
    requires NoTwoMonitors(b[i].monitors)
    requires forall k :: 0 <= k < |b[i].monitors| ==> FindNode(a, b[i].monitors[k].target) < |a|
    requires forall j :: 0 <= j < |b| ==> DepsWellFormed(b[j].deps)
    ensures TablesWellFormed(b) && UniqueNames(b)
  {
    forall j, k | 0 <= j < |b| && 0 <= k < |b[j].monitors|
      ensures FindNode(b, b[j].monitors[k].target) < |b|
    {
      FindNodeSame(a, b, b[j].monitors[k].target);
    }
  }

  lemma ReleasedHolders(nodes: seq<NodeState>, i: nat, k: nat, target: CString, u: CString)
    requires i < |nodes| && k < |nodes[i].monitors|
    ensures var pm := nodes[i].monitors[k];
            Holders(Released(nodes, i, k), target, u)
              == Holders(nodes, target, u) - if pm.target == target && pm.unit == u then 1 else 0
  {
    var r := Released(nodes, i, k);
    HoldersUpdate(nodes, i, r[i], target, u);
    HoldersInRemoveAt(nodes[i].monitors, k, target, u);
    HoldersSame(r, nodes[i := r[i]], target, u);
  }

  lemma ReleasedDeps(nodes: seq<NodeState>, i: nat, k: nat, t: nat, u: CString)
    requires Conserved(nodes) && i < |nodes| && k < |nodes[i].monitors| && t < |nodes|
    ensures DepsWellFormed(Released(nodes, i, k)[t].deps)
    ensures var pm := nodes[i].monitors[k];
            DepCount(Released(nodes, i, k)[t].deps, u)
              == DepCount(nodes[t].deps, u) - if pm.target == nodes[t].name && pm.unit == u then 1 else 0
  {
    var pm := nodes[i].monitors[k];
    if pm.target == nodes[t].name {
      assert FindNode(nodes, pm.target) == t;
      HoldersPositive(nodes, i, k);
      RemoveDepWellFormed(nodes[t], pm.unit);
      RemoveDepCounts(nodes[t], pm.unit, u);
    }
  }

  lemma ReleasedMonitors(nodes: seq<NodeState>, i: nat, k: nat)
    requires TablesWellFormed(nodes) && i < |nodes| && k < |nodes[i].monitors|
    ensures var r := Released(nodes, i, k);
      && (forall j :: 0 <= j < |r| ==> r[j].name == nodes[j].name && (j != i ==> r[j].monitors == nodes[j].monitors))
      && NoTwoMonitors(r[i].monitors)
      && forall l :: 0 <= l < |r[i].monitors| ==> FindNode(nodes, r[i].monitors[l].target) < |nodes|
  {
    var r, ms := Released(nodes, i, k), nodes[i].monitors;
    assert r[i].monitors == RemoveAt(ms, k);
    assert forall l :: 0 <= l < |r[i].monitors| ==> r[i].monitors[l] == ms[if l < k then l else l + 1];
  }

  lemma ReleasedTables(nodes: seq<NodeState>, i: nat, k: nat)
    requires Conserved(nodes) && i < |nodes| && k < |nodes[i].monitors|
    ensures TablesWellFormed(Released(nodes, i, k)) && UniqueNames(Released(nodes, i, k))
  {
    var r := Released(nodes, i, k);
    forall j | 0 <= j < |r| ensures DepsWellFormed(r[j].deps) {
      ReleasedDeps(nodes, i, k, j, []);
    }
    ReleasedMonitors(nodes, i, k);
    NamesKept(nodes, r, i);
  }

  lemma ReleasedConserved(nodes: seq<NodeState>, i: nat, k: nat)
    requires Conserved(nodes) && i < |nodes| && k < |nodes[i].monitors|
    ensures Conserved(Released(nodes, i, k))
  {
    var r := Released(nodes, i, k);
    ReleasedTables(nodes, i, k);
    forall j, u | 0 <= j < |r|
      ensures DepCount(r[j].deps, u) == Holders(r, r[j].name, u)
    {
      ReleasedBalance(nodes, i, k, j, u);
    }
  }

  lemma ReleasedBalance(nodes: seq<NodeState>, i: nat, k: nat, j: nat, u: CString)
    requires Conserved(nodes) && i < |nodes| && k < |nodes[i].monitors| && j < |nodes|
    ensures j < |Released(nodes, i, k)|
    ensures DepCount(Released(nodes, i, k)[j].deps, u)
            == Holders(Released(nodes, i, k), Released(nodes, i, k)[j].name, u)
  {
    assert Released(nodes, i, k)[j].name == nodes[j].name;
    ReleasedDeps(nodes, i, k, j, u);
    ReleasedHolders(nodes, i, k, nodes[j].name, u);
  }

  lemma RemoveProxyReleases(c: ControllerState, i: nat, k: nat)
    requires i < |c.nodes| && k < |c.nodes[i].monitors|
    ensures SameProxies(Released(c.nodes, i, k), RemoveProxy(c, i, k).nodes)
  {
    var pm := c.nodes[i].monitors[k];
    RemoveSubscriptionSame(DropDep(c, pm.target, pm.unit), pm.subscription);
  }

  /** Closing a proxy monitor takes back exactly the dependency it held. */
  lemma RemoveProxyConserves(c: ControllerState, i: nat, k: nat)
    requires Conserved(c.nodes) && i < |c.nodes| && k < |c.nodes[i].monitors|
    ensures Conserved(RemoveProxy(c, i, k).nodes)
  {
    ReleasedConserved(c.nodes, i, k);
    RemoveProxyReleases(c, i, k);
    SameConserved(Released(c.nodes, i, k), RemoveProxy(c, i, k).nodes);
  }

  function Acquired(nodes: seq<NodeState>, i: nat, t: nat, pm: ProxyMonitor): (r: seq<NodeState>)
    requires i < |nodes| && t < |nodes|
    ensures |r| == |nodes|
  {
    var added := nodes[t := AddDep(nodes[t], pm.unit)];
    added[i := added[i].(monitors := added[i].monitors + [pm])]
  }

  lemma AcquiredHolders(nodes: seq<NodeState>, i: nat, t: nat, pm: ProxyMonitor, target: CString, u: CString)
    requires i < |nodes| && t < |nodes|
    ensures Holders(Acquired(nodes, i, t, pm), target, u)
              == Holders(nodes, target, u) + if pm.target == target && pm.unit == u then 1 else 0
  {
    var r := Acquired(nodes, i, t, pm);
    HoldersUpdate(nodes, i, r[i], target, u);
    HoldersInAppend(nodes[i].monitors, pm, target, u);
    HoldersSame(r, nodes[i := r[i]], target, u);
  }

  lemma AcquiredDeps(nodes: seq<NodeState>, i: nat, t: nat, pm: ProxyMonitor, j: nat, u: CString)
    requires Conserved(nodes) && i < |nodes| && t < |nodes| && nodes[t].name == pm.target && j < |nodes|
    ensures DepsWellFormed(Acquired(nodes, i, t, pm)[j].deps)
    ensures DepCount(Acquired(nodes, i, t, pm)[j].deps, u)
              == DepCount(nodes[j].deps, u) + if pm.target == nodes[j].name && pm.unit == u then 1 else 0
  {
    if j == t {
      AddDepWellFormed(nodes[t], pm.unit);
      AddDepCounts(nodes[t], pm.unit, u);
    }
  }

  lemma AcquiredConserved(nodes: seq<NodeState>, i: nat, t: nat, pm: ProxyMonitor)
    requires Conserved(nodes) && i < |nodes| && t < |nodes| && nodes[t].name == pm.target
    requires FindNode(nodes, pm.target) == t
    requires FindProxy(nodes[i].monitors, pm.target, pm.unit) == |nodes[i].monitors|
    ensures Conserved(Acquired(nodes, i, t, pm))
  {
    var r := Acquired(nodes, i, t, pm);
    forall j | 0 <= j < |r| ensures DepsWellFormed(r[j].deps) {
      AcquiredDeps(nodes, i, t, pm, j, []);
    }
    NamesKept(nodes, r, i);
    forall j, u | 0 <= j < |r|
      ensures DepCount(r[j].deps, u) == Holders(r, r[j].name, u)
    {
      AcquiredBalance(nodes, i, t, pm, j, u);
    }
  }

  lemma AcquiredBalance(nodes: seq<NodeState>, i: nat, t: nat, pm: ProxyMonitor, j: nat, u: CString)
    requires Conserved(nodes) && i < |nodes| && t < |nodes| && nodes[t].name == pm.target && j < |nodes|
    requires FindNode(nodes, pm.target) == t
    ensures j < |Acquired(nodes, i, t, pm)|
    ensures DepCount(Acquired(nodes, i, t, pm)[j].deps, u)
            == Holders(Acquired(nodes, i, t, pm), Acquired(nodes, i, t, pm)[j].name, u)
  {
    assert Acquired(nodes, i, t, pm)[j].name == nodes[j].name;
    AcquiredDeps(nodes, i, t, pm, j, u);
    AcquiredHolders(nodes, i, t, pm, nodes[j].name, u);
  }

  /** After the monitor it duplicates is gone, nothing for the same unit is left. */
  lemma NoDuplicateLeft(ms: seq<ProxyMonitor>, target: CString, unit: CString)
    requires NoTwoMonitors(ms)
    ensures var k := FindProxy(ms, target, unit);
            var rest := if k < |ms| then RemoveAt(ms, k) else ms;
            FindProxy(rest, target, unit) == |rest|
  {
    var k := FindProxy(ms, target, unit);
    var rest := if k < |ms| then RemoveAt(ms, k) else ms;
    forall j | 0 <= j < |rest| ensures rest[j] == ms[if j < k then j else j + 1] {
    }
  }

  lemma RemoveProxyFindsSame(c: ControllerState, i: nat, k: nat)
    requires Conserved(c.nodes) && i < |c.nodes| && k < |c.nodes[i].monitors|
    ensures forall name :: FindNode(RemoveProxy(c, i, k).nodes, name) == FindNode(c.nodes, name)
  {
    RemoveProxyReleases(c, i, k);
    forall name ensures FindNode(RemoveProxy(c, i, k).nodes, name) == FindNode(c.nodes, name) {
      FindNodeSame(RemoveProxy(c, i, k).nodes, c.nodes, name);
    }
  }

  lemma RemoveProxyLeavesNone(c: ControllerState, i: nat, target: CString, unit: CString)
    requires Conserved(c.nodes) && i < |c.nodes|
    ensures i < |ProxyRemoved(c, i, target, unit).nodes|
    ensures var ms := ProxyRemoved(c, i, target, unit).nodes[i].monitors; FindProxy(ms, target, unit) == |ms|
  {
    var k := FindProxy(c.nodes[i].monitors, target, unit);
    NoDuplicateLeft(c.nodes[i].monitors, target, unit);
    if k < |c.nodes[i].monitors| {
      RemoveProxyReleases(c, i, k);
    }
  }

  lemma ProxyRemovedConserves(c: ControllerState, i: nat, target: CString, unit: CString)
    requires Conserved(c.nodes) && i < |c.nodes|
    ensures Conserved(ProxyRemoved(c, i, target, unit).nodes)
    ensures forall name :: FindNode(ProxyRemoved(c, i, target, unit).nodes, name) == FindNode(c.nodes, name)
    ensures i < |ProxyRemoved(c, i, target, unit).nodes|
    ensures var ms := ProxyRemoved(c, i, target, unit).nodes[i].monitors; FindProxy(ms, target, unit) == |ms|
  {
    var k := FindProxy(c.nodes[i].monitors, target, unit);
    RemoveProxyLeavesNone(c, i, target, unit);
    if k < |c.nodes[i].monitors| {
      RemoveProxyConserves(c, i, k);
      RemoveProxyFindsSame(c, i, k);
    }
  }

  /** A new proxy, duplicate or not, keeps the books. */
  lemma ProxyNewConserves(c: ControllerState, i: nat, s: Subscription, unit: CString)
    requires Conserved(c.nodes) && i < |c.nodes|
    ensures Conserved(ProxyNew(c, i, s, unit).nodes)
  {
    var t := FindNode(c.nodes, s.node);
    if t < |c.nodes| && s.node in c.nodes[i].allowed {
      ProxyRemovedConserves(c, i, s.node, unit);
      var c1 := ProxyRemoved(c, i, s.node, unit);
      var pm := ProxyMonitor(s.node, unit, s);
      AcquiredConserved(c1.nodes, i, t, pm);
      AddSubscriptionSame(c1.(nodes := c1.nodes[t := AddDep(c1.nodes[t], unit)]), s);
      SameConserved(Acquired(c1.nodes, i, t, pm), ProxyNew(c, i, s, unit).nodes);
    }
  }

  lemma {:induction false} RemoveAllProxiesConserves(c: ControllerState, i: nat)
    requires Conserved(c.nodes) && i < |c.nodes|
    ensures Conserved(RemoveAllProxies(c, i).nodes)
    ensures RemoveAllProxies(c, i).nodes[i].monitors == []
    decreases |c.nodes[i].monitors|
  {
    if c.nodes[i].monitors != [] {
      RemoveProxyConserves(c, i, 0);
      RemoveAllProxiesConserves(RemoveProxy(c, i, 0), i);
    }
  }
}
