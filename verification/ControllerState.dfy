/** The controller's tables as values, and what every handler does to them.

    The classes in Node.dfy and Controller.dfy update these tables in place; each of
    their methods is proved equal to a function (or contained in a relation) of this
    module, and the invariants are proved about the values. */
module ControllerState {
  import opened CStrings
  import opened Sequences

  datatype ActiveState =
    Active | Reloading | Inactive | Failed | Activating | Deactivating | Maintenance | Invalid

  datatype Reason = Real | Virtual

  datatype Event =
    | UnitNew(unit: CString, reason: Reason)
    | UnitStateChanged(unit: CString, state: ActiveState, substate: CString, reason: Reason)
    | UnitRemoved(unit: CString, reason: Reason)

  /** `ref` is the address of the C object, so equality of values is equality of pointers.
      `monitor` is the address of the owner the events go to. */
  datatype Subscription = Subscription(ref: nat, monitor: nat, node: CString, units: seq<CString>)

  datatype UnitEntry = UnitEntry(
    subs: seq<Subscription>, loaded: bool, state: ActiveState, substate: Option<CString>)

  type UnitIndex = map<CString, UnitEntry>

  /** What a monitor could see of a node: the moment it got its first subscription to a
      unit, and the events handed to it. */
  datatype Observation =
    | Joined(monitor: nat, unit: CString)
    | Delivered(monitor: nat, event: Event)

  datatype AgentMessage =
    | Subscribe(unit: CString)
    | Unsubscribe(unit: CString)
    | StartDep(unit: CString)
    | StopDep(unit: CString)

  datatype ProxyMonitor = ProxyMonitor(target: CString, unit: CString, subscription: Subscription)

  datatype Dependency = Dependency(unit: CString, count: int)

  /** `sent` holds the messages put on the current connection, oldest first. */
  datatype NodeState = NodeState(
    name: CString, allowed: seq<CString>, online: bool, index: UnitIndex,
    observed: seq<Observation>, sent: seq<AgentMessage>,
    monitors: seq<ProxyMonitor>, deps: seq<Dependency>)

  datatype ControllerState = ControllerState(nodes: seq<NodeState>, all: seq<Subscription>)

  // ---------------------------------------------------------------- unit index

  function Subs(ix: UnitIndex, u: CString): seq<Subscription> {
    if u in ix then ix[u].subs else []
  }

  function Monitors(subs: seq<Subscription>): set<nat> {
    set s | s in subs :: s.monitor
  }

  /** The monitors an event about `u` has to reach. */
  function Audience(ix: UnitIndex, u: CString): set<nat> {
    Monitors(Subs(ix, u)) + if u == WILDCARD then {} else Monitors(Subs(ix, WILDCARD))
  }

  function Send(n: NodeState, m: AgentMessage): NodeState {
    if n.online then n.(sent := n.sent + [m]) else n
  }

  const NO_ENTRY := UnitEntry([], false, Invalid, None)

  /** Events made up for a subscription to a unit that is already known to be loaded. */
  function CatchUp(e: UnitEntry, m: nat, u: CString): seq<Observation> {
    if !e.loaded then []
    else if e.state == Invalid then [Delivered(m, UnitNew(u, Virtual))]
    else [Delivered(m, UnitNew(u, Virtual)),
          Delivered(m, UnitStateChanged(u, e.state,
                                        if e.substate.Some? then e.substate.value else Ascii("invalid"), Virtual))]
  }

  function SubscribeUnit(n: NodeState, s: Subscription, u: CString): NodeState {
    var e := if u in n.index then n.index[u] else NO_ENTRY;
    var told := if u in n.index then n else Send(n, Subscribe(u));
    told.(index := n.index[u := e.(subs := e.subs + [s])],
          observed := n.observed
            + (if s.monitor in Monitors(e.subs) then [] else [Joined(s.monitor, u)])
            + CatchUp(e, s.monitor, u))
  }

  function SubscribeUnits(n: NodeState, s: Subscription, units: seq<CString>): NodeState {
    if units == [] then n
    else SubscribeUnit(SubscribeUnits(n, s, units[..|units| - 1]), s, units[|units| - 1])
  }

  function UnsubscribeUnit(n: NodeState, s: Subscription, u: CString): NodeState {
    if u !in n.index || s !in n.index[u].subs then n
    else
      var rest := RemoveFirst(n.index[u].subs, s);
      if rest == [] then Send(n, Unsubscribe(u)).(index := n.index - {u})
      else n.(index := n.index[u := n.index[u].(subs := rest)])
  }

  function UnsubscribeUnits(n: NodeState, s: Subscription, units: seq<CString>): NodeState {
    if units == [] then n
    else UnsubscribeUnit(UnsubscribeUnits(n, s, units[..|units| - 1]), s, units[|units| - 1])
  }

  // ---------------------------------------------------------------- events

  /** `after` is `before` followed by deliveries of `e`: at least one to every monitor of the
      audience and none to anybody else. */
  ghost predicate DeliveredTo(before: seq<Observation>, after: seq<Observation>, audience: set<nat>, e: Event) {
    && before <= after
    && (forall i :: |before| <= i < |after| ==> after[i].Delivered? && after[i].event == e && after[i].monitor in audience)
    && (forall m :: m in audience ==> Delivered(m, e) in after[|before|..])
  }

  /** What an event from the agent does to the cached entry of its unit. */
  function Cached(e: UnitEntry, ev: Event): UnitEntry {
    match ev
    case UnitNew(u, _) =>
      if u == WILDCARD then e.(loaded := true, state := Active, substate := Some(Ascii("running")))
      else e.(loaded := true)
    case UnitStateChanged(_, st, sub, _) => e.(loaded := true, state := st, substate := Some(sub))
    case UnitRemoved(_, _) => e.(loaded := false)
  }

  function CachedIndex(ix: UnitIndex, ev: Event): UnitIndex {
    if ev.unit in ix then ix[ev.unit := Cached(ix[ev.unit], ev)] else ix
  }

  ghost predicate AgentEvent(n: NodeState, nNext: NodeState, ev: Event) {
    && DeliveredTo(n.observed, nNext.observed, Audience(n.index, ev.unit), ev)
    && nNext == n.(index := CachedIndex(n.index, ev), observed := nNext.observed)
  }

  predicate ReportsState(e: UnitEntry) {
    e.state != Invalid && e.state != Inactive
  }

  function Offline(e: UnitEntry): UnitEntry {
    if !e.loaded then e
    else if ReportsState(e) then e.(loaded := false, state := Inactive, substate := Some(Ascii("agent-offline")))
    else e.(loaded := false)
  }

  /** One round of the announcement a node makes when its agent goes away. */
  ghost predicate AnnouncedUnit(n: NodeState, nNext: NodeState, u: CString) {
    && u in n.index
    && var e := n.index[u];
    if !e.loaded then nNext == n
    else
      && nNext == n.(index := n.index[u := Offline(e)], observed := nNext.observed)
      && exists mid: seq<Observation> ::
           && (if ReportsState(e)
               then DeliveredTo(n.observed, mid, Audience(n.index, u),
                                UnitStateChanged(u, Inactive, Ascii("agent-offline"), Virtual))
               else mid == n.observed)
           && DeliveredTo(mid, nNext.observed, Audience(n.index, u), UnitRemoved(u, Virtual))
  }

  /** The whole announcement: `steps` are the states between the units of `order`. */
  ghost predicate Announced(steps: seq<NodeState>, order: seq<CString>) {
    && |steps| == |order| + 1
    && forall k :: 0 <= k < |order| ==> AnnouncedUnit(steps[k], steps[k + 1], order[k])
  }

  /** `order` lists every unit of the set once. */
  ghost predicate IsOrderOf(order: seq<CString>, units: set<CString>) {
    (set u | u in order) == units && NoDuplicates(order)
  }

  // ---------------------------------------------------------------- dependencies

  function DepUnits(deps: seq<Dependency>): seq<CString> {
    seq(|deps|, i requires 0 <= i < |deps| => deps[i].unit)
  }

  function FindDep(deps: seq<Dependency>, u: CString): (i: nat)
    ensures i <= |deps|
    ensures i < |deps| ==> deps[i].unit == u
    ensures forall j :: 0 <= j < i ==> deps[j].unit != u
  {
    assert forall j :: 0 <= j < |deps| ==> deps[j].unit == DepUnits(deps)[j];
    Find(DepUnits(deps), u)
  }

  function AddDep(n: NodeState, u: CString): NodeState {
    var i := FindDep(n.deps, u);
    var deps := if i < |n.deps| then n.deps[i := Dependency(u, n.deps[i].count + 1)]
                else n.deps + [Dependency(u, 1)];
    Send(n.(deps := deps), StartDep(u))
  }

  function RemoveDep(n: NodeState, u: CString): NodeState {
    var i := FindDep(n.deps, u);
    if i == |n.deps| then n
    else if n.deps[i].count - 1 == 0 then Send(n, StopDep(u)).(deps := RemoveAt(n.deps, i))
    else n.(deps := n.deps[i := Dependency(u, n.deps[i].count - 1)])
  }

  // ---------------------------------------------------------------- controller

  predicate Matches(s: Subscription, node: CString) {
    s.node == WILDCARD || s.node == node
  }

  function Names(nodes: seq<NodeState>): seq<CString> {
    seq(|nodes|, i requires 0 <= i < |nodes| => nodes[i].name)
  }

  function FindNode(nodes: seq<NodeState>, name: CString): (i: nat)
    ensures i <= |nodes|
    ensures i < |nodes| ==> nodes[i].name == name
    ensures forall j :: 0 <= j < i ==> nodes[j].name != name
  {
    assert forall j :: 0 <= j < |nodes| ==> nodes[j].name == Names(nodes)[j];
    Find(Names(nodes), name)
  }

  function AddSubscription(c: ControllerState, s: Subscription): ControllerState {
    ControllerState(
      seq(|c.nodes|, i requires 0 <= i < |c.nodes| =>
        if Matches(s, c.nodes[i].name) then SubscribeUnits(c.nodes[i], s, s.units) else c.nodes[i]),
      c.all + [s])
  }

  function RemoveSubscription(c: ControllerState, s: Subscription): ControllerState {
    ControllerState(
      seq(|c.nodes|, i requires 0 <= i < |c.nodes| =>
        if Matches(s, c.nodes[i].name) then UnsubscribeUnits(c.nodes[i], s, s.units) else c.nodes[i]),
      RemoveFirst(c.all, s))
  }

  function FindProxy(monitors: seq<ProxyMonitor>, target: CString, unit: CString): (i: nat)
    ensures i <= |monitors|
    ensures i < |monitors| ==> monitors[i].target == target && monitors[i].unit == unit
    ensures forall j :: 0 <= j < i ==> !(monitors[j].target == target && monitors[j].unit == unit)
  {
    First(monitors, (m: ProxyMonitor) => m.target == target && m.unit == unit)
  }

  /** Drop a node's reference on a dependency: a target that does not exist has none. */
  function DropDep(c: ControllerState, target: CString, unit: CString): ControllerState {
    var t := FindNode(c.nodes, target);
    if t == |c.nodes| then c else c.(nodes := c.nodes[t := RemoveDep(c.nodes[t], unit)])
  }

  function RemoveProxy(c: ControllerState, i: nat, k: nat): (cNext: ControllerState)
    requires i < |c.nodes| && k < |c.nodes[i].monitors|
    ensures |cNext.nodes| == |c.nodes|
  {
    var pm := c.nodes[i].monitors[k];
    var dropped := RemoveSubscription(DropDep(c, pm.target, pm.unit), pm.subscription);
    dropped.(nodes := dropped.nodes[i := dropped.nodes[i].(monitors := RemoveAt(c.nodes[i].monitors, k))])
  }

  /** Take off the monitor node `i` lists for a unit on a target, if there is one. */
  function ProxyRemoved(c: ControllerState, i: nat, target: CString, unit: CString): (cNext: ControllerState)
    requires i < |c.nodes|
    ensures |cNext.nodes| == |c.nodes|
  {
    var k := FindProxy(c.nodes[i].monitors, target, unit);
    if k < |c.nodes[i].monitors| then RemoveProxy(c, i, k) else c
  }

  /** ProxyNew from the agent of node `i`; `s` is the subscription of the new proxy monitor.
      A monitor it duplicates is taken off first. */
  function ProxyNew(c: ControllerState, i: nat, s: Subscription, unit: CString): (cNext: ControllerState)
    requires i < |c.nodes|
    ensures |cNext.nodes| == |c.nodes|
  {
    var t := FindNode(c.nodes, s.node);
    if t == |c.nodes| || s.node !in c.nodes[i].allowed then c
    else
      var c1 := ProxyRemoved(c, i, s.node, unit);
      var c2 := c1.(nodes := c1.nodes[t := AddDep(c1.nodes[t], unit)]);
      var c3 := AddSubscription(c2, s);
      c3.(nodes := c3.nodes[i := c3.nodes[i].(monitors := c3.nodes[i].monitors + [ProxyMonitor(s.node, unit, s)])])
  }

  function RemoveAllProxies(c: ControllerState, i: nat): (cNext: ControllerState)
    requires i < |c.nodes|
    ensures |cNext.nodes| == |c.nodes|
    decreases |c.nodes[i].monitors|
  {
    if c.nodes[i].monitors == [] then c else RemoveAllProxies(RemoveProxy(c, i, 0), i)
  }

  /** The messages that bring a newly connected agent up to date. */
  function Greeting(order: seq<CString>, deps: seq<Dependency>): seq<AgentMessage> {
    seq(|order|, i requires 0 <= i < |order| => Subscribe(order[i]))
      + seq(|deps|, i requires 0 <= i < |deps| => StartDep(deps[i].unit))
  }

  ghost predicate Connected(n: NodeState, nNext: NodeState) {
    && !n.online
    && exists order ::
         && IsOrderOf(order, n.index.Keys)
         && nNext == n.(online := true, sent := Greeting(order, n.deps))
  }

  ghost predicate Disconnected(c: ControllerState, cNext: ControllerState, i: nat) {
    && i < |c.nodes|
    && exists order, steps ::
         && IsOrderOf(order, c.nodes[i].index.Keys)
         && Announced(steps, order)
         && steps[0] == c.nodes[i]
         && var cleared := RemoveAllProxies(c.(nodes := c.nodes[i := steps[|order|]]), i);
         cNext == cleared.(nodes := cleared.nodes[i := cleared.nodes[i].(online := false)])
  }
}
