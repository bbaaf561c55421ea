/** Whom the events of a node reach: exactly the monitors of the listed subscriptions that name
    the node, or every node, and the unit, or every unit. */
module UnitDelivery {
  import opened CStrings
  import opened ControllerState
  import opened Sequences
  import opened SubscriptionIndex
  import opened UnitEvents
  import opened ControllerRuns

  predicate Concerns(s: Subscription, node: CString, u: CString) {
    (s.node == WILDCARD || s.node == node) && (u in s.units || WILDCARD in s.units)
  }

  /** The monitor has a listed subscription to the unit on the node. */
  ghost predicate Asked(c: ControllerState, i: nat, u: CString, m: nat)
    requires i < |c.nodes|
  {
    exists k :: 0 <= k < |c.all| && Concerns(c.all[k], c.nodes[i].name, u) && c.all[k].monitor == m
  }

  // ---------------------------------------------------------------- the audience

  /** The list of a unit holds the listed subscriptions to it. */
  lemma OnList(c: ControllerState, i: nat, u: CString, s: Subscription)
    requires Indexed(c) && NoDuplicates(c.all) && i < |c.nodes|
    ensures s in Subs(c.nodes[i].index, u) <==>
              s in c.all && (s.node == WILDCARD || s.node == c.nodes[i].name) && u in s.units
  {
    IndexHolds(c, i, u, s);
    CountAll(s.units, u);
    assert s in Subs(c.nodes[i].index, u) <==> multiset(Subs(c.nodes[i].index, u))[s] > 0;
  }

  lemma AudienceAsked(c: ControllerState, i: nat, u: CString, m: nat)
    requires Indexed(c) && NoDuplicates(c.all) && i < |c.nodes|
    ensures m in Audience(c.nodes[i].index, u) <==> Asked(c, i, u, m)
  {
    var ix := c.nodes[i].index;
    if m in Audience(ix, u) {
      var v, s :| (v == u || v == WILDCARD) && s in Subs(ix, v) && s.monitor == m;
      OnList(c, i, v, s);
      var k :| 0 <= k < |c.all| && c.all[k] == s;
      assert Concerns(c.all[k], c.nodes[i].name, u);
    }
    if Asked(c, i, u, m) {
      var k :| 0 <= k < |c.all| && Concerns(c.all[k], c.nodes[i].name, u) && c.all[k].monitor == m;
      OnList(c, i, u, c.all[k]);
      OnList(c, i, WILDCARD, c.all[k]);
    }
  }

  // ---------------------------------------------------------------- events of the agent

  /** In any run: an event of an agent is handed to every monitor that asked for its unit on that
      node, to nobody else, and nothing else is handed to anybody. */
  lemma EventReaches(states: seq<ControllerState>, steps: seq<Step>, k: nat, i: nat, ev: Event)
    requires Run(states, steps) && k < |steps| && steps[k] == AgentReports(i, ev)
    ensures i < |states[k].nodes| == |states[k + 1].nodes|
    ensures var h, hNext := states[k].nodes[i].observed, states[k + 1].nodes[i].observed;
      && h <= hNext
      && (forall m :: Delivered(m, ev) in hNext[|h|..] <==> Asked(states[k], i, ev.unit, m))
      && (forall o :: o in hNext[|h|..] ==> o.Delivered? && o.event == ev)
    ensures forall j :: 0 <= j < |states[k].nodes| && j != i ==> states[k + 1].nodes[j] == states[k].nodes[j]
  {
    RunSafe(states, steps, k);
    RefsAreDistinct(states[k].all);
    assert Next(states[k], steps[k], states[k + 1]);
    var n, nNext := states[k].nodes[i], states[k + 1].nodes[i];
    var d := nNext.observed[|n.observed|..];
    assert forall j :: 0 <= j < |d| ==> d[j] == nNext.observed[|n.observed| + j];
    forall m ensures Delivered(m, ev) in d <==> Asked(states[k], i, ev.unit, m) {
      AudienceAsked(states[k], i, ev.unit, m);
    }
  }

  // ---------------------------------------------------------------- the announcement of a lost agent

  function OfflineState(u: CString): Event {
    UnitStateChanged(u, Inactive, Ascii("agent-offline"), Virtual)
  }

  /** What a lost agent's unit makes of a view: removed, and inactive if another state was known. */
  function OfflineView(v: View, e: UnitEntry): View {
    View(false, if e.state != Invalid && e.state != Inactive then Some((Inactive, Ascii("agent-offline"))) else v.last)
  }

  /** The middle of a round of the announcement: the inactive state was handed out, if it was due. */
  ghost predicate Halfway(n: NodeState, mid: seq<Observation>, v: CString)
    requires v in n.index
  {
    if ReportsState(n.index[v]) then DeliveredTo(n.observed, mid, Audience(n.index, v), OfflineState(v))
    else mid == n.observed
  }

  lemma HalfwayHands(n: NodeState, mid: seq<Observation>, v: CString, u: CString, m: nat)
    requires v in n.index && Halfway(n, mid, v)
    ensures n.observed <= mid
    ensures var d, e := mid[|n.observed|..], n.index[v];
      var told := v == u && m in Audience(n.index, v) && e.state != Invalid && e.state != Inactive;
      && (Delivered(m, OfflineState(u)) in d <==> told)
      && (forall o :: o in d ==> o == Delivered(o.monitor, OfflineState(v)))
      && Replay(mid, m, u) == if told then View(true, Some((Inactive, Ascii("agent-offline")))) else Replay(n.observed, m, u)
  {
    if ReportsState(n.index[v]) {
      Handed(n.observed, mid, Audience(n.index, v), OfflineState(v), m);
      ReplayDelivered(n.observed, mid, Audience(n.index, v), OfflineState(v), m, u);
    } else {
      assert mid[|n.observed|..] == [];
    }
  }

  lemma RemovalHands(mid: seq<Observation>, h: seq<Observation>, audience: set<nat>, v: CString, u: CString, m: nat)
    requires DeliveredTo(mid, h, audience, UnitRemoved(v, Virtual))
    ensures var d, told := h[|mid|..], v == u && m in audience;
      && (Delivered(m, UnitRemoved(u, Virtual)) in d <==> told)
      && (forall o :: o in d ==> o == Delivered(o.monitor, UnitRemoved(v, Virtual)))
      && Replay(h, m, u) == if told then Replay(mid, m, u).(loaded := false) else Replay(mid, m, u)
  {
    Handed(mid, h, audience, UnitRemoved(v, Virtual), m);
    ReplayDelivered(mid, h, audience, UnitRemoved(v, Virtual), m, u);
  }

  lemma BothHand(h: seq<Observation>, mid: seq<Observation>, hNext: seq<Observation>)
    requires h <= mid <= hNext
    ensures h <= hNext
    ensures forall o :: o in hNext[|h|..] <==> o in mid[|h|..] || o in hNext[|mid|..]
  {
    assert hNext[|h|..] == mid[|h|..] + hNext[|mid|..];
  }

  /** What is handed out for one unit. */
  lemma OneAnnounced(n: NodeState, nNext: NodeState, v: CString, u: CString, m: nat)
    requires AnnouncedUnit(n, nNext, v)
    ensures n.observed <= nNext.observed
    ensures var d, e := nNext.observed[|n.observed|..], n.index[v];
      var told := v == u && e.loaded && m in Audience(n.index, v);
      && (Delivered(m, UnitRemoved(u, Virtual)) in d <==> told)
      && (Delivered(m, OfflineState(u)) in d <==> told && e.state != Invalid && e.state != Inactive)
      && (forall o :: o in d ==> o.Delivered? && (o.event == UnitRemoved(v, Virtual) || o.event == OfflineState(v)))
      && Replay(nNext.observed, m, u) == if told then OfflineView(Replay(n.observed, m, u), e) else Replay(n.observed, m, u)
  {
    if n.index[v].loaded {
      var mid: seq<Observation> :|
        Halfway(n, mid, v) && DeliveredTo(mid, nNext.observed, Audience(n.index, v), UnitRemoved(v, Virtual));
      HalfwayHands(n, mid, v, u, m);
      RemovalHands(mid, nNext.observed, Audience(n.index, v), v, u, m);
      BothHand(n.observed, mid, nNext.observed);
    } else {
      assert nNext.observed[|n.observed|..] == [];
    }
  }

  lemma Handed(h: seq<Observation>, hNext: seq<Observation>, audience: set<nat>, e: Event, m: nat)
    requires DeliveredTo(h, hNext, audience, e)
    ensures Delivered(m, e) in hNext[|h|..] <==> m in audience
    ensures forall o :: o in hNext[|h|..] ==> o.Delivered? && o.event == e
  {
    var d := hNext[|h|..];
    assert forall j :: 0 <= j < |d| ==> d[j] == hNext[|h| + j];
  }

  lemma SameAudience(ix: UnitIndex, ixNext: UnitIndex, u: CString)
    requires forall v :: Subs(ixNext, v) == Subs(ix, v)
    ensures Audience(ixNext, u) == Audience(ix, u)
  {
  }

  /** What the announcement hands to monitor `m` about unit `u`. */
  ghost predicate AnnouncedTo(n: NodeState, h: seq<Observation>, units: seq<CString>, u: CString, m: nat) {
    && n.observed <= h
    && var d := h[|n.observed|..];
      var told := u in units && u in n.index && n.index[u].loaded && m in Audience(n.index, u);
      && (Delivered(m, UnitRemoved(u, Virtual)) in d <==> told)
      && (Delivered(m, OfflineState(u)) in d <==> told && n.index[u].state != Invalid && n.index[u].state != Inactive)
      && (forall o :: o in d ==>
            o.Delivered? && (o.event == UnitRemoved(o.event.unit, Virtual) || o.event == OfflineState(o.event.unit)))
      && Replay(h, m, u) == if told then OfflineView(Replay(n.observed, m, u), n.index[u]) else Replay(n.observed, m, u)
  }

  lemma OneMoreAnnounced(n: NodeState, mid: NodeState, last: NodeState, units: seq<CString>, v: CString, u: CString, m: nat)
    requires AnnouncedTo(n, mid.observed, units, u, m) && AnnouncedUnit(mid, last, v)
    requires v !in units && v in n.index && mid.index[v] == n.index[v]
    requires forall w :: Subs(mid.index, w) == Subs(n.index, w)
    ensures AnnouncedTo(n, last.observed, units + [v], u, m)
  {
    OneAnnounced(mid, last, v, u, m);
    SameAudience(n.index, mid.index, v);
    assert last.observed[|n.observed|..] == mid.observed[|n.observed|..] + last.observed[|mid.observed|..];
  }

  lemma {:induction false} AllAnnounced(steps: seq<NodeState>, order: seq<CString>, u: CString, m: nat)
    requires Announced(steps, order) && Replays(steps[0]) && NoDuplicates(order)
    requires forall v :: v in order ==> v in steps[0].index
    ensures AnnouncedTo(steps[0], steps[|order|].observed, order, u, m)
    decreases |order|
  {
    if order == [] {
      assert steps[0].observed[|steps[0].observed|..] == [];
    } else {
      var k := |order| - 1;
      AllAnnounced(steps[..|order|], order[..k], u, m);
      AnnouncedReplays(steps[..|order|], order[..k]);
      assert AnnouncedUnit(steps[k], steps[k + 1], order[k]);
      assert order == order[..k] + [order[k]];
      OneMoreAnnounced(steps[0], steps[k], steps[k + 1], order[..k], order[k], u, m);
    }
  }

  lemma {:induction false} RemoveAllHandsNothing(c: ControllerState, i: nat)
    requires i < |c.nodes|
    ensures RemoveAllProxies(c, i).nodes[i].observed == c.nodes[i].observed
    decreases |c.nodes[i].monitors|
  {
    if c.nodes[i].monitors != [] {
      var pm := c.nodes[i].monitors[0];
      UnsubscribeUnitsKeepsRest(DropDep(c, pm.target, pm.unit).nodes[i], pm.subscription, pm.subscription.units);
      RemoveAllHandsNothing(RemoveProxy(c, i, 0), i);
    }
  }

  lemma LostAnnounces(c: ControllerState, cNext: ControllerState, i: nat, u: CString, m: nat)
    requires Inv(c) && Disconnected(c, cNext, i)
    ensures |cNext.nodes| == |c.nodes|
    ensures exists order ::
              IsOrderOf(order, c.nodes[i].index.Keys) && AnnouncedTo(c.nodes[i], cNext.nodes[i].observed, order, u, m)
  {
    var order: seq<CString>, steps: seq<NodeState> :|
      && IsOrderOf(order, c.nodes[i].index.Keys)
      && Announced(steps, order)
      && steps[0] == c.nodes[i]
      && var cleared := RemoveAllProxies(c.(nodes := c.nodes[i := steps[|order|]]), i);
      cNext == cleared.(nodes := cleared.nodes[i := cleared.nodes[i].(online := false)]);
    assert Replays(c.nodes[i]);
    assert forall v :: v in order ==> v in c.nodes[i].index;
    AllAnnounced(steps, order, u, m);
    RemoveAllHandsNothing(c.(nodes := c.nodes[i := steps[|order|]]), i);
  }

  /** In any run: when an agent is lost, every monitor that asked for one of its loaded units is
      handed the unit's removal, and before that the inactive state if another one was known;
      nobody else is, and nothing else is handed to anybody.  So each of them last hears that
      the unit is inactive because the agent is offline, and gone. */
  lemma LossReaches(states: seq<ControllerState>, steps: seq<Step>, k: nat, i: nat, u: CString, m: nat)
    requires Run(states, steps) && k < |steps| && steps[k] == AgentLost(i)
    ensures i < |states[k].nodes| == |states[k + 1].nodes|
    ensures var n, h, hNext := states[k].nodes[i], states[k].nodes[i].observed, states[k + 1].nodes[i].observed;
      var told := u in n.index && n.index[u].loaded && Asked(states[k], i, u, m);
      && h <= hNext
      && (Delivered(m, UnitRemoved(u, Virtual)) in hNext[|h|..] <==> told)
      && (Delivered(m, OfflineState(u)) in hNext[|h|..] <==>
            told && n.index[u].state != Invalid && n.index[u].state != Inactive)
      && (forall o :: o in hNext[|h|..] ==>
            o.Delivered? && (o.event == UnitRemoved(o.event.unit, Virtual) || o.event == OfflineState(o.event.unit)))
      && (told ==> Replay(hNext, m, u) == OfflineView(Replay(h, m, u), n.index[u]))
      && (!told ==> Replay(hNext, m, u) == Replay(h, m, u))
  {
    RunSafe(states, steps, k);
    RefsAreDistinct(states[k].all);
    assert Next(states[k], steps[k], states[k + 1]);
    LostAnnounces(states[k], states[k + 1], i, u, m);
    AudienceAsked(states[k], i, u, m);
  }
}
