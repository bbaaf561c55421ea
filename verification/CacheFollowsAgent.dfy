/** The state the controller has cached for a unit follows the agent's, through both FIFO
    directions of a connection: once both are drained, a unit with an entry is cached as
    loaded exactly when it is loaded on the node, provided that on this connection the agent
    learned of the subscription and was never told to drop it. */
module CacheFollowsAgent {
  import opened CStrings
  import opened ControllerState
  import opened ConnectionLog
  import opened ControllerRuns
  import opened PathEscape
  import opened SubscriptionMirror
  import A = AgentUnits

  function LoadEvent(b: bool, e: Event, u: CString): bool {
    if e.unit == u then !e.UnitRemoved? else b
  }

  /** The loaded bit of `u` after the events. */
  function LoadedAfter(b: bool, es: seq<Event>, u: CString): bool {
    if es == [] then b else LoadEvent(LoadedAfter(b, es[..|es| - 1], u), es[|es| - 1], u)
  }

  predicate Loaded(ix: UnitIndex, u: CString) {
    u in ix && ix[u].loaded
  }

  lemma {:induction false} LoadedAfterConcat(b: bool, es: seq<Event>, ds: seq<Event>, u: CString)
    ensures LoadedAfter(b, es + ds, u) == LoadedAfter(LoadedAfter(b, es, u), ds, u)
  {
    if ds == [] {
      assert es + ds == es;
    } else {
      LoadedAfterConcat(b, es, ds[..|ds| - 1], u);
      assert (es + ds)[..|es + ds| - 1] == es + ds[..|ds| - 1];
    }
  }

  lemma LoadedAfterFirst(b: bool, es: seq<Event>, u: CString)
    requires es != []
    ensures LoadedAfter(b, es, u) == LoadedAfter(LoadEvent(b, es[0], u), es[1..], u)
  {
    LoadedAfterConcat(b, [es[0]], es[1..], u);
    assert [es[0]] + es[1..] == es;
    assert LoadedAfter(b, [es[0]], u) == LoadEvent(LoadedAfter(b, [es[0]][..0], u), es[0], u);
  }

  lemma {:induction false} LoadedAfterMonotone(es: seq<Event>, u: CString)
    ensures LoadedAfter(false, es, u) ==> LoadedAfter(true, es, u)
  {
    if es != [] {
      LoadedAfterMonotone(es[..|es| - 1], u);
    }
  }

  // ---------------------------------------------------------------- at the agent

  /** `x` is what the controller will believe once it has every signal: exact when the agent
      reports about the unit on its own account, not too much when it reports because of the
      wildcard, and nothing when it does not report. */
  ghost predicate Tracks(a: A.AgentState, x: bool, u: CString) {
    if u in A.Wants(a) then x == A.Info(a, u).loaded
    else if WILDCARD in A.Wants(a) then x ==> A.Info(a, u).loaded
    else !x
  }

  function Since(a: A.AgentState, aNext: A.AgentState): seq<Event>
    requires |a.emitted| <= |aNext.emitted|
  {
    aNext.emitted[|a.emitted|..]
  }

  lemma OtherInfo(a: A.AgentState, aNext: A.AgentState, p: CString, u: CString)
    requires aNext.infos - {p} == a.infos - {p}
    requires MakeUnitPath(u) != p
    ensures A.Info(aNext, u) == A.Info(a, u)
  {
    var q := MakeUnitPath(u);
    assert q in a.infos <==> q in a.infos - {p};
    assert q in aNext.infos <==> q in aNext.infos - {p};
    if q in a.infos {
      assert (a.infos - {p})[q] == a.infos[q] && (aNext.infos - {p})[q] == aNext.infos[q];
    }
  }

  /** A step on the entry at `p` is nothing to a unit that lives elsewhere. */
  lemma ElsewhereTracks(a: A.AgentState, aNext: A.AgentState, p: CString, x: bool, u: CString)
    requires Tracks(a, x, u) && a.emitted <= aNext.emitted
    requires forall e :: e in Since(a, aNext) ==> e.unit != u
    requires aNext.infos - {p} == a.infos - {p} && MakeUnitPath(u) != p
    requires u in A.Wants(aNext) <==> u in A.Wants(a)
    requires WILDCARD in A.Wants(a) ==> WILDCARD in A.Wants(aNext)
    ensures Tracks(aNext, LoadedAfter(x, Since(a, aNext), u), u)
  {
    NotAbout(x, Since(a, aNext), u);
    OtherInfo(a, aNext, p, u);
  }

  lemma VirtualEventsLoad(x: bool, info: A.UnitInfo)
    ensures LoadedAfter(x, A.VirtualEvents(info), info.unit) == (info.loaded || x)
  {
  }

  lemma SubscribeSelfTracks(a: A.AgentState, x: bool, u: CString)
    requires A.TableOk(a) && Tracks(a, x, u) && u != WILDCARD
    ensures a.emitted <= A.OnSubscribe(a, u).0.emitted
    ensures Tracks(A.OnSubscribe(a, u).0, LoadedAfter(x, Since(a, A.OnSubscribe(a, u).0), u), u)
  {
    var aNext := A.OnSubscribe(a, u).0;
    var info := A.Info(a, u);
    A.SubscribeWants(a, u);
    A.EntriesAreOfTheirUnit(a, u);
    A.WantsUnit(a, u);
    assert A.Info(aNext, u).loaded == info.loaded;
    if info.subscribed {
      assert Since(a, aNext) == [];
    } else {
      assert Since(a, aNext) == A.VirtualEvents(info);
      VirtualEventsLoad(x, info);
    }
  }

  /** What is emitted last is what was emitted since. */
  lemma SinceEmit(a: A.AgentState, b: A.AgentState, events: seq<Event>)
    requires b.emitted == a.emitted
    ensures a.emitted <= A.Emit(b, events).emitted && Since(a, A.Emit(b, events)) == events
  {
  }

  lemma SubscribeElsewhere(a: A.AgentState, v: CString)
    requires A.TableOk(a)
    ensures var aNext := A.OnSubscribe(a, v).0;
            && aNext.infos - {MakeUnitPath(v)} == a.infos - {MakeUnitPath(v)}
            && a.emitted <= aNext.emitted
            && forall e :: e in Since(a, aNext) ==> e.unit == v
  {
    if v == WILDCARD {
      SinceEmit(a, a.(wildcard := true), [UnitNew(v, Virtual)]);
    } else {
      SubscribeUnitElsewhere(a, v);
    }
  }

  lemma SubscribeUnitElsewhere(a: A.AgentState, v: CString)
    requires A.TableOk(a) && v != WILDCARD
    ensures var aNext := A.OnSubscribe(a, v).0;
            && aNext.infos - {MakeUnitPath(v)} == a.infos - {MakeUnitPath(v)}
            && a.emitted <= aNext.emitted
            && forall e :: e in Since(a, aNext) ==> e.unit == v
  {
    A.EntriesAreOfTheirUnit(a, v);
    var info := A.Info(a, v);
    SinceEmit(a, A.Store(a, v, info.(subscribed := true)), A.VirtualEvents(info));
    assert forall e :: e in A.VirtualEvents(info) ==> e.unit == v;
  }

  lemma SubscribeOtherTracks(a: A.AgentState, v: CString, x: bool, u: CString)
    requires A.TableOk(a) && Tracks(a, x, u) && u != WILDCARD && v != u
    ensures a.emitted <= A.OnSubscribe(a, v).0.emitted
    ensures Tracks(A.OnSubscribe(a, v).0, LoadedAfter(x, Since(a, A.OnSubscribe(a, v).0), u), u)
  {
    A.SubscribeWants(a, v);
    SubscribeElsewhere(a, v);
    if MakeUnitPath(u) == MakeUnitPath(v) {
      UnitPathsDiffer(u, v);
    }
    ElsewhereTracks(a, A.OnSubscribe(a, v).0, MakeUnitPath(v), x, u);
  }

  lemma {:induction false} NotAbout(b: bool, es: seq<Event>, u: CString)
    requires forall e :: e in es ==> e.unit != u
    ensures LoadedAfter(b, es, u) == b
  {
    if es != [] {
      NotAbout(b, es[..|es| - 1], u);
      assert es[|es| - 1] in es;
    }
  }

  lemma UnsubscribeTracks(a: A.AgentState, v: CString, x: bool, u: CString)
    requires A.TableOk(a) && Tracks(a, x, u) && v != u && v != WILDCARD && u != WILDCARD
    ensures A.OnUnsubscribe(a, v).0.emitted == a.emitted
    ensures Tracks(A.OnUnsubscribe(a, v).0, x, u)
  {
    var aNext := A.OnUnsubscribe(a, v).0;
    A.UnsubscribeWants(a, v);
    if MakeUnitPath(u) == MakeUnitPath(v) {
      UnitPathsDiffer(u, v);
    }
    OtherInfo(a, aNext, MakeUnitPath(v), u);
  }

  lemma TakeTracks(a: A.AgentState, m: AgentMessage, x: bool, u: CString)
    requires A.TableOk(a) && Tracks(a, x, u) && u != WILDCARD
    requires m != Unsubscribe(u) && m != Unsubscribe(WILDCARD)
    ensures a.emitted <= Take(a, m).emitted
    ensures Tracks(Take(a, m), LoadedAfter(x, Since(a, Take(a, m)), u), u)
  {
    match m
    case Subscribe(v) =>
      if v == u {
        SubscribeSelfTracks(a, x, u);
      } else {
        SubscribeOtherTracks(a, v, x, u);
      }
    case Unsubscribe(v) => UnsubscribeTracks(a, v, x, u);
    case _ =>
  }

  /** systemd announces property changes of loaded units only. */
  ghost predicate LoadedStep(a: A.AgentState, aNext: A.AgentState) {
    || (exists u :: aNext == A.OnUnitNew(a, u))
    || (exists p :: aNext == A.OnUnitRemoved(a, p))
    || (exists p, st, sub :: p in a.infos && a.infos[p].loaded && aNext == A.OnUnitChanged(a, p, st, sub))
  }

  lemma InterestedWants(a: A.AgentState, u: CString)
    requires A.TableOk(a) && u != WILDCARD
    ensures A.Interested(a, A.Info(a, u)) <==> u in A.Wants(a) || WILDCARD in A.Wants(a)
  {
    A.WantsUnit(a, u);
    A.WantsWildcard(a);
  }

  lemma UnitNewTracks(a: A.AgentState, v: CString, x: bool, u: CString)
    requires A.TableOk(a) && Tracks(a, x, u) && u != WILDCARD
    ensures a.emitted <= A.OnUnitNew(a, v).emitted
    ensures Tracks(A.OnUnitNew(a, v), LoadedAfter(x, Since(a, A.OnUnitNew(a, v)), u), u)
  {
    var aNext := A.OnUnitNew(a, v);
    A.UnitNewKeeps(a, v);
    A.EntriesAreOfTheirUnit(a, v);
    InterestedWants(a, u);
    if v != u {
      NotAbout(x, Since(a, aNext), u);
      if MakeUnitPath(u) == MakeUnitPath(v) {
        UnitPathsDiffer(u, v);
      }
      OtherInfo(a, aNext, MakeUnitPath(v), u);
    }
  }

  lemma UnitRemovedSelfTracks(a: A.AgentState, x: bool, u: CString)
    requires A.TableOk(a) && Tracks(a, x, u) && u != WILDCARD
    ensures var aNext := A.OnUnitRemoved(a, MakeUnitPath(u));
            a.emitted <= aNext.emitted && Tracks(aNext, LoadedAfter(x, Since(a, aNext), u), u)
  {
    var p := MakeUnitPath(u);
    var aNext := A.OnUnitRemoved(a, p);
    A.UnitRemovedKeeps(a, p);
    A.EntriesAreOfTheirUnit(a, u);
    InterestedWants(a, u);
    if p in a.infos {
      assert !A.Info(aNext, u).loaded;
      assert Since(a, aNext) == if A.Interested(a, a.infos[p]) then [UnitRemoved(u, Real)] else [];
    }
  }

  lemma UnitRemovedElsewhere(a: A.AgentState, p: CString, u: CString)
    requires A.TableOk(a) && p != MakeUnitPath(u)
    ensures var aNext := A.OnUnitRemoved(a, p);
            && aNext.infos - {p} == a.infos - {p}
            && a.emitted <= aNext.emitted
            && forall e :: e in Since(a, aNext) ==> e.unit != u
  {
  }

  lemma UnitRemovedTracks(a: A.AgentState, p: CString, x: bool, u: CString)
    requires A.TableOk(a) && Tracks(a, x, u) && u != WILDCARD
    ensures a.emitted <= A.OnUnitRemoved(a, p).emitted
    ensures Tracks(A.OnUnitRemoved(a, p), LoadedAfter(x, Since(a, A.OnUnitRemoved(a, p)), u), u)
  {
    if p == MakeUnitPath(u) {
      UnitRemovedSelfTracks(a, x, u);
    } else {
      A.UnitRemovedKeeps(a, p);
      UnitRemovedElsewhere(a, p, u);
      ElsewhereTracks(a, A.OnUnitRemoved(a, p), p, x, u);
    }
  }

  lemma UnitChangedElsewhere(a: A.AgentState, p: CString, st: ActiveState, sub: CString, u: CString)
    requires A.TableOk(a) && p != MakeUnitPath(u)
    ensures var aNext := A.OnUnitChanged(a, p, st, sub);
      && aNext.infos - {p} == a.infos - {p}
      && a.emitted <= aNext.emitted
      && forall e :: e in Since(a, aNext) ==> e.unit != u
  {
    var aNext := A.OnUnitChanged(a, p, st, sub);
    if p in a.infos {
      assert a.infos[p].unit != u;
      assert Since(a, aNext) == [] || (|Since(a, aNext)| == 1 && Since(a, aNext)[0].unit == a.infos[p].unit);
    } else {
      assert Since(a, aNext) == [];
    }
  }

  lemma UnitChangedTracks(a: A.AgentState, p: CString, st: ActiveState, sub: CString, x: bool, u: CString)
    requires A.TableOk(a) && Tracks(a, x, u) && u != WILDCARD
    requires p in a.infos && a.infos[p].loaded
    ensures a.emitted <= A.OnUnitChanged(a, p, st, sub).emitted
    ensures Tracks(A.OnUnitChanged(a, p, st, sub), LoadedAfter(x, Since(a, A.OnUnitChanged(a, p, st, sub)), u), u)
  {
    A.UnitChangedKeeps(a, p, st, sub);
    if p == MakeUnitPath(u) {
      A.EntriesAreOfTheirUnit(a, u);
      InterestedWants(a, u);
    } else {
      UnitChangedElsewhere(a, p, st, sub, u);
      ElsewhereTracks(a, A.OnUnitChanged(a, p, st, sub), p, x, u);
    }
  }

  lemma LoadedStepGrows(a: A.AgentState, aNext: A.AgentState)
    requires LoadedStep(a, aNext)
    ensures a.emitted <= aNext.emitted
  {
    if u :| aNext == A.OnUnitNew(a, u) {
    } else if p :| aNext == A.OnUnitRemoved(a, p) {
    } else {
      var p, st, sub :| p in a.infos && a.infos[p].loaded && aNext == A.OnUnitChanged(a, p, st, sub);
    }
  }

  lemma LoadedStepTracks(a: A.AgentState, aNext: A.AgentState, x: bool, u: CString)
    requires A.TableOk(a) && LoadedStep(a, aNext) && Tracks(a, x, u) && u != WILDCARD
    ensures a.emitted <= aNext.emitted
    ensures Tracks(aNext, LoadedAfter(x, Since(a, aNext), u), u)
  {
    if v :| aNext == A.OnUnitNew(a, v) {
      UnitNewTracks(a, v, x, u);
    } else if p :| aNext == A.OnUnitRemoved(a, p) {
      UnitRemovedTracks(a, p, x, u);
    } else {
      var p, st, sub :| p in a.infos && a.infos[p].loaded && aNext == A.OnUnitChanged(a, p, st, sub);
      UnitChangedTracks(a, p, st, sub, x, u);
    }
  }

  // ---------------------------------------------------------------- at the controller

  /** What is cached about a unit; the same as for a new entry when there is none. */
  function Cache(ix: UnitIndex, u: CString): UnitEntry {
    if u in ix then ix[u].(subs := []) else NO_ENTRY
  }

  /** What a step that is not about the node's own events does to its cache: nothing, unless it
      drops the entry, and then the agent is told. */
  ghost predicate CacheKept(n: NodeState, nNext: NodeState, u: CString) {
    && n.online == nNext.online
    && n.sent <= nNext.sent
    && (n.online && Unsubscribe(u) !in nNext.sent[|n.sent|..] ==> Cache(nNext.index, u) == Cache(n.index, u))
    && (Unloaded(n) ==> Unloaded(nNext))
  }

  ghost predicate AllCacheKept(a: seq<NodeState>, b: seq<NodeState>, u: CString) {
    |a| == |b| && forall i :: 0 <= i < |a| ==> CacheKept(a[i], b[i], u)
  }

  lemma CacheKeptTrans(n: NodeState, n1: NodeState, n2: NodeState, u: CString)
    requires CacheKept(n, n1, u) && CacheKept(n1, n2, u)
    ensures CacheKept(n, n2, u)
  {
    assert n2.sent[|n.sent|..] == n1.sent[|n.sent|..] + n2.sent[|n1.sent|..];
  }

  lemma AllCacheKeptTrans(a: seq<NodeState>, b: seq<NodeState>, c: seq<NodeState>, u: CString)
    requires AllCacheKept(a, b, u) && AllCacheKept(b, c, u)
    ensures AllCacheKept(a, c, u)
  {
    forall i | 0 <= i < |a| {
      CacheKeptTrans(a[i], b[i], c[i], u);
    }
  }

  lemma SubscribeUnitCacheKept(n: NodeState, s: Subscription, v: CString, u: CString)
    ensures CacheKept(n, SubscribeUnit(n, s, v), u)
  {
  }

  lemma {:induction false} SubscribeUnitsCacheKept(n: NodeState, s: Subscription, units: seq<CString>, u: CString)
    ensures CacheKept(n, SubscribeUnits(n, s, units), u)
  {
    if units != [] {
      var mid := SubscribeUnits(n, s, units[..|units| - 1]);
      SubscribeUnitsCacheKept(n, s, units[..|units| - 1], u);
      SubscribeUnitCacheKept(mid, s, units[|units| - 1], u);
      CacheKeptTrans(n, mid, SubscribeUnits(n, s, units), u);
    }
  }

  lemma UnsubscribeUnitCacheKept(n: NodeState, s: Subscription, v: CString, u: CString)
    ensures CacheKept(n, UnsubscribeUnit(n, s, v), u)
  {
    var nNext := UnsubscribeUnit(n, s, v);
    if n.online && v == u && u in n.index && u !in nNext.index {
      assert nNext.sent[|n.sent|..][0] == Unsubscribe(u);
    }
  }

  lemma {:induction false} UnsubscribeUnitsCacheKept(n: NodeState, s: Subscription, units: seq<CString>, u: CString)
    ensures CacheKept(n, UnsubscribeUnits(n, s, units), u)
  {
    if units != [] {
      var mid := UnsubscribeUnits(n, s, units[..|units| - 1]);
      UnsubscribeUnitsCacheKept(n, s, units[..|units| - 1], u);
      UnsubscribeUnitCacheKept(mid, s, units[|units| - 1], u);
      CacheKeptTrans(n, mid, UnsubscribeUnits(n, s, units), u);
    }
  }

  lemma AddSubscriptionCacheKept(c: ControllerState, s: Subscription, u: CString)
    ensures AllCacheKept(c.nodes, AddSubscription(c, s).nodes, u)
  {
    forall i | 0 <= i < |c.nodes| {
      SubscribeUnitsCacheKept(c.nodes[i], s, s.units, u);
    }
  }

  lemma RemoveSubscriptionCacheKept(c: ControllerState, s: Subscription, u: CString)
    ensures AllCacheKept(c.nodes, RemoveSubscription(c, s).nodes, u)
  {
    forall i | 0 <= i < |c.nodes| {
      UnsubscribeUnitsCacheKept(c.nodes[i], s, s.units, u);
    }
  }

  lemma RemoveProxyCacheKept(c: ControllerState, i: nat, k: nat, u: CString)
    requires i < |c.nodes| && k < |c.nodes[i].monitors|
    ensures AllCacheKept(c.nodes, RemoveProxy(c, i, k).nodes, u)
  {
    var pm := c.nodes[i].monitors[k];
    var c1 := DropDep(c, pm.target, pm.unit);
    var c2 := RemoveSubscription(c1, pm.subscription);
    assert AllCacheKept(c.nodes, c1.nodes, u);
    RemoveSubscriptionCacheKept(c1, pm.subscription, u);
    AllCacheKeptTrans(c.nodes, c1.nodes, c2.nodes, u);
    assert AllCacheKept(c2.nodes, RemoveProxy(c, i, k).nodes, u);
    AllCacheKeptTrans(c.nodes, c2.nodes, RemoveProxy(c, i, k).nodes, u);
  }

  lemma ProxyRemovedCacheKept(c: ControllerState, i: nat, target: CString, unit: CString, u: CString)
    requires i < |c.nodes|
    ensures AllCacheKept(c.nodes, ProxyRemoved(c, i, target, unit).nodes, u)
  {
    var k := FindProxy(c.nodes[i].monitors, target, unit);
    if k < |c.nodes[i].monitors| {
      RemoveProxyCacheKept(c, i, k, u);
    }
  }

  lemma InstalledCacheKept(c: ControllerState, i: nat, t: nat, s: Subscription, unit: CString, u: CString)
    requires i < |c.nodes| && t < |c.nodes|
    ensures AllCacheKept(c.nodes, Installed(c, i, t, s, unit).nodes, u)
  {
    var c2 := c.(nodes := c.nodes[t := AddDep(c.nodes[t], unit)]);
    assert AllCacheKept(c.nodes, c2.nodes, u);
    AddSubscriptionCacheKept(c2, s, u);
    var c3 := AddSubscription(c2, s);
    AllCacheKeptTrans(c.nodes, c2.nodes, c3.nodes, u);
    assert AllCacheKept(c3.nodes, Installed(c, i, t, s, unit).nodes, u);
    AllCacheKeptTrans(c.nodes, c3.nodes, Installed(c, i, t, s, unit).nodes, u);
  }

  lemma {:induction false} RemoveAllCacheKept(c: ControllerState, i: nat, u: CString)
    requires i < |c.nodes|
    ensures AllCacheKept(c.nodes, RemoveAllProxies(c, i).nodes, u)
    decreases |c.nodes[i].monitors|
  {
    if c.nodes[i].monitors != [] {
      RemoveProxyCacheKept(c, i, 0, u);
      RemoveAllCacheKept(RemoveProxy(c, i, 0), i, u);
      AllCacheKeptTrans(c.nodes, RemoveProxy(c, i, 0).nodes, RemoveAllProxies(c, i).nodes, u);
    }
  }

  /** Node `i` when the agent of node `j` is lost. */
  lemma LostCacheKept(c: ControllerState, cNext: ControllerState, i: nat, j: nat, u: CString)
    requires Inv(c) && Disconnected(c, cNext, j) && i < |c.nodes| && i != j
    ensures i < |cNext.nodes| && CacheKept(c.nodes[i], cNext.nodes[i], u)
  {
    var order: seq<CString>, steps: seq<NodeState> :|
      && IsOrderOf(order, c.nodes[j].index.Keys)
      && Announced(steps, order)
      && steps[0] == c.nodes[j]
      && var cleared := RemoveAllProxies(c.(nodes := c.nodes[j := steps[|order|]]), j);
      cNext == cleared.(nodes := cleared.nodes[j := cleared.nodes[j].(online := false)]);
    RemoveAllCacheKept(c.(nodes := c.nodes[j := steps[|order|]]), j, u);
  }

  /** Every step of the controller that is neither a report nor a new connection leaves the
      cache of connected nodes alone; the node it loses goes quiet. */
  lemma StepCacheKept(c: ControllerState, st: Step, cNext: ControllerState, i: nat, u: CString)
    requires Inv(c) && Next(c, st, cNext) && !st.AgentConnects? && !st.AgentReports?
    requires i < |c.nodes|
    ensures |cNext.nodes| == |c.nodes|
    ensures CacheKept(c.nodes[i], cNext.nodes[i], u) || (!cNext.nodes[i].online && Unloaded(cNext.nodes[i]))
  {
    match st
    case MonitorSubscribes(s) => AddSubscriptionCacheKept(c, s, u);
    case MonitorUnsubscribes(s) => RemoveSubscriptionCacheKept(c, s, u);
    case ProxyAnnounced(j, s, unit) =>
      var t := FindNode(c.nodes, s.node);
      if t < |c.nodes| && s.node in c.nodes[j].allowed {
        var c1 := ProxyRemoved(c, j, s.node, unit);
        ProxyRemovedCacheKept(c, j, s.node, unit, u);
        InstalledCacheKept(c1, j, t, s, unit, u);
        AllCacheKeptTrans(c.nodes, c1.nodes, cNext.nodes, u);
      }
    case ProxyWithdrawn(j, target, unit) => ProxyRemovedCacheKept(c, j, target, unit, u);
    case AgentLost(j) =>
      if i == j {
        LostIndexUnloaded(c, cNext, i);
      } else {
        LostCacheKept(c, cNext, i, j, u);
      }
  }

  // ---------------------------------------------------------------- both together

  /** The connection carried the subscription to `u`, if any, and no take-back. */
  ghost predicate Steady(n: NodeState, p: Peer, u: CString) {
    && n.online && p.attached
    && u !in p.base
    && Unsubscribe(u) !in n.sent
    && Unsubscribe(WILDCARD) !in n.sent
  }

  ghost predicate Follows(n: NodeState, p: Peer, u: CString) {
    && (p.attached ==> p.reported <= |p.agent.emitted|)
    && (!n.online ==> Unloaded(n))
    && (Steady(n, p, u) ==>
          Tracks(p.agent, LoadedAfter(Loaded(n.index, u), p.agent.emitted[p.reported..], u), u))
  }

  ghost predicate AllFollow(c: ControllerState, peers: seq<Peer>, u: CString) {
    |peers| <= |c.nodes| && forall i :: 0 <= i < |peers| ==> Follows(c.nodes[i], peers[i], u)
  }

  ghost predicate FollowInv(s: System, u: CString) {
    SystemInv(s) && AllFollow(s.c, s.peers, u)
  }

  /** A unit the agent wants because of this connection has an entry. */
  lemma SteadyWantsEntry(n: NodeState, p: Peer, u: CString)
    requires PeerOk(p, n) && Told(n) && Steady(n, p, u) && u in A.Wants(p.agent)
    ensures u in n.index
  {
    NeverTakenBack(n.sent[..p.taken], p.base, u);
    WantedStays(n.sent, p.taken, u);
  }

  lemma {:induction false} NeverTakenBack(sent: seq<AgentMessage>, base: set<CString>, u: CString)
    requires u in Wanted(sent, base) && u !in base
    ensures Subscribe(u) in sent
  {
    var k := |sent| - 1;
    if sent[k] != Subscribe(u) {
      NeverTakenBack(sent[..k], base, u);
    }
  }

  lemma {:induction false} WantedStays(sent: seq<AgentMessage>, k: nat, u: CString)
    requires k <= |sent| && Subscribe(u) in sent[..k] && Unsubscribe(u) !in sent
    ensures u in Wanted(sent, {})
  {
    var l := |sent| - 1;
    assert sent[l] in sent;
    if sent[l] != Subscribe(u) {
      assert k <= l || sent[..k] == sent;
      if k > l {
        assert sent == sent[..l] + [sent[l]];
        WantedStays(sent[..l], l, u);
      } else {
        assert sent[..l][..k] == sent[..k];
        WantedStays(sent[..l], k, u);
      }
    }
  }

  lemma ReportFollows(n: NodeState, nNext: NodeState, p: Peer, u: CString)
    requires PeerOk(p, n) && Told(n) && n.online && p.attached && Follows(n, p, u)
    requires p.reported < |p.agent.emitted| && AgentEvent(n, nNext, p.agent.emitted[p.reported])
    ensures Follows(nNext, p.(reported := p.reported + 1), u)
  {
    var es := p.agent.emitted[p.reported..];
    if Steady(n, p, u) {
      LoadedAfterFirst(Loaded(n.index, u), es, u);
      assert es[1..] == p.agent.emitted[p.reported + 1..];
      if u in n.index {
        assert Loaded(nNext.index, u) == LoadEvent(Loaded(n.index, u), es[0], u);
      } else {
        LoadedAfterMonotone(es[1..], u);
        if u in A.Wants(p.agent) {
          SteadyWantsEntry(n, p, u);
        }
      }
    }
  }

  lemma AgentMovesFollows(n: NodeState, p: Peer, a: A.AgentState, taken: nat, u: CString)
    requires Follows(n, p, u) && p.agent.emitted <= a.emitted
    requires Steady(n, p, u) ==>
               var x := LoadedAfter(Loaded(n.index, u), p.agent.emitted[p.reported..], u);
               Tracks(a, LoadedAfter(x, Since(p.agent, a), u), u)
    ensures Follows(n, p.(agent := a, taken := taken), u)
  {
    if p.attached {
      LoadedAfterConcat(Loaded(n.index, u), p.agent.emitted[p.reported..], Since(p.agent, a), u);
      assert p.agent.emitted[p.reported..] + Since(p.agent, a) == a.emitted[p.reported..];
    }
  }

  lemma TakeFollows(n: NodeState, p: Peer, u: CString)
    requires Follows(n, p, u) && PeerOk(p, n) && p.attached && p.taken < |n.sent| && u != WILDCARD
    ensures Follows(n, p.(agent := Take(p.agent, n.sent[p.taken]), taken := p.taken + 1), u)
  {
    var m := n.sent[p.taken];
    assert m in n.sent;
    assert p.agent.emitted <= Take(p.agent, m).emitted;
    if Steady(n, p, u) {
      TakeTracks(p.agent, m, LoadedAfter(Loaded(n.index, u), p.agent.emitted[p.reported..], u), u);
    }
    AgentMovesFollows(n, p, Take(p.agent, m), p.taken + 1, u);
  }

  lemma SystemdFollows(n: NodeState, p: Peer, a: A.AgentState, u: CString)
    requires Follows(n, p, u) && PeerOk(p, n) && LoadedStep(p.agent, a) && u != WILDCARD
    ensures Follows(n, p.(agent := a), u)
  {
    LoadedStepGrows(p.agent, a);
    if Steady(n, p, u) {
      LoadedStepTracks(p.agent, a, LoadedAfter(Loaded(n.index, u), p.agent.emitted[p.reported..], u), u);
    }
    AgentMovesFollows(n, p, a, p.taken, u);
  }

  lemma ControllerMovesFollows(s: System, st: Step, sNext: System, i: nat, u: CString)
    requires FollowInv(s, u) && SystemNext(s, ControllerMoves(st), sNext) && i < |s.peers|
    ensures i < |sNext.c.nodes| && Follows(sNext.c.nodes[i], sNext.peers[i], u)
  {
    StepCacheKept(s.c, st, sNext.c, i, u);
    StepCacheKept(s.c, st, sNext.c, i, WILDCARD);
    var n, nNext := s.c.nodes[i], sNext.c.nodes[i];
    assert Follows(n, s.peers[i], u);
    if CacheKept(n, nNext, u) && Steady(nNext, s.peers[i], u) {
      assert forall k :: 0 <= k < |n.sent| ==> nNext.sent[k] == n.sent[k];
    }
  }

  ghost predicate WellBehaved(s: System, step: SystemStep) {
    step.SystemdMoves? ==> step.i < |s.peers| && LoadedStep(s.peers[step.i].agent, step.agent)
  }

  lemma PeerFollowsNext(s: System, step: SystemStep, sNext: System, i: nat, u: CString)
    requires FollowInv(s, u) && SystemNext(s, step, sNext) && WellBehaved(s, step) && u != WILDCARD
    requires i < |s.peers| && i < |sNext.peers|
    ensures Follows(sNext.c.nodes[i], sNext.peers[i], u)
  {
    assert Follows(s.c.nodes[i], s.peers[i], u) && PeerOk(s.peers[i], s.c.nodes[i]);
    assert Told(s.c.nodes[i]);
    if step.ControllerMoves? {
      ControllerMovesFollows(s, step.step, sNext, i, u);
    } else if i == step.i {
      PeerMoves(s, step, sNext, i, u);
    }
  }

  lemma PeerMoves(s: System, step: SystemStep, sNext: System, i: nat, u: CString)
    requires FollowInv(s, u) && SystemNext(s, step, sNext) && WellBehaved(s, step) && u != WILDCARD
    requires i < |s.peers| && i < |sNext.peers| && !step.ControllerMoves? && step.i == i
    requires Follows(s.c.nodes[i], s.peers[i], u) && PeerOk(s.peers[i], s.c.nodes[i]) && Told(s.c.nodes[i])
    ensures Follows(sNext.c.nodes[i], sNext.peers[i], u)
  {
    match step
    case Connects(_) =>
      assert s.peers[i].agent.emitted[|s.peers[i].agent.emitted|..] == [];
    case Reports(_) => ReportFollows(s.c.nodes[i], sNext.c.nodes[i], s.peers[i], u);
    case Takes(_) => TakeFollows(s.c.nodes[i], s.peers[i], u);
    case SystemdMoves(_, a) => SystemdFollows(s.c.nodes[i], s.peers[i], a, u);
    case _ =>
  }

  lemma PeersFollowNext(s: System, step: SystemStep, sNext: System, u: CString)
    requires FollowInv(s, u) && SystemNext(s, step, sNext) && WellBehaved(s, step) && u != WILDCARD
    requires |sNext.peers| == |s.peers| <= |sNext.c.nodes|
    ensures AllFollow(sNext.c, sNext.peers, u)
  {
    forall i | 0 <= i < |sNext.peers| ensures Follows(sNext.c.nodes[i], sNext.peers[i], u) {
      PeerFollowsNext(s, step, sNext, i, u);
    }
  }

  lemma SamePeers(s: System, step: SystemStep, sNext: System)
    requires SystemInv(s) && SystemNext(s, step, sNext)
    ensures SystemInv(sNext) && |sNext.peers| == |s.peers| <= |sNext.c.nodes|
  {
    SystemNextInv(s, step, sNext);
  }

  lemma FollowNext(s: System, step: SystemStep, sNext: System, u: CString)
    requires FollowInv(s, u) && SystemNext(s, step, sNext) && WellBehaved(s, step) && u != WILDCARD
    ensures FollowInv(sNext, u)
  {
    SamePeers(s, step, sNext);
    PeersFollowNext(s, step, sNext, u);
  }

  ghost predicate WellBehavedRun(states: seq<System>, steps: seq<SystemStep>) {
    && SystemRun(states, steps)
    && forall k :: 0 <= k < |steps| ==> WellBehaved(states[k], steps[k])
  }

  lemma {:induction false} FollowRun(states: seq<System>, steps: seq<SystemStep>, k: nat, u: CString)
    requires WellBehavedRun(states, steps) && k < |states| && u != WILDCARD
    ensures FollowInv(states[k], u)
  {
    if k == 0 {
      InitialInv(states[0].c);
    } else {
      FollowRun(states, steps, k - 1, u);
      FollowNext(states[k - 1], steps[k - 1], states[k], u);
    }
  }

  /** In any reachable state with both directions drained, the cached loaded bit of a unit is
      the agent's, unless the agent already wanted the unit before this connection or the
      connection carried an Unsubscribe for it or for the wildcard.  CacheRaces.dfy has runs
      that show the last two to be needed. */
  lemma CachedLoadedIsAgents(states: seq<System>, steps: seq<SystemStep>, k: nat, i: nat, u: CString)
    requires WellBehavedRun(states, steps) && k < |states| && u != WILDCARD
    requires i < |states[k].peers| && i < |states[k].c.nodes|
    requires Steady(states[k].c.nodes[i], states[k].peers[i], u)
    requires states[k].peers[i].taken == |states[k].c.nodes[i].sent|
    requires states[k].peers[i].reported == |states[k].peers[i].agent.emitted|
    requires u in states[k].c.nodes[i].index
    ensures states[k].c.nodes[i].index[u].loaded <==> A.Info(states[k].peers[i].agent, u).loaded
  {
    FollowRun(states, steps, k, u);
    var n, p := states[k].c.nodes[i], states[k].peers[i];
    assert PeerOk(p, n) && Told(n) && Follows(n, p, u);
    assert n.sent[..p.taken] == n.sent;
    WantedFromBase(n.sent, p.base);
    assert p.agent.emitted[p.reported..] == [];
  }
}
