/** What a monitor knows about a unit.  Replaying the events a monitor was handed since it
    joined a unit gives the state the controller has cached, however late it joined. */
module UnitEvents {
  import opened CStrings
  import opened ControllerState
  import opened Sequences

  datatype View = View(loaded: bool, last: Option<(ActiveState, CString)>)

  function Apply(v: View, e: Event): View {
    match e
    case UnitNew(_, _) => v.(loaded := true)
    case UnitStateChanged(_, st, sub, _) => View(true, Some((st, sub)))
    case UnitRemoved(_, _) => v.(loaded := false)
  }

  function See(v: View, o: Observation, m: nat, u: CString): View {
    match o
    case Joined(monitor, unit) => if monitor == m && unit == u then View(false, None) else v
    case Delivered(monitor, e) => if monitor == m && e.unit == u then Apply(v, e) else v
  }

  /** The view of monitor `m` on unit `u`: events from before it joined do not count. */
  function Replay(h: seq<Observation>, m: nat, u: CString): View {
    if h == [] then View(false, None)
    else See(Replay(h[..|h| - 1], m, u), h[|h| - 1], m, u)
  }

  /** The unit "*" is left out of the state comparison: WildcardStateIsNotReported in
      WildcardEntry.dfy is a run in which its state does not follow. */
  predicate Agrees(v: View, e: UnitEntry, u: CString) {
    && v.loaded == e.loaded
    && (u != WILDCARD && v.last.Some? ==> v.last.value.0 == e.state && Some(v.last.value.1) == e.substate)
  }

  ghost predicate Replays(n: NodeState) {
    && (forall u :: u in n.index ==> (n.index[u].state == Invalid || n.index[u].substate.Some?))
    && (forall u, m :: u in n.index && m in Monitors(n.index[u].subs)
          ==> Agrees(Replay(n.observed, m, u), n.index[u], u))
  }

  // ---------------------------------------------------------------- replaying

  lemma {:induction false} ReplayStep(h: seq<Observation>, o: Observation, m: nat, u: CString)
    ensures Replay(h + [o], m, u) == See(Replay(h, m, u), o, m, u)
  {
    assert (h + [o])[..|h|] == h;
  }

  /** Deliveries are idempotent: getting an event through several subscriptions is the same
      as getting it once, and not being in the audience is the same as getting nothing. */
  lemma {:induction false} ReplayDelivered(
    before: seq<Observation>, after: seq<Observation>, audience: set<nat>, e: Event, m: nat, u: CString)
    requires DeliveredTo(before, after, audience, e)
    ensures Replay(after, m, u)
              == if m in audience && u == e.unit then Apply(Replay(before, m, u), e) else Replay(before, m, u)
  {
    ReplaySuffix(before, after[|before|..], e, m, u);
    assert after == before + after[|before|..];
    var d := after[|before|..];
    forall i | 0 <= i < |d| ensures d[i] == after[|before| + i] {
    }
  }

  lemma ApplyTwice(v: View, e: Event)
    ensures Apply(Apply(v, e), e) == Apply(v, e)
  {
  }

  lemma InMore(d: seq<Observation>, o: Observation, x: Observation)
    ensures x in d + [o] <==> x in d || x == o
  {
  }

  lemma {:induction false} ReplaySuffix(before: seq<Observation>, d: seq<Observation>, e: Event, m: nat, u: CString)
    requires forall i :: 0 <= i < |d| ==> d[i].Delivered? && d[i].event == e
    ensures Replay(before + d, m, u)
              == if Delivered(m, e) in d && u == e.unit then Apply(Replay(before, m, u), e) else Replay(before, m, u)
  {
    if d == [] {
      assert before + d == before;
    } else {
      var init, o := d[..|d| - 1], d[|d| - 1];
      ReplaySuffix(before, init, e, m, u);
      assert before + d == before + init + [o];
      ReplayStep(before + init, o, m, u);
      InMore(init, o, Delivered(m, e));
      assert d == init + [o];
      ApplyTwice(Replay(before, m, u), e);
    }
  }

  // ---------------------------------------------------------------- one unit at a time

  /** The view after at most two more observations. */
  function SeeAll(v: View, c: seq<Observation>, m: nat, u: CString): View {
    if c == [] then v else if |c| == 1 then See(v, c[0], m, u) else See(See(v, c[0], m, u), c[1], m, u)
  }

  lemma ReplayMore(h: seq<Observation>, c: seq<Observation>, m: nat, u: CString)
    requires |c| <= 2
    ensures Replay(h + c, m, u) == SeeAll(Replay(h, m, u), c, m, u)
  {
    if |c| == 0 {
      assert h + c == h;
    } else {
      ReplayStep(h, c[0], m, u);
      if |c| == 1 {
        assert h + c == h + [c[0]];
      } else {
        ReplayStep(h + [c[0]], c[1], m, u);
        assert h + c == h + [c[0]] + [c[1]];
      }
    }
  }

  function Joining(e: UnitEntry, s: Subscription, u: CString): seq<Observation> {
    if s.monitor in Monitors(e.subs) then [] else [Joined(s.monitor, u)]
  }

  /** The catch-up brings a monitor that just joined, or was there already, to the cached state. */
  lemma CatchUpAgrees(e: UnitEntry, s: Subscription, u: CString, before: View)
    requires e.state == Invalid || e.substate.Some?
    requires s.monitor in Monitors(e.subs) ==> Agrees(before, e, u)
    ensures Agrees(SeeAll(SeeAll(before, Joining(e, s, u), s.monitor, u), CatchUp(e, s.monitor, u), s.monitor, u), e, u)
  {
  }

  /** Nobody else, and no other unit, is concerned. */
  lemma CatchUpElsewhere(e: UnitEntry, s: Subscription, u: CString, before: View, m: nat, v: CString)
    requires m != s.monitor || v != u
    ensures SeeAll(SeeAll(before, Joining(e, s, u), m, v), CatchUp(e, s.monitor, u), m, v) == before
  {
  }

  lemma SubscribeUnitObserved(n: NodeState, s: Subscription, u: CString, m: nat, v: CString)
    requires Replays(n)
    requires var nNext := SubscribeUnit(n, s, u); v in nNext.index && m in Monitors(nNext.index[v].subs)
    ensures var nNext := SubscribeUnit(n, s, u); Agrees(Replay(nNext.observed, m, v), nNext.index[v], v)
  {
    var e := if u in n.index then n.index[u] else NO_ENTRY;
    ReplayMore(n.observed, Joining(e, s, u), m, v);
    ReplayMore(n.observed + Joining(e, s, u), CatchUp(e, s.monitor, u), m, v);
    var before := Replay(n.observed, m, v);
    if m == s.monitor && v == u {
      CatchUpAgrees(e, s, u, before);
    } else {
      CatchUpElsewhere(e, s, u, before, m, v);
      SameMonitors(n, s, u, m, v);
    }
  }

  lemma SameMonitors(n: NodeState, s: Subscription, u: CString, m: nat, v: CString)
    requires m != s.monitor || v != u
    requires var nNext := SubscribeUnit(n, s, u); v in nNext.index && m in Monitors(nNext.index[v].subs)
    ensures v in n.index && m in Monitors(n.index[v].subs)
    ensures SubscribeUnit(n, s, u).index[v] == n.index[v].(subs := SubscribeUnit(n, s, u).index[v].subs)
  {
  }

  lemma {:induction false} SubscribeUnitsReplays(n: NodeState, s: Subscription, units: seq<CString>)
    requires Replays(n)
    ensures Replays(SubscribeUnits(n, s, units))
  {
    if units != [] {
      var mid := SubscribeUnits(n, s, units[..|units| - 1]);
      SubscribeUnitsReplays(n, s, units[..|units| - 1]);
      var nNext := SubscribeUnit(mid, s, units[|units| - 1]);
      forall v, m | v in nNext.index && m in Monitors(nNext.index[v].subs)
        ensures Agrees(Replay(nNext.observed, m, v), nNext.index[v], v)
      {
        SubscribeUnitObserved(mid, s, units[|units| - 1], m, v);
      }
    }
  }

  /** Nobody else learns anything from a subscription, and nothing about other units. */
  lemma {:induction false} SubscribeUnitsElsewhere(
    n: NodeState, s: Subscription, units: seq<CString>, m: nat, v: CString)
    requires m != s.monitor || v !in units
    ensures Replay(SubscribeUnits(n, s, units).observed, m, v) == Replay(n.observed, m, v)
  {
    if units != [] {
      var init, u := units[..|units| - 1], units[|units| - 1];
      SubscribeUnitsElsewhere(n, s, init, m, v);
      var mid := SubscribeUnits(n, s, init);
      var e := if u in mid.index then mid.index[u] else NO_ENTRY;
      ReplayMore(mid.observed, Joining(e, s, u), m, v);
      ReplayMore(mid.observed + Joining(e, s, u), CatchUp(e, s.monitor, u), m, v);
      CatchUpElsewhere(e, s, u, Replay(mid.observed, m, v), m, v);
    }
  }

  /** The list of a unit, and what is cached about it, after a subscription to some units. */
  lemma {:induction false} SubscribedEntry(n: NodeState, s: Subscription, units: seq<CString>, u: CString)
    ensures var before, nNext := if u in n.index then n.index[u] else NO_ENTRY, SubscribeUnits(n, s, units);
      var after := if u in nNext.index then nNext.index[u] else NO_ENTRY;
      && after == before.(subs := after.subs)
      && (s.monitor in Monitors(after.subs) <==> s.monitor in Monitors(before.subs) || u in units)
  {
    if units != [] {
      var init, v := units[..|units| - 1], units[|units| - 1];
      SubscribedEntry(n, s, init, u);
      assert units == init + [v];
      if u == v {
        var mid := SubscribeUnits(n, s, init);
        var subs := (if v in mid.index then mid.index[v] else NO_ENTRY).subs;
        assert (subs + [s])[|subs|] == s;
      }
    }
  }

  lemma OneUnitShown(n: NodeState, s: Subscription, v: CString, u: CString)
    ensures var e, before := if v in n.index then n.index[v] else NO_ENTRY, Replay(n.observed, s.monitor, u);
      var after := Replay(SubscribeUnit(n, s, v).observed, s.monitor, u);
      && (v != u ==> after == before)
      && (v == u && e.loaded && e.state != Invalid ==>
            after == View(true, Some((e.state, if e.substate.Some? then e.substate.value else Ascii("invalid")))))
      && (v == u && (!e.loaded || e.state == Invalid)
            && (s.monitor in Monitors(e.subs) ==> before == View(e.loaded, None))
          ==> after == View(e.loaded, None))
  {
    var e := if v in n.index then n.index[v] else NO_ENTRY;
    ReplayMore(n.observed, Joining(e, s, v), s.monitor, u);
    ReplayMore(n.observed + Joining(e, s, v), CatchUp(e, s.monitor, v), s.monitor, u);
    if v != u {
      CatchUpElsewhere(e, s, v, Replay(n.observed, s.monitor, u), s.monitor, u);
    }
  }

  /** What a subscriber knows of a unit when it has subscribed: the cached state, whatever that
      is and whether or not it was subscribed before; and one that was not knows nothing else. */
  lemma {:induction false} LateSubscriberKnows(n: NodeState, s: Subscription, units: seq<CString>, u: CString)
    requires u in units
    ensures var e := if u in n.index then n.index[u] else NO_ENTRY;
      var v := Replay(SubscribeUnits(n, s, units).observed, s.monitor, u);
      && (e.loaded && e.state != Invalid ==>
            v == View(true, Some((e.state, if e.substate.Some? then e.substate.value else Ascii("invalid")))))
      && (s.monitor !in Monitors(e.subs) && (!e.loaded || e.state == Invalid) ==> v == View(e.loaded, None))
  {
    var init, v := units[..|units| - 1], units[|units| - 1];
    assert units == init + [v];
    var mid := SubscribeUnits(n, s, init);
    SubscribedEntry(n, s, init, u);
    if u in init {
      LateSubscriberKnows(n, s, init, u);
    }
    OneUnitShown(mid, s, v, u);
  }

  /** Everything handed out for a subscription goes to its monitor, is about its units, and is
      marked as virtual. */
  lemma {:induction false} SubscribeUnitsHands(n: NodeState, s: Subscription, units: seq<CString>)
    ensures var h := SubscribeUnits(n, s, units).observed;
      && n.observed <= h
      && forall k :: |n.observed| <= k < |h| ==>
           && h[k].monitor == s.monitor
           && (h[k].Delivered? ==> h[k].event.unit in units && h[k].event.reason == Virtual)
  {
    if units != [] {
      SubscribeUnitsHands(n, s, units[..|units| - 1]);
      assert units == units[..|units| - 1] + [units[|units| - 1]];
    }
  }

  function About(m: nat, u: CString): Observation -> bool {
    (o: Observation) => o.Delivered? && o.monitor == m && o.event.unit == u
  }

  /** And nothing is handed out more often than the subscription names the unit. */
  lemma {:induction false} SubscribeUnitsHandsOnce(n: NodeState, s: Subscription, units: seq<CString>, u: CString)
    ensures var e := if u in n.index then n.index[u] else NO_ENTRY;
      Tally(SubscribeUnits(n, s, units).observed, About(s.monitor, u))
        == Tally(n.observed, About(s.monitor, u))
           + Count(units, u) * (if !e.loaded then 0 else if e.state == Invalid then 1 else 2)
  {
    if units != [] {
      var init, v := units[..|units| - 1], units[|units| - 1];
      SubscribeUnitsHandsOnce(n, s, init, u);
      SubscribedEntry(n, s, init, u);
      OneUnitHands(SubscribeUnits(n, s, init), s, v, u);
    }
  }

  lemma OneUnitHands(n: NodeState, s: Subscription, v: CString, u: CString)
    ensures var e := if u in n.index then n.index[u] else NO_ENTRY;
      Tally(SubscribeUnit(n, s, v).observed, About(s.monitor, u))
        == Tally(n.observed, About(s.monitor, u))
           + if u != v || !e.loaded then 0 else if e.state == Invalid then 1 else 2
  {
    var e := if v in n.index then n.index[v] else NO_ENTRY;
    var h, p := n.observed + Joining(e, s, v), About(s.monitor, u);
    TallyPush(n.observed, Joined(s.monitor, v), p);
    assert n.observed + [] == n.observed;
    var c := CatchUp(e, s.monitor, v);
    if |c| > 0 {
      TallyPush(h, c[0], p);
    }
    if |c| > 1 {
      TallyPush(h + [c[0]], c[1], p);
      assert h + c == h + [c[0]] + [c[1]];
    } else if |c| == 1 {
      assert h + c == h + [c[0]];
    } else {
      assert h + c == h;
    }
  }

  lemma {:induction false} UnsubscribeUnitsReplays(n: NodeState, s: Subscription, units: seq<CString>)
    requires Replays(n)
    ensures Replays(UnsubscribeUnits(n, s, units))
  {
    if units != [] {
      var mid := UnsubscribeUnits(n, s, units[..|units| - 1]);
      UnsubscribeUnitsReplays(n, s, units[..|units| - 1]);
      var nNext := UnsubscribeUnit(mid, s, units[|units| - 1]);
      forall v | v in nNext.index
        ensures v in mid.index && Monitors(nNext.index[v].subs) <= Monitors(mid.index[v].subs)
      {
      }
    }
  }

  /** Events of the agent: every monitor of the unit follows the cache. */
  lemma AgentEventReplays(n: NodeState, nNext: NodeState, ev: Event)
    requires Replays(n) && AgentEvent(n, nNext, ev)
    ensures Replays(nNext)
  {
    forall u, m | u in nNext.index && m in Monitors(nNext.index[u].subs)
      ensures Agrees(Replay(nNext.observed, m, u), nNext.index[u], u)
    {
      ReplayDelivered(n.observed, nNext.observed, Audience(n.index, ev.unit), ev, m, u);
    }
  }

  lemma AnnouncedUnitReplays(n: NodeState, nNext: NodeState, u: CString)
    requires Replays(n) && AnnouncedUnit(n, nNext, u)
    ensures Replays(nNext)
    ensures nNext.index == n.index[u := Offline(n.index[u])]
    ensures nNext == n.(index := nNext.index, observed := nNext.observed)
  {
    var e := n.index[u];
    if e.loaded {
      var aud := Audience(n.index, u);
      var changed := UnitStateChanged(u, Inactive, Ascii("agent-offline"), Virtual);
      var mid: seq<Observation> :|
        && (if ReportsState(e) then DeliveredTo(n.observed, mid, aud, changed) else mid == n.observed)
        && DeliveredTo(mid, nNext.observed, aud, UnitRemoved(u, Virtual));
      forall v, m | v in nNext.index && m in Monitors(nNext.index[v].subs)
        ensures Agrees(Replay(nNext.observed, m, v), nNext.index[v], v)
      {
        if ReportsState(e) {
          ReplayDelivered(n.observed, mid, aud, changed, m, v);
        }
        ReplayDelivered(mid, nNext.observed, aud, UnitRemoved(u, Virtual), m, v);
      }
    }
  }

  function OfflineIndex(ix: UnitIndex): UnitIndex {
    map u | u in ix :: Offline(ix[u])
  }

  /** The announcement of a lost agent, whatever the order of its units, leaves every cached
      entry unloaded, and so every replay. */
  lemma {:induction false} AnnouncedReplays(steps: seq<NodeState>, order: seq<CString>)
    requires Announced(steps, order)
    requires Replays(steps[0])
    ensures Replays(steps[|order|])
    ensures steps[|order|] == steps[0].(index := steps[|order|].index, observed := steps[|order|].observed)
    ensures steps[|order|].index.Keys == steps[0].index.Keys
    ensures forall u :: u in steps[0].index ==>
              steps[|order|].index[u] == if u in order then Offline(steps[0].index[u]) else steps[0].index[u]
    decreases |order|
  {
    if order != [] {
      var k := |order| - 1;
      AnnouncedReplays(steps[..|order|], order[..k]);
      AnnouncedUnitReplays(steps[k], steps[k + 1], order[k]);
      assert order == order[..k] + [order[k]];
    }
  }

  lemma DisconnectReportsEverythingGone(steps: seq<NodeState>, order: seq<CString>, u: CString, m: nat)
    requires Announced(steps, order) && IsOrderOf(order, steps[0].index.Keys)
    requires Replays(steps[0])
    requires u in steps[0].index && m in Monitors(steps[0].index[u].subs)
    ensures !Replay(steps[|order|].observed, m, u).loaded
    ensures steps[|order|].index == OfflineIndex(steps[0].index)
    ensures forall v :: v in OfflineIndex(steps[0].index) ==> !OfflineIndex(steps[0].index)[v].loaded
  {
    AnnouncedReplays(steps, order);
    var nNext := steps[|order|];
    assert forall v :: v in nNext.index ==> v in order;
    assert nNext.index == OfflineIndex(steps[0].index);
    assert nNext.index[u].subs == steps[0].index[u].subs;
  }
}
