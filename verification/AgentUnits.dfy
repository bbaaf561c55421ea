/** The agent's table of units and its handlers for subscriptions and systemd events.

    The class Agent updates the table in place, keyed by object path as the agent does; each
    method is proved against the function of the same name on values. */
module AgentUnits {
  import opened CStrings
  import opened ControllerState
  import opened PathEscape

  datatype UnitInfo = UnitInfo(
    unit: CString, subscribed: bool, loaded: bool, state: ActiveState, substate: Option<CString>)

  /** `emitted` are the signals put on the current connection. */
  datatype AgentState = AgentState(infos: map<CString, UnitInfo>, wildcard: bool, emitted: seq<Event>)

  function Substate(info: UnitInfo): CString {
    if info.substate.Some? then info.substate.value else Ascii("invalid")
  }

  /** The entry of a unit, made up when there is none. */
  function Info(a: AgentState, u: CString): UnitInfo {
    var p := MakeUnitPath(u);
    if p in a.infos then a.infos[p] else UnitInfo(u, false, false, Invalid, None)
  }

  function Store(a: AgentState, u: CString, info: UnitInfo): AgentState {
    a.(infos := a.infos[MakeUnitPath(u) := info])
  }

  /** Entries nobody cares about are dropped. */
  function Tidy(a: AgentState, p: CString): AgentState {
    if p in a.infos && !a.infos[p].subscribed && !a.infos[p].loaded then a.(infos := a.infos - {p}) else a
  }

  function Emit(a: AgentState, events: seq<Event>): AgentState {
    a.(emitted := a.emitted + events)
  }

  predicate Interested(a: AgentState, info: UnitInfo) {
    info.subscribed || a.wildcard
  }

  // ---------------------------------------------------------------- handlers

  /** A unit that is loaded already is reported to whoever subscribes to it. */
  function VirtualEvents(info: UnitInfo): seq<Event> {
    if !info.loaded then []
    else if info.state == Invalid then [UnitNew(info.unit, Virtual)]
    else [UnitNew(info.unit, Virtual), UnitStateChanged(info.unit, info.state, Substate(info), Virtual)]
  }

  function OnSubscribe(a: AgentState, u: CString): (r: (AgentState, bool)) {
    if u == WILDCARD then
      if a.wildcard then (a, false)
      else (Emit(a.(wildcard := true), [UnitNew(u, Virtual)]), true)
    else
      var info := Info(a, u);
      if info.subscribed then (Store(a, u, info), false)
      else
        (Emit(Store(a, u, info.(subscribed := true)), VirtualEvents(info)), true)
  }

  function OnUnsubscribe(a: AgentState, u: CString): (r: (AgentState, bool)) {
    if u == WILDCARD then
      if !a.wildcard then (a, false) else (a.(wildcard := false), true)
    else
      var p := MakeUnitPath(u);
      if p !in a.infos || !a.infos[p].subscribed then (a, false)
      else (Tidy(a.(infos := a.infos[p := a.infos[p].(subscribed := false)]), p), true)
  }

  /** systemd loaded a unit: units start inactive. */
  function OnUnitNew(a: AgentState, u: CString): AgentState {
    var info := Info(a, u).(loaded := true, state := Inactive, substate := Some(Ascii("dead")));
    Emit(Store(a, u, info), if Interested(a, info) then [UnitNew(info.unit, Real)] else [])
  }

  function OnUnitRemoved(a: AgentState, p: CString): AgentState {
    if p !in a.infos then a
    else
      var info := a.infos[p].(loaded := false, state := Invalid, substate := None);
      Tidy(Emit(a.(infos := a.infos[p := info]), if Interested(a, info) then [UnitRemoved(info.unit, Real)] else []), p)
  }

  /** systemd reports the state and substate of a unit; only a change is passed on. */
  function OnUnitChanged(a: AgentState, p: CString, st: ActiveState, sub: CString): AgentState {
    if p !in a.infos then a
    else
      var known := a.infos[p];
      var info := known.(state := st, substate := if sub == Substate(known) then known.substate else Some(sub));
      var changed := st != known.state || sub != Substate(known);
      Emit(a.(infos := a.infos[p := info]),
           if changed && Interested(a, info) then [UnitStateChanged(info.unit, st, Substate(info), Real)] else [])
  }

  /** A unit of the list systemd gives when the agent starts. */
  function OnListedUnit(a: AgentState, u: CString, st: ActiveState, sub: CString): AgentState {
    Store(a, u, Info(a, u).(loaded := true, state := st, substate := Some(sub)))
  }

  const NEW_AGENT := AgentState(map[], false, [])

  // ---------------------------------------------------------------- the table

  /** Entries sit under the path of their unit, and each is there for a reason. */
  ghost predicate TableOk(a: AgentState) {
    forall p :: p in a.infos ==>
      && p == MakeUnitPath(a.infos[p].unit)
      && (a.infos[p].subscribed || a.infos[p].loaded)
      && (a.infos[p].subscribed ==> a.infos[p].unit != WILDCARD)
  }

  /** The units the agent reports about; "*" when it reports about all. */
  ghost function Wants(a: AgentState): set<CString> {
    (set p | p in a.infos && a.infos[p].subscribed :: a.infos[p].unit) + if a.wildcard then {WILDCARD} else {}
  }

  lemma WantsUnit(a: AgentState, u: CString)
    requires TableOk(a) && u != WILDCARD
    ensures u in Wants(a) <==> MakeUnitPath(u) in a.infos && a.infos[MakeUnitPath(u)].subscribed
  {
    var p := MakeUnitPath(u);
    if p in a.infos && a.infos[p].subscribed {
      UnitPathsDiffer(a.infos[p].unit, u);
    }
  }

  lemma WantsWildcard(a: AgentState)
    requires TableOk(a)
    ensures WILDCARD in Wants(a) <==> a.wildcard
  {
  }

  /** Two different units never share an entry. */
  lemma EntriesAreOfTheirUnit(a: AgentState, u: CString)
    requires TableOk(a)
    ensures Info(a, u).unit == u
  {
    var p := MakeUnitPath(u);
    if p in a.infos {
      UnitPathsDiffer(a.infos[p].unit, u);
    }
  }

  lemma SubscribeOk(a: AgentState, u: CString)
    requires TableOk(a)
    ensures TableOk(OnSubscribe(a, u).0)
  {
    EntriesAreOfTheirUnit(a, u);
  }

  /** Accepted or refused, after a Subscribe the agent wants the unit and otherwise what it
      wanted before. */
  lemma SubscribeWants(a: AgentState, u: CString)
    requires TableOk(a)
    ensures Wants(OnSubscribe(a, u).0) == Wants(a) + {u}
    ensures OnSubscribe(a, u).1 <==> u !in Wants(a)
  {
    var aNext := OnSubscribe(a, u).0;
    SubscribeOk(a, u);
    EntriesAreOfTheirUnit(a, u);
    WantsWildcard(a);
    WantsWildcard(aNext);
    if u != WILDCARD {
      WantsUnit(a, u);
    }
    forall v | v != WILDCARD
      ensures v in Wants(aNext) <==> v in Wants(a) + {u}
    {
      WantsUnit(a, v);
      WantsUnit(aNext, v);
      if v != u && MakeUnitPath(v) == MakeUnitPath(u) {
        UnitPathsDiffer(v, u);
      }
    }
  }

  lemma UnsubscribeOk(a: AgentState, u: CString)
    requires TableOk(a)
    ensures TableOk(OnUnsubscribe(a, u).0)
  {
  }

  lemma UnsubscribeWants(a: AgentState, u: CString)
    requires TableOk(a)
    ensures Wants(OnUnsubscribe(a, u).0) == Wants(a) - {u}
    ensures OnUnsubscribe(a, u).1 <==> u in Wants(a)
  {
    var aNext := OnUnsubscribe(a, u).0;
    UnsubscribeOk(a, u);
    WantsWildcard(a);
    WantsWildcard(aNext);
    if u != WILDCARD {
      WantsUnit(a, u);
    }
    forall v | v != WILDCARD
      ensures v in Wants(aNext) <==> v in Wants(a) - {u}
    {
      WantsUnit(a, v);
      WantsUnit(aNext, v);
      if v != u && MakeUnitPath(v) == MakeUnitPath(u) {
        UnitPathsDiffer(v, u);
      }
    }
  }

  /** What systemd reports never changes what the agent wants, and keeps the table tidy. */
  lemma UnitNewKeeps(a: AgentState, u: CString)
    requires TableOk(a)
    ensures TableOk(OnUnitNew(a, u)) && Wants(OnUnitNew(a, u)) == Wants(a)
  {
    EntriesAreOfTheirUnit(a, u);
    SameSubscriptions(a, OnUnitNew(a, u));
  }

  lemma ListedUnitKeeps(a: AgentState, u: CString, st: ActiveState, sub: CString)
    requires TableOk(a)
    ensures TableOk(OnListedUnit(a, u, st, sub)) && Wants(OnListedUnit(a, u, st, sub)) == Wants(a)
  {
    EntriesAreOfTheirUnit(a, u);
    SameSubscriptions(a, OnListedUnit(a, u, st, sub));
  }

  lemma UnitRemovedKeeps(a: AgentState, p: CString)
    requires TableOk(a)
    ensures TableOk(OnUnitRemoved(a, p)) && Wants(OnUnitRemoved(a, p)) == Wants(a)
  {
    SameSubscriptions(a, OnUnitRemoved(a, p));
  }

  lemma UnitChangedKeeps(a: AgentState, p: CString, st: ActiveState, sub: CString)
    requires TableOk(a)
    ensures TableOk(OnUnitChanged(a, p, st, sub)) && Wants(OnUnitChanged(a, p, st, sub)) == Wants(a)
  {
    SameSubscriptions(a, OnUnitChanged(a, p, st, sub));
  }

  ghost predicate Subscribed(a: AgentState, p: CString) {
    p in a.infos && a.infos[p].subscribed
  }

  lemma SameSubscriptions(a: AgentState, b: AgentState)
    requires a.wildcard == b.wildcard
    requires forall p :: Subscribed(a, p) <==> Subscribed(b, p)
    requires forall p :: Subscribed(a, p) && Subscribed(b, p) ==> a.infos[p].unit == b.infos[p].unit
    ensures Wants(a) == Wants(b)
  {
    forall u | u in Wants(a) && u !in (if a.wildcard then {WILDCARD} else {}) ensures u in Wants(b) {
      var p :| Subscribed(a, p) && a.infos[p].unit == u;
      assert Subscribed(b, p);
    }
    forall u | u in Wants(b) && u !in (if b.wildcard then {WILDCARD} else {}) ensures u in Wants(a) {
      var p :| Subscribed(b, p) && b.infos[p].unit == u;
      assert Subscribed(a, p);
    }
  }

  // ---------------------------------------------------------------- what is reported

  /** Somebody wants to hear about the unit, by its name or with the wildcard. */
  ghost predicate Heeded(a: AgentState, u: CString) {
    u in Wants(a) || WILDCARD in Wants(a)
  }

  lemma HeededEntry(a: AgentState, p: CString)
    requires TableOk(a) && p in a.infos
    ensures Heeded(a, a.infos[p].unit) <==> a.infos[p].subscribed || a.wildcard
  {
    if a.infos[p].unit != WILDCARD {
      WantsUnit(a, a.infos[p].unit);
    }
    WantsWildcard(a);
  }

  /** A unit that systemd loads is reported exactly if somebody wants to hear about it. */
  lemma NewIsReported(a: AgentState, u: CString)
    requires TableOk(a) && u != WILDCARD
    ensures OnUnitNew(a, u).emitted == a.emitted + if Heeded(a, u) then [UnitNew(u, Real)] else []
  {
    EntriesAreOfTheirUnit(a, u);
    WantsUnit(a, u);
    WantsWildcard(a);
  }

  /** So is one that it removes, if the agent knows it. */
  lemma RemovedIsReported(a: AgentState, p: CString)
    requires TableOk(a)
    ensures OnUnitRemoved(a, p).emitted
              == a.emitted + if p in a.infos && Heeded(a, a.infos[p].unit) then [UnitRemoved(a.infos[p].unit, Real)] else []
  {
    if p in a.infos {
      HeededEntry(a, p);
    } else {
      assert a.emitted + [] == a.emitted;
    }
  }

  /** And a change of the state or the substate of a unit the agent knows, with the new ones. */
  lemma ChangeIsReported(a: AgentState, p: CString, st: ActiveState, sub: CString)
    requires TableOk(a)
    ensures OnUnitChanged(a, p, st, sub).emitted
              == a.emitted
                 + if p in a.infos && Heeded(a, a.infos[p].unit) && (st, sub) != (a.infos[p].state, Substate(a.infos[p]))
                   then [UnitStateChanged(a.infos[p].unit, st, sub, Real)] else []
  {
    if p in a.infos {
      HeededEntry(a, p);
    } else {
      assert a.emitted + [] == a.emitted;
    }
  }

  /** An accepted Subscribe is answered with what is known of the unit, marked as virtual: "*" is
      always new, another unit if it is loaded, and then its state if it has one. */
  lemma SubscribeIsReported(a: AgentState, u: CString)
    requires TableOk(a)
    ensures var e, info := OnSubscribe(a, u).0.emitted, Info(a, u);
      && (u in Wants(a) || (u != WILDCARD && !info.loaded) ==> e == a.emitted)
      && (u == WILDCARD && u !in Wants(a) ==> e == a.emitted + [UnitNew(u, Virtual)])
      && (u != WILDCARD && u !in Wants(a) && info.loaded && info.state == Invalid ==>
            e == a.emitted + [UnitNew(u, Virtual)])
      && (u != WILDCARD && u !in Wants(a) && info.loaded && info.state != Invalid ==>
            e == a.emitted + [UnitNew(u, Virtual), UnitStateChanged(u, info.state, Substate(info), Virtual)])
  {
    EntriesAreOfTheirUnit(a, u);
    WantsWildcard(a);
    if u != WILDCARD {
      WantsUnit(a, u);
    }
    assert a.emitted + [] == a.emitted;
  }

  // ---------------------------------------------------------------- what is known

  /** Different units are at different places of the table. */
  lemma Elsewhere(u: CString, v: CString)
    ensures MakeUnitPath(u) == MakeUnitPath(v) <==> u == v
  {
    if u != v && MakeUnitPath(u) == MakeUnitPath(v) {
      UnitPathsDiffer(u, v);
    }
  }

  /** A unit that systemd loaded is inactive and dead to the agent, and nothing else changes. */
  lemma NewInfo(a: AgentState, u: CString, v: CString)
    requires TableOk(a)
    ensures Info(OnUnitNew(a, u), v)
              == if v == u then Info(a, v).(loaded := true, state := Inactive, substate := Some(Ascii("dead")))
                 else Info(a, v)
  {
    EntriesAreOfTheirUnit(a, u);
    Elsewhere(u, v);
  }

  /** A unit that it removed has no state, and nothing else changes. */
  lemma RemovedInfo(a: AgentState, u: CString, v: CString)
    requires TableOk(a)
    ensures Info(OnUnitRemoved(a, MakeUnitPath(u)), v)
              == if v == u then Info(a, v).(loaded := false, state := Invalid, substate := None) else Info(a, v)
  {
    EntriesAreOfTheirUnit(a, u);
    Elsewhere(u, v);
  }

  /** A unit of the table that it changed has the state it said, and nothing else changes. */
  lemma ChangedInfo(a: AgentState, u: CString, st: ActiveState, sub: CString, v: CString)
    requires TableOk(a) && MakeUnitPath(u) in a.infos
    ensures var info := Info(OnUnitChanged(a, MakeUnitPath(u), st, sub), v);
      && (v != u ==> info == Info(a, v))
      && (v == u ==>
            && info.state == st && Substate(info) == sub
            && info.(state := Info(a, v).state, substate := Info(a, v).substate) == Info(a, v))
  {
    EntriesAreOfTheirUnit(a, u);
    Elsewhere(u, v);
  }

  // ---------------------------------------------------------------- the agent in place

  class Agent {
    var unitInfos: map<CString, UnitInfo>
    var wildcardSubscriptionActive: bool
    var emitted: seq<Event>

    function State(): AgentState
      reads this
    {
      AgentState(unitInfos, wildcardSubscriptionActive, emitted)
    }

    constructor ()
      ensures State() == NEW_AGENT
    {
      unitInfos, wildcardSubscriptionActive, emitted := map[], false, [];
    }

    /** The key of the unit's entry, which exists afterwards. */
    method EnsureUnitInfo(u: CString) returns (p: CString)
      modifies this`unitInfos
      ensures p == MakeUnitPath(u) && p in unitInfos
      ensures unitInfos == old(unitInfos)[p := Info(old(State()), u)]
    {
      p := MakeUnitPath(u);
      if p !in unitInfos {
        unitInfos := unitInfos[p := UnitInfo(u, false, false, Invalid, None)];
      }
    }

    method UpdateUnitInfosFor(p: CString)
      modifies this`unitInfos
      ensures State() == Tidy(old(State()), p)
    {
      if p in unitInfos && !unitInfos[p].subscribed && !unitInfos[p].loaded {
        unitInfos := unitInfos - {p};
      }
    }

    method EmitSignal(e: Event)
      modifies this`emitted
      ensures emitted == old(emitted) + [e]
    {
      emitted := emitted + [e];
    }

    method Subscribe(u: CString) returns (ok: bool)
      modifies this
      ensures (State(), ok) == OnSubscribe(old(State()), u)
    {
      if u == WILDCARD {
        if wildcardSubscriptionActive {
          return false;
        }
        wildcardSubscriptionActive := true;
        EmitSignal(UnitNew(u, Virtual));
        return true;
      }
      var p := EnsureUnitInfo(u);
      var info := unitInfos[p];
      if info.subscribed {
        return false;
      }
      unitInfos := unitInfos[p := info.(subscribed := true)];
      if info.loaded {
        EmitSignal(UnitNew(info.unit, Virtual));
        if info.state != Invalid {
          EmitSignal(UnitStateChanged(info.unit, info.state, Substate(info), Virtual));
        }
      }
      assert unitInfos == old(unitInfos)[p := info.(subscribed := true)];
      assert emitted == old(emitted) + VirtualEvents(info);
      return true;
    }

    method Unsubscribe(u: CString) returns (ok: bool)
      modifies this
      ensures (State(), ok) == OnUnsubscribe(old(State()), u)
    {
      if u == WILDCARD {
        if !wildcardSubscriptionActive {
          return false;
        }
        wildcardSubscriptionActive := false;
        return true;
      }
      var p := MakeUnitPath(u);
      if p !in unitInfos || !unitInfos[p].subscribed {
        return false;
      }
      unitInfos := unitInfos[p := unitInfos[p].(subscribed := false)];
      UpdateUnitInfosFor(p);
      return true;
    }

    method MatchUnitNew(u: CString)
      modifies this
      ensures State() == OnUnitNew(old(State()), u)
    {
      var p := EnsureUnitInfo(u);
      var info := unitInfos[p].(loaded := true, state := Inactive, substate := Some(Ascii("dead")));
      unitInfos := unitInfos[p := info];
      if info.subscribed || wildcardSubscriptionActive {
        EmitSignal(UnitNew(info.unit, Real));
      }
    }

    method MatchUnitRemoved(p: CString)
      modifies this
      ensures State() == OnUnitRemoved(old(State()), p)
    {
      if p !in unitInfos {
        return;
      }
      var info := unitInfos[p].(loaded := false, state := Invalid, substate := None);
      unitInfos := unitInfos[p := info];
      if info.subscribed || wildcardSubscriptionActive {
        EmitSignal(UnitRemoved(info.unit, Real));
      }
      UpdateUnitInfosFor(p);
    }

    method MatchUnitChanged(p: CString, st: ActiveState, sub: CString)
      modifies this
      ensures State() == OnUnitChanged(old(State()), p, st, sub)
    {
      if p !in unitInfos {
        return;
      }
      var info, changed := unitInfos[p], false;
      if st != info.state {
        info := info.(state := st);
        changed := true;
      }
      if sub != Substate(info) {
        info := info.(substate := Some(sub));
        changed := true;
      }
      unitInfos := unitInfos[p := info];
      if changed && (info.subscribed || wildcardSubscriptionActive) {
        EmitSignal(UnitStateChanged(info.unit, info.state, Substate(info), Real));
      }
    }

    method InitUnit(u: CString, state: ActiveState, substate: CString)
      modifies this`unitInfos
      ensures State() == OnListedUnit(old(State()), u, state, substate)
    {
      var p := EnsureUnitInfo(u);
      unitInfos := unitInfos[p := unitInfos[p].(loaded := true, state := state, substate := Some(substate))];
    }

    method InitUnits(listed: seq<(CString, ActiveState, CString)>)
      modifies this`unitInfos
      ensures State() == Listed(old(State()), listed)
    {
      for i := 0 to |listed|
        invariant State() == Listed(old(State()), listed[..i])
      {
        InitUnit(listed[i].0, listed[i].1, listed[i].2);
        assert listed[..i + 1][..i] == listed[..i];
      }
      assert listed[..|listed|] == listed;
    }
  }

  function Listed(a: AgentState, listed: seq<(CString, ActiveState, CString)>): AgentState {
    if listed == [] then a
    else
      var l := listed[|listed| - 1];
      OnListedUnit(Listed(a, listed[..|listed| - 1]), l.0, l.1, l.2)
  }

  lemma {:induction false} ListedOk(listed: seq<(CString, ActiveState, CString)>)
    ensures TableOk(Listed(NEW_AGENT, listed)) && Wants(Listed(NEW_AGENT, listed)) == {}
  {
    if listed != [] {
      var k := |listed| - 1;
      ListedOk(listed[..k]);
      ListedUnitKeeps(Listed(NEW_AGENT, listed[..k]), listed[k].0, listed[k].1, listed[k].2);
    }
  }

  /** Listing a unit changes its own entry and no other. */
  lemma ListedInfo(a: AgentState, u: CString, st: ActiveState, sub: CString, v: CString)
    requires TableOk(a)
    ensures Info(OnListedUnit(a, u, st, sub), v)
              == if v == u then Info(a, u).(loaded := true, state := st, substate := Some(sub)) else Info(a, v)
  {
    if v != u && MakeUnitPath(v) == MakeUnitPath(u) {
      UnitPathsDiffer(v, u);
    }
  }

  lemma UnwantedInfo(a: AgentState, u: CString)
    requires TableOk(a)
    ensures Info(a, u).unit == u
    ensures Info(a, u).subscribed ==> Wants(a) != {}
  {
    EntriesAreOfTheirUnit(a, u);
    var p := MakeUnitPath(u);
    if p in a.infos && a.infos[p].subscribed {
      assert a.infos[p].unit in Wants(a);
    }
  }

  lemma ListedKnows(a: AgentState, l: (CString, ActiveState, CString), u: CString)
    requires TableOk(a) && Wants(a) == {}
    ensures Info(OnListedUnit(a, l.0, l.1, l.2), u)
              == if u == l.0 then UnitInfo(u, false, true, l.1, Some(l.2)) else Info(a, u)
  {
    ListedInfo(a, l.0, l.1, l.2, u);
    UnwantedInfo(a, u);
  }

  /** The last entry of the list for the unit. */
  predicate LastListing(listed: seq<(CString, ActiveState, CString)>, i: nat) {
    i < |listed| && forall j :: i < j < |listed| ==> listed[j].0 != listed[i].0
  }

  lemma {:induction false} ListedLast(listed: seq<(CString, ActiveState, CString)>, i: nat)
    requires LastListing(listed, i)
    ensures Info(Listed(NEW_AGENT, listed), listed[i].0)
              == UnitInfo(listed[i].0, false, true, listed[i].1, Some(listed[i].2))
  {
    var k := |listed| - 1;
    var front := listed[..k];
    ListedOk(front);
    ListedKnows(Listed(NEW_AGENT, front), listed[k], listed[i].0);
    if i < k {
      ListedLast(front, i);
    }
  }

  lemma LastOf(listed: seq<(CString, ActiveState, CString)>, i: nat) returns (j: nat)
    requires i < |listed|
    ensures LastListing(listed, j) && listed[j].0 == listed[i].0
    ensures LastListing(listed, i) ==> j == i
    decreases |listed| - i
  {
    j := i;
    if k :| i < k < |listed| && listed[k].0 == listed[i].0 {
      j := LastOf(listed, k);
    }
  }

  /** A starting agent knows every unit systemd listed as loaded, in the state it was listed with
      last, and wants nothing. */
  lemma StartedAgent(listed: seq<(CString, ActiveState, CString)>, i: nat)
    requires i < |listed|
    ensures TableOk(Listed(NEW_AGENT, listed)) && Wants(Listed(NEW_AGENT, listed)) == {}
    ensures Info(Listed(NEW_AGENT, listed), listed[i].0).loaded
    ensures LastListing(listed, i) ==>
              Info(Listed(NEW_AGENT, listed), listed[i].0)
                == UnitInfo(listed[i].0, false, true, listed[i].1, Some(listed[i].2))
  {
    ListedOk(listed);
    var j := LastOf(listed, i);
    ListedLast(listed, j);
  }
}
