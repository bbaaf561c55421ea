/** What an agent was told on its current connection.  Applied in order, the messages name
    exactly the units the controller has an entry for and the dependencies it counts. */
module ConnectionLog {
  import opened CStrings
  import opened ControllerState
  import opened Sequences
  import opened SubscriptionIndex
  import opened ProxyDependencies

  function WantedAfter(m: AgentMessage, w: set<CString>): set<CString> {
    match m
    case Subscribe(u) => w + {u}
    case Unsubscribe(u) => w - {u}
    case _ => w
  }

  function StartedAfter(m: AgentMessage, d: set<CString>): set<CString> {
    match m
    case StartDep(u) => d + {u}
    case StopDep(u) => d - {u}
    case _ => d
  }

  /** The units subscribed after the messages, starting from `base`. */
  function Wanted(sent: seq<AgentMessage>, base: set<CString>): set<CString> {
    if sent == [] then base else WantedAfter(sent[|sent| - 1], Wanted(sent[..|sent| - 1], base))
  }

  /** The units whose dependency is started after the messages. */
  function Started(sent: seq<AgentMessage>, base: set<CString>): set<CString> {
    if sent == [] then base else StartedAfter(sent[|sent| - 1], Started(sent[..|sent| - 1], base))
  }

  function DependedOn(deps: seq<Dependency>): set<CString> {
    set d | d in deps :: d.unit
  }

  ghost predicate Told(n: NodeState) {
    n.online ==>
      && Wanted(n.sent, {}) == n.index.Keys
      && Started(n.sent, {}) == DependedOn(n.deps)
  }

  lemma TellOneMore(sent: seq<AgentMessage>, m: AgentMessage)
    ensures Wanted(sent + [m], {}) == WantedAfter(m, Wanted(sent, {}))
    ensures Started(sent + [m], {}) == StartedAfter(m, Started(sent, {}))
  {
    assert (sent + [m])[..|sent|] == sent;
  }

  lemma SendTold(n: NodeState, m: AgentMessage)
    ensures n.sent <= Send(n, m).sent
    ensures n.online ==> Wanted(Send(n, m).sent, {}) == WantedAfter(m, Wanted(n.sent, {}))
    ensures n.online ==> Started(Send(n, m).sent, {}) == StartedAfter(m, Started(n.sent, {}))
  {
    TellOneMore(n.sent, m);
  }

  // ---------------------------------------------------------------- exactly what is told

  function Subscribes(order: seq<CString>): seq<AgentMessage> {
    seq(|order|, i requires 0 <= i < |order| => Subscribe(order[i]))
  }

  function Unsubscribes(order: seq<CString>): seq<AgentMessage> {
    seq(|order|, i requires 0 <= i < |order| => Unsubscribe(order[i]))
  }

  /** The units that have no entry yet, each where the list names it first. */
  function NewUnits(known: set<CString>, units: seq<CString>): seq<CString> {
    if units == [] then []
    else
      var init, u := units[..|units| - 1], units[|units| - 1];
      NewUnits(known, init) + if u in known || u in init then [] else [u]
  }

  lemma {:induction false} NewUnitsExactly(known: set<CString>, units: seq<CString>)
    ensures NoDuplicates(NewUnits(known, units))
    ensures forall u :: u in NewUnits(known, units) <==> u in units && u !in known
  {
    if units != [] {
      var init, u := units[..|units| - 1], units[|units| - 1];
      NewUnitsExactly(known, init);
      assert units == init + [u];
    }
  }

  /** A subscription sends one Subscribe for each unit without an entry, in the order of its
      units, and nothing else. */
  lemma {:induction false} SubscribeUnitsSends(n: NodeState, s: Subscription, units: seq<CString>)
    ensures var nNext := SubscribeUnits(n, s, units);
      && nNext.online == n.online
      && (forall u :: u in nNext.index <==> u in n.index || u in units)
      && nNext.sent == n.sent + if n.online then Subscribes(NewUnits(n.index.Keys, units)) else []
  {
    if units != [] {
      var init, u := units[..|units| - 1], units[|units| - 1];
      SubscribeUnitsSends(n, s, init);
      assert units == init + [u];
      SubscribesMore(NewUnits(n.index.Keys, init), u);
    }
  }

  lemma SubscribesMore(order: seq<CString>, u: CString)
    ensures Subscribes(order + [u]) == Subscribes(order) + [Subscribe(u)]
    ensures Unsubscribes(order + [u]) == Unsubscribes(order) + [Unsubscribe(u)]
  {
  }

  function RemoveTimes(l: seq<Subscription>, s: Subscription, k: nat): seq<Subscription> {
    if k == 0 then l else RemoveFirst(RemoveTimes(l, s, k - 1), s)
  }

  lemma RemovedOneOfMany(l: seq<Subscription>, s: Subscription, m: nat)
    requires m > 0
    ensures RemoveFirst(l, s) == Repeat(s, m) <==> l == Repeat(s, m + 1)
  {
    if l == Repeat(s, m + 1) {
      assert Find(l, s) == 0;
      assert l[1..] == Repeat(s, m);
    } else if RemoveFirst(l, s) == Repeat(s, m) {
      MadeOfCopies(l, s, m);
    }
  }

  lemma MadeOfCopies(l: seq<Subscription>, s: Subscription, m: nat)
    requires m > 0 && RemoveFirst(l, s) == Repeat(s, m)
    ensures l == Repeat(s, m + 1)
  {
    var i, r := Find(l, s), RemoveFirst(l, s);
    assert r[0] == s;
    assert i == 0;
    assert l == [l[0]] + r;
  }

  /** What is left after some removals is copies of one subscription only if that was so before. */
  lemma {:induction false} RemoveTimesLeaves(l: seq<Subscription>, s: Subscription, k: nat, m: nat)
    requires m > 0
    ensures RemoveTimes(l, s, k) == Repeat(s, m) <==> l == Repeat(s, m + k)
  {
    if k > 0 {
      RemovedOneOfMany(RemoveTimes(l, s, k - 1), s, m);
      RemoveTimesLeaves(l, s, k - 1, m + 1);
    }
  }

  /** The units whose lists a subscription to `units` is alone on, each where the last of its
      copies there is used up. */
  function LastUnits(ix: UnitIndex, s: Subscription, units: seq<CString>): seq<CString> {
    if units == [] then []
    else
      var u := units[|units| - 1];
      LastUnits(ix, s, units[..|units| - 1]) + if Subs(ix, u) == Repeat(s, Count(units, u)) then [u] else []
  }

  ghost predicate AloneOn(ix: UnitIndex, s: Subscription, units: seq<CString>, u: CString) {
    && Subs(ix, u) != []
    && (forall t :: t in Subs(ix, u) ==> t == s)
    && |Subs(ix, u)| <= Count(units, u)
  }

  lemma {:induction false} LastUnitsExactly(ix: UnitIndex, s: Subscription, units: seq<CString>)
    ensures NoDuplicates(LastUnits(ix, s, units))
    ensures forall u :: u in LastUnits(ix, s, units) <==> AloneOn(ix, s, units, u)
  {
    if units != [] {
      var init, v := units[..|units| - 1], units[|units| - 1];
      LastUnitsExactly(ix, s, init);
      forall u
        ensures u in LastUnits(ix, s, units) <==> AloneOn(ix, s, units, u)
      {
        if AloneOn(ix, s, units, u) && !AloneOn(ix, s, init, u) {
          assert u == v && |Subs(ix, u)| == Count(units, u);
          forall i | 0 <= i < |Subs(ix, u)| ensures Subs(ix, u)[i] == s {
            assert Subs(ix, u)[i] in Subs(ix, u);
          }
          assert Subs(ix, u) == Repeat(s, Count(units, u));
        }
      }
      if Subs(ix, v) == Repeat(s, Count(units, v)) {
        assert !AloneOn(ix, s, init, v);
      }
    }
  }

  lemma {:induction false} UnsubscribeUnitsSubs(n: NodeState, s: Subscription, units: seq<CString>, u: CString)
    ensures Subs(UnsubscribeUnits(n, s, units).index, u) == RemoveTimes(Subs(n.index, u), s, Count(units, u))
  {
    if units != [] {
      UnsubscribeUnitsSubs(n, s, units[..|units| - 1], u);
      UnsubscribeOneMore(n, s, units, u);
    }
  }

  lemma UnsubscribeOneMore(n: NodeState, s: Subscription, units: seq<CString>, u: CString)
    requires units != []
    requires var init := units[..|units| - 1];
      Subs(UnsubscribeUnits(n, s, init).index, u) == RemoveTimes(Subs(n.index, u), s, Count(init, u))
    ensures Subs(UnsubscribeUnits(n, s, units).index, u) == RemoveTimes(Subs(n.index, u), s, Count(units, u))
  {
    var init, v := units[..|units| - 1], units[|units| - 1];
    RemoveOnceMore(UnsubscribeUnits(n, s, init), s, v, u, Subs(n.index, u), Count(init, u));
  }

  lemma RemoveOnceMore(mid: NodeState, s: Subscription, v: CString, u: CString, l: seq<Subscription>, k: nat)
    requires Subs(mid.index, u) == RemoveTimes(l, s, k)
    ensures Subs(UnsubscribeUnit(mid, s, v).index, u) == RemoveTimes(l, s, if v == u then k + 1 else k)
  {
    UnsubscribeUnitSubs(mid, s, v, u);
  }

  /** One copy less on the list of `u`: the agent is told exactly if it was the only one. */
  lemma UnsubscribeUnitSends(n: NodeState, s: Subscription, u: CString)
    ensures var nNext := UnsubscribeUnit(n, s, u);
      && nNext.online == n.online
      && (forall v :: v in nNext.index <==> v in n.index && !(v == u && Subs(n.index, u) == [s]))
      && nNext.sent == n.sent + if n.online && Subs(n.index, u) == [s] then [Unsubscribe(u)] else []
  {
    var l := Subs(n.index, u);
    if l == [s] {
      assert l[0] == s;
      assert RemoveFirst(l, s) == [];
    } else if s in l {
      assert |RemoveFirst(l, s)| == |l| - 1;
    }
  }

  lemma OneCopyLeft(n: NodeState, s: Subscription, units: seq<CString>, u: CString)
    ensures Subs(UnsubscribeUnits(n, s, units).index, u) == [s] <==> Subs(n.index, u) == Repeat(s, Count(units, u) + 1)
  {
    UnsubscribeUnitsSubs(n, s, units, u);
    RemoveTimesLeaves(Subs(n.index, u), s, Count(units, u), 1);
    assert Repeat(s, 1) == [s];
  }

  lemma OneMoreGone(n: NodeState, mid: NodeState, s: Subscription, u: CString, last: seq<CString>)
    requires mid.online == n.online
    requires forall v :: v in mid.index <==> v in n.index && v !in last
    requires mid.sent == n.sent + if n.online then Unsubscribes(last) else []
    ensures var t, lastNow := UnsubscribeUnit(mid, s, u), if Subs(mid.index, u) == [s] then last + [u] else last;
      && t.online == n.online
      && (forall v :: v in t.index <==> v in n.index && v !in lastNow)
      && t.sent == n.sent + if n.online then Unsubscribes(lastNow) else []
  {
    UnsubscribeUnitSends(mid, s, u);
    SubscribesMore(last, u);
  }

  /** Taking a subscription back sends one Unsubscribe for each unit it was alone on, in the
      order in which its last copies go, and nothing else. */
  lemma {:induction false} UnsubscribeUnitsSends(n: NodeState, s: Subscription, units: seq<CString>)
    ensures var nNext, last := UnsubscribeUnits(n, s, units), LastUnits(n.index, s, units);
      && nNext.online == n.online
      && (forall u :: u in nNext.index <==> u in n.index && u !in last)
      && nNext.sent == n.sent + if n.online then Unsubscribes(last) else []
  {
    if units != [] {
      var init, u := units[..|units| - 1], units[|units| - 1];
      var mid := UnsubscribeUnits(n, s, init);
      UnsubscribeUnitsSends(n, s, init);
      OneCopyLeft(n, s, init, u);
      OneMoreGone(n, mid, s, u, LastUnits(n.index, s, init));
    }
  }

  // ---------------------------------------------------------------- log and tables

  lemma {:induction false} SubscribeUnitsTold(n: NodeState, s: Subscription, units: seq<CString>)
    requires Told(n)
    ensures Told(SubscribeUnits(n, s, units))
    ensures n.sent <= SubscribeUnits(n, s, units).sent
  {
    if units != [] {
      var mid, u := SubscribeUnits(n, s, units[..|units| - 1]), units[|units| - 1];
      SubscribeUnitsTold(n, s, units[..|units| - 1]);
      SendTold(mid, Subscribe(u));
    }
  }

  lemma {:induction false} UnsubscribeUnitsTold(n: NodeState, s: Subscription, units: seq<CString>)
    requires Told(n)
    ensures Told(UnsubscribeUnits(n, s, units))
    ensures n.sent <= UnsubscribeUnits(n, s, units).sent
  {
    if units != [] {
      var mid, u := UnsubscribeUnits(n, s, units[..|units| - 1]), units[|units| - 1];
      UnsubscribeUnitsTold(n, s, units[..|units| - 1]);
      SendTold(mid, Unsubscribe(u));
    }
  }

  /** The dependency is started with every proxy, not only with the first. */
  lemma AddDepTold(n: NodeState, u: CString)
    requires Told(n)
    ensures Told(AddDep(n, u))
    ensures AddDep(n, u).sent == n.sent + if n.online then [StartDep(u)] else []
  {
    var i := FindDep(n.deps, u);
    var nNext := AddDep(n, u);
    SendTold(n.(deps := nNext.deps), StartDep(u));
    if i < |n.deps| {
      UpdatedDependedOn(n.deps, i, n.deps[i].count + 1);
    }
  }

  lemma UpdatedDependedOn(deps: seq<Dependency>, i: nat, k: int)
    requires i < |deps|
    ensures DependedOn(deps[i := Dependency(deps[i].unit, k)]) == DependedOn(deps)
  {
    var d := deps[i := Dependency(deps[i].unit, k)];
    forall j | 0 <= j < |deps| ensures deps[j].unit in DependedOn(d) && d[j].unit in DependedOn(deps) {
      assert d[j] in d && deps[j] in deps;
    }
  }

  lemma RemovedDependedOn(deps: seq<Dependency>, i: nat)
    requires DepsWellFormed(deps) && i < |deps|
    ensures DependedOn(RemoveAt(deps, i)) == DependedOn(deps) - {deps[i].unit}
  {
    var d := RemoveAt(deps, i);
    forall j | 0 <= j < |d| ensures d[j] == deps[if j < i then j else j + 1] {
    }
    forall u | u in DependedOn(deps) - {deps[i].unit} ensures u in DependedOn(d) {
      var j :| 0 <= j < |deps| && deps[j].unit == u;
      assert d[if j < i then j else j - 1] == deps[j];
    }
  }

  /** It is stopped with the last one only. */
  lemma RemoveDepTold(n: NodeState, u: CString)
    requires Told(n) && DepsWellFormed(n.deps)
    ensures Told(RemoveDep(n, u))
    ensures RemoveDep(n, u).sent == n.sent + if n.online && DepCount(n.deps, u) == 1 then [StopDep(u)] else []
  {
    var i := FindDep(n.deps, u);
    SendTold(n, StopDep(u));
    if i < |n.deps| {
      RemovedDependedOn(n.deps, i);
      UpdatedDependedOn(n.deps, i, n.deps[i].count - 1);
    }
  }

  // ---------------------------------------------------------------- the greeting

  lemma {:induction false} SubscribesTell(order: seq<CString>)
    ensures Wanted(Subscribes(order), {}) == set u | u in order
    ensures Started(Subscribes(order), {}) == {}
  {
    if order != [] {
      var init := order[..|order| - 1];
      SubscribesTell(init);
      assert Subscribes(order)[..|order| - 1] == Subscribes(init);
      assert order == init + [order[|order| - 1]];
    }
  }

  lemma {:induction false} GreetingTells(order: seq<CString>, deps: seq<Dependency>)
    ensures Wanted(Greeting(order, deps), {}) == set u | u in order
    ensures Started(Greeting(order, deps), {}) == DependedOn(deps)
  {
    SubscribesTell(order);
    if deps == [] {
      assert Greeting(order, deps) == Subscribes(order);
    } else {
      var init, last := deps[..|deps| - 1], deps[|deps| - 1];
      GreetingTells(order, init);
      assert Greeting(order, deps) == Greeting(order, init) + [StartDep(last.unit)];
      TellOneMore(Greeting(order, init), StartDep(last.unit));
      assert deps == init + [last];
      assert DependedOn(deps) == DependedOn(init) + {last.unit};
    }
  }

  lemma {:induction false} CountOnce(s: seq<CString>, u: CString)
    requires NoDuplicates(s)
    ensures Count(s, u) == if u in s then 1 else 0
  {
    if s != [] {
      var front := s[..|s| - 1];
      CountOnce(front, u);
      assert s == front + [s[|s| - 1]];
    }
  }

  lemma {:induction false} CountConcat<T>(s: seq<T>, t: seq<T>, x: T)
    ensures Count(s + t, x) == Count(s, x) + Count(t, x)
  {
    if t == [] {
      assert s + t == s;
    } else {
      CountConcat(s, t[..|t| - 1], x);
      assert (s + t)[..|s + t| - 1] == s + t[..|t| - 1];
    }
  }

  lemma {:induction false} CountMapped<S, T>(s: seq<S>, t: seq<T>, x: S, y: T)
    requires |s| == |t| && forall i :: 0 <= i < |s| ==> (s[i] == x <==> t[i] == y)
    ensures Count(s, x) == Count(t, y)
  {
    if s != [] {
      CountMapped(s[..|s| - 1], t[..|t| - 1], x, y);
    }
  }

  lemma {:induction false} CountNone<T>(s: seq<T>, x: T)
    requires x !in s
    ensures Count(s, x) == 0
  {
    if s != [] {
      CountNone(s[..|s| - 1], x);
    }
  }

  lemma GreetingCounts(order: seq<CString>, deps: seq<Dependency>, u: CString)
    ensures Count(Greeting(order, deps), Subscribe(u)) == Count(order, u)
    ensures Count(Greeting(order, deps), StartDep(u)) == Count(DepUnits(deps), u)
  {
    var g := Greeting(order, deps);
    var subscribes, starts := g[..|order|], g[|order|..];
    assert g == subscribes + starts;
    CountConcat(subscribes, starts, Subscribe(u));
    CountConcat(subscribes, starts, StartDep(u));
    CountMapped(subscribes, order, Subscribe(u), u);
    CountNone(starts, Subscribe(u));
    CountNone(subscribes, StartDep(u));
    CountMapped(starts, DepUnits(deps), StartDep(u), u);
  }

  /** On a new connection each unit with an entry is subscribed once and each dependency is
      started once, and nothing else is sent. */
  lemma ConnectedTellsOnce(n: NodeState, nNext: NodeState, u: CString)
    requires Connected(n, nNext) && DepsWellFormed(n.deps)
    ensures Count(nNext.sent, Subscribe(u)) == if u in n.index then 1 else 0
    ensures Count(nNext.sent, StartDep(u)) == if DepCount(n.deps, u) > 0 then 1 else 0
    ensures forall m :: m in nNext.sent ==> m.Subscribe? || m.StartDep?
  {
    var order :| IsOrderOf(order, n.index.Keys) && nNext == n.(online := true, sent := Greeting(order, n.deps));
    GreetingCounts(order, n.deps, u);
    CountOnce(order, u);
    assert u in order <==> u in n.index;
    CountOnce(DepUnits(n.deps), u);
    DepListed(n.deps, u);
  }

  lemma DepListed(deps: seq<Dependency>, u: CString)
    requires DepsWellFormed(deps)
    ensures u in DepUnits(deps) <==> DepCount(deps, u) > 0
  {
    var i := FindDep(deps, u);
    if i < |deps| {
      assert DepUnits(deps)[i] == u;
    }
  }

  lemma ConnectedTold(n: NodeState, nNext: NodeState)
    requires Connected(n, nNext)
    ensures Told(nNext)
  {
    var order :| IsOrderOf(order, n.index.Keys) && nNext == n.(online := true, sent := Greeting(order, n.deps));
    GreetingTells(order, n.deps);
  }

  // ---------------------------------------------------------------- controller operations

  ghost predicate AllTold(nodes: seq<NodeState>) {
    forall i :: 0 <= i < |nodes| ==> Told(nodes[i])
  }

  ghost predicate SentExtends(a: seq<NodeState>, b: seq<NodeState>) {
    |a| == |b| && forall i :: 0 <= i < |a| ==> a[i].sent <= b[i].sent
  }

  lemma AddSubscriptionTold(c: ControllerState, s: Subscription)
    requires AllTold(c.nodes)
    ensures AllTold(AddSubscription(c, s).nodes)
    ensures SentExtends(c.nodes, AddSubscription(c, s).nodes)
  {
    forall i | 0 <= i < |c.nodes| {
      SubscribeUnitsTold(c.nodes[i], s, s.units);
    }
  }

  lemma RemoveSubscriptionTold(c: ControllerState, s: Subscription)
    requires AllTold(c.nodes)
    ensures AllTold(RemoveSubscription(c, s).nodes)
    ensures SentExtends(c.nodes, RemoveSubscription(c, s).nodes)
  {
    forall i | 0 <= i < |c.nodes| {
      UnsubscribeUnitsTold(c.nodes[i], s, s.units);
    }
  }

  lemma RemoveProxyTold(c: ControllerState, i: nat, k: nat)
    requires AllTold(c.nodes) && TablesWellFormed(c.nodes)
    requires i < |c.nodes| && k < |c.nodes[i].monitors|
    ensures AllTold(RemoveProxy(c, i, k).nodes)
    ensures SentExtends(c.nodes, RemoveProxy(c, i, k).nodes)
  {
    var pm := c.nodes[i].monitors[k];
    var t := FindNode(c.nodes, pm.target);
    RemoveDepTold(c.nodes[t], pm.unit);
    RemoveSubscriptionTold(DropDep(c, pm.target, pm.unit), pm.subscription);
  }

  lemma ProxyRemovedTold(c: ControllerState, i: nat, target: CString, unit: CString)
    requires AllTold(c.nodes) && TablesWellFormed(c.nodes) && i < |c.nodes|
    ensures AllTold(ProxyRemoved(c, i, target, unit).nodes)
    ensures SentExtends(c.nodes, ProxyRemoved(c, i, target, unit).nodes)
  {
    var k := FindProxy(c.nodes[i].monitors, target, unit);
    if k < |c.nodes[i].monitors| {
      RemoveProxyTold(c, i, k);
    }
  }

  lemma ProxyRemovedNames(c: ControllerState, i: nat, target: CString, unit: CString)
    requires i < |c.nodes|
    ensures forall j :: 0 <= j < |c.nodes| ==> ProxyRemoved(c, i, target, unit).nodes[j].name == c.nodes[j].name
  {
    var k := FindProxy(c.nodes[i].monitors, target, unit);
    if k < |c.nodes[i].monitors| {
      RemoveProxyReleases(c, i, k);
    }
  }

  lemma AddDepAllTold(nodes: seq<NodeState>, t: nat, unit: CString)
    requires AllTold(nodes) && t < |nodes|
    ensures AllTold(nodes[t := AddDep(nodes[t], unit)])
    ensures SentExtends(nodes, nodes[t := AddDep(nodes[t], unit)])
  {
    AddDepTold(nodes[t], unit);
  }

  lemma ProxyNewTold(c: ControllerState, i: nat, s: Subscription, unit: CString)
    requires AllTold(c.nodes) && Conserved(c.nodes) && i < |c.nodes|
    ensures AllTold(ProxyNew(c, i, s, unit).nodes)
    ensures SentExtends(c.nodes, ProxyNew(c, i, s, unit).nodes)
  {
    var t := FindNode(c.nodes, s.node);
    if t < |c.nodes| && s.node in c.nodes[i].allowed {
      var c1 := ProxyRemoved(c, i, s.node, unit);
      ProxyRemovedTold(c, i, s.node, unit);
      AddDepAllTold(c1.nodes, t, unit);
      AddSubscriptionTold(c1.(nodes := c1.nodes[t := AddDep(c1.nodes[t], unit)]), s);
    }
  }

  lemma DropDepSends(c: ControllerState, target: CString, unit: CString, j: nat)
    requires j < |c.nodes|
    ensures var n, nNext := c.nodes[j], DropDep(c, target, unit).nodes[j];
      && nNext.index == n.index && nNext.online == n.online && nNext.name == n.name
      && nNext.sent == n.sent
           + if n.online && j == FindNode(c.nodes, target) && DepCount(n.deps, unit) == 1 then [StopDep(unit)] else []
  {
  }

  lemma RemoveSubscriptionSends(c: ControllerState, s: Subscription, j: nat)
    requires j < |c.nodes|
    ensures var n := c.nodes[j];
      RemoveSubscription(c, s).nodes[j].sent
        == n.sent + if n.online && Matches(s, n.name) then Unsubscribes(LastUnits(n.index, s, s.units)) else []
  {
    UnsubscribeUnitsSends(c.nodes[j], s, s.units);
  }

  /** What the agents are told when a proxy monitor goes, a replaced duplicate included: the
      target's is told to stop the dependency with the last one, and each agent the monitor
      subscribed at is told the units nobody else wants there. */
  lemma RemoveProxySends(c: ControllerState, i: nat, k: nat, j: nat)
    requires i < |c.nodes| && k < |c.nodes[i].monitors| && j < |c.nodes|
    ensures var pm, n := c.nodes[i].monitors[k], c.nodes[j];
      var stops := n.online && j == FindNode(c.nodes, pm.target) && DepCount(n.deps, pm.unit) == 1;
      var tells := n.online && Matches(pm.subscription, n.name);
      RemoveProxy(c, i, k).nodes[j].sent
        == n.sent + (if stops then [StopDep(pm.unit)] else [])
           + if tells then Unsubscribes(LastUnits(n.index, pm.subscription, pm.subscription.units)) else []
  {
    var pm := c.nodes[i].monitors[k];
    DropDepSends(c, pm.target, pm.unit, j);
    RemoveSubscriptionSends(DropDep(c, pm.target, pm.unit), pm.subscription, j);
  }

  /** An accepted proxy has the agent of its target told to start the dependency, and to
      report the unit if nobody wanted that yet, after a duplicate is gone. */
  lemma ProxyNewSends(c: ControllerState, i: nat, s: Subscription, unit: CString)
    requires i < |c.nodes| && FindNode(c.nodes, s.node) < |c.nodes| && s.node in c.nodes[i].allowed
    ensures var t := FindNode(c.nodes, s.node);
      var target := ProxyRemoved(c, i, s.node, unit).nodes[t];
      ProxyNew(c, i, s, unit).nodes[t].sent == target.sent
        + if target.online then [StartDep(unit)] + Subscribes(NewUnits(target.index.Keys, s.units)) else []
  {
    var t := FindNode(c.nodes, s.node);
    var target := ProxyRemoved(c, i, s.node, unit).nodes[t];
    ProxyRemovedNames(c, i, s.node, unit);
    SubscribeUnitsSends(AddDep(target, unit), s, s.units);
  }

  lemma {:induction false} RemoveAllProxiesTold(c: ControllerState, i: nat)
    requires AllTold(c.nodes) && Conserved(c.nodes) && i < |c.nodes|
    ensures AllTold(RemoveAllProxies(c, i).nodes)
    ensures SentExtends(c.nodes, RemoveAllProxies(c, i).nodes)
    decreases |c.nodes[i].monitors|
  {
    if c.nodes[i].monitors != [] {
      RemoveProxyTold(c, i, 0);
      RemoveProxyConserves(c, i, 0);
      RemoveAllProxiesTold(RemoveProxy(c, i, 0), i);
    }
  }

  // ---------------------------------------------------------------- agents with a past

  /** An agent that kept subscriptions from earlier connections ends up with all that is
      wanted and at most what it kept on top; one that started empty ends up exact. */
  lemma {:induction false} WantedFromBase(sent: seq<AgentMessage>, base: set<CString>)
    ensures Wanted(sent, {}) <= Wanted(sent, base) <= Wanted(sent, {}) + base
  {
    if sent != [] {
      WantedFromBase(sent[..|sent| - 1], base);
    }
  }
}
