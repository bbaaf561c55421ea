/** The per-node unit index is an incremental view of the controller's flat list of
    subscriptions: each list in it is the flat list filtered and flattened, in order. */
module SubscriptionIndex {
  import opened CStrings
  import opened ControllerState
  import opened Sequences

  /** The subscriptions of `all` that concern unit `u` of node `name`: each one as often as it
      names the unit, in the order of `all`. */
  function Expected(all: seq<Subscription>, name: CString, u: CString): seq<Subscription> {
    if all == [] then []
    else
      var s := all[|all| - 1];
      Expected(all[..|all| - 1], name, u) + if Matches(s, name) then Repeat(s, Count(s.units, u)) else []
  }

  ghost predicate NodeIndexed(all: seq<Subscription>, n: NodeState) {
    && (forall u :: Subs(n.index, u) == Expected(all, n.name, u))
    && (forall u :: u in n.index ==> n.index[u].subs != [])
  }

  ghost predicate Indexed(c: ControllerState) {
    forall i :: 0 <= i < |c.nodes| ==> NodeIndexed(c.all, c.nodes[i])
  }

  // ---------------------------------------------------------------- subscribing

  lemma {:induction false} SubscribeUnitsAppends(n: NodeState, s: Subscription, units: seq<CString>, u: CString)
    ensures Subs(SubscribeUnits(n, s, units).index, u) == Subs(n.index, u) + Repeat(s, Count(units, u))
    ensures (forall v :: v in n.index ==> n.index[v].subs != [])
              ==> forall v :: v in SubscribeUnits(n, s, units).index ==> SubscribeUnits(n, s, units).index[v].subs != []
  {
    if units != [] {
      SubscribeUnitsAppends(n, s, units[..|units| - 1], u);
    }
  }

  lemma SubscribeIndexes(all: seq<Subscription>, n: NodeState, s: Subscription)
    requires NodeIndexed(all, n)
    ensures NodeIndexed(all + [s], if Matches(s, n.name) then SubscribeUnits(n, s, s.units) else n)
  {
    assert (all + [s])[..|all|] == all;
    SubscribeUnitsKeepsRest(n, s, s.units);
    var nNext := if Matches(s, n.name) then SubscribeUnits(n, s, s.units) else n;
    forall u
      ensures Subs(nNext.index, u) == Expected(all + [s], n.name, u)
    {
      SubscribeUnitsAppends(n, s, s.units, u);
    }
    SubscribeUnitsAppends(n, s, s.units, []);
  }

  /** Subscribing touches the index and the two logs only. */
  lemma {:induction false} SubscribeUnitsKeepsRest(n: NodeState, s: Subscription, units: seq<CString>)
    ensures var nNext := SubscribeUnits(n, s, units);
            nNext == n.(index := nNext.index, observed := nNext.observed, sent := nNext.sent)
  {
    if units != [] {
      SubscribeUnitsKeepsRest(n, s, units[..|units| - 1]);
    }
  }

  /** Adding a subscription keeps the index in step with the flat list. */
  lemma AddSubscriptionIndexes(c: ControllerState, s: Subscription)
    requires Indexed(c)
    ensures Indexed(AddSubscription(c, s))
  {
    forall i | 0 <= i < |c.nodes| {
      SubscribeIndexes(c.all, c.nodes[i], s);
    }
  }

  // ---------------------------------------------------------------- unsubscribing

  lemma {:induction false} ExpectedConcat(a: seq<Subscription>, b: seq<Subscription>, name: CString, u: CString)
    ensures Expected(a + b, name, u) == Expected(a, name, u) + Expected(b, name, u)
  {
    if b == [] {
      assert a + b == a;
    } else {
      ExpectedConcat(a, b[..|b| - 1], name, u);
      assert (a + b)[..|a + b| - 1] == a + b[..|b| - 1];
    }
  }

  lemma {:induction false} ExpectedFromList(all: seq<Subscription>, name: CString, u: CString)
    ensures forall s :: s in Expected(all, name, u) ==> s in all
  {
    if all != [] {
      ExpectedFromList(all[..|all| - 1], name, u);
    }
  }

  lemma {:induction false} CountAll<T>(units: seq<T>, u: T)
    ensures Count(units, u) <= |units|
    ensures Count(units, u) > 0 <==> u in units
  {
    if units != [] {
      CountAll(units[..|units| - 1], u);
      assert units == units[..|units| - 1] + [units[|units| - 1]];
    }
  }

  lemma FindSkips<T>(a: seq<T>, x: T, b: seq<T>)
    requires x !in a
    ensures Find(a + [x] + b, x) == |a|
  {
    var s := a + [x] + b;
    assert s[|a|] == x;
    forall j | 0 <= j < |a| ensures s[j] != x {
      assert s[j] == a[j];
    }
  }

  lemma RemoveFromBlock(a: seq<Subscription>, s: Subscription, k: nat, b: seq<Subscription>)
    requires s !in a && k > 0
    ensures s in a + Repeat(s, k) + b
    ensures RemoveFirst(a + Repeat(s, k) + b, s) == a + Repeat(s, k - 1) + b
  {
    var whole := a + Repeat(s, k) + b;
    assert whole == a + [s] + (Repeat(s, k - 1) + b);
    FindSkips(a, s, Repeat(s, k - 1) + b);
    assert whole[|a|] == s;
  }

  lemma UnsubscribeUnitSubs(n: NodeState, s: Subscription, v: CString, u: CString)
    ensures Subs(UnsubscribeUnit(n, s, v).index, u)
            == if v == u then RemoveFirst(Subs(n.index, u), s) else Subs(n.index, u)
  {
  }

  /** Each round of unsubscribing takes one copy out of the block the subscription occupies. */
  lemma {:induction false} UnsubscribeUnitsRemoves(
    n: NodeState, s: Subscription, units: seq<CString>, u: CString, a: seq<Subscription>, k: nat, b: seq<Subscription>)
    requires Subs(n.index, u) == a + Repeat(s, k) + b
    requires s !in a && Count(units, u) <= k
    ensures Subs(UnsubscribeUnits(n, s, units).index, u) == a + Repeat(s, k - Count(units, u)) + b
  {
    if units != [] {
      var init, v := units[..|units| - 1], units[|units| - 1];
      UnsubscribeUnitsRemoves(n, s, init, u, a, k, b);
      UnsubscribeUnitSubs(UnsubscribeUnits(n, s, init), s, v, u);
      if v == u {
        RemoveFromBlock(a, s, k - Count(init, u), b);
      }
    }
  }

  lemma {:induction false} UnsubscribeUnitsKeepsRest(n: NodeState, s: Subscription, units: seq<CString>)
    ensures var nNext := UnsubscribeUnits(n, s, units);
            nNext == n.(index := nNext.index, sent := nNext.sent)
    ensures (forall v :: v in n.index ==> n.index[v].subs != [])
              ==> forall v :: v in UnsubscribeUnits(n, s, units).index ==> UnsubscribeUnits(n, s, units).index[v].subs != []
  {
    if units != [] {
      UnsubscribeUnitsKeepsRest(n, s, units[..|units| - 1]);
    }
  }

  lemma ExpectedWithout(all: seq<Subscription>, s: Subscription, name: CString, u: CString)
    returns (a: seq<Subscription>, b: seq<Subscription>)
    requires NoDuplicates(all) && s in all
    ensures s !in a
    ensures Expected(all, name, u) == a + Repeat(s, if Matches(s, name) then Count(s.units, u) else 0) + b
    ensures Expected(RemoveFirst(all, s), name, u) == a + b
  {
    var i := Find(all, s);
    a, b := Expected(all[..i], name, u), Expected(all[i + 1..], name, u);
    assert all == all[..i] + [s] + all[i + 1..];
    ExpectedConcat(all[..i] + [s], all[i + 1..], name, u);
    ExpectedConcat(all[..i], [s], name, u);
    ExpectedConcat(all[..i], all[i + 1..], name, u);
    ExpectedFromList(all[..i], name, u);
    assert [s][..0] == [];
    assert Expected([s], name, u) == Repeat(s, if Matches(s, name) then Count(s.units, u) else 0);
  }

  function Unsubscribed(n: NodeState, s: Subscription): NodeState {
    if Matches(s, n.name) then UnsubscribeUnits(n, s, s.units) else n
  }

  lemma UnsubscribeIndexesUnit(all: seq<Subscription>, n: NodeState, s: Subscription, u: CString)
    requires NoDuplicates(all) && s in all
    requires Subs(n.index, u) == Expected(all, n.name, u)
    ensures Subs(Unsubscribed(n, s).index, u) == Expected(RemoveFirst(all, s), n.name, u)
  {
    var a, b := ExpectedWithout(all, s, n.name, u);
    BlockGone(a, s, b);
    if Matches(s, n.name) {
      UnsubscribeUnitsRemoves(n, s, s.units, u, a, Count(s.units, u), b);
    }
  }

  lemma BlockGone(a: seq<Subscription>, s: Subscription, b: seq<Subscription>)
    ensures a + Repeat(s, 0) + b == a + b
  {
  }

  lemma UnsubscribeIndexes(all: seq<Subscription>, n: NodeState, s: Subscription)
    requires NodeIndexed(all, n) && NoDuplicates(all) && s in all
    ensures NodeIndexed(RemoveFirst(all, s), Unsubscribed(n, s))
  {
    UnsubscribeUnitsKeepsRest(n, s, s.units);
    forall u
      ensures Subs(Unsubscribed(n, s).index, u) == Expected(RemoveFirst(all, s), n.name, u)
    {
      UnsubscribeIndexesUnit(all, n, s, u);
    }
  }

  /** Removing a listed subscription keeps the index in step with the flat list, whatever
      nodes and units it names and however often it names them. */
  lemma RemoveSubscriptionIndexes(c: ControllerState, s: Subscription)
    requires Indexed(c) && NoDuplicates(c.all) && s in c.all
    ensures Indexed(RemoveSubscription(c, s))
  {
    forall i | 0 <= i < |c.nodes| {
      UnsubscribeIndexes(c.all, c.nodes[i], s);
    }
  }

  /** Taking back the subscription added last restores every list of the index. */
  lemma RemoveUndoesAdd(c: ControllerState, s: Subscription)
    requires Indexed(c) && NoDuplicates(c.all) && s !in c.all
    ensures var cNext := RemoveSubscription(AddSubscription(c, s), s);
            && cNext.all == c.all
            && |cNext.nodes| == |c.nodes|
            && forall i, u :: 0 <= i < |c.nodes| ==> Subs(cNext.nodes[i].index, u) == Subs(c.nodes[i].index, u)
  {
    var c1 := AddSubscription(c, s);
    var cNext := RemoveSubscription(c1, s);
    AddSubscriptionIndexes(c, s);
    RemoveSubscriptionIndexes(c1, s);
    assert c1.all == c.all + [s] + [];
    FindSkips(c.all, s, []);
    assert cNext.all == c.all;
    forall i, u | 0 <= i < |c.nodes|
      ensures Subs(cNext.nodes[i].index, u) == Subs(c.nodes[i].index, u)
    {
      assert NodeIndexed(c.all, c.nodes[i]);
      assert NodeIndexed(cNext.all, cNext.nodes[i]);
      SubscribeUnitsKeepsRest(c.nodes[i], s, s.units);
      UnsubscribeUnitsKeepsRest(c1.nodes[i], s, s.units);
    }
  }

  // ---------------------------------------------------------------- reading the index

  /** How often `s` is on the list of a unit. */
  lemma {:induction false} ExpectedCount(all: seq<Subscription>, name: CString, u: CString, s: Subscription)
    requires NoDuplicates(all)
    ensures multiset(Expected(all, name, u))[s]
              == if s in all && Matches(s, name) then Count(s.units, u) else 0
  {
    if all != [] {
      var init, t := all[..|all| - 1], all[|all| - 1];
      assert all == init + [t];
      ExpectedCount(init, name, u, s);
      RepeatCount(t, Count(t.units, u), s);
    }
  }

  lemma {:induction false} RepeatCount(t: Subscription, k: nat, s: Subscription)
    ensures multiset(Repeat(t, k))[s] == if s == t then k else 0
  {
    if k > 0 {
      RepeatCount(t, k - 1, s);
      assert Repeat(t, k) == Repeat(t, k - 1) + [t];
    }
  }

  /** As a multiset, the list of `u` on node `i` holds every listed subscription to that node
      once per occurrence of the unit, and there is an entry exactly when somebody is
      interested. */
  lemma IndexHolds(c: ControllerState, i: nat, u: CString, s: Subscription)
    requires Indexed(c) && NoDuplicates(c.all) && i < |c.nodes|
    ensures multiset(Subs(c.nodes[i].index, u))[s]
              == if s in c.all && Matches(s, c.nodes[i].name) then Count(s.units, u) else 0
    ensures u in c.nodes[i].index <==>
            exists t :: t in c.all && Matches(t, c.nodes[i].name) && u in t.units
  {
    var n := c.nodes[i];
    assert NodeIndexed(c.all, n);
    ExpectedCount(c.all, n.name, u, s);
    if u in n.index {
      var t := n.index[u].subs[0];
      assert t in Subs(n.index, u);
      assert multiset(Subs(n.index, u))[t] > 0;
      ExpectedCount(c.all, n.name, u, t);
      CountAll(t.units, u);
      assert t in c.all && Matches(t, n.name) && u in t.units;
    }
    if t :| t in c.all && Matches(t, n.name) && u in t.units {
      ExpectedCount(c.all, n.name, u, t);
      CountAll(t.units, u);
      assert multiset(Subs(n.index, u))[t] > 0;
    }
  }
}
