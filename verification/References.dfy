/** Reference counts of monitors and their subscriptions.  An address that is not in a map is
    freed memory, and every lookup below requires a live address: that the functions are called
    where that holds is the absence of a use after free, and of a second free. */
module References {
  import opened CStrings
  import opened Sequences

  type Address = nat

  datatype SubscriptionObject = SubscriptionObject(refs: int, id: nat, monitor: Address)

  /** `exported` says that clients can reach the monitor. */
  datatype MonitorObject = MonitorObject(refs: int, owner: CString, subscriptions: seq<Address>, exported: bool)

  /** `all` is the controller's list of subscriptions and `listed` its list of monitors. */
  datatype Heap = Heap(
    subs: map<Address, SubscriptionObject>, mons: map<Address, MonitorObject>,
    all: seq<Address>, listed: seq<Address>, next: Address)

  function One(b: bool): int {
    if b then 1 else 0
  }

  /** The live subscriptions that point to the monitor. */
  function Of(h: Heap, m: Address): set<Address> {
    set a | a in h.subs && h.subs[a].monitor == m
  }

  function Subscriptions(h: Heap, m: Address): seq<Address> {
    if m in h.mons then h.mons[m].subscriptions else []
  }

  // ---------------------------------------------------------------- the invariant

  ghost predicate ListsOk(h: Heap) {
    && NoDuplicates(h.all) && NoDuplicates(h.listed)
    && (forall a :: a in h.all ==> a in h.subs)
    && (forall m :: m in h.listed ==> m in h.mons)
    && (forall a :: a in h.subs ==> a < h.next && a !in h.mons)
    && (forall m :: m in h.mons ==> m < h.next)
    && (forall m :: m in h.mons ==> NoDuplicates(h.mons[m].subscriptions))
    && (forall m, a :: m in h.mons && a in h.mons[m].subscriptions ==> a in h.subs && h.subs[a].monitor == m)
  }

  /** The count of a subscription is the number of lists it is on, plus what running code holds. */
  ghost predicate SubsCounted(h: Heap, held: multiset<Address>) {
    && (forall a :: a in h.subs ==> h.subs[a].monitor in h.mons)
    && (forall a :: a in h.subs ==>
          0 < h.subs[a].refs == One(a in h.all) + One(a in Subscriptions(h, h.subs[a].monitor)) + held[a])
  }

  /** The count of a monitor is one if it is listed, one for each live subscription that points
      to it, and what running code holds. */
  ghost predicate MonsCounted(h: Heap, held: multiset<Address>) {
    forall m :: m in h.mons ==> 0 < h.mons[m].refs == One(m in h.listed) + |Of(h, m)| + held[m]
  }

  ghost predicate Counted(h: Heap, held: multiset<Address>) {
    ListsOk(h) && SubsCounted(h, held) && MonsCounted(h, held)
  }

  /** Between calls nothing is held and everything is on the lists it belongs on. */
  ghost predicate Valid(h: Heap) {
    && Counted(h, multiset{})
    && (forall a :: a in h.subs ==> a in h.all && a in Subscriptions(h, h.subs[a].monitor))
    && (forall m :: m in h.mons ==> m in h.listed)
  }

  // ---------------------------------------------------------------- the reference operations

  function MonitorRef(h: Heap, m: Address): Heap
    requires m in h.mons
  {
    h.(mons := h.mons[m := h.mons[m].(refs := h.mons[m].refs + 1)])
  }

  function MonitorUnref(h: Heap, m: Address): Heap
    requires m in h.mons
  {
    var left := h.mons[m].refs - 1;
    if left != 0 then h.(mons := h.mons[m := h.mons[m].(refs := left)]) else h.(mons := h.mons - {m})
  }

  /** The last reference of a subscription gives back the one it holds to its monitor. */
  function SubscriptionUnref(h: Heap, a: Address): Heap
    requires a in h.subs && h.subs[a].monitor in h.mons
  {
    var left := h.subs[a].refs - 1;
    if left != 0 then h.(subs := h.subs[a := h.subs[a].(refs := left)])
    else MonitorUnref(h.(subs := h.subs - {a}), h.subs[a].monitor)
  }

  /** controller_remove_subscription, as far as references go */
  function RemovedFromAll(h: Heap, a: Address): Heap
    requires a in h.subs && h.subs[a].monitor in h.mons
  {
    SubscriptionUnref(h.(all := RemoveFirst(h.all, a)), a)
  }

  /** LIST_REMOVE from the monitor's list, and the reference that list had */
  function RemovedFromMonitor(h: Heap, m: Address, a: Address): Heap
    requires m in h.mons && a in h.subs && h.subs[a].monitor in h.mons
  {
    SubscriptionUnref(h.(mons := h.mons[m := h.mons[m].(subscriptions := RemoveFirst(h.mons[m].subscriptions, a))]), a)
  }

  // ---------------------------------------------------------------- what they keep

  function WithRefs(h: Heap, m: Address, refs: int): Heap
    requires m in h.mons
  {
    h.(mons := h.mons[m := h.mons[m].(refs := refs)])
  }

  lemma WithRefsLists(h: Heap, m: Address, refs: int)
    requires ListsOk(h) && m in h.mons
    ensures ListsOk(WithRefs(h, m, refs))
  {
  }

  lemma WithRefsSubs(h: Heap, m: Address, refs: int, held: multiset<Address>, heldNext: multiset<Address>)
    requires SubsCounted(h, held) && m in h.mons && m !in h.subs
    requires forall x :: x != m ==> heldNext[x] == held[x]
    ensures SubsCounted(WithRefs(h, m, refs), heldNext)
  {
    assert forall x :: Subscriptions(WithRefs(h, m, refs), x) == Subscriptions(h, x);
  }

  lemma WithRefsMons(h: Heap, m: Address, refs: int, held: multiset<Address>, heldNext: multiset<Address>)
    requires MonsCounted(h, held) && m in h.mons
    requires forall x :: x != m ==> heldNext[x] == held[x]
    requires refs == h.mons[m].refs - held[m] + heldNext[m] && refs > 0
    ensures MonsCounted(WithRefs(h, m, refs), heldNext)
  {
    assert forall x :: Of(WithRefs(h, m, refs), x) == Of(h, x);
  }

  lemma WithRefsKeeps(h: Heap, m: Address, refs: int, held: multiset<Address>, heldNext: multiset<Address>)
    requires Counted(h, held) && m in h.mons
    requires forall x :: x != m ==> heldNext[x] == held[x]
    requires refs == h.mons[m].refs - held[m] + heldNext[m] && refs > 0
    ensures Counted(WithRefs(h, m, refs), heldNext)
  {
    WithRefsLists(h, m, refs);
    WithRefsSubs(h, m, refs, held, heldNext);
    WithRefsMons(h, m, refs, held, heldNext);
  }

  lemma MonitorRefKeeps(h: Heap, m: Address, held: multiset<Address>)
    requires Counted(h, held) && m in h.mons
    ensures Counted(MonitorRef(h, m), held + multiset{m})
  {
    WithRefsKeeps(h, m, h.mons[m].refs + 1, held, held + multiset{m});
  }

  /** Whether someone other than the caller still refers to the monitor. */
  predicate Kept(h: Heap, m: Address) {
    m in h.listed || Of(h, m) != {}
  }

  lemma FreedMonitorLists(h: Heap, m: Address)
    requires ListsOk(h) && m in h.mons && m !in h.listed
    ensures ListsOk(h.(mons := h.mons - {m}))
  {
  }

  lemma FreedMonitorSubs(h: Heap, m: Address, held: multiset<Address>)
    requires SubsCounted(h, held) && m in h.mons && m !in h.subs && Of(h, m) == {}
    ensures SubsCounted(h.(mons := h.mons - {m}), held - multiset{m})
  {
    var t := h.(mons := h.mons - {m});
    forall a | a in h.subs ensures h.subs[a].monitor != m {
      assert a !in Of(h, m);
    }
    assert forall x :: x != m ==> Subscriptions(t, x) == Subscriptions(h, x);
  }

  lemma FreedMonitorMons(h: Heap, m: Address, held: multiset<Address>)
    requires MonsCounted(h, held) && m in h.mons
    ensures MonsCounted(h.(mons := h.mons - {m}), held - multiset{m})
  {
    assert forall x :: Of(h.(mons := h.mons - {m}), x) == Of(h, x);
  }

  lemma MonitorRefsOf(h: Heap, m: Address, held: multiset<Address>)
    requires MonsCounted(h, held) && m in h.mons && held[m] > 0
    ensures h.mons[m].refs > 1 <==> Kept(h, m) || held[m] > 1
    ensures h.mons[m].refs > 0
  {
    assert Of(h, m) != {} <==> |Of(h, m)| > 0;
  }

  lemma MonitorUnrefKeeps(h: Heap, m: Address, held: multiset<Address>)
    requires Counted(h, held) && m in h.mons && held[m] > 0
    ensures Counted(MonitorUnref(h, m), held - multiset{m})
    ensures m in MonitorUnref(h, m).mons <==> Kept(h, m) || held[m] > 1
  {
    var left := h.mons[m].refs - 1;
    MonitorRefsOf(h, m, held);
    if left != 0 {
      WithRefsKeeps(h, m, left, held, held - multiset{m});
    } else {
      FreedMonitorLists(h, m);
      FreedMonitorSubs(h, m, held);
      FreedMonitorMons(h, m, held);
    }
  }

  // ---- subscriptions

  function WithSubRefs(h: Heap, a: Address, refs: int): Heap
    requires a in h.subs
  {
    h.(subs := h.subs[a := h.subs[a].(refs := refs)])
  }

  lemma WithSubRefsLists(h: Heap, a: Address, refs: int)
    requires ListsOk(h) && a in h.subs
    ensures ListsOk(WithSubRefs(h, a, refs))
  {
  }

  lemma WithSubRefsSubs(h: Heap, a: Address, refs: int, held: multiset<Address>, heldNext: multiset<Address>)
    requires SubsCounted(h, held) && a in h.subs
    requires forall x :: x != a ==> heldNext[x] == held[x]
    requires refs == h.subs[a].refs - held[a] + heldNext[a] && refs > 0
    ensures SubsCounted(WithSubRefs(h, a, refs), heldNext)
  {
    assert forall x :: Subscriptions(WithSubRefs(h, a, refs), x) == Subscriptions(h, x);
  }

  lemma WithSubRefsMons(h: Heap, a: Address, refs: int, held: multiset<Address>, heldNext: multiset<Address>)
    requires MonsCounted(h, held) && a in h.subs && a !in h.mons
    requires forall x :: x != a ==> heldNext[x] == held[x]
    ensures MonsCounted(WithSubRefs(h, a, refs), heldNext)
  {
    assert forall x :: Of(WithSubRefs(h, a, refs), x) == Of(h, x);
  }

  lemma WithSubRefsKeeps(h: Heap, a: Address, refs: int, held: multiset<Address>, heldNext: multiset<Address>)
    requires Counted(h, held) && a in h.subs
    requires forall x :: x != a ==> heldNext[x] == held[x]
    requires refs == h.subs[a].refs - held[a] + heldNext[a] && refs > 0
    ensures Counted(WithSubRefs(h, a, refs), heldNext)
  {
    WithSubRefsLists(h, a, refs);
    WithSubRefsSubs(h, a, refs, held, heldNext);
    WithSubRefsMons(h, a, refs, held, heldNext);
  }

  lemma FreedSubLists(h: Heap, a: Address)
    requires ListsOk(h) && a in h.subs && a !in h.all && a !in Subscriptions(h, h.subs[a].monitor)
    ensures ListsOk(h.(subs := h.subs - {a}))
  {
  }

  lemma FreedSubSubs(h: Heap, a: Address, held: multiset<Address>)
    requires SubsCounted(h, held) && a in h.subs && h.subs[a].monitor !in h.subs
    ensures SubsCounted(h.(subs := h.subs - {a}), held - multiset{a} + multiset{h.subs[a].monitor})
  {
    assert forall x :: Subscriptions(h.(subs := h.subs - {a}), x) == Subscriptions(h, x);
  }

  lemma FreedSubMons(h: Heap, a: Address, held: multiset<Address>)
    requires MonsCounted(h, held) && a in h.subs && a !in h.mons
    ensures MonsCounted(h.(subs := h.subs - {a}), held - multiset{a} + multiset{h.subs[a].monitor})
  {
    var t, m := h.(subs := h.subs - {a}), h.subs[a].monitor;
    assert a in Of(h, m) && Of(t, m) == Of(h, m) - {a};
    assert forall x :: x != m ==> Of(t, x) == Of(h, x);
  }

  lemma FreedSubKeeps(h: Heap, a: Address, held: multiset<Address>)
    requires Counted(h, held) && a in h.subs && a !in h.all && a !in Subscriptions(h, h.subs[a].monitor)
    ensures Counted(h.(subs := h.subs - {a}), held - multiset{a} + multiset{h.subs[a].monitor})
    ensures Of(h.(subs := h.subs - {a}), h.subs[a].monitor) == Of(h, h.subs[a].monitor) - {a}
  {
    FreedSubLists(h, a);
    FreedSubSubs(h, a, held);
    FreedSubMons(h, a, held);
  }

  predicate OnList(h: Heap, a: Address) {
    a in h.all || (a in h.subs && a in Subscriptions(h, h.subs[a].monitor))
  }

  lemma HeldBack(held: multiset<Address>, a: Address, m: Address)
    ensures held - multiset{a} + multiset{m} - multiset{m} == held - multiset{a}
  {
  }

  lemma LastSubscriptionRef(h: Heap, a: Address, held: multiset<Address>)
    requires Counted(h, held) && a in h.subs && !OnList(h, a)
    ensures Counted(MonitorUnref(h.(subs := h.subs - {a}), h.subs[a].monitor), held - multiset{a})
  {
    var m := h.subs[a].monitor;
    FreedSubKeeps(h, a, held);
    MonitorUnrefKeeps(h.(subs := h.subs - {a}), m, held - multiset{a} + multiset{m});
    HeldBack(held, a, m);
  }

  lemma RefsOf(h: Heap, a: Address, held: multiset<Address>)
    requires SubsCounted(h, held) && a in h.subs && held[a] > 0
    ensures h.subs[a].refs > 1 <==> OnList(h, a) || held[a] > 1
    ensures h.subs[a].refs > 0 && h.subs[a].monitor in h.mons
  {
  }

  /** The subscription is freed with its last reference, and then gives its own one back. */
  lemma SubscriptionUnrefKeeps(h: Heap, a: Address, held: multiset<Address>)
    requires Counted(h, held) && a in h.subs && held[a] > 0
    ensures Counted(SubscriptionUnref(h, a), held - multiset{a})
    ensures a in SubscriptionUnref(h, a).subs <==> OnList(h, a) || held[a] > 1
  {
    RefsOf(h, a, held);
    if h.subs[a].refs > 1 {
      WithSubRefsKeeps(h, a, h.subs[a].refs - 1, held, held - multiset{a});
    } else {
      LastSubscriptionRef(h, a, held);
    }
  }

  // ---- lists: what leaves a list was referred to by it, and is then held by the caller

  lemma RemovedMembers(s: seq<Address>, a: Address)
    requires NoDuplicates(s) && a in s
    ensures NoDuplicates(RemoveFirst(s, a)) && forall x :: x in RemoveFirst(s, a) <==> x in s && x != a
  {
    var i, r := Find(s, a), RemoveFirst(s, a);
    assert forall j :: 0 <= j < |r| ==> r[j] == if j < i then s[j] else s[j + 1];
    forall x | x in s && x != a ensures x in r {
      var j :| 0 <= j < |s| && s[j] == x;
      assert r[if j < i then j else j - 1] == x;
    }
  }

  lemma AppendedMembers(s: seq<Address>, a: Address)
    requires NoDuplicates(s) && a !in s
    ensures NoDuplicates(s + [a]) && forall x :: x in s + [a] <==> x in s || x == a
  {
  }

  lemma LeavesAll(h: Heap, a: Address, held: multiset<Address>)
    requires Counted(h, held) && a in h.all
    ensures Counted(h.(all := RemoveFirst(h.all, a)), held + multiset{a})
  {
    LeavesAllLists(h, a);
    LeavesAllSubs(h, a, held);
    LeavesAllMons(h, a, held);
  }

  lemma LeavesAllLists(h: Heap, a: Address)
    requires ListsOk(h) && a in h.all
    ensures ListsOk(h.(all := RemoveFirst(h.all, a)))
  {
    RemovedMembers(h.all, a);
  }

  lemma LeavesAllSubs(h: Heap, a: Address, held: multiset<Address>)
    requires SubsCounted(h, held) && a in h.all && NoDuplicates(h.all)
    ensures SubsCounted(h.(all := RemoveFirst(h.all, a)), held + multiset{a})
  {
    RemovedMembers(h.all, a);
    assert forall x :: Subscriptions(h.(all := RemoveFirst(h.all, a)), x) == Subscriptions(h, x);
  }

  lemma LeavesAllMons(h: Heap, a: Address, held: multiset<Address>)
    requires MonsCounted(h, held) && a !in h.mons
    ensures MonsCounted(h.(all := RemoveFirst(h.all, a)), held + multiset{a})
  {
    assert forall x :: Of(h.(all := RemoveFirst(h.all, a)), x) == Of(h, x);
  }

  function WithSubscriptions(h: Heap, m: Address, l: seq<Address>): Heap
    requires m in h.mons
  {
    h.(mons := h.mons[m := h.mons[m].(subscriptions := l)])
  }

  lemma RelistedLists(h: Heap, m: Address, l: seq<Address>)
    requires ListsOk(h) && m in h.mons && NoDuplicates(l)
    requires forall a :: a in l ==> a in h.subs && h.subs[a].monitor == m
    ensures ListsOk(WithSubscriptions(h, m, l))
  {
  }

  lemma RelistedSubs(h: Heap, m: Address, l: seq<Address>, held: multiset<Address>, heldNext: multiset<Address>)
    requires SubsCounted(h, held) && m in h.mons
    requires forall a :: a in h.subs ==>
               heldNext[a] == held[a] + if h.subs[a].monitor == m then One(a in Subscriptions(h, m)) - One(a in l) else 0
    ensures SubsCounted(WithSubscriptions(h, m, l), heldNext)
  {
    assert Subscriptions(WithSubscriptions(h, m, l), m) == l;
    assert forall x :: x != m ==> Subscriptions(WithSubscriptions(h, m, l), x) == Subscriptions(h, x);
  }

  lemma RelistedMons(h: Heap, m: Address, l: seq<Address>, held: multiset<Address>, heldNext: multiset<Address>)
    requires MonsCounted(h, held) && m in h.mons
    requires forall x :: x in h.mons ==> heldNext[x] == held[x]
    ensures MonsCounted(WithSubscriptions(h, m, l), heldNext)
  {
    assert forall x :: Of(WithSubscriptions(h, m, l), x) == Of(h, x);
  }

  lemma LeavesMonitor(h: Heap, m: Address, a: Address, held: multiset<Address>)
    requires Counted(h, held) && m in h.mons && a in h.mons[m].subscriptions
    ensures Counted(WithSubscriptions(h, m, RemoveFirst(h.mons[m].subscriptions, a)), held + multiset{a})
  {
    var l := RemoveFirst(h.mons[m].subscriptions, a);
    RemovedMembers(h.mons[m].subscriptions, a);
    RelistedLists(h, m, l);
    RelistedSubs(h, m, l, held, held + multiset{a});
    RelistedMons(h, m, l, held, held + multiset{a});
  }

  // ---------------------------------------------------------------- a subscription comes and goes

  ghost predicate OnBothLists(h: Heap) {
    forall a :: a in h.subs ==> a in h.all && a in Subscriptions(h, h.subs[a].monitor)
  }

  /** The heap after a subscription has left both lists: it is freed by the second removal, and
      its monitor, which is referred to by `held` or by the controller's list, is not. */
  function Dropped(h: Heap, m: Address, a: Address): Heap
    requires m in h.mons
  {
    h.(subs := h.subs - {a}, all := RemoveFirst(h.all, a),
       mons := h.mons[m := h.mons[m].(refs := h.mons[m].refs - 1,
                                      subscriptions := RemoveFirst(h.mons[m].subscriptions, a))])
  }

  lemma CountsBeforeDrop(h: Heap, m: Address, a: Address, held: multiset<Address>)
    requires Counted(h, held) && OnBothLists(h) && m in h.mons && a in h.mons[m].subscriptions && held[a] == 0
    requires m in h.listed || held[m] > 0
    ensures a in h.subs && h.subs[a].refs == 2 && h.subs[a].monitor == m && h.mons[m].refs > 1 && a != m && a in h.all
  {
    assert a in Of(h, m);
  }

  lemma DropSteps(h: Heap, m: Address, a: Address)
    requires a in h.subs && h.subs[a].refs == 2 && h.subs[a].monitor == m && m in h.mons && h.mons[m].refs > 1
    ensures var t := RemovedFromAll(h, a);
      && t == h.(all := RemoveFirst(h.all, a), subs := h.subs[a := h.subs[a].(refs := 1)])
      && RemovedFromMonitor(t, m, a) == Dropped(h, m, a)
  {
    var t := RemovedFromAll(h, a);
    assert t.subs - {a} == h.subs - {a};
  }

  lemma LeftAll(h: Heap, a: Address, held: multiset<Address>)
    requires Counted(h, held) && a in h.all && a in h.subs && h.subs[a].monitor in h.mons
    ensures Counted(RemovedFromAll(h, a), held)
  {
    LeavesAll(h, a, held);
    SubscriptionUnrefKeeps(h.(all := RemoveFirst(h.all, a)), a, held + multiset{a});
    assert held + multiset{a} - multiset{a} == held;
  }

  lemma LeftMonitor(h: Heap, m: Address, a: Address, held: multiset<Address>)
    requires Counted(h, held) && m in h.mons && a in h.mons[m].subscriptions && a in h.subs && h.subs[a].monitor in h.mons
    ensures Counted(RemovedFromMonitor(h, m, a), held)
  {
    LeavesMonitor(h, m, a, held);
    SubscriptionUnrefKeeps(WithSubscriptions(h, m, RemoveFirst(h.mons[m].subscriptions, a)), a, held + multiset{a});
    assert held + multiset{a} - multiset{a} == held;
  }

  lemma DropKeeps(h: Heap, m: Address, a: Address, held: multiset<Address>)
    requires Counted(h, held) && OnBothLists(h) && m in h.mons && a in h.mons[m].subscriptions && held[a] == 0
    requires m in h.listed || held[m] > 0
    ensures Counted(Dropped(h, m, a), held)
  {
    CountsBeforeDrop(h, m, a, held);
    DropSteps(h, m, a);
    LeftAll(h, a, held);
    LeftMonitor(RemovedFromAll(h, a), m, a, held);
  }

  lemma DropMembers(h: Heap, m: Address, a: Address)
    requires ListsOk(h) && OnBothLists(h) && m in h.mons && a in h.mons[m].subscriptions
    ensures OnBothLists(Dropped(h, m, a))
    ensures forall x :: x in Dropped(h, m, a).all <==> x in h.all && x != a
    ensures forall x :: x in Dropped(h, m, a).mons[m].subscriptions <==> x in h.mons[m].subscriptions && x != a
    ensures |Dropped(h, m, a).mons[m].subscriptions| == |h.mons[m].subscriptions| - 1
  {
    RemovedMembers(h.all, a);
    RemovedMembers(h.mons[m].subscriptions, a);
  }

  /** The heap with one more subscription of `m`, at the next address. */
  function Grown(h: Heap, m: Address, id: nat): Heap
    requires m in h.mons
  {
    h.(subs := h.subs[h.next := SubscriptionObject(2, id, m)], all := h.all + [h.next], next := h.next + 1,
       mons := h.mons[m := h.mons[m].(refs := h.mons[m].refs + 1,
                                      subscriptions := h.mons[m].subscriptions + [h.next])])
  }

  lemma GrownLists(h: Heap, m: Address, id: nat)
    requires ListsOk(h) && m in h.mons
    ensures ListsOk(Grown(h, m, id))
  {
    assert h.next !in h.subs && h.next !in h.mons;
    AppendedMembers(h.all, h.next);
    AppendedMembers(h.mons[m].subscriptions, h.next);
  }

  lemma GrownSubs(h: Heap, m: Address, id: nat)
    requires ListsOk(h) && SubsCounted(h, multiset{}) && OnBothLists(h) && m in h.mons
    ensures SubsCounted(Grown(h, m, id), multiset{}) && OnBothLists(Grown(h, m, id))
  {
    var t := Grown(h, m, id);
    assert h.next !in h.subs && h.next !in h.mons;
    assert forall x :: x != m ==> Subscriptions(t, x) == Subscriptions(h, x);
    assert Subscriptions(t, m) == Subscriptions(h, m) + [h.next];
    assert h.next !in Subscriptions(h, m) && h.next !in h.all;
  }

  lemma GrownMons(h: Heap, m: Address, id: nat)
    requires ListsOk(h) && MonsCounted(h, multiset{}) && m in h.mons
    ensures MonsCounted(Grown(h, m, id), multiset{})
  {
    var t := Grown(h, m, id);
    assert h.next !in h.subs && h.next !in h.mons;
    assert Of(t, m) == Of(h, m) + {h.next};
    assert forall x :: x != m ==> Of(t, x) == Of(h, x);
  }

  lemma GrownValid(h: Heap, m: Address, id: nat)
    requires Valid(h) && m in h.mons
    ensures Valid(Grown(h, m, id))
  {
    GrownLists(h, m, id);
    GrownSubs(h, m, id);
    GrownMons(h, m, id);
  }

  function WithMonitor(h: Heap, owner: CString): Heap {
    h.(mons := h.mons[h.next := MonitorObject(1, owner, [], true)], next := h.next + 1, listed := h.listed + [h.next])
  }

  lemma NextIsUnused(h: Heap)
    requires ListsOk(h)
    ensures h.next !in h.subs && h.next !in h.mons && h.next !in h.listed && h.next !in h.all
    ensures forall m :: m in h.mons ==> h.next !in h.mons[m].subscriptions
  {
  }

  lemma WithMonitorSubs(h: Heap, owner: CString)
    requires SubsCounted(h, multiset{}) && OnBothLists(h) && h.next !in h.mons
    ensures SubsCounted(WithMonitor(h, owner), multiset{}) && OnBothLists(WithMonitor(h, owner))
  {
    assert forall x :: x != h.next ==> Subscriptions(WithMonitor(h, owner), x) == Subscriptions(h, x);
  }

  lemma WithMonitorMons(h: Heap, owner: CString)
    requires MonsCounted(h, multiset{}) && h.next !in h.mons && Of(h, h.next) == {}
    ensures MonsCounted(WithMonitor(h, owner), multiset{})
  {
    assert forall x :: Of(WithMonitor(h, owner), x) == Of(h, x);
  }

  lemma WithMonitorLists(h: Heap, owner: CString)
    requires ListsOk(h)
    ensures ListsOk(WithMonitor(h, owner))
  {
    NextIsUnused(h);
    AppendedMembers(h.listed, h.next);
  }

  lemma WithMonitorValid(h: Heap, owner: CString)
    requires Valid(h)
    ensures Valid(WithMonitor(h, owner))
  {
    NextIsUnused(h);
    assert forall a :: a in h.subs ==> h.subs[a].monitor in h.mons;
    assert Of(h, h.next) == {};
    WithMonitorLists(h, owner);
    WithMonitorSubs(h, owner);
    WithMonitorMons(h, owner);
  }

  lemma DropValid(h: Heap, m: Address, a: Address)
    requires Valid(h) && m in h.mons && a in h.mons[m].subscriptions
    ensures Valid(Dropped(h, m, a))
    ensures a in h.subs && h.subs[a].refs == 2 && h.subs[a].monitor == m && h.mons[m].refs > 1
  {
    CountsBeforeDrop(h, m, a, multiset{});
    DropKeeps(h, m, a, multiset{});
    DropMembers(h, m, a);
  }

  // ---------------------------------------------------------------- a monitor is closed

  ghost predicate NoneHeld(h: Heap, held: multiset<Address>) {
    forall a :: a in h.subs ==> held[a] == 0
  }

  /** From `h0` only subscriptions of `m` have gone, from everywhere at once. */
  ghost predicate ClosedSoFar(h0: Heap, h: Heap, m: Address) {
    && m in h0.mons && h.mons.Keys == h0.mons.Keys && h.listed == h0.listed && h.next == h0.next
    && (forall x :: x in h0.mons && x != m ==> h.mons[x] == h0.mons[x])
    && h.mons[m].owner == h0.mons[m].owner
    && (forall a :: a in h.subs ==> a in h0.subs && h.subs[a] == h0.subs[a])
    && (forall a :: a in h0.subs ==> (a in h.subs <==> h0.subs[a].monitor != m || a in h.mons[m].subscriptions))
    && (forall a :: a in h.all <==> a in h0.all && a in h.subs)
  }

  lemma ClosedStart(h: Heap, m: Address)
    requires OnBothLists(h) && ListsOk(h) && m in h.mons
    ensures ClosedSoFar(h, h, m)
  {
  }

  lemma ClosedStep(h0: Heap, h: Heap, m: Address, a: Address)
    requires ClosedSoFar(h0, h, m) && ListsOk(h) && OnBothLists(h) && a in h.mons[m].subscriptions
    ensures ClosedSoFar(h0, Dropped(h, m, a), m)
  {
    DropMembers(h, m, a);
    assert a in h.subs && h.subs[a].monitor == m;
  }

  /** The object stays in its lists and keeps its counts when it is no longer exported. */
  lemma UnexportedKeeps(h: Heap, m: Address, held: multiset<Address>)
    requires Counted(h, held) && OnBothLists(h) && m in h.mons
    ensures Counted(h.(mons := h.mons[m := h.mons[m].(exported := false)]), held)
    ensures OnBothLists(h.(mons := h.mons[m := h.mons[m].(exported := false)]))
  {
    UnexportedLists(h, m);
    UnexportedSubs(h, m, held);
    UnexportedMons(h, m, held);
  }

  lemma UnexportedSubs(h: Heap, m: Address, held: multiset<Address>)
    requires SubsCounted(h, held) && OnBothLists(h) && m in h.mons
    ensures SubsCounted(h.(mons := h.mons[m := h.mons[m].(exported := false)]), held)
    ensures OnBothLists(h.(mons := h.mons[m := h.mons[m].(exported := false)]))
  {
    var t := h.(mons := h.mons[m := h.mons[m].(exported := false)]);
    assert forall x :: Subscriptions(t, x) == Subscriptions(h, x);
  }

  lemma UnexportedMons(h: Heap, m: Address, held: multiset<Address>)
    requires MonsCounted(h, held) && m in h.mons
    ensures MonsCounted(h.(mons := h.mons[m := h.mons[m].(exported := false)]), held)
  {
    assert forall x :: Of(h.(mons := h.mons[m := h.mons[m].(exported := false)]), x) == Of(h, x);
  }

  lemma UnexportedLists(h: Heap, m: Address)
    requires ListsOk(h) && m in h.mons
    ensures ListsOk(h.(mons := h.mons[m := h.mons[m].(exported := false)]))
  {
  }

  function Unlisted(h: Heap, m: Address): Heap {
    h.(listed := RemoveFirst(h.listed, m))
  }

  lemma LeavesControllerLists(h: Heap, m: Address)
    requires ListsOk(h) && m in h.listed
    ensures ListsOk(Unlisted(h, m))
  {
    RemovedMembers(h.listed, m);
  }

  lemma LeavesControllerSubs(h: Heap, m: Address, held: multiset<Address>)
    requires SubsCounted(h, held) && m !in h.subs
    ensures SubsCounted(Unlisted(h, m), held + multiset{m})
  {
    assert forall x :: Subscriptions(Unlisted(h, m), x) == Subscriptions(h, x);
  }

  lemma LeavesControllerMons(h: Heap, m: Address, held: multiset<Address>)
    requires MonsCounted(h, held) && m in h.listed && NoDuplicates(h.listed)
    ensures MonsCounted(Unlisted(h, m), held + multiset{m})
  {
    RemovedMembers(h.listed, m);
    assert forall x :: Of(Unlisted(h, m), x) == Of(h, x);
  }

  lemma LeavesController(h: Heap, m: Address, held: multiset<Address>)
    requires Counted(h, held) && m in h.listed
    ensures Counted(Unlisted(h, m), held + multiset{m})
    ensures forall x :: x in Unlisted(h, m).listed <==> x in h.listed && x != m
  {
    LeavesControllerLists(h, m);
    LeavesControllerSubs(h, m, held);
    LeavesControllerMons(h, m, held);
    RemovedMembers(h.listed, m);
  }

  /** Off the controller's list, a closed monitor is freed unless running code still holds it. */
  lemma RemovedMonitor(h: Heap, m: Address, held: multiset<Address>)
    requires Counted(h, held) && m in h.listed && Of(h, m) == {}
    ensures m in h.mons && Counted(MonitorUnref(Unlisted(h, m), m), held)
    ensures m in MonitorUnref(Unlisted(h, m), m).mons <==> held[m] > 0
  {
    LeavesController(h, m, held);
    assert Of(Unlisted(h, m), m) == Of(h, m);
    MonitorUnrefKeeps(Unlisted(h, m), m, held + multiset{m});
    assert held + multiset{m} - multiset{m} == held;
  }

  /** The monitor and its subscriptions are gone; nothing else has changed. */
  ghost predicate GoneWith(h0: Heap, h: Heap, m: Address) {
    && m in h0.mons
    && h.mons.Keys == h0.mons.Keys - {m}
    && (forall x :: x in h.mons ==> h.mons[x] == h0.mons[x])
    && h.subs.Keys == h0.subs.Keys - Of(h0, m)
    && (forall a :: a in h.subs ==> h.subs[a] == h0.subs[a])
    && h.listed == RemoveFirst(h0.listed, m)
    && (forall a :: a in h.all <==> a in h0.all && a in h.subs)
  }

  lemma ClosedLists(h0: Heap, h: Heap, m: Address, t: Heap)
    requires ClosedSoFar(h0, h, m) && OnBothLists(h) && h.mons[m].subscriptions == []
    requires t.subs == h.subs && t.all == h.all && t.mons == h.mons - {m}
    ensures OnBothLists(t)
  {
    forall a | a in t.subs ensures a in t.all && a in Subscriptions(t, t.subs[a].monitor) {
      assert a in h.subs && h.subs[a] == h0.subs[a] && h.subs[a].monitor != m;
    }
  }

  lemma ClosedKeys(h0: Heap, h: Heap, m: Address)
    requires ClosedSoFar(h0, h, m) && h.mons[m].subscriptions == []
    ensures h.subs.Keys == h0.subs.Keys - Of(h0, m)
  {
  }

  /** A monitor closed and removed: all that is left of the heap is in order. */
  lemma ClosedIsGone(h0: Heap, h: Heap, m: Address, t: Heap)
    requires ClosedSoFar(h0, h, m) && OnBothLists(h) && h.mons[m].subscriptions == []
    requires NoDuplicates(h0.listed) && m in h0.listed && forall x :: x in h0.mons ==> x in h0.listed
    requires t == Unlisted(h, m).(mons := h.mons - {m})
    ensures GoneWith(h0, t, m) && OnBothLists(t) && forall x :: x in t.mons ==> x in t.listed
  {
    RemovedMembers(h0.listed, m);
    ClosedLists(h0, h, m, t);
    ClosedKeys(h0, h, m);
  }

  // ---------------------------------------------------------------- the code

  class Objects {
    var heap: Heap

    constructor ()
      ensures Valid(heap) && heap.subs == map[] && heap.mons == map[]
    {
      heap := Heap(map[], map[], [], [], 0);
    }

    /** controller_method_create_monitor: made with one reference, listed with another, and the
        first one dropped on the way out. */
    method CreateMonitor(owner: CString) returns (m: Address)
      requires Valid(heap)
      modifies this
      ensures Valid(heap) && heap == WithMonitor(old(heap), owner) && m == old(heap).next
    {
      WithMonitorValid(heap, owner);
      NextIsUnused(heap);
      m := MakeMonitor(owner);
    }

    method MakeMonitor(owner: CString) returns (m: Address)
      requires heap.next !in heap.mons
      modifies this
      ensures heap == WithMonitor(old(heap), owner) && m == old(heap).next
    {
      m := heap.next;
      heap := heap.(mons := heap.mons[m := MonitorObject(1, owner, [], true)], next := m + 1);
      heap := MonitorRef(heap, m);
      heap := heap.(listed := heap.listed + [m]);
      heap := MonitorUnref(heap, m);
    }

    /** monitor_method_subscribe and monitor_method_subscribe_list */
    method Subscribe(m: Address, id: nat) returns (a: Address)
      requires Valid(heap) && m in heap.mons
      modifies this
      ensures Valid(heap) && heap == Grown(old(heap), m, id) && a == old(heap).next
    {
      GrownValid(heap, m, id);
      NextIsUnused(heap);
      a := MakeSubscription(m, id);
    }

    /** The new subscription has three references for a moment. */
    method MakeSubscription(m: Address, id: nat) returns (a: Address)
      requires m in heap.mons && heap.next !in heap.mons && heap.next !in heap.subs
      modifies this
      ensures heap == Grown(old(heap), m, id) && a == old(heap).next
    {
      a := heap.next;
      heap := MonitorRef(heap, m);
      heap := heap.(subs := heap.subs[a := SubscriptionObject(1, id, m)], next := a + 1);
      heap := WithSubRefs(WithSubscriptions(heap, m, heap.mons[m].subscriptions + [a]), a, heap.subs[a].refs + 1);
      heap := WithSubRefs(heap.(all := heap.all + [a]), a, heap.subs[a].refs + 1);
      heap := SubscriptionUnref(heap, a);
    }

    /** Takes a subscription off both lists. */
    method Drop(m: Address, a: Address)
      requires a in heap.subs && heap.subs[a].refs == 2 && heap.subs[a].monitor == m
      requires m in heap.mons && heap.mons[m].refs > 1
      modifies this
      ensures heap == Dropped(old(heap), m, a)
    {
      DropSteps(heap, m, a);
      heap := RemovedFromAll(heap, a);
      heap := RemovedFromMonitor(heap, m, a);
    }

    /** monitor_find_subscription */
    method FindSubscription(m: Address, id: nat) returns (k: nat)
      requires m in heap.mons && forall a :: a in heap.mons[m].subscriptions ==> a in heap.subs
      ensures k <= |heap.mons[m].subscriptions|
      ensures k < |heap.mons[m].subscriptions| ==> heap.subs[heap.mons[m].subscriptions[k]].id == id
      ensures forall j :: 0 <= j < k ==> heap.subs[heap.mons[m].subscriptions[j]].id != id
    {
      k := 0;
      while k < |heap.mons[m].subscriptions| && heap.subs[heap.mons[m].subscriptions[k]].id != id
        invariant k <= |heap.mons[m].subscriptions|
        invariant forall j :: 0 <= j < k ==> heap.subs[heap.mons[m].subscriptions[j]].id != id
      {
        k := k + 1;
      }
    }

    /** monitor_method_unsubscribe: None when the monitor has no such subscription. */
    method Unsubscribe(m: Address, id: nat) returns (gone: Option<Address>)
      requires Valid(heap) && m in heap.mons
      modifies this
      ensures Valid(heap)
      ensures gone == None ==> heap == old(heap)
      ensures gone == None ==> forall a :: a in heap.mons[m].subscriptions ==> heap.subs[a].id != id
      ensures gone.Some? ==>
                && gone.value in old(heap).mons[m].subscriptions && old(heap).subs[gone.value].id == id
                && heap == Dropped(old(heap), m, gone.value)
    {
      var k := FindSubscription(m, id);
      if k == |heap.mons[m].subscriptions| {
        return None;
      }
      var a := heap.mons[m].subscriptions[k];
      DropValid(heap, m, a);
      Drop(m, a);
      return Some(a);
    }

    /** monitor_close, while someone else still refers to the monitor */
    method Close(m: Address, ghost held: multiset<Address>)
      requires Counted(heap, held) && OnBothLists(heap) && m in heap.listed && NoneHeld(heap, held)
      modifies this
      ensures Counted(heap, held) && OnBothLists(heap)
      ensures ClosedSoFar(old(heap), heap, m) && heap.mons[m].subscriptions == [] && !heap.mons[m].exported
    {
      ClosedStart(heap, m);
      while heap.mons[m].subscriptions != []
        invariant Counted(heap, held) && OnBothLists(heap) && NoneHeld(heap, held)
        invariant ClosedSoFar(old(heap), heap, m)
        decreases |heap.mons[m].subscriptions|
      {
        var sub := heap.mons[m].subscriptions[0];
        DropOne(m, sub, old(heap), held);
      }
      Unexport(m, old(heap), held);
    }

    method Unexport(m: Address, ghost h0: Heap, ghost held: multiset<Address>)
      requires Counted(heap, held) && OnBothLists(heap) && m in heap.mons && ClosedSoFar(h0, heap, m)
      modifies this
      ensures heap == old(heap).(mons := old(heap).mons[m := old(heap).mons[m].(exported := false)])
      ensures Counted(heap, held) && OnBothLists(heap) && ClosedSoFar(h0, heap, m)
    {
      UnexportedKeeps(heap, m, held);
      heap := heap.(mons := heap.mons[m := heap.mons[m].(exported := false)]);
    }

    method DropOne(m: Address, sub: Address, ghost h0: Heap, ghost held: multiset<Address>)
      requires Counted(heap, held) && OnBothLists(heap) && NoneHeld(heap, held)
      requires ClosedSoFar(h0, heap, m) && m in heap.listed && sub in heap.mons[m].subscriptions
      modifies this
      ensures Counted(heap, held) && OnBothLists(heap) && NoneHeld(heap, held)
      ensures ClosedSoFar(h0, heap, m)
      ensures |heap.mons[m].subscriptions| == |old(heap).mons[m].subscriptions| - 1
    {
      CountsBeforeDrop(heap, m, sub, held);
      DropKeeps(heap, m, sub, held);
      DropMembers(heap, m, sub);
      ClosedStep(h0, heap, m, sub);
      Drop(m, sub);
    }

    /** controller_remove_monitor */
    method RemoveMonitor(m: Address)
      requires m in heap.mons
      modifies this
      ensures heap == MonitorUnref(Unlisted(old(heap), m), m)
    {
      heap := heap.(listed := RemoveFirst(heap.listed, m));
      heap := MonitorUnref(heap, m);
    }

    /** monitor_method_close: the call holds the monitor until it has been closed and removed. */
    method MethodClose(m: Address) returns (closed: bool)
      requires Valid(heap) && m in heap.mons
      modifies this
      ensures closed == old(heap).mons[m].exported && Valid(heap)
      ensures if closed then GoneWith(old(heap), heap, m) else heap == old(heap)
    {
      HeldWhileClosing(heap, m);
      RefAndBack(heap, m);
      heap := MonitorRef(heap, m);
      closed := heap.mons[m].exported;
      if closed {
        CloseHeld(m);
      } else {
        heap := MonitorUnref(heap, m);
      }
    }

    /** The rest of the call: closed, off the list, and freed with the reference of the call. */
    method CloseHeld(m: Address)
      requires Counted(heap, multiset{m}) && OnBothLists(heap) && m in heap.listed && NoneHeld(heap, multiset{m})
      requires forall x :: x in heap.mons ==> x in heap.listed
      modifies this
      ensures Valid(heap) && GoneWith(old(heap), heap, m)
    {
      Close(m, multiset{m});
      NothingPointsTo(heap, m, multiset{m});
      FreedAtLast(old(heap), heap, m);
      RemoveMonitor(m);
      heap := MonitorUnref(heap, m);
    }

    /** controller_client_disconnected for one monitor */
    method CloseAndRemove(m: Address)
      requires Valid(heap) && m in heap.mons
      modifies this
      ensures Valid(heap) && GoneWith(old(heap), heap, m)
    {
      ghost var h0 := heap;
      Close(m, multiset{});
      NothingPointsTo(heap, m, multiset{});
      RemovedMonitor(heap, m, multiset{});
      ghost var h := heap;
      RemoveMonitor(m);
      LastRefGone(h, m);
      ClosedIsGone(h0, h, m, heap);
    }

    /** controller_client_disconnected: the monitors of the client are closed and removed while
        the list is walked. */
    method ClientDisconnected(client: CString)
      requires Valid(heap)
      modifies this
      ensures Valid(heap)
      ensures forall m :: m in heap.mons <==> m in old(heap).mons && old(heap).mons[m].owner != client
      ensures forall m :: m in heap.mons ==> heap.mons[m] == old(heap).mons[m]
      ensures forall a :: a in heap.subs <==>
                a in old(heap).subs && old(heap).mons[old(heap).subs[a].monitor].owner != client
      ensures forall a :: a in heap.subs ==> heap.subs[a] == old(heap).subs[a]
    {
      var k := 0;
      while k < |heap.listed|
        invariant 0 <= k <= |heap.listed| && Valid(heap)
        invariant GoneSoFar(old(heap), heap, client) && OthersBefore(heap, k, client)
        decreases |heap.listed| - k
      {
        var monitor := heap.listed[k];
        var owned := CloseIfOwned(monitor, client, k, old(heap));
        if !owned {
          k := k + 1;
        }
      }
      WalkedAll(old(heap), heap, client);
    }

    method CloseIfOwned(monitor: Address, client: CString, ghost k: nat, ghost h0: Heap) returns (owned: bool)
      requires Valid(heap) && k < |heap.listed| && heap.listed[k] == monitor
      requires GoneSoFar(h0, heap, client) && OthersBefore(heap, k, client)
      modifies this
      ensures Valid(heap) && GoneSoFar(h0, heap, client)
      ensures if owned then |heap.listed| == |old(heap).listed| - 1 && OthersBefore(heap, k, client)
              else heap == old(heap) && OthersBefore(heap, k + 1, client)
    {
      assert monitor in heap.listed;
      owned := heap.mons[monitor].owner == client;
      if owned {
        GoneStep(h0, heap, monitor, k, client);
        CloseAndRemove(monitor);
      }
    }
  }

  ghost predicate OthersBefore(h: Heap, k: nat, client: CString) {
    k <= |h.listed| && forall j :: 0 <= j < k ==> h.listed[j] in h.mons && h.mons[h.listed[j]].owner != client
  }

  lemma WalkedAll(h0: Heap, h: Heap, client: CString)
    requires GoneSoFar(h0, h, client) && OthersBefore(h, |h.listed|, client)
    requires forall m :: m in h.mons ==> m in h.listed
    ensures forall m :: m in h.mons <==> m in h0.mons && h0.mons[m].owner != client
  {
  }

  ghost predicate GoneSoFar(h0: Heap, h: Heap, client: CString) {
    && (forall m :: m in h.mons ==> m in h0.mons && h.mons[m] == h0.mons[m])
    && (forall m :: m in h0.mons && h0.mons[m].owner != client ==> m in h.mons)
    && (forall a :: a in h.subs ==> a in h0.subs && h.subs[a] == h0.subs[a])
    && (forall a :: a in h0.subs ==> (a in h.subs <==> h0.subs[a].monitor in h.mons))
  }

  lemma GoneStep(h0: Heap, h: Heap, m: Address, k: nat, client: CString)
    requires GoneSoFar(h0, h, client) && m in h.mons && h.mons[m].owner == client
    requires NoDuplicates(h.listed) && k < |h.listed| && h.listed[k] == m
    requires OthersBefore(h, k, client)
    ensures forall t :: GoneWith(h, t, m) ==>
      GoneSoFar(h0, t, client) && |t.listed| == |h.listed| - 1 && OthersBefore(t, k, client)
  {
    assert Find(h.listed, m) == k;
    forall t | GoneWith(h, t, m)
      ensures GoneSoFar(h0, t, client) && |t.listed| == |h.listed| - 1 && OthersBefore(t, k, client)
    {
      forall a | a in h0.subs ensures a in t.subs <==> h0.subs[a].monitor in t.mons {
        assert a in h.subs ==> (a in Of(h, m) <==> h0.subs[a].monitor == m);
      }
      assert t.listed[..k] == h.listed[..k];
      forall j | 0 <= j < k ensures t.listed[j] in t.mons && t.mons[t.listed[j]].owner != client {
        assert t.listed[j] == h.listed[j];
      }
    }
  }

  lemma NothingPointsTo(h: Heap, m: Address, held: multiset<Address>)
    requires Counted(h, held) && OnBothLists(h) && m in h.mons && h.mons[m].subscriptions == []
    ensures Of(h, m) == {}
  {
  }

  /** With the reference of the call, the lists are as they were. */
  lemma HeldWhileClosing(h: Heap, m: Address)
    requires Valid(h) && m in h.mons
    ensures var t := MonitorRef(h, m);
      && Counted(t, multiset{m}) && OnBothLists(t) && m in t.listed && NoneHeld(t, multiset{m})
      && (forall x :: x in t.mons ==> x in t.listed)
    ensures forall t :: GoneWith(MonitorRef(h, m), t, m) ==> GoneWith(h, t, m)
  {
    MonitorRefKeeps(h, m, multiset{});
    assert multiset{} + multiset{m} == multiset{m};
    assert m !in h.subs;
    assert forall x :: Subscriptions(MonitorRef(h, m), x) == Subscriptions(h, x);
    GoneIgnoresRefs(h, m);
  }

  lemma GoneIgnoresRefs(h: Heap, m: Address)
    requires m in h.mons
    ensures forall t :: GoneWith(MonitorRef(h, m), t, m) ==> GoneWith(h, t, m)
  {
    assert Of(MonitorRef(h, m), m) == Of(h, m);
  }

  lemma RefAndBack(h: Heap, m: Address)
    requires m in h.mons && h.mons[m].refs > 0
    ensures MonitorUnref(MonitorRef(h, m), m) == h
  {
    assert MonitorUnref(MonitorRef(h, m), m).mons == h.mons;
  }

  lemma LastRefGone(h: Heap, m: Address)
    requires m in h.mons && MonsCounted(h, multiset{}) && m in h.listed && Of(h, m) == {}
    ensures MonitorUnref(Unlisted(h, m), m) == Unlisted(h, m).(mons := h.mons - {m})
  {
  }

  lemma LastTwoRefsGone(h: Heap, m: Address)
    requires m in h.mons && MonsCounted(h, multiset{m}) && m in h.listed && Of(h, m) == {}
    ensures var t := MonitorUnref(Unlisted(h, m), m);
      m in t.mons && MonitorUnref(t, m) == Unlisted(h, m).(mons := h.mons - {m})
  {
    var t := MonitorUnref(Unlisted(h, m), m);
    assert t.mons - {m} == h.mons - {m};
  }

  lemma FinallyCounted(h: Heap, m: Address)
    requires Counted(h, multiset{m}) && m in h.listed && Of(h, m) == {}
    ensures var t := MonitorUnref(Unlisted(h, m), m);
      m in h.mons && m in t.mons && Counted(MonitorUnref(t, m), multiset{})
  {
    RemovedMonitor(h, m, multiset{m});
    MonitorUnrefKeeps(MonitorUnref(Unlisted(h, m), m), m, multiset{m});
    assert multiset{m} - multiset{m} == multiset{};
  }

  lemma FreedAtLast(h0: Heap, h: Heap, m: Address)
    requires ClosedSoFar(h0, h, m) && OnBothLists(h) && h.mons[m].subscriptions == [] && Of(h, m) == {}
    requires Counted(h, multiset{m}) && m in h.listed && forall x :: x in h0.mons ==> x in h0.listed
    ensures var t := MonitorUnref(Unlisted(h, m), m);
      m in t.mons && Valid(MonitorUnref(t, m)) && GoneWith(h0, MonitorUnref(t, m), m)
  {
    FinallyCounted(h, m);
    LastTwoRefsGone(h, m);
    ClosedIsGone(h0, h, m, MonitorUnref(MonitorUnref(Unlisted(h, m), m), m));
  }
}
