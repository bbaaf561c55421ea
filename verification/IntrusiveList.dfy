/** The intrusive doubly linked lists every table of the program is made of: the links live in
    the items, and a list is a pointer to the first one.  Each macro rewrites links in place;
    `items` says which sequence the links spell. */
module IntrusiveList {
  import opened Sequences

  class Item {
    var next: Item?
    var prev: Item?

    /** LIST_INIT */
    constructor ()
      ensures next == null && prev == null
    {
      next, prev := null, null;
    }
  }

  ghost predicate Distinct(s: seq<Item>) {
    forall i, j :: 0 <= i < j < |s| ==> s[i] != s[j]
  }

  /** The links of the items spell `s`. */
  ghost predicate Linked(s: seq<Item>)
    reads s
  {
    && Distinct(s)
    && (forall i {:trigger s[i].prev} :: 0 <= i < |s| ==> s[i].prev == if i == 0 then null else s[i - 1])
    && (forall i {:trigger s[i].next} :: 0 <= i < |s| ==> s[i].next == if i == |s| - 1 then null else s[i + 1])
  }

  function InsertedAt<T>(s: seq<T>, k: nat, x: T): seq<T>
    requires k <= |s|
  {
    s[..k] + [x] + s[k..]
  }

  ghost function IndexOf(s: seq<Item>, x: Item): (k: nat)
    requires x in s
    ensures k < |s| && s[k] == x
  {
    var k :| 0 <= k < |s| && s[k] == x;
    k
  }

  lemma DistinctJoined(s: seq<Item>, t: seq<Item>)
    requires Distinct(s) && Distinct(t)
    requires forall x :: x in s ==> x !in t
    ensures Distinct(s + t)
  {
    forall i, j | 0 <= i < |s| && 0 <= j < |t| ensures s[i] != t[j] {
      assert s[i] in s && t[j] in t;
    }
  }

  /** The links when those around `k` have been led past it. */
  lemma RemovedLinks(s: seq<Item>, k: nat)
    requires Distinct(s) && k < |s|
    requires forall i {:trigger s[i].prev} :: 0 <= i < |s| && i != k ==>
               s[i].prev == if i == 0 || (i == 1 && k == 0) then null else if i == k + 1 then s[k - 1] else s[i - 1]
    requires forall i {:trigger s[i].next} :: 0 <= i < |s| && i != k ==>
               s[i].next == if i == |s| - 1 || (i == |s| - 2 && k == |s| - 1) then null
                            else if i + 1 == k then s[k + 1] else s[i + 1]
    ensures Linked(RemoveAt(s, k))
  {
    var r := RemoveAt(s, k);
    assert forall i :: 0 <= i < |r| ==> r[i] == s[if i < k then i else i + 1];
    forall i | 0 <= i < |r| ensures r[i].prev == if i == 0 then null else r[i - 1] {
      assert r[i] == s[if i < k then i else i + 1];
    }
    forall i | 0 <= i < |r| ensures r[i].next == if i == |r| - 1 then null else r[i + 1] {
      assert r[i] == s[if i < k then i else i + 1];
    }
  }

  lemma SeamItems(s: seq<Item>, t: seq<Item>)
    requires Distinct(s) && Distinct(t) && t != []
    requires forall x :: x in s ==> x !in t
    requires forall i {:trigger s[i].prev} :: 0 <= i < |s| ==> s[i].prev == if i == 0 then null else s[i - 1]
    requires forall i {:trigger s[i].next} :: 0 <= i < |s| ==> s[i].next == if i == |s| - 1 then t[0] else s[i + 1]
    requires forall i {:trigger t[i].prev} :: 0 <= i < |t| ==>
               t[i].prev == if i > 0 then t[i - 1] else if s == [] then null else s[|s| - 1]
    requires forall i {:trigger t[i].next} :: 0 <= i < |t| ==> t[i].next == if i == |t| - 1 then null else t[i + 1]
    ensures Linked(s + t)
  {
    DistinctJoined(s, t);
    forall i | 0 <= i < |s + t| ensures (s + t)[i].prev == if i == 0 then null else (s + t)[i - 1] {
      if i < |s| {
        assert (s + t)[i] == s[i];
      } else {
        assert (s + t)[i] == t[i - |s|];
      }
    }
    forall i | 0 <= i < |s + t| ensures (s + t)[i].next == if i == |s + t| - 1 then null else (s + t)[i + 1] {
      if i < |s| {
        assert (s + t)[i] == s[i];
      } else {
        assert (s + t)[i] == t[i - |s|];
      }
    }
  }

  lemma InsertedItems(s: seq<Item>, k: nat, x: Item)
    requires k <= |s| && Distinct(s) && x !in s
    ensures Distinct(InsertedAt(s, k, x))
    ensures |InsertedAt(s, k, x)| == |s| + 1
    ensures forall i {:trigger InsertedAt(s, k, x)[i]} :: 0 <= i <= |s| ==>
              InsertedAt(s, k, x)[i] == if i < k then s[i] else if i == k then x else s[i - 1]
  {
  }

  class List {
    var head: Item?
    ghost var items: seq<Item>

    ghost predicate Valid()
      reads this, items
    {
      && Linked(items)
      && head == if items == [] then null else items[0]
    }

    /** LIST_HEAD_INIT */
    constructor ()
      ensures Valid() && items == []
    {
      head, items := null, [];
    }

    method Prepend(item: Item)
      requires Valid() && item !in items
      modifies this, item, items
      ensures Valid() && items == [item] + old(items)
    {
      item.next := head;
      if item.next != null {
        item.next.prev := item;
      }
      item.prev := null;
      head := item;
      items := [item] + items;
    }

    method FindTail() returns (tail: Item?)
      requires Valid()
      ensures tail == if items == [] then null else items[|items| - 1]
    {
      if head == null {
        return null;
      }
      tail := head;
      ghost var k := 0;
      while tail.next != null
        invariant 0 <= k < |items| && tail == items[k]
        decreases |items| - k
      {
        tail, k := tail.next, k + 1;
      }
    }

    /** LIST_FIND_HEAD, from any item of the list or from null. */
    method FindHead(item: Item?) returns (h: Item?)
      requires Valid()
      requires item != null ==> item in items
      ensures h == if item == null then null else items[0]
      ensures item != null ==> h == head
    {
      if item == null {
        return null;
      }
      h := item;
      ghost var k := IndexOf(items, item);
      while h.prev != null
        invariant 0 <= k < |items| && h == items[k]
        decreases k
      {
        h, k := h.prev, k - 1;
      }
    }

    method InsertAfter(a: Item?, b: Item)
      requires Valid() && b !in items
      requires a != null ==> a in items
      modifies this, b, items
      ensures Valid()
      ensures items == if a == null then [b] + old(items) else InsertedAt(old(items), IndexOf(old(items), a) + 1, b)
    {
      if a == null {
        Prepend(b);
      } else {
        InsertAfterItem(a, b);
      }
    }

    method InsertAfterItem(a: Item, b: Item)
      requires Valid() && b !in items && a in items
      modifies this, b, items
      ensures Valid() && items == InsertedAt(old(items), IndexOf(old(items), a) + 1, b)
    {
      ghost var k := IndexOf(items, a);
      InsertedItems(items, k + 1, b);
      b.next := a.next;
      if b.next != null {
        b.next.prev := b;
      }
      b.prev := a;
      a.next := b;
      items := InsertedAt(items, k + 1, b);
    }

    method InsertBefore(a: Item?, b: Item)
      requires Valid() && b !in items
      requires a != null ==> a in items
      modifies this, b, items
      ensures Valid()
      ensures items == if a == null then old(items) + [b] else InsertedAt(old(items), IndexOf(old(items), a), b)
    {
      if a == null {
        InsertLast(b);
      } else {
        InsertBeforeItem(a, b);
      }
    }

    method InsertLast(b: Item)
      requires Valid() && b !in items
      modifies this, b, items
      ensures Valid() && items == old(items) + [b]
    {
      if head == null {
        b.next, b.prev := null, null;
        head := b;
      } else {
        var tail := FindTail();
        b.next := null;
        b.prev := tail;
        tail.next := b;
      }
      items := items + [b];
    }

    method InsertBeforeItem(a: Item, b: Item)
      requires Valid() && b !in items && a in items
      modifies this, b, items
      ensures Valid() && items == InsertedAt(old(items), IndexOf(old(items), a), b)
    {
      ghost var k := IndexOf(items, a);
      InsertedItems(items, k, b);
      b.prev := a.prev;
      if b.prev != null {
        b.prev.next := b;
      } else {
        head := b;
      }
      b.next := a;
      a.prev := b;
      items := InsertedAt(items, k, b);
    }

    method Append(item: Item)
      requires Valid() && item !in items
      modifies this, item, items
      ensures Valid() && items == old(items) + [item]
    {
      var tail := FindTail();
      if tail != null {
        assert IndexOf(items, tail) == |items| - 1;
      }
      InsertAfter(tail, item);
      assert InsertedAt(old(items), |old(items)|, item) == old(items) + [item];
    }

    /** The removed item is left with no links. */
    method Remove(item: Item)
      requires Valid() && item in items
      modifies this, items
      ensures Valid() && items == RemoveAt(old(items), IndexOf(old(items), item))
      ensures item.next == null && item.prev == null
    {
      ghost var k, s := IndexOf(items, item), items;
      assert forall i :: 0 <= i < |s| ==> s[i] in items;
      if item.next != null {
        item.next.prev := item.prev;
      }
      if item.prev != null {
        item.prev.next := item.next;
      } else {
        assert head == item;
        head := item.next;
      }
      item.next, item.prev := null, null;
      RemovedLinks(s, k);
      items := RemoveAt(s, k);
    }

    method Pop() returns (p: Item?)
      requires Valid()
      modifies this, items
      ensures Valid()
      ensures if old(items) == [] then p == null && items == []
              else p == old(items)[0] && items == old(items)[1..] && p.next == null && p.prev == null
    {
      p := head;
      if p != null {
        assert IndexOf(items, p) == 0;
        Remove(p);
      }
    }

    /** Joins `b` to the end of this list and empties it. */
    method Join(b: List)
      requires Valid() && b.Valid() && this != b && b.head != null
      requires forall x :: x in items ==> x !in b.items
      modifies this, b, items, b.items
      ensures Valid() && b.Valid()
      ensures items == old(items) + old(b.items) && b.items == [] && b.head == null
    {
      ghost var s, t := items, b.items;
      assert forall i :: 0 <= i < |s| ==> s[i] in items;
      assert forall i :: 0 <= i < |t| ==> t[i] in b.items && t[i] !in s;
      if head == null {
        head := b.head;
      } else {
        var tail := FindTail();
        tail.next := b.head;
        b.head.prev := tail;
      }
      b.head := null;
      SeamItems(s, t);
      items, b.items := s + t, [];
    }

    // -------------------------------------------------------------- loops

    /** The first `k` items of the original list have been visited. */
    ghost predicate Visiting(all: seq<Item>, k: nat, visited: seq<Item>, kept: seq<Item>, drop: Item -> bool)
      reads this, items
    {
      Valid() && k <= |all| && Within(items, all) && VisitedSo(all, k, visited, kept, items, drop)
    }

    /** LIST_FOREACH_SAFE: the body may remove the current item.  Every item is visited once,
        in the order they had at the start, and what is kept stays in order. */
    method ForeachSafe(drop: Item -> bool) returns (visited: seq<Item>)
      requires Valid()
      modifies this, items
      ensures Valid()
      ensures visited == old(items)
      ensures items == Kept(old(items), drop)
    {
      visited := [];
      var i := head;
      ghost var all, kept, k := items, [], 0;
      NoneVisited(all, drop);
      while i != null
        invariant Visiting(all, k, visited, kept, drop)
        invariant i == if k == |all| then null else all[k]
        decreases |all| - k
      {
        visited, i, kept := VisitOne(i, drop, all, k, visited, kept);
        k := k + 1;
      }
      AllVisited(all, visited, kept, items, drop);
    }

    /** One round of the loop: the next item is read before the body may remove this one. */
    method VisitOne(
      i: Item, drop: Item -> bool, ghost all: seq<Item>, ghost k: nat, visited: seq<Item>, ghost kept: seq<Item>)
      returns (more: seq<Item>, n: Item?, ghost keptNow: seq<Item>)
      requires Visiting(all, k, visited, kept, drop) && k < |all| && i == all[k]
      modifies this, all
      ensures Visiting(all, k + 1, more, keptNow, drop)
      ensures n == if k + 1 == |all| then null else all[k + 1]
    {
      n := i.next;
      more := visited + [i];
      keptNow := if drop(i) then kept else kept + [i];
      assert items[|kept|] == i;
      assert k + 1 < |all| ==> items[|kept| + 1] == all[k + 1];
      KeptNext(all, k, kept, drop);
      if drop(i) {
        RemoveWithin(i, |kept|, all);
      }
    }

    /** LIST_REMOVE where the place of the item and an enclosing set of items are known. */
    method RemoveWithin(item: Item, ghost k: nat, ghost all: seq<Item>)
      requires Valid() && k < |items| && items[k] == item && Within(items, all)
      modifies this, all
      ensures Valid() && items == RemoveAt(old(items), k) && Within(items, all)
      ensures item.next == null && item.prev == null
    {
      assert IndexOf(items, item) == k;
      Remove(item);
    }

    /** LIST_FOREACH_OTHERS: all items but `p`, in order. */
    method ForeachOthers(p: Item) returns (visited: seq<Item>)
      requires Valid() && p in items
      ensures visited == RemoveAt(items, IndexOf(items, p))
    {
      ghost var pi := IndexOf(items, p);
      var i := FindHead(p);
      if i == p {
        i := p.next;
      }
      visited := [];
      ghost var k := if pi == 0 then 1 else 0;
      while i != null
        invariant k <= |items| && k != pi
        invariant i == if k == |items| then null else items[k]
        invariant visited == if k <= pi then items[..k] else items[..pi] + items[pi + 1..k]
        decreases |items| - k
      {
        visited := visited + [i];
        if i.next == p {
          i, k := p.next, k + 2;
        } else {
          i, k := i.next, k + 1;
        }
      }
    }

    /** LIST_LOOP_BUT_ONE: from the item after `p` round to the item before it. */
    method LoopButOne(p: Item) returns (visited: seq<Item>)
      requires Valid() && p in items
      ensures visited == items[IndexOf(items, p) + 1..] + items[..IndexOf(items, p)]
    {
      ghost var pi := IndexOf(items, p);
      var i := if p.next != null then p.next else head;
      visited := [];
      ghost var k := if p.next != null then pi + 1 else 0;
      while i != p
        invariant 0 <= k < |items| && i == items[k]
        invariant visited == if k > pi then items[pi + 1..k] else items[pi + 1..] + items[..k]
        decreases if k > pi then |items| + |items| - k else |items| - k
      {
        visited := visited + [i];
        k := if i.next != null then k + 1 else 0;
        i := if i.next != null then i.next else head;
      }
    }
  }

  /** The first `k` of all items were visited, and of these the kept ones are still listed. */
  ghost predicate VisitedSo(
    all: seq<Item>, k: nat, visited: seq<Item>, kept: seq<Item>, items: seq<Item>, drop: Item -> bool)
  {
    k <= |all| && visited == all[..k] && kept == Kept(all[..k], drop) && items == kept + all[k..]
  }

  lemma NoneVisited(all: seq<Item>, drop: Item -> bool)
    ensures VisitedSo(all, 0, [], [], all, drop)
  {
    assert all[..0] == [];
  }

  lemma AllVisited(all: seq<Item>, visited: seq<Item>, kept: seq<Item>, items: seq<Item>, drop: Item -> bool)
    requires VisitedSo(all, |all|, visited, kept, items, drop)
    ensures visited == all && items == Kept(all, drop)
  {
    assert all[|all|..] == [] && all[..|all|] == all;
  }

  ghost predicate Within(s: seq<Item>, all: seq<Item>) {
    forall i :: 0 <= i < |s| ==> s[i] in all
  }

  ghost function Kept(s: seq<Item>, drop: Item -> bool): seq<Item> {
    if s == [] then []
    else Kept(s[..|s| - 1], drop) + if drop(s[|s| - 1]) then [] else [s[|s| - 1]]
  }

  lemma {:induction false} KeptSome(s: seq<Item>, drop: Item -> bool)
    ensures |Kept(s, drop)| <= |s|
    ensures forall x :: x in Kept(s, drop) <==> x in s && !drop(x)
  {
    if s != [] {
      KeptSome(s[..|s| - 1], drop);
      assert s == s[..|s| - 1] + [s[|s| - 1]];
    }
  }

  lemma KeptNext(all: seq<Item>, k: nat, kept: seq<Item>, drop: Item -> bool)
    requires k < |all| && kept == Kept(all[..k], drop)
    ensures Kept(all[..k + 1], drop) == if drop(all[k]) then kept else kept + [all[k]]
    ensures RemoveAt(kept + all[k..], |kept|) == kept + all[k + 1..]
    ensures kept + all[k..] == kept + [all[k]] + all[k + 1..]
    ensures all[..k + 1] == all[..k] + [all[k]]
  {
    assert all[..k + 1][..k] == all[..k];
  }

  // ---------------------------------------------------------------- other lists

  /** A removal from one list and an append to it leave a list that shares no item with it as
      it was: methods of a list touch its own items and the items put into it. */
  method OtherListsUnchanged(a: List, b: List, x: Item, y: Item)
    requires a.Valid() && b.Valid() && a != b
    requires forall i :: 0 <= i < |b.items| ==> b.items[i] !in a.items
    requires x !in a.items && x !in b.items && y in a.items
    modifies a, x, a.items
    ensures a.Valid() && b.Valid() && b.items == old(b.items)
    ensures a.items == RemoveAt(old(a.items), IndexOf(old(a.items), y)) + [x]
  {
    a.Remove(y);
    assert forall i :: i in a.items ==> i in old(a.items);
    a.Append(x);
  }
}
