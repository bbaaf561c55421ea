/** What the tables of the program need of sequences: finding, removing and counting. */
module Sequences {
  function Count<T(==)>(s: seq<T>, x: T): nat {
    if s == [] then 0 else Count(s[..|s| - 1], x) + if s[|s| - 1] == x then 1 else 0
  }

  ghost predicate NoDuplicates<T>(s: seq<T>) {
    forall i, j :: 0 <= i < j < |s| ==> s[i] != s[j]
  }

  function Repeat<T>(x: T, n: nat): (r: seq<T>)
    ensures |r| == n
    ensures forall i :: 0 <= i < n ==> r[i] == x
  {
    seq(n, i => x)
  }

  /** Position of the first element with the property; |s| when there is none. */
  function First<T(!new)>(s: seq<T>, p: T -> bool): (i: nat)
    ensures i <= |s|
    ensures i < |s| ==> p(s[i])
    ensures forall j :: 0 <= j < i ==> !p(s[j])
  {
    if s == [] then 0 else if p(s[0]) then 0 else 1 + First(s[1..], p)
  }

  /** Position of the first `x` in `s`; |s| when there is none. */
  function Find<T(==)>(s: seq<T>, x: T): (i: nat)
    ensures i <= |s|
    ensures i < |s| ==> s[i] == x
    ensures forall j :: 0 <= j < i ==> s[j] != x
  {
    if s == [] then 0 else if s[0] == x then 0 else 1 + Find(s[1..], x)
  }

  function RemoveAt<T>(s: seq<T>, i: nat): seq<T>
    requires i < |s|
  {
    s[..i] + s[i + 1..]
  }

  function RemoveFirst<T(==)>(s: seq<T>, x: T): seq<T> {
    var i := Find(s, x);
    if i < |s| then RemoveAt(s, i) else s
  }

  /** The number of elements with the property. */
  function Tally<T(!new)>(s: seq<T>, p: T -> bool): nat {
    if s == [] then 0 else Tally(s[..|s| - 1], p) + if p(s[|s| - 1]) then 1 else 0
  }

  lemma TallyPush<T(!new)>(s: seq<T>, x: T, p: T -> bool)
    ensures Tally(s + [x], p) == Tally(s, p) + if p(x) then 1 else 0
  {
    assert (s + [x])[..|s|] == s;
  }

  lemma {:induction false} TallyRemove<T(!new)>(s: seq<T>, k: nat, p: T -> bool)
    requires k < |s|
    ensures Tally(s, p) == Tally(RemoveAt(s, k), p) + if p(s[k]) then 1 else 0
  {
    var r := RemoveAt(s, k);
    if k == |s| - 1 {
      assert r == s[..k];
    } else {
      TallyRemove(s[..|s| - 1], k, p);
      assert r[..|r| - 1] == RemoveAt(s[..|s| - 1], k);
    }
  }

  lemma TallyPop<T(!new)>(s: seq<T>, p: T -> bool)
    requires s != []
    ensures Tally(s, p) == Tally(s[1..], p) + if p(s[0]) then 1 else 0
  {
    TallyRemove(s, 0, p);
    assert RemoveAt(s, 0) == s[1..];
  }

  lemma {:induction false} TallyPrepend<T(!new)>(s: seq<T>, x: T, p: T -> bool)
    ensures Tally([x] + s, p) == Tally(s, p) + if p(x) then 1 else 0
  {
    TallyPop([x] + s, p);
    assert ([x] + s)[1..] == s;
  }

  lemma {:induction false} TallyZero<T(!new)>(s: seq<T>, p: T -> bool)
    ensures Tally(s, p) == 0 <==> forall x :: x in s ==> !p(x)
  {
    if s != [] {
      TallyZero(s[..|s| - 1], p);
      assert s == s[..|s| - 1] + [s[|s| - 1]];
    }
  }

  lemma {:induction false} TallyUpdate<T(!new)>(s: seq<T>, k: nat, x: T, p: T -> bool)
    requires k < |s|
    ensures Tally(s[k := x], p) + (if p(s[k]) then 1 else 0) == Tally(s, p) + if p(x) then 1 else 0
  {
    TallyRemove(s, k, p);
    TallyRemove(s[k := x], k, p);
    assert RemoveAt(s[k := x], k) == RemoveAt(s, k);
  }
}
