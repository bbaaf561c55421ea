/** The agent's proxies for services of other nodes.  A proxy is created by a request whose
    reply is held back until the target service is known to run or known to have failed. */
module ProxyServices {
  import opened CStrings
  import opened ControllerState
  import opened Sequences

  datatype Key = Key(service: CString, node: CString, unit: CString)

  datatype Answer = Succeeded | ActivationFailed | ServiceStopped | Refused

  datatype Link = Down | Registering | Connected

  /** `call` identifies the CreateProxy request that made the proxy. */
  datatype Output =
    | Reply(call: nat, answer: Answer)
    | StopUnit(call: nat, service: CString)

  datatype Signal =
    | ProxyNew(node: CString, unit: CString, id: nat)
    | ProxyRemoved(node: CString, unit: CString)

  /** `waiting` says that the request message is still held; `bus` is the connection the
      proxy object is exported on. */
  datatype Proxy = Proxy(
    id: nat, key: Key, call: nat, waiting: bool, sentNew: bool, sentReady: bool, dontStop: bool, bus: nat)

  /** `signals` holds what was sent on the current connection. */
  datatype Proxies = Proxies(
    link: Link, bus: Option<nat>, buses: nat, listed: seq<Proxy>, nextId: nat,
    calls: nat, out: seq<Output>, signals: seq<Signal>)

  datatype Happening =
    | Create(key: Key)
    | Remove(key: Key)
    | TargetStateChanged(id: nat, state: ActiveState, reason: Reason)
    | TargetNew(id: nat, reason: Reason)
    | TargetRemoved(id: nat, reason: Reason)
    | TargetError(id: nat)
    | BusOpened
    | BusFailed
    | Registered
    | ConnectionLost
    | AgentStopped

  // ---------------------------------------------------------------- what each handler does

  function ByKey(l: seq<Proxy>, key: Key): (k: nat)
    ensures k <= |l|
    ensures k < |l| ==> l[k].key == key
    ensures forall j :: 0 <= j < k ==> l[j].key != key
  {
    First(l, (p: Proxy) => p.key == key)
  }

  function ById(l: seq<Proxy>, id: nat): (k: nat)
    ensures k <= |l|
    ensures k < |l| ==> l[k].id == id
    ensures forall j :: 0 <= j < k ==> l[j].id != id
  {
    First(l, (p: Proxy) => p.id == id)
  }

  function Unlist(s: Proxies, k: nat, emit: bool): Proxies
    requires k < |s.listed|
  {
    var p := s.listed[k];
    s.(listed := RemoveAt(s.listed, k),
       out := s.out
         + (if p.waiting then [Reply(p.call, ServiceStopped)] else [])
         + (if p.sentReady && !p.dontStop then [StopUnit(p.call, p.key.service)] else []),
       signals := s.signals
         + if emit && p.sentNew && s.link.Connected? then [ProxyRemoved(p.key.node, p.key.unit)] else [])
  }

  /** The state between the reply of a waiting proxy and, on failure, its removal. */
  function Replied(s: Proxies, k: nat, success: bool): Proxies
    requires k < |s.listed|
  {
    var p := s.listed[k];
    s.(listed := s.listed[k := p.(waiting := false, sentReady := success || p.sentReady)],
       out := s.out + [Reply(p.call, if success then Succeeded else ActivationFailed)])
  }

  function InitialStateReached(s: Proxies, k: nat, success: bool): Proxies
    requires k < |s.listed|
  {
    var replied := Replied(s, k, success);
    if replied.listed[k].sentReady then replied else Unlist(replied, k, true)
  }

  function Created(s: Proxies, key: Key): Proxies {
    var answered := s.(calls := s.calls + 1);
    if ByKey(s.listed, key) < |s.listed| then
      answered.(out := s.out + [Reply(s.calls, Refused)])
    else if s.bus.None? then
      answered.(nextId := s.nextId + 1, out := s.out + [Reply(s.calls, Refused)])
    else
      var p := Proxy(s.nextId + 1, key, s.calls, true, s.link.Connected?, false, false, s.bus.value);
      answered.(nextId := s.nextId + 1, listed := s.listed + [p],
                signals := s.signals + if s.link.Connected? then [ProxyNew(key.node, key.unit, p.id)] else [])
  }

  function Removed(s: Proxies, key: Key): Proxies {
    var k := ByKey(s.listed, key);
    if k == |s.listed| then s
    else Unlist(s.(listed := s.listed[k := s.listed[k].(dontStop := true)]), k, true)
  }

  predicate Ended(state: ActiveState, reason: Reason) {
    (state == Failed || state == Inactive) && reason == Real
  }

  function StateChanged(s: Proxies, k: nat, state: ActiveState, reason: Reason): Proxies
    requires k < |s.listed|
  {
    if s.listed[k].waiting then
      if state == Active then InitialStateReached(s, k, true)
      else if Ended(state, reason) then InitialStateReached(s, k, false)
      else s
    else if s.listed[k].sentReady && Ended(state, reason) then Unlist(s, k, true)
    else s
  }

  function Announcements(l: seq<Proxy>): (r: seq<Signal>)
    ensures |r| == |l|
    ensures forall i :: 0 <= i < |l| ==> r[i] == ProxyNew(l[i].key.node, l[i].key.unit, l[i].id)
  {
    seq(|l|, i requires 0 <= i < |l| => ProxyNew(l[i].key.node, l[i].key.unit, l[i].id))
  }

  function MarkSent(l: seq<Proxy>): (r: seq<Proxy>)
    ensures |r| == |l|
    ensures forall i :: 0 <= i < |l| ==> r[i] == l[i].(sentNew := true)
  {
    seq(|l|, i requires 0 <= i < |l| => l[i].(sentNew := true))
  }

  /** The list is emptied from its front. */
  function AllUnlisted(s: Proxies): Proxies
    decreases |s.listed|
  {
    if s.listed == [] then s else AllUnlisted(Unlist(s, 0, false))
  }

  /** Connecting closes the old connection first, so the agent is left without one when the
      next cannot be opened. */
  function After(s: Proxies, e: Happening): Proxies
    requires Enabled(s, e)
  {
    match e
    case Create(key) => Created(s, key)
    case Remove(key) => Removed(s, key)
    case TargetStateChanged(id, state, reason) => StateChanged(s, ById(s.listed, id), state, reason)
    case TargetNew(_, _) => s
    case TargetRemoved(id, reason) =>
      var k := ById(s.listed, id);
      if s.listed[k].waiting && reason == Real then InitialStateReached(s, k, false) else s
    case TargetError(id) => InitialStateReached(s, ById(s.listed, id), false)
    case BusOpened => s.(link := Registering, bus := Some(s.buses), buses := s.buses + 1, signals := [])
    case BusFailed => s.(link := Down, bus := None)
    case Registered =>
      s.(link := Connected, listed := MarkSent(s.listed), signals := s.signals + Announcements(s.listed))
    case ConnectionLost => s.(link := Down)
    case AgentStopped => AllUnlisted(s.(link := Down, bus := None))
  }

  /** Messages of the controller reach a proxy on the connection it is exported on, for as long
      as that is open, even when the agent has given it up already.  An error is sent instead
      of every other message, so it finds the proxy waiting. */
  predicate Reachable(s: Proxies, id: nat) {
    var k := ById(s.listed, id);
    k < |s.listed| && s.bus == Some(s.listed[k].bus)
  }

  predicate Enabled(s: Proxies, e: Happening) {
    match e
    case TargetStateChanged(id, _, _) => Reachable(s, id)
    case TargetNew(id, _) => Reachable(s, id)
    case TargetRemoved(id, _) => Reachable(s, id)
    case TargetError(id) => Reachable(s, id) && s.listed[ById(s.listed, id)].waiting
    case Registered => s.bus.Some? && s.link == Registering
    case _ => true
  }

  const STARTED := Proxies(Down, None, 0, [], 0, 0, [], [])

  /** What the agent holds after the happenings; None when one of them could not occur. */
  function RunOf(es: seq<Happening>): Option<Proxies> {
    if es == [] then Some(STARTED)
    else
      var before, e := RunOf(es[..|es| - 1]), es[|es| - 1];
      if before.Some? && Enabled(before.value, e) then Some(After(before.value, e)) else None
  }

  // ---------------------------------------------------------------- counting

  function Replies(out: seq<Output>, call: nat): nat {
    if out == [] then 0
    else Replies(out[..|out| - 1], call) + if out[|out| - 1].Reply? && out[|out| - 1].call == call then 1 else 0
  }

  function Stops(out: seq<Output>, call: nat): nat {
    if out == [] then 0
    else Stops(out[..|out| - 1], call) + if out[|out| - 1].StopUnit? && out[|out| - 1].call == call then 1 else 0
  }

  /** ProxyNew signals for the target less ProxyRemoved signals for it. */
  function Announced(signals: seq<Signal>, node: CString, unit: CString): int {
    if signals == [] then 0
    else
      var last := signals[|signals| - 1];
      Announced(signals[..|signals| - 1], node, unit)
      + if last.node != node || last.unit != unit then 0 else if last.ProxyNew? then 1 else -1
  }

  function ListedFor(l: seq<Proxy>, node: CString, unit: CString): nat {
    if l == [] then 0
    else ListedFor(l[..|l| - 1], node, unit)
         + if l[|l| - 1].key.node == node && l[|l| - 1].key.unit == unit then 1 else 0
  }

  /** The listed proxies that hold the request `call`, and those made by it. */
  function Holding(l: seq<Proxy>, call: nat): nat {
    if l == [] then 0
    else Holding(l[..|l| - 1], call) + if l[|l| - 1].call == call && l[|l| - 1].waiting then 1 else 0
  }

  function MadeBy(l: seq<Proxy>, call: nat): nat {
    if l == [] then 0
    else MadeBy(l[..|l| - 1], call) + if l[|l| - 1].call == call then 1 else 0
  }

  // ---------------------------------------------------------------- the invariant

  /** A proxy either waits for its target or has reported it ready; it is never both or neither. */
  predicate WaitingOrReady(p: Proxy) {
    !p.dontStop && (p.waiting <==> !p.sentReady)
  }

  ghost predicate Ordered(l: seq<Proxy>) {
    forall i, j :: 0 <= i < j < |l| ==> l[i].id < l[j].id && l[i].call < l[j].call && l[i].key != l[j].key
  }

  ghost predicate ListOk(s: Proxies) {
    && Ordered(s.listed)
    && (forall i :: 0 <= i < |s.listed| ==>
          s.listed[i].id <= s.nextId && s.listed[i].call < s.calls && s.listed[i].bus < s.buses)
    && (s.bus.Some? ==> s.bus.value < s.buses)
    && (s.link != Down ==> s.bus.Some?)
  }

  ghost predicate PhasesOk(l: seq<Proxy>) {
    forall i :: 0 <= i < |l| ==> WaitingOrReady(l[i])
  }

  /** Every CreateProxy call so far is either answered or held by a listed proxy, once. */
  ghost predicate Answered(s: Proxies) {
    forall c: nat :: Replies(s.out, c) + Holding(s.listed, c) == if c < s.calls then 1 else 0
  }

  /** A local service is stopped at most once, and not while its proxy is listed. */
  ghost predicate StoppedOnce(s: Proxies) {
    forall c: nat :: Stops(s.out, c) + MadeBy(s.listed, c) <= if c < s.calls then 1 else 0
  }

  /** A ready proxy was answered with success, and so was one whose service was stopped. */
  ghost predicate ReadyAnswered(s: Proxies) {
    && (forall i :: 0 <= i < |s.out| && s.out[i].StopUnit? ==> Reply(s.out[i].call, Succeeded) in s.out)
    && (forall k :: 0 <= k < |s.listed| && s.listed[k].sentReady ==> Reply(s.listed[k].call, Succeeded) in s.out)
  }

  /** While connected, what was announced and not withdrawn on this connection is what is listed. */
  ghost predicate Balanced(s: Proxies) {
    && (s.link == Registering ==> s.signals == [])
    && (s.link.Connected? ==>
          && (forall k :: 0 <= k < |s.listed| ==> s.listed[k].sentNew)
          && (forall node, unit :: Announced(s.signals, node, unit) == ListedFor(s.listed, node, unit)))
  }

  ghost predicate Inv(s: Proxies) {
    ListOk(s) && PhasesOk(s.listed) && Answered(s) && StoppedOnce(s) && ReadyAnswered(s) && Balanced(s)
  }

  lemma OneMoreOutput(out: seq<Output>, o: Output, c: nat)
    ensures Replies(out + [o], c) == Replies(out, c) + if o.Reply? && o.call == c then 1 else 0
    ensures Stops(out + [o], c) == Stops(out, c) + if o.StopUnit? && o.call == c then 1 else 0
  {
    assert (out + [o])[..|out|] == out;
  }

  lemma OneMoreSignal(signals: seq<Signal>, g: Signal, node: CString, unit: CString)
    ensures Announced(signals + [g], node, unit) == Announced(signals, node, unit)
              + if g.node != node || g.unit != unit then 0 else if g.ProxyNew? then 1 else -1
  {
    assert (signals + [g])[..|signals|] == signals;
  }

  predicate For(p: Proxy, node: CString, unit: CString) {
    p.key.node == node && p.key.unit == unit
  }

  lemma {:induction false} OneLess(l: seq<Proxy>, k: nat, call: nat)
    requires k < |l|
    ensures Holding(l, call) == Holding(RemoveAt(l, k), call) + if l[k].call == call && l[k].waiting then 1 else 0
    ensures MadeBy(l, call) == MadeBy(RemoveAt(l, k), call) + if l[k].call == call then 1 else 0
  {
    var r := RemoveAt(l, k);
    if k == |l| - 1 {
      assert r == l[..|l| - 1];
    } else {
      OneLess(l[..|l| - 1], k, call);
      assert r[..|r| - 1] == RemoveAt(l[..|l| - 1], k);
    }
  }

  lemma {:induction false} OneLessListed(l: seq<Proxy>, k: nat, node: CString, unit: CString)
    requires k < |l|
    ensures ListedFor(l, node, unit) == ListedFor(RemoveAt(l, k), node, unit) + if For(l[k], node, unit) then 1 else 0
  {
    var r := RemoveAt(l, k);
    if k == |l| - 1 {
      assert r == l[..|l| - 1];
    } else {
      OneLessListed(l[..|l| - 1], k, node, unit);
      assert r[..|r| - 1] == RemoveAt(l[..|l| - 1], k);
    }
  }

  /** Counts after the proxy at `k` was changed but not moved. */
  lemma Changed(l: seq<Proxy>, k: nat, q: Proxy, call: nat, node: CString, unit: CString)
    requires k < |l| && q.call == l[k].call && q.key == l[k].key
    ensures Holding(l[k := q], call) + (if l[k].call == call && l[k].waiting then 1 else 0)
            == Holding(l, call) + if q.call == call && q.waiting then 1 else 0
    ensures MadeBy(l[k := q], call) == MadeBy(l, call)
    ensures ListedFor(l[k := q], node, unit) == ListedFor(l, node, unit)
  {
    assert RemoveAt(l[k := q], k) == RemoveAt(l, k);
    OneLess(l, k, call);
    OneLess(l[k := q], k, call);
    OneLessListed(l, k, node, unit);
    OneLessListed(l[k := q], k, node, unit);
  }

  /** Counts depend on calls, phases and keys only. */
  lemma {:induction false} SameCounts(l: seq<Proxy>, m: seq<Proxy>, call: nat, node: CString, unit: CString)
    requires |l| == |m|
    requires forall i :: 0 <= i < |l| ==> l[i].key == m[i].key && l[i].call == m[i].call && l[i].waiting == m[i].waiting
    ensures Holding(l, call) == Holding(m, call)
    ensures MadeBy(l, call) == MadeBy(m, call)
    ensures ListedFor(l, node, unit) == ListedFor(m, node, unit)
  {
    if l != [] {
      SameCounts(l[..|l| - 1], m[..|m| - 1], call, node, unit);
    }
  }

  lemma {:induction false} AllAnnounced(l: seq<Proxy>, node: CString, unit: CString)
    ensures Announced(Announcements(l), node, unit) == ListedFor(l, node, unit)
  {
    if l != [] {
      AllAnnounced(l[..|l| - 1], node, unit);
      assert Announcements(l)[..|l| - 1] == Announcements(l[..|l| - 1]);
    }
  }

  /** All but one proxy are in a proper phase: what holds between a change of that one and its removal. */
  ghost predicate OthersOk(s: Proxies, k: nat) {
    forall i :: 0 <= i < |s.listed| && i != k ==> WaitingOrReady(s.listed[i])
  }

  lemma UnlistKeepsList(s: Proxies, k: nat, emit: bool)
    requires ListOk(s) && k < |s.listed| && OthersOk(s, k)
    ensures ListOk(Unlist(s, k, emit)) && PhasesOk(Unlist(s, k, emit).listed)
  {
    var u := Unlist(s, k, emit);
    RemovedOrder(s.listed, k);
    assert forall i :: 0 <= i < |u.listed| ==> u.listed[i] == s.listed[if i < k then i else i + 1];
  }

  lemma RemovedOrder(l: seq<Proxy>, k: nat)
    requires Ordered(l) && k < |l|
    ensures Ordered(RemoveAt(l, k))
  {
  }

  lemma UnlistOutput(s: Proxies, k: nat, emit: bool, c: nat)
    requires k < |s.listed|
    ensures var p, u := s.listed[k], Unlist(s, k, emit);
      && Replies(u.out, c) == Replies(s.out, c) + (if p.waiting && p.call == c then 1 else 0)
      && Stops(u.out, c) == Stops(s.out, c) + (if p.sentReady && !p.dontStop && p.call == c then 1 else 0)
  {
    var p, u := s.listed[k], Unlist(s, k, emit);
    var mid := s.out + if p.waiting then [Reply(p.call, ServiceStopped)] else [];
    assert u.out == mid + if p.sentReady && !p.dontStop then [StopUnit(p.call, p.key.service)] else [];
    MaybeOneMore(s.out, Reply(p.call, ServiceStopped), p.waiting, c);
    MaybeOneMore(mid, StopUnit(p.call, p.key.service), p.sentReady && !p.dontStop, c);
  }

  lemma MaybeOneMore(out: seq<Output>, o: Output, said: bool, c: nat)
    ensures var more := out + if said then [o] else [];
      && Replies(more, c) == Replies(out, c) + (if said && o.Reply? && o.call == c then 1 else 0)
      && Stops(more, c) == Stops(out, c) + (if said && o.StopUnit? && o.call == c then 1 else 0)
  {
    OneMoreOutput(out, o, c);
    assert out + [] == out;
  }

  lemma UnlistKeepsCounts(s: Proxies, k: nat, emit: bool)
    requires Answered(s) && StoppedOnce(s) && k < |s.listed|
    ensures Answered(Unlist(s, k, emit)) && StoppedOnce(Unlist(s, k, emit))
  {
    var u := Unlist(s, k, emit);
    forall c: nat
      ensures Replies(u.out, c) + Holding(u.listed, c) == if c < u.calls then 1 else 0
      ensures Stops(u.out, c) + MadeBy(u.listed, c) <= if c < u.calls then 1 else 0
    {
      UnlistOutput(s, k, emit, c);
      OneLess(s.listed, k, c);
    }
  }

  lemma UnlistKeepsReady(s: Proxies, k: nat, emit: bool)
    requires ReadyAnswered(s) && k < |s.listed|
    ensures ReadyAnswered(Unlist(s, k, emit))
  {
    var u := Unlist(s, k, emit);
    forall j | 0 <= j < |u.listed| && u.listed[j].sentReady ensures Reply(u.listed[j].call, Succeeded) in u.out {
      assert u.listed[j] == s.listed[if j < k then j else j + 1];
    }
  }

  lemma UnlistKeepsBalance(s: Proxies, k: nat, emit: bool)
    requires Balanced(s) && k < |s.listed| && (s.link == Down || emit)
    ensures Balanced(Unlist(s, k, emit))
  {
    var p, u := s.listed[k], Unlist(s, k, emit);
    if s.link.Connected? {
      forall node, unit ensures Announced(u.signals, node, unit) == ListedFor(u.listed, node, unit) {
        OneLessListed(s.listed, k, node, unit);
        OneMoreSignal(s.signals, ProxyRemoved(p.key.node, p.key.unit), node, unit);
      }
    }
  }

  lemma UnlistKeeps(s: Proxies, k: nat, emit: bool)
    requires k < |s.listed| && OthersOk(s, k)
    requires ListOk(s) && Answered(s) && StoppedOnce(s) && ReadyAnswered(s) && Balanced(s)
    requires s.link == Down || emit
    ensures Inv(Unlist(s, k, emit))
  {
    UnlistKeepsList(s, k, emit);
    UnlistKeepsCounts(s, k, emit);
    UnlistKeepsReady(s, k, emit);
    UnlistKeepsBalance(s, k, emit);
  }

  lemma {:induction false} AllUnlistedKeeps(s: Proxies)
    requires Inv(s) && s.link == Down
    ensures Inv(AllUnlisted(s)) && AllUnlisted(s).listed == []
    decreases |s.listed|
  {
    if s.listed != [] {
      UnlistKeeps(s, 0, false);
      AllUnlistedKeeps(Unlist(s, 0, false));
    }
  }

  lemma RemovedKeeps(s: Proxies, key: Key)
    requires Inv(s)
    ensures Inv(Removed(s, key))
  {
    var k := ByKey(s.listed, key);
    if k < |s.listed| {
      var q := s.listed[k].(dontStop := true);
      var t := s.(listed := s.listed[k := q]);
      forall c: nat
        ensures Holding(t.listed, c) == Holding(s.listed, c) && MadeBy(t.listed, c) == MadeBy(s.listed, c)
      {
        Changed(s.listed, k, q, c, WILDCARD, WILDCARD);
      }
      forall node, unit ensures ListedFor(t.listed, node, unit) == ListedFor(s.listed, node, unit) {
        Changed(s.listed, k, q, 0, node, unit);
      }
      UnlistKeeps(t, k, true);
    }
  }

  lemma RepliedCounts(s: Proxies, k: nat, success: bool)
    requires Answered(s) && StoppedOnce(s) && k < |s.listed| && s.listed[k].waiting
    ensures Answered(Replied(s, k, success)) && StoppedOnce(Replied(s, k, success))
  {
    var t := Replied(s, k, success);
    forall c: nat
      ensures Replies(t.out, c) + Holding(t.listed, c) == Replies(s.out, c) + Holding(s.listed, c)
      ensures Stops(t.out, c) + MadeBy(t.listed, c) == Stops(s.out, c) + MadeBy(s.listed, c)
    {
      Changed(s.listed, k, t.listed[k], c, WILDCARD, WILDCARD);
      OneMoreOutput(s.out, t.out[|s.out|], c);
    }
  }

  lemma RepliedBalance(s: Proxies, k: nat, success: bool)
    requires Balanced(s) && k < |s.listed|
    ensures Balanced(Replied(s, k, success))
  {
    var t := Replied(s, k, success);
    forall node, unit ensures ListedFor(t.listed, node, unit) == ListedFor(s.listed, node, unit) {
      Changed(s.listed, k, t.listed[k], 0, node, unit);
    }
  }

  lemma RepliedReady(s: Proxies, k: nat, success: bool)
    requires ListOk(s) && ReadyAnswered(s) && k < |s.listed| && WaitingOrReady(s.listed[k]) && s.listed[k].waiting
    ensures ListOk(Replied(s, k, success)) && ReadyAnswered(Replied(s, k, success))
  {
    var t := Replied(s, k, success);
    assert t.out[|s.out|] in t.out;
  }

  lemma InitialStateKeeps(s: Proxies, k: nat, success: bool)
    requires Inv(s) && k < |s.listed| && s.listed[k].waiting
    ensures Inv(InitialStateReached(s, k, success))
  {
    RepliedCounts(s, k, success);
    RepliedBalance(s, k, success);
    RepliedReady(s, k, success);
    if !success {
      UnlistKeeps(Replied(s, k, success), k, true);
    }
  }

  lemma RefusedKeeps(s: Proxies, nextId: nat)
    requires Inv(s) && s.nextId <= nextId
    ensures Inv(s.(nextId := nextId, calls := s.calls + 1, out := s.out + [Reply(s.calls, Refused)]))
  {
    forall c: nat
      ensures Replies(s.out + [Reply(s.calls, Refused)], c) == Replies(s.out, c) + if c == s.calls then 1 else 0
      ensures Stops(s.out + [Reply(s.calls, Refused)], c) == Stops(s.out, c)
    {
      OneMoreOutput(s.out, Reply(s.calls, Refused), c);
    }
  }

  lemma ListedCounts(s: Proxies, key: Key)
    requires Answered(s) && StoppedOnce(s) && s.bus.Some? && ByKey(s.listed, key) == |s.listed|
    ensures Answered(Created(s, key)) && StoppedOnce(Created(s, key))
  {
    var t := Created(s, key);
    assert t.listed[..|s.listed|] == s.listed;
    assert forall c: nat ::
        Holding(t.listed, c) == Holding(s.listed, c) + (if c == s.calls then 1 else 0)
        && MadeBy(t.listed, c) == MadeBy(s.listed, c) + if c == s.calls then 1 else 0;
  }

  lemma ListedBalance(s: Proxies, key: Key)
    requires Balanced(s) && s.bus.Some? && ByKey(s.listed, key) == |s.listed|
    ensures Balanced(Created(s, key))
  {
    var t := Created(s, key);
    assert t.listed[..|s.listed|] == s.listed;
    if s.link.Connected? {
      forall node, unit ensures Announced(t.signals, node, unit) == ListedFor(t.listed, node, unit) {
        OneMoreSignal(s.signals, ProxyNew(key.node, key.unit, s.nextId + 1), node, unit);
      }
    }
  }

  lemma ListedKeeps(s: Proxies, key: Key)
    requires Inv(s) && s.bus.Some? && ByKey(s.listed, key) == |s.listed|
    ensures Inv(Created(s, key))
  {
    ListedCounts(s, key);
    ListedBalance(s, key);
    var t := Created(s, key);
    assert ListOk(t) && PhasesOk(t.listed) && ReadyAnswered(t);
  }

  lemma CreatedKeeps(s: Proxies, key: Key)
    requires Inv(s)
    ensures Inv(Created(s, key))
  {
    if ByKey(s.listed, key) < |s.listed| {
      RefusedKeeps(s, s.nextId);
    } else if s.bus.None? {
      RefusedKeeps(s, s.nextId + 1);
    } else {
      ListedKeeps(s, key);
    }
  }

  lemma RegisteredCounts(s: Proxies)
    requires Answered(s) && StoppedOnce(s) && Enabled(s, Registered)
    ensures Answered(After(s, Registered)) && StoppedOnce(After(s, Registered))
  {
    var t := After(s, Registered);
    forall c: nat
      ensures Holding(t.listed, c) == Holding(s.listed, c) && MadeBy(t.listed, c) == MadeBy(s.listed, c)
    {
      SameCounts(s.listed, t.listed, c, WILDCARD, WILDCARD);
    }
  }

  lemma RegisteredBalance(s: Proxies)
    requires Balanced(s) && Enabled(s, Registered)
    ensures Balanced(After(s, Registered))
  {
    var t := After(s, Registered);
    assert t.signals == Announcements(s.listed);
    forall node, unit ensures Announced(t.signals, node, unit) == ListedFor(t.listed, node, unit) {
      SameCounts(s.listed, t.listed, 0, node, unit);
      AllAnnounced(s.listed, node, unit);
    }
  }

  lemma RegisteredList(s: Proxies)
    requires ListOk(s) && PhasesOk(s.listed) && ReadyAnswered(s) && Enabled(s, Registered)
    ensures var t := After(s, Registered); ListOk(t) && PhasesOk(t.listed) && ReadyAnswered(t)
  {
  }

  lemma RegisteredKeeps(s: Proxies)
    requires Inv(s) && Enabled(s, Registered)
    ensures Inv(After(s, Registered))
  {
    RegisteredCounts(s);
    RegisteredBalance(s);
    RegisteredList(s);
  }

  lemma AfterKeeps(s: Proxies, e: Happening)
    requires Inv(s) && Enabled(s, e)
    ensures Inv(After(s, e))
  {
    match e
    case Create(key) => CreatedKeeps(s, key);
    case Remove(key) => RemovedKeeps(s, key);
    case TargetStateChanged(id, state, reason) =>
      var k := ById(s.listed, id);
      if s.listed[k].waiting {
        if state == Active || Ended(state, reason) {
          InitialStateKeeps(s, k, state == Active);
        }
      } else if Ended(state, reason) {
        UnlistKeeps(s, k, true);
      }
    case TargetNew(_, _) =>
    case TargetRemoved(id, reason) =>
      var k := ById(s.listed, id);
      if s.listed[k].waiting && reason == Real {
        InitialStateKeeps(s, k, false);
      }
    case TargetError(id) => InitialStateKeeps(s, ById(s.listed, id), false);
    case BusOpened =>
    case BusFailed =>
    case Registered => RegisteredKeeps(s);
    case ConnectionLost =>
    case AgentStopped => AllUnlistedKeeps(s.(link := Down, bus := None));
  }

  // ---------------------------------------------------------------- whole runs

  lemma {:induction false} RunKeeps(es: seq<Happening>)
    requires RunOf(es).Some?
    ensures Inv(RunOf(es).value)
  {
    if es != [] {
      RunKeeps(es[..|es| - 1]);
      AfterKeeps(RunOf(es[..|es| - 1]).value, es[|es| - 1]);
    }
  }

  /** Over every run: a CreateProxy call gets at most one reply, and has got exactly one once
      no listed proxy holds it. */
  lemma RepliedExactlyOnce(es: seq<Happening>, call: nat)
    requires RunOf(es).Some?
    ensures var s := RunOf(es).value;
      && Replies(s.out, call) <= 1
      && (Replies(s.out, call) == 1 <==> call < s.calls && Holding(s.listed, call) == 0)
  {
    RunKeeps(es);
    var s := RunOf(es).value;
    assert Replies(s.out, call) + Holding(s.listed, call) == if call < s.calls then 1 else 0;
  }

  /** Over every run: a local service is stopped at most once, only after a success reply, and
      not while its proxy is listed. */
  lemma StoppedAtMostOnce(es: seq<Happening>, call: nat)
    requires RunOf(es).Some?
    ensures var s := RunOf(es).value;
      && Stops(s.out, call) <= 1
      && (Stops(s.out, call) == 1 ==> MadeBy(s.listed, call) == 0 && Reply(call, Succeeded) in s.out)
  {
    RunKeeps(es);
    var s := RunOf(es).value;
    assert Stops(s.out, call) + MadeBy(s.listed, call) <= if call < s.calls then 1 else 0;
    if Stops(s.out, call) == 1 {
      StopIsLogged(s.out, call);
    }
  }

  lemma {:induction false} StopIsLogged(out: seq<Output>, call: nat)
    requires Stops(out, call) > 0
    ensures exists i :: 0 <= i < |out| && out[i].StopUnit? && out[i].call == call
  {
    if !(out[|out| - 1].StopUnit? && out[|out| - 1].call == call) {
      StopIsLogged(out[..|out| - 1], call);
      var i :| 0 <= i < |out| - 1 && out[..|out| - 1][i].StopUnit? && out[..|out| - 1][i].call == call;
      assert out[i].StopUnit?;
    }
  }

  // ---------------------------------------------------------------- which answer

  /** What is said about a proxy that goes with RemoveProxy or with the agent. */
  function LastWords(p: Proxy): seq<Output> {
    if p.waiting then [Reply(p.call, ServiceStopped)] else [StopUnit(p.call, p.key.service)]
  }

  function AllLastWords(l: seq<Proxy>): seq<Output> {
    if l == [] then [] else LastWords(l[0]) + AllLastWords(l[1..])
  }

  /** What each message about the target of a listed proxy makes the agent say: a waiting
      request is answered with success when the target is active and with the failure when it
      failed, stopped or is gone; a ready service is stopped when its target fails or stops. */
  lemma TargetIsAnswered(s: Proxies, e: Happening, i: nat)
    requires Inv(s) && Enabled(s, e) && i < |s.listed|
    requires e.TargetStateChanged? || e.TargetNew? || e.TargetRemoved? || e.TargetError?
    requires e.id == s.listed[i].id
    ensures var p, out := s.listed[i], After(s, e).out;
      var failed := match e
                    case TargetStateChanged(_, state, reason) => reason == Real && (state == Failed || state == Inactive)
                    case TargetRemoved(_, reason) => reason == Real
                    case TargetError(_) => true
                    case _ => false;
      && (p.waiting && e.TargetStateChanged? && e.state == Active ==> out == s.out + [Reply(p.call, Succeeded)])
      && (p.waiting && failed ==> out == s.out + [Reply(p.call, ActivationFailed)])
      && (!p.waiting && failed && e.TargetStateChanged? ==> out == s.out + [StopUnit(p.call, p.key.service)])
      && (!failed && !(p.waiting && e.TargetStateChanged? && e.state == Active) ==> out == s.out)
      && (!p.waiting && e.TargetRemoved? ==> out == s.out)
  {
    UniqueAt(s, i);
    var p := s.listed[i];
    assert WaitingOrReady(p);
    assert s.out + [Reply(p.call, ActivationFailed)] + [] + [] == s.out + [Reply(p.call, ActivationFailed)];
    assert s.out + [] + [StopUnit(p.call, p.key.service)] == s.out + [StopUnit(p.call, p.key.service)];
  }

  /** A request is refused at once if there is a proxy with the key or no connection, and
      otherwise gets no answer yet. */
  lemma CreateIsAnswered(s: Proxies, key: Key)
    ensures var t := Created(s, key);
      var refused := s.bus.None? || exists i :: 0 <= i < |s.listed| && s.listed[i].key == key;
      && t.out == s.out + (if refused then [Reply(s.calls, Refused)] else [])
      && t.calls == s.calls + 1
      && |t.listed| == |s.listed| + (if refused then 0 else 1)
      && (!refused ==>
            var p := t.listed[|s.listed|];
            p.key == key && p.call == s.calls && p.waiting && Some(p.bus) == s.bus)
  {
    assert s.out + [] == s.out;
  }

  /** RemoveProxy answers a waiting request with "stopped", and never stops the local service. */
  lemma RemoveIsAnswered(s: Proxies, i: nat)
    requires Inv(s) && i < |s.listed|
    ensures Removed(s, s.listed[i].key).out
              == s.out + if s.listed[i].waiting then [Reply(s.listed[i].call, ServiceStopped)] else []
  {
    UniqueAt(s, i);
    var p := s.listed[i];
    assert s.out + [Reply(p.call, ServiceStopped)] + [] == s.out + [Reply(p.call, ServiceStopped)];
    assert s.out + [] + [] == s.out;
  }

  /** The agent's end answers each waiting request with "stopped" and stops each ready service,
      in the order of the list. */
  lemma {:induction false} EndIsAnswered(s: Proxies)
    requires PhasesOk(s.listed)
    ensures AllUnlisted(s).out == s.out + AllLastWords(s.listed)
    decreases |s.listed|
  {
    if s.listed != [] {
      var p, t := s.listed[0], Unlist(s, 0, false);
      assert t.listed == s.listed[1..];
      assert WaitingOrReady(p);
      assert t.out == s.out + LastWords(p);
      EndIsAnswered(t);
      assert s.out + LastWords(p) + AllLastWords(t.listed) == s.out + (LastWords(p) + AllLastWords(t.listed));
    } else {
      assert s.out + [] == s.out;
    }
  }

  /** Whether a message about the target tells a waiting proxy that it failed. */
  predicate TellsFailure(e: Happening) {
    match e
    case TargetStateChanged(_, state, reason) => reason == Real && (state == Failed || state == Inactive)
    case TargetRemoved(_, reason) => reason == Real
    case TargetError(_) => true
    case _ => false
  }

  predicate AboutTarget(e: Happening) {
    e.TargetStateChanged? || e.TargetNew? || e.TargetRemoved? || e.TargetError?
  }

  /** What happens gives the request this answer. */
  ghost predicate Gets(s: Proxies, e: Happening, call: nat, a: Answer) {
    if a == Refused then
      e.Create? && call == s.calls && (s.bus.None? || exists k :: 0 <= k < |s.listed| && s.listed[k].key == e.key)
    else
      exists i :: 0 <= i < |s.listed| && s.listed[i].call == call && s.listed[i].waiting && GetsAt(s.listed[i], e, a)
  }

  predicate GetsAt(p: Proxy, e: Happening, a: Answer) {
    match a
    case Succeeded => e.TargetStateChanged? && e.id == p.id && e.state == Active
    case ActivationFailed => AboutTarget(e) && e.id == p.id && TellsFailure(e)
    case ServiceStopped => e == Remove(p.key) || e == AgentStopped
    case Refused => false
  }

  lemma {:induction false} LastWordsSay(l: seq<Proxy>, call: nat, a: Answer)
    ensures Reply(call, a) in AllLastWords(l) <==>
              a == ServiceStopped && exists i :: 0 <= i < |l| && l[i].call == call && l[i].waiting
  {
    if l != [] {
      LastWordsSay(l[1..], call, a);
      assert l == [l[0]] + l[1..];
      if i :| 0 <= i < |l| && l[i].call == call && l[i].waiting {
        assert i == 0 || l[1..][i - 1] == l[i];
      }
      if i :| 0 <= i < |l[1..]| && l[1..][i].call == call && l[1..][i].waiting {
        assert l[i + 1].waiting && l[i + 1].call == call;
      }
    }
  }

  lemma OnlyTargetGets(s: Proxies, e: Happening, k: nat, call: nat, a: Answer)
    requires Inv(s) && AboutTarget(e) && k < |s.listed| && s.listed[k].id == e.id
    ensures Gets(s, e, call, a) <==> s.listed[k].call == call && s.listed[k].waiting && GetsAt(s.listed[k], e, a)
  {
    forall i | 0 <= i < |s.listed| && s.listed[i].id == e.id ensures i == k {
      UniqueAt(s, i);
      UniqueAt(s, k);
    }
  }

  lemma TargetGets(s: Proxies, e: Happening, call: nat, a: Answer)
    requires Inv(s) && Enabled(s, e) && AboutTarget(e)
    ensures Reply(call, a) in After(s, e).out <==> Reply(call, a) in s.out || Gets(s, e, call, a)
  {
    var k := ById(s.listed, e.id);
    UniqueAt(s, k);
    TargetIsAnswered(s, e, k);
    OnlyTargetGets(s, e, k, call, a);
  }

  lemma RemoveGets(s: Proxies, key: Key, call: nat, a: Answer)
    requires Inv(s)
    ensures Reply(call, a) in Removed(s, key).out <==> Reply(call, a) in s.out || Gets(s, Remove(key), call, a)
  {
    var k := ByKey(s.listed, key);
    if k < |s.listed| {
      UniqueAt(s, k);
      RemoveIsAnswered(s, k);
      forall i | 0 <= i < |s.listed| && s.listed[i].key == key ensures i == k {
        UniqueAt(s, i);
      }
    }
  }

  lemma StepGets(s: Proxies, e: Happening, call: nat, a: Answer)
    requires Inv(s) && Enabled(s, e)
    ensures Reply(call, a) in After(s, e).out <==> Reply(call, a) in s.out || Gets(s, e, call, a)
  {
    match e
    case Create(key) => CreateIsAnswered(s, key);
    case Remove(key) => RemoveGets(s, key, call, a);
    case AgentStopped =>
      EndIsAnswered(s.(link := Down, bus := None));
      LastWordsSay(s.listed, call, a);
    case BusOpened =>
    case BusFailed =>
    case Registered =>
    case ConnectionLost =>
    case _ => TargetGets(s, e, call, a);
  }

  ghost predicate GotAt(es: seq<Happening>, j: nat, call: nat, a: Answer) {
    j < |es| && RunOf(es[..j]).Some? && Gets(RunOf(es[..j]).value, es[j], call, a)
  }

  /** Over every run: a request was given an answer exactly if something happened that calls for
      this answer: success if the target of its waiting proxy was shown active, the failure if
      it was shown failed or gone, "stopped" if the proxy was removed or the agent ended while it
      waited, and a refusal if there was a proxy with the key already or no connection. */
  lemma {:induction false} AnsweredExactly(es: seq<Happening>, call: nat, a: Answer)
    requires RunOf(es).Some?
    ensures Reply(call, a) in RunOf(es).value.out <==> exists j :: GotAt(es, j, call, a)
  {
    if es != [] {
      var front, l := es[..|es| - 1], |es| - 1;
      AnsweredExactly(front, call, a);
      RunKeeps(front);
      StepGets(RunOf(front).value, es[l], call, a);
      GotMore(es, call, a);
    }
  }

  lemma GotMore(es: seq<Happening>, call: nat, a: Answer)
    requires es != [] && RunOf(es[..|es| - 1]).Some?
    ensures var front, l := es[..|es| - 1], |es| - 1;
      (exists j :: GotAt(es, j, call, a)) <==>
        (exists j :: GotAt(front, j, call, a)) || Gets(RunOf(front).value, es[l], call, a)
  {
    var front, l := es[..|es| - 1], |es| - 1;
    forall j: nat | j < l ensures GotAt(es, j, call, a) <==> GotAt(front, j, call, a) {
      assert front[..j] == es[..j];
    }
    assert GotAt(es, l, call, a) <==> Gets(RunOf(front).value, es[l], call, a);
  }

  /** While connected, the controller has been told of each listed proxy by its own number. */
  lemma {:induction false} AnnouncedById(es: seq<Happening>, i: nat)
    requires RunOf(es).Some? && RunOf(es).value.link.Connected? && i < |RunOf(es).value.listed|
    ensures var p := RunOf(es).value.listed[i]; ProxyNew(p.key.node, p.key.unit, p.id) in RunOf(es).value.signals
  {
    var front, e := es[..|es| - 1], es[|es| - 1];
    var s, t := RunOf(front).value, RunOf(es).value;
    RunKeeps(front);
    if e.Registered? {
      assert t.signals[i] == ProxyNew(t.listed[i].key.node, t.listed[i].key.unit, t.listed[i].id);
    } else {
      var j := ComesFrom(s, e, i);
      if j < |s.listed| {
        AnnouncedById(front, j);
        assert forall x :: x in s.signals ==> x in t.signals;
      }
    }
  }

  /** The signals only grew, and the proxy at `i` is the one that was at `j`, if anything. */
  ghost predicate Comes(s: Proxies, t: Proxies, i: nat, j: nat)
    requires i < |t.listed|
  {
    && t.link == s.link && s.signals <= t.signals
    && (j < |s.listed| ==> s.listed[j].key == t.listed[i].key && s.listed[j].id == t.listed[i].id)
  }

  lemma UnlistComes(s: Proxies, k: nat, i: nat)
    requires k < |s.listed| && i < |s.listed| - 1
    ensures Comes(s, Unlist(s, k, true), i, if i < k then i else i + 1)
  {
  }

  lemma InitialStateComes(s: Proxies, k: nat, success: bool, i: nat) returns (j: nat)
    requires k < |s.listed| && i < |InitialStateReached(s, k, success).listed|
    ensures j < |s.listed| && Comes(s, InitialStateReached(s, k, success), i, j)
  {
    var t := Replied(s, k, success);
    j := i;
    if !t.listed[k].sentReady {
      UnlistComes(t, k, i);
      j := if i < k then i else i + 1;
    }
  }

  lemma TargetComes(s: Proxies, e: Happening, i: nat) returns (j: nat)
    requires Enabled(s, e) && AboutTarget(e) && i < |After(s, e).listed|
    ensures j < |s.listed| && Comes(s, After(s, e), i, j)
  {
    var k := ById(s.listed, e.id);
    j := i;
    if After(s, e) == s {
    } else if s.listed[k].waiting {
      j := InitialStateComes(s, k, e.TargetStateChanged? && e.state == Active, i);
    } else if e.TargetStateChanged? {
      UnlistComes(s, k, i);
      j := if i < k then i else i + 1;
    } else {
      j := InitialStateComes(s, k, false, i);
    }
  }

  /** A proxy that is listed while connected was listed before, or has just been announced. */
  lemma ComesFrom(s: Proxies, e: Happening, i: nat) returns (j: nat)
    requires Enabled(s, e) && !e.Registered?
    requires After(s, e).link.Connected? && i < |After(s, e).listed|
    ensures Comes(s, After(s, e), i, j)
    ensures var p := After(s, e).listed[i];
      j < |s.listed| || ProxyNew(p.key.node, p.key.unit, p.id) in After(s, e).signals
  {
    j := i;
    match e
    case Remove(key) =>
      var k := ByKey(s.listed, key);
      if k < |s.listed| {
        UnlistComes(s.(listed := s.listed[k := s.listed[k].(dontStop := true)]), k, i);
        j := if i < k then i else i + 1;
      }
    case TargetStateChanged(_, _, _) => j := TargetComes(s, e, i);
    case TargetRemoved(_, _) => j := TargetComes(s, e, i);
    case TargetError(_) => j := TargetComes(s, e, i);
    case AgentStopped => AllUnlistedLink(s.(link := Down, bus := None));
    case _ =>
  }

  lemma {:induction false} AllUnlistedLink(s: Proxies)
    ensures AllUnlisted(s).link == s.link && AllUnlisted(s).signals == s.signals
    decreases |s.listed|
  {
    if s.listed != [] {
      AllUnlistedLink(Unlist(s, 0, false));
    }
  }

  /** Over every run, while connected: the controller has been told of each listed proxy, and
      of no other, on this connection. */
  lemma AnnouncedIsListed(es: seq<Happening>, node: CString, unit: CString)
    requires RunOf(es).Some? && RunOf(es).value.link.Connected?
    ensures Announced(RunOf(es).value.signals, node, unit) == ListedFor(RunOf(es).value.listed, node, unit)
  {
    RunKeeps(es);
  }

  // ---------------------------------------------------------------- what ends a proxy

  /** What takes a listed proxy off the list. */
  predicate Ends(p: Proxy, e: Happening) {
    match e
    case Remove(key) => key == p.key
    case TargetStateChanged(id, state, reason) => id == p.id && Ended(state, reason)
    case TargetRemoved(id, reason) => id == p.id && p.waiting && reason == Real
    case TargetError(id) => id == p.id
    case AgentStopped => true
    case _ => false
  }

  lemma {:induction false} NoneMade(l: seq<Proxy>, call: nat)
    ensures MadeBy(l, call) == 0 <==> forall i :: 0 <= i < |l| ==> l[i].call != call
  {
    if l != [] {
      NoneMade(l[..|l| - 1], call);
      assert l == l[..|l| - 1] + [l[|l| - 1]];
    }
  }

  /** The calls of listed proxies are pairwise different. */
  lemma MadeOnce(s: Proxies, i: nat)
    requires StoppedOnce(s) && i < |s.listed|
    ensures MadeBy(s.listed, s.listed[i].call) == 1
  {
    var c := s.listed[i].call;
    NoneMade(s.listed, c);
    assert Stops(s.out, c) + MadeBy(s.listed, c) <= 1;
  }

  lemma UniqueAt(s: Proxies, i: nat)
    requires ListOk(s) && i < |s.listed|
    ensures ByKey(s.listed, s.listed[i].key) == i && ById(s.listed, s.listed[i].id) == i
    ensures forall k :: 0 <= k < |s.listed| ==> (s.listed[k].call == s.listed[i].call <==> k == i)
  {
  }

  lemma EndsByEvent(s: Proxies, k: nat, i: nat, success: bool)
    requires ListOk(s) && StoppedOnce(s) && k < |s.listed| && i < |s.listed|
    ensures MadeBy(Unlist(s, k, true).listed, s.listed[i].call) == 0 <==> i == k
    ensures MadeBy(InitialStateReached(s, k, success).listed, s.listed[i].call) == 0 <==>
            i == k && !success && !s.listed[k].sentReady
  {
    var c := s.listed[i].call;
    MadeOnce(s, i);
    UniqueAt(s, i);
    OneLess(s.listed, k, c);
    var t := Replied(s, k, success);
    Changed(s.listed, k, t.listed[k], c, WILDCARD, WILDCARD);
    OneLess(t.listed, k, c);
  }

  lemma EndsByRemove(s: Proxies, key: Key, i: nat)
    requires ListOk(s) && StoppedOnce(s) && i < |s.listed|
    ensures MadeBy(Removed(s, key).listed, s.listed[i].call) == 0 <==> key == s.listed[i].key
  {
    var c, k := s.listed[i].call, ByKey(s.listed, key);
    MadeOnce(s, i);
    UniqueAt(s, i);
    if k < |s.listed| {
      var q := s.listed[k].(dontStop := true);
      Changed(s.listed, k, q, c, WILDCARD, WILDCARD);
      OneLess(s.listed[k := q], k, c);
    }
  }

  lemma EndsByOthers(s: Proxies, e: Happening, i: nat)
    requires Inv(s) && Enabled(s, e) && i < |s.listed|
    requires e.Create? || e.TargetNew? || e.BusOpened? || e.BusFailed? || e.Registered? || e.ConnectionLost?
               || e.AgentStopped?
    ensures MadeBy(After(s, e).listed, s.listed[i].call) == 0 <==> e.AgentStopped?
  {
    var c := s.listed[i].call;
    MadeOnce(s, i);
    match e
    case Create(key) => assert Created(s, key).listed != s.listed ==> Created(s, key).listed[..|s.listed|] == s.listed;
    case Registered => SameCounts(s.listed, After(s, e).listed, c, WILDCARD, WILDCARD);
    case AgentStopped => AllUnlistedKeeps(s.(link := Down, bus := None));
    case _ =>
  }

  lemma EndsByState(s: Proxies, k: nat, state: ActiveState, reason: Reason, i: nat)
    requires ListOk(s) && StoppedOnce(s) && k < |s.listed| && i < |s.listed| && WaitingOrReady(s.listed[k])
    ensures MadeBy(StateChanged(s, k, state, reason).listed, s.listed[i].call) == 0 <==> i == k && Ended(state, reason)
  {
    MadeOnce(s, i);
    if state == Active || Ended(state, reason) {
      EndsByEvent(s, k, i, state == Active);
    }
  }

  lemma EndsByTarget(s: Proxies, e: Happening, k: nat, i: nat)
    requires ListOk(s) && PhasesOk(s.listed) && StoppedOnce(s) && Enabled(s, e) && i < |s.listed|
    requires e.TargetStateChanged? || e.TargetRemoved? || e.TargetError?
    requires k == ById(s.listed, e.id) && (s.listed[i].id == e.id <==> i == k)
    ensures MadeBy(After(s, e).listed, s.listed[i].call) == 0 <==> Ends(s.listed[i], e)
  {
    assert WaitingOrReady(s.listed[k]);
    if e.TargetStateChanged? {
      EndsByState(s, k, e.state, e.reason, i);
    } else {
      MadeOnce(s, i);
      EndsByEvent(s, k, i, false);
    }
  }

  /** A proxy leaves the list exactly when one of these happens to it.  In particular a virtual
      event about an inactive or failed target never ends it. */
  lemma EndsExactly(s: Proxies, e: Happening, i: nat)
    requires Inv(s) && Enabled(s, e) && i < |s.listed|
    ensures MadeBy(After(s, e).listed, s.listed[i].call) == 0 <==> Ends(s.listed[i], e)
  {
    if e.Remove? {
      EndsByRemove(s, e.key, i);
    } else if e.TargetStateChanged? || e.TargetRemoved? || e.TargetError? {
      UniqueAt(s, i);
      EndsByTarget(s, e, ById(s.listed, e.id), i);
    } else {
      EndsByOthers(s, e, i);
    }
  }

  // ---------------------------------------------------------------- after a new connection

  /** The same proxy, still waiting or still ready. */
  predicate Stays(p: Proxy, q: Proxy) {
    q.call == p.call && q.key == p.key && q.bus == p.bus && q.id == p.id && q.waiting == p.waiting
  }

  /** The place of proxy `i` after a step that concerns another one. */
  lemma StaysAt(s: Proxies, k: nat, i: nat, success: bool) returns (j: nat)
    requires k < |s.listed| && i < |s.listed| && i != k
    ensures j < |Unlist(s, k, true).listed| && Stays(s.listed[i], Unlist(s, k, true).listed[j])
    ensures !success && !s.listed[k].sentReady ==>
      j < |InitialStateReached(s, k, success).listed| && Stays(s.listed[i], InitialStateReached(s, k, success).listed[j])
    ensures success ==>
      i < |InitialStateReached(s, k, success).listed| && Stays(s.listed[i], InitialStateReached(s, k, success).listed[i])
  {
    j := if k < i then i - 1 else i;
  }

  lemma StrandedStep(s: Proxies, e: Happening, i: nat) returns (j: nat)
    requires Inv(s) && Enabled(s, e) && i < |s.listed|
    requires s.bus != Some(s.listed[i].bus)
    requires e != Remove(s.listed[i].key) && e != AgentStopped
    ensures j < |After(s, e).listed| && Stays(s.listed[i], After(s, e).listed[j])
    ensures After(s, e).bus != Some(s.listed[i].bus)
  {
    j := i;
    match e
    case Remove(key) =>
      var k := ByKey(s.listed, key);
      if k < |s.listed| {
        var t := s.(listed := s.listed[k := s.listed[k].(dontStop := true)]);
        j := StaysAt(t, k, i, false);
      }
    case TargetStateChanged(_, _, _) => j := TargetStays(s, e, i);
    case TargetRemoved(_, _) => j := TargetStays(s, e, i);
    case TargetError(_) => j := TargetStays(s, e, i);
    case _ =>
  }

  lemma TargetStays(s: Proxies, e: Happening, i: nat) returns (j: nat)
    requires Inv(s) && Enabled(s, e) && i < |s.listed|
    requires s.bus != Some(s.listed[i].bus)
    requires e.TargetStateChanged? || e.TargetRemoved? || e.TargetError?
    ensures j < |After(s, e).listed| && Stays(s.listed[i], After(s, e).listed[j])
    ensures After(s, e).bus == s.bus
  {
    j := i;
    var k := ById(s.listed, e.id);
    match e
    case TargetStateChanged(_, state, reason) =>
      if Ended(state, reason) {
        j := StaysAt(s, k, i, false);
      } else if state == Active && s.listed[k].waiting {
        var _ := StaysAt(s, k, i, true);
      }
    case TargetRemoved(_, reason) =>
      if s.listed[k].waiting && reason == Real {
        j := StaysAt(s, k, i, false);
      }
    case TargetError(_) => j := StaysAt(s, k, i, false);
  }

  /** A proxy is exported on the connection it was created on, and not again on the next one.
      Once that connection is closed or replaced, nothing the controller sends reaches it any
      more: it keeps waiting, or keeps its service running, until RemoveProxy or the end of the
      agent. */
  lemma {:induction false} Stranded(es: seq<Happening>, later: seq<Happening>, i: nat) returns (j: nat)
    requires RunOf(es).Some? && RunOf(es + later).Some?
    requires var s := RunOf(es).value; i < |s.listed| && s.bus != Some(s.listed[i].bus)
    requires Remove(RunOf(es).value.listed[i].key) !in later && AgentStopped !in later
    ensures var p, s := RunOf(es).value.listed[i], RunOf(es + later).value;
      && j < |s.listed| && Stays(p, s.listed[j]) && s.bus != Some(p.bus)
      && (p.waiting ==> Replies(s.out, p.call) == 0)
    decreases |later|
  {
    var s := RunOf(es + later).value;
    if later == [] {
      assert es + later == es;
      j := i;
    } else {
      var most, e := later[..|later| - 1], later[|later| - 1];
      assert (es + later)[..|es + later| - 1] == es + most;
      assert (es + later)[|es + later| - 1] == e;
      j := Stranded(es, most, i);
      RunKeeps(es + most);
      j := StrandedStep(RunOf(es + most).value, e, j);
    }
    RunKeeps(es + later);
    OneLess(s.listed, j, s.listed[j].call);
    assert Replies(s.out, s.listed[j].call) + Holding(s.listed, s.listed[j].call) <= 1;
  }

  lemma RunMore(es: seq<Happening>, e: Happening)
    requires RunOf(es).Some? && Enabled(RunOf(es).value, e)
    ensures RunOf(es + [e]) == Some(After(RunOf(es).value, e))
  {
    assert (es + [e])[..|es|] == es;
  }

  const ACCEPTED := [BusOpened, Registered]

  lemma AcceptedAtOnce()
    ensures RunOf(ACCEPTED) == Some(STARTED.(link := Connected, bus := Some(0), buses := 1))
  {
    RunMore([], BusOpened);
    RunMore([BusOpened], Registered);
    assert [] + [BusOpened] == [BusOpened] && [BusOpened] + [Registered] == ACCEPTED;
    var dialled := STARTED.(link := Registering, bus := Some(0), buses := 1);
    assert After(STARTED, BusOpened) == dialled;
    assert MarkSent(dialled.listed) == [] && dialled.signals + Announcements(dialled.listed) == [];
  }

  /** A waiting proxy is stranded by one lost connection, and its request goes unanswered. */
  lemma StrandedWaits(key: Key)
    ensures var s := RunOf(ACCEPTED + [Create(key)] + [ConnectionLost] + [BusOpened]);
      && s.Some? && |s.value.listed| == 1
      && var p := s.value.listed[0];
         p.key == key && p.waiting && s.value.bus != Some(p.bus) && Replies(s.value.out, p.call) == 0
  {
    AcceptedAtOnce();
    RunMore(ACCEPTED, Create(key));
    RunMore(ACCEPTED + [Create(key)], ConnectionLost);
    RunMore(ACCEPTED + [Create(key)] + [ConnectionLost], BusOpened);
  }

  // ---------------------------------------------------------------- the agent's code

  class ProxyAgent {
    var link: Link
    var bus: Option<nat>
    var buses: nat
    var listed: seq<Proxy>
    var nextId: nat
    var calls: nat
    var out: seq<Output>
    var signals: seq<Signal>

    function Value(): Proxies
      reads this
    {
      Proxies(link, bus, buses, listed, nextId, calls, out, signals)
    }

    constructor ()
      ensures Value() == STARTED
    {
      link, bus, buses, listed, nextId, calls, out, signals := Down, None, 0, [], 0, 0, [], [];
    }

    /** agent_find_proxy */
    method FindProxy(key: Key) returns (k: nat)
      ensures k == ByKey(listed, key)
    {
      k := 0;
      while k < |listed| && listed[k].key != key
        invariant k <= |listed|
        invariant forall j :: 0 <= j < k ==> listed[j].key != key
      {
        k := k + 1;
      }
    }

    /** agent_stop_local_proxy_service */
    method StopLocalService(k: nat)
      requires k < |listed|
      modifies this
      ensures Value() == old(Value()).(
        listed := old(listed)[k := old(listed)[k].(dontStop := true)],
        out := old(out) + if old(listed)[k].dontStop then [] else [StopUnit(old(listed)[k].call, old(listed)[k].key.service)])
    {
      if listed[k].dontStop {
        assert listed[k := listed[k].(dontStop := true)] == listed;
        return;
      }
      out := out + [StopUnit(listed[k].call, listed[k].key.service)];
      listed := listed[k := listed[k].(dontStop := true)];
    }

    /** agent_remove_proxy */
    method RemoveProxy(k: nat, emitRemoved: bool)
      requires k < |listed|
      modifies this
      ensures Value() == Unlist(old(Value()), k, emitRemoved)
    {
      var p := listed[k];
      if emitRemoved && p.sentNew && link.Connected? {
        signals := signals + [ProxyRemoved(p.key.node, p.key.unit)];
      }
      if p.waiting {
        out := out + [Reply(p.call, ServiceStopped)];
        listed := listed[k := p.(waiting := false)];
      }
      if listed[k].sentReady {
        StopLocalService(k);
      }
      assert RemoveAt(listed, k) == RemoveAt(old(listed), k);
      listed := RemoveAt(listed, k);
    }

    /** proxy_service_initial_state_reached */
    method InitialState(k: nat, success: bool)
      requires k < |listed|
      modifies this
      ensures Value() == InitialStateReached(old(Value()), k, success)
    {
      if success {
        listed := listed[k := listed[k].(sentReady := true)];
        out := out + [Reply(listed[k].call, Succeeded)];
      } else {
        out := out + [Reply(listed[k].call, ActivationFailed)];
      }
      listed := listed[k := listed[k].(waiting := false)];
      assert Value() == Replied(old(Value()), k, success);
      if !listed[k].sentReady {
        RemoveProxy(k, true);
      }
    }

    /** agent_method_create_proxy */
    method CreateProxy(key: Key)
      modifies this
      ensures Value() == After(old(Value()), Create(key))
    {
      var call := calls;
      calls := calls + 1;
      var k := FindProxy(key);
      if k < |listed| {
        out := out + [Reply(call, Refused)];
        return;
      }
      nextId := nextId + 1;
      if bus.None? {
        out := out + [Reply(call, Refused)];
        return;
      }
      var p := Proxy(nextId, key, call, true, false, false, false, bus.value);
      if link.Connected? {
        signals := signals + [ProxyNew(key.node, key.unit, p.id)];
        p := p.(sentNew := true);
      }
      listed := listed + [p];
    }

    /** agent_method_remove_proxy */
    method RemoveProxyCalled(key: Key)
      modifies this
      ensures Value() == After(old(Value()), Remove(key))
    {
      var k := FindProxy(key);
      if k < |listed| {
        listed := listed[k := listed[k].(dontStop := true)];
        RemoveProxy(k, true);
      }
    }

    /** proxy_service_method_target_state_changed, of the proxy at `k` */
    method TargetChanged(k: nat, state: ActiveState, reason: Reason)
      requires k < |listed|
      modifies this
      ensures Value() == StateChanged(old(Value()), k, state, reason)
    {
      if listed[k].waiting {
        if state == Active {
          InitialState(k, true);
        } else if (state == Failed || state == Inactive) && reason == Real {
          InitialState(k, false);
        }
      } else if listed[k].sentReady {
        if (state == Failed || state == Inactive) && reason == Real {
          RemoveProxy(k, true);
        }
      }
    }

    /** proxy_service_method_target_removed, of the proxy at `k` */
    method TargetGone(k: nat, reason: Reason)
      requires k < |listed|
      modifies this
      ensures Value() == if old(listed)[k].waiting && reason == Real then InitialStateReached(old(Value()), k, false)
                         else old(Value())
    {
      if listed[k].waiting && reason == Real {
        InitialState(k, false);
      }
    }

    /** proxy_service_emit_proxy_new, while connected */
    method EmitProxyNew(i: nat)
      requires i < |listed|
      modifies `listed, `signals
      ensures listed == old(listed)[i := old(listed)[i].(sentNew := true)]
      ensures signals == old(signals) + [ProxyNew(old(listed)[i].key.node, old(listed)[i].key.unit, old(listed)[i].id)]
    {
      signals := signals + [ProxyNew(listed[i].key.node, listed[i].key.unit, listed[i].id)];
      listed := listed[i := listed[i].(sentNew := true)];
    }

    /** The end of agent_process_register_callback: every proxy is announced again. */
    method Reannounce()
      requires Enabled(Value(), Registered)
      modifies this
      ensures Value() == After(old(Value()), Registered)
    {
      link := Connected;
      EmitAll();
    }

    method EmitAll()
      modifies `listed, `signals
      ensures listed == MarkSent(old(listed)) && signals == old(signals) + Announcements(old(listed))
    {
      var i := 0;
      while i < |listed|
        invariant i <= |listed| == |old(listed)|
        invariant forall j :: 0 <= j < |listed| ==> listed[j] == if j < i then MarkSent(old(listed))[j] else old(listed)[j]
        invariant signals == old(signals) + Announcements(old(listed))[..i]
      {
        assert Announcements(old(listed))[..i + 1] == Announcements(old(listed))[..i] + [Announcements(old(listed))[i]];
        EmitProxyNew(i);
        i := i + 1;
      }
    }

    /** agent_stop: proxies are removed without telling the controller. */
    method Stop()
      modifies this
      ensures Value() == After(old(Value()), AgentStopped)
    {
      bus, link := None, Down;
      while |listed| > 0
        invariant AllUnlisted(Value()) == AllUnlisted(old(Value()).(link := Down, bus := None))
        decreases |listed|
      {
        RemoveProxy(0, false);
      }
    }
  }
}
