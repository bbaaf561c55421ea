/** A request to every node at once: one call per online node, one slot per call, and one reply
    when the last answer is in. */
module FleetRequest {
  import opened CStrings
  import opened Sequences

  datatype Answer = Units(units: seq<CString>) | Failure(errno: nat)

  datatype Slot = Slot(node: CString, request: nat, m: Option<Answer>)

  datatype Reply = Collected(entries: seq<(CString, seq<CString>)>) | RequestFailed(errno: nat)

  datatype Fleet = Fleet(slots: seq<Slot>, done: nat, replies: seq<Reply>)

  /** What trying to call a node came to: no request for a node without an agent. */
  datatype Call = Call(node: CString, request: Option<nat>)

  // ---------------------------------------------------------------- what is done

  /** The entries of the answered slots in slot order, or the first error among them. */
  function Encode(slots: seq<Slot>): Reply {
    if slots == [] then Collected([])
    else
      var before, last := Encode(slots[..|slots| - 1]), slots[|slots| - 1];
      if before.RequestFailed? || last.m.None? then before
      else if last.m.value.Failure? then RequestFailed(last.m.value.errno)
      else Collected(before.entries + [(last.node, last.m.value.units)])
  }

  function MaybeDone(f: Fleet): Fleet {
    if f.done == |f.slots| then f.(replies := f.replies + [Encode(f.slots)]) else f
  }

  function StartedSlots(calls: seq<Call>): (r: seq<Slot>)
    ensures |r| <= |calls|
  {
    if calls == [] then []
    else
      var before, last := StartedSlots(calls[..|calls| - 1]), calls[|calls| - 1];
      if last.request.None? then before else before + [Slot(last.node, last.request.value, None)]
  }

  function Begin(calls: seq<Call>): Fleet {
    MaybeDone(Fleet(StartedSlots(calls), 0, []))
  }

  function SlotOf(slots: seq<Slot>, request: nat): (k: nat)
    ensures k <= |slots|
    ensures k < |slots| ==> slots[k].request == request
    ensures forall j :: 0 <= j < k ==> slots[j].request != request
  {
    First(slots, (s: Slot) => s.request == request)
  }

  /** A request calls back once. */
  predicate CanAnswer(f: Fleet, request: nat) {
    var k := SlotOf(f.slots, request);
    k < |f.slots| && f.slots[k].m.None?
  }

  function Answered(f: Fleet, request: nat, answer: Answer): Fleet
    requires CanAnswer(f, request)
  {
    var k := SlotOf(f.slots, request);
    MaybeDone(f.(slots := f.slots[k := f.slots[k].(m := Some(answer))], done := f.done + 1))
  }

  /** Answers arrive in some order, each request's own. */
  function RunOf(calls: seq<Call>, answers: map<nat, Answer>, order: seq<nat>): Option<Fleet> {
    if order == [] then Some(Begin(calls))
    else
      var before, request := RunOf(calls, answers, order[..|order| - 1]), order[|order| - 1];
      if before.Some? && request in answers && CanAnswer(before.value, request)
      then Some(Answered(before.value, request, answers[request])) else None
  }

  // ---------------------------------------------------------------- what comes of it

  /** Requests are objects of their own. */
  ghost predicate DistinctRequests(calls: seq<Call>) {
    forall i, j :: 0 <= i < j < |calls| && calls[i].request.Some? ==> calls[i].request != calls[j].request
  }

  /** One slot for each call that was made. */
  lemma {:induction false} SlotsAreCalls(calls: seq<Call>)
    ensures forall i :: 0 <= i < |StartedSlots(calls)| ==>
              StartedSlots(calls)[i].m == None
              && Call(StartedSlots(calls)[i].node, Some(StartedSlots(calls)[i].request)) in calls
    ensures forall c :: c in calls && c.request.Some? ==> Slot(c.node, c.request.value, None) in StartedSlots(calls)
  {
    if calls != [] {
      var front, last := calls[..|calls| - 1], calls[|calls| - 1];
      SlotsAreCalls(front);
      assert calls == front + [last];
      if last.request.Some? {
        assert StartedSlots(calls)[|StartedSlots(front)|] == Slot(last.node, last.request.value, None);
      }
    }
  }

  lemma {:induction false} SlotsAreDistinct(calls: seq<Call>)
    requires DistinctRequests(calls)
    ensures DistinctSlots(StartedSlots(calls))
  {
    if calls != [] {
      var front, last := calls[..|calls| - 1], calls[|calls| - 1];
      SlotsAreDistinct(front);
      SlotsAreCalls(front);
      if last.request.Some? {
        var before := StartedSlots(front);
        forall i | 0 <= i < |before| ensures before[i].request != last.request.value {
          var k :| 0 <= k < |front| && front[k] == Call(before[i].node, Some(before[i].request));
          assert calls[k] == front[k];
        }
      }
    }
  }

  /** The slots as they are when the requests of `order` have been answered. */
  ghost predicate Filled(f: Fleet, calls: seq<Call>, answers: map<nat, Answer>, order: seq<nat>) {
    var start := StartedSlots(calls);
    && |f.slots| == |start|
    && forall i :: 0 <= i < |f.slots| ==>
        && f.slots[i].node == start[i].node && f.slots[i].request == start[i].request
        && (f.slots[i].request in order ==> f.slots[i].request in answers)
        && f.slots[i].m == if f.slots[i].request in order then Some(answers[f.slots[i].request]) else None
  }

  ghost predicate DistinctSlots(slots: seq<Slot>) {
    forall i, j :: 0 <= i < j < |slots| ==> slots[i].request != slots[j].request
  }

  ghost predicate Inv(f: Fleet) {
    && f.done == |f.slots| - Tally(f.slots, IsUnanswered())
    && f.done <= |f.slots|
    && f.replies == if f.done == |f.slots| then [Encode(f.slots)] else []
  }

  function IsUnanswered(): Slot -> bool { (s: Slot) => s.m.None? }

  lemma {:induction false} AllUnanswered(slots: seq<Slot>)
    requires forall i :: 0 <= i < |slots| ==> slots[i].m == None
    ensures Tally(slots, IsUnanswered()) == |slots|
  {
    if slots != [] {
      AllUnanswered(slots[..|slots| - 1]);
    }
  }

  lemma AnsweredKeeps(f: Fleet, request: nat, answer: Answer)
    requires Inv(f) && CanAnswer(f, request)
    ensures Inv(Answered(f, request, answer))
  {
    var k := SlotOf(f.slots, request);
    TallyUpdate(f.slots, k, f.slots[k].(m := Some(answer)), IsUnanswered());
    TallyRemove(f.slots, k, IsUnanswered());
  }

  lemma AnsweredFills(f: Fleet, calls: seq<Call>, answers: map<nat, Answer>, front: seq<nat>, request: nat)
    requires Filled(f, calls, answers, front) && CanAnswer(f, request) && request in answers
    requires DistinctSlots(f.slots)
    ensures Filled(Answered(f, request, answers[request]), calls, answers, front + [request])
  {
    var order := front + [request];
    assert forall x :: x in order <==> x in front || x == request;
    assert forall i :: 0 <= i < |f.slots| ==> (f.slots[i].request == request <==> i == SlotOf(f.slots, request));
  }

  lemma BeginKeeps(calls: seq<Call>)
    requires DistinctRequests(calls)
    ensures Inv(Begin(calls)) && DistinctSlots(Begin(calls).slots)
  {
    SlotsAreDistinct(calls);
    SlotsAreCalls(calls);
    AllUnanswered(StartedSlots(calls));
  }

  lemma {:induction false} RunKeeps(calls: seq<Call>, answers: map<nat, Answer>, order: seq<nat>)
    requires DistinctRequests(calls) && RunOf(calls, answers, order).Some?
    ensures Inv(RunOf(calls, answers, order).value) && DistinctSlots(RunOf(calls, answers, order).value.slots)
  {
    if order == [] {
      BeginKeeps(calls);
    } else {
      var front, request := order[..|order| - 1], order[|order| - 1];
      RunKeeps(calls, answers, front);
      AnsweredKeeps(RunOf(calls, answers, front).value, request, answers[request]);
    }
  }

  lemma {:induction false} RunFills(calls: seq<Call>, answers: map<nat, Answer>, order: seq<nat>)
    requires DistinctRequests(calls) && RunOf(calls, answers, order).Some?
    ensures Filled(RunOf(calls, answers, order).value, calls, answers, order)
  {
    if order == [] {
      SlotsAreCalls(calls);
    } else {
      var front, request := order[..|order| - 1], order[|order| - 1];
      RunFills(calls, answers, front);
      RunKeeps(calls, answers, front);
      AnsweredFills(RunOf(calls, answers, front).value, calls, answers, front, request);
      assert order == front + [request];
    }
  }

  /** Whatever the number of nodes and the order of the answers: there is one reply if every
      call that was made has been answered, and none before; at once if none was made. */
  lemma OneReplyWhenAllAnswered(calls: seq<Call>, answers: map<nat, Answer>, order: seq<nat>)
    requires DistinctRequests(calls) && RunOf(calls, answers, order).Some?
    ensures var f := RunOf(calls, answers, order).value;
      && |f.replies| <= 1
      && (|f.replies| == 1 <==> forall c :: c in calls && c.request.Some? ==> c.request.value in order)
  {
    SlotsAreCalls(calls);
    RunKeeps(calls, answers, order);
    RunFills(calls, answers, order);
    var f, start := RunOf(calls, answers, order).value, StartedSlots(calls);
    TallyZero(f.slots, IsUnanswered());
    if |f.replies| == 1 {
      forall c | c in calls && c.request.Some? ensures c.request.value in order {
        var i :| 0 <= i < |start| && start[i] == Slot(c.node, c.request.value, None);
        assert f.slots[i] in f.slots;
      }
    }
    if forall c :: c in calls && c.request.Some? ==> c.request.value in order {
      forall s | s in f.slots ensures s.m.Some? {
        var i :| 0 <= i < |f.slots| && f.slots[i] == s;
        assert Call(start[i].node, Some(start[i].request)) in calls;
      }
    }
  }

  /** The nodes' own answers in the order of the nodes, or the first failure in that order:
      what the reply is, by the calls alone. */
  function Expected(calls: seq<Call>, answers: map<nat, Answer>): Reply
    requires forall c :: c in calls && c.request.Some? ==> c.request.value in answers
  {
    if calls == [] then Collected([])
    else
      var front, last := calls[..|calls| - 1], calls[|calls| - 1];
      assert calls == front + [last];
      var before := Expected(front, answers);
      if before.RequestFailed? || last.request.None? then before
      else
        match answers[last.request.value]
        case Failure(errno) => RequestFailed(errno)
        case Units(units) => Collected(before.entries + [(last.node, units)])
  }

  lemma {:induction false} EncodedAsExpected(calls: seq<Call>, answers: map<nat, Answer>, slots: seq<Slot>)
    requires forall c :: c in calls && c.request.Some? ==> c.request.value in answers
    requires var start := StartedSlots(calls);
      && |slots| == |start|
      && forall i :: 0 <= i < |slots| ==>
          && slots[i].node == start[i].node && slots[i].request == start[i].request
          && slots[i].request in answers && slots[i].m == Some(answers[slots[i].request])
    ensures Encode(slots) == Expected(calls, answers)
  {
    if calls != [] {
      var front, last := calls[..|calls| - 1], calls[|calls| - 1];
      assert calls == front + [last];
      if last.request.None? {
        EncodedAsExpected(front, answers, slots);
      } else {
        EncodedAsExpected(front, answers, slots[..|slots| - 1]);
      }
    }
  }

  /** The reply does not depend on the order of the answers: it holds each node's own answer,
      in the order of the nodes. */
  lemma ReplyIsExpected(calls: seq<Call>, answers: map<nat, Answer>, order: seq<nat>)
    requires DistinctRequests(calls) && RunOf(calls, answers, order).Some?
    requires forall c :: c in calls && c.request.Some? ==> c.request.value in order && c.request.value in answers
    ensures RunOf(calls, answers, order).value.replies == [Expected(calls, answers)]
  {
    SlotsAreCalls(calls);
    RunKeeps(calls, answers, order);
    RunFills(calls, answers, order);
    OneReplyWhenAllAnswered(calls, answers, order);
    var f, start := RunOf(calls, answers, order).value, StartedSlots(calls);
    forall i | 0 <= i < |f.slots| ensures f.slots[i].request in order {
      assert Call(start[i].node, Some(start[i].request)) in calls;
    }
    EncodedAsExpected(calls, answers, f.slots);
  }

  // ---------------------------------------------------------------- the code

  class FleetRequests {
    const slots: array<Slot>
    var subRequests: nat
    var done: nat
    var replies: seq<Reply>

    ghost predicate Valid()
      reads this, slots
    {
      subRequests <= slots.Length && Inv(Value()) && DistinctSlots(slots[..subRequests])
    }

    ghost function Value(): Fleet
      reads this, slots
      requires subRequests <= slots.Length
    {
      Fleet(slots[..subRequests], done, replies)
    }

    /** agent_fleet_request_start: room for as many slots as there are nodes. */
    constructor (calls: seq<Call>)
      requires DistinctRequests(calls)
      ensures fresh(slots) && Valid() && slots.Length == |calls|
      ensures Value() == Begin(calls)
    {
      slots := new Slot[|calls|](_ => Slot([], 0, None));
      subRequests, done, replies := 0, 0, [];
      new;
      Fill(calls);
      CheckDone();
      BeginKeeps(calls);
    }

    method Fill(calls: seq<Call>)
      requires slots.Length == |calls| && subRequests == 0
      modifies `subRequests, slots
      ensures subRequests <= slots.Length && slots[..subRequests] == StartedSlots(calls)
    {
      var k := 0;
      while k < |calls|
        invariant k <= |calls| && subRequests <= k
        invariant slots[..subRequests] == StartedSlots(calls[..k])
      {
        assert calls[..k + 1][..k] == calls[..k];
        if calls[k].request.Some? {
          slots[subRequests] := Slot(calls[k].node, calls[k].request.value, None);
          subRequests := subRequests + 1;
        }
        k := k + 1;
      }
      assert calls[..|calls|] == calls;
    }

    method CheckDone()
      requires subRequests <= slots.Length
      modifies `replies
      ensures Value() == MaybeDone(old(Value()))
    {
      if done == subRequests {
        var reply := EncodeReply();
        replies := replies + [reply];
      }
    }

    /** The encoders of ListUnits and ListUnitFiles: entries in slot order, or an early error. */
    method EncodeReply() returns (reply: Reply)
      requires subRequests <= slots.Length
      ensures reply == Encode(slots[..subRequests])
    {
      var entries := [];
      var i := 0;
      while i < subRequests
        invariant i <= subRequests && Encode(slots[..i]) == Collected(entries)
      {
        assert slots[..i + 1][..i] == slots[..i];
        if slots[i].m.Some? {
          if slots[i].m.value.Failure? {
            EarlyError(slots[..subRequests], i + 1);
            assert slots[..subRequests][..i + 1] == slots[..i + 1];
            return RequestFailed(slots[i].m.value.errno);
          }
          entries := entries + [(slots[i].node, slots[i].m.value.units)];
        }
        i := i + 1;
      }
      reply := Collected(entries);
    }

    /** agent_fleet_request_callback */
    method Callback(request: nat, answer: Answer)
      requires Valid() && CanAnswer(Value(), request)
      modifies this, slots
      ensures Valid() && Value() == Answered(old(Value()), request, answer)
    {
      AnsweredKeeps(Value(), request, answer);
      Store(request, answer);
      CheckDone();
    }

    method Store(request: nat, answer: Answer)
      requires subRequests <= slots.Length && CanAnswer(Value(), request)
      modifies `done, slots
      ensures var k := SlotOf(old(slots[..subRequests]), request);
        Value() == old(Value()).(slots := old(slots[..subRequests])[k := old(slots[..subRequests])[k].(m := Some(answer))],
                                 done := old(done) + 1)
    {
      var i := 0;
      while i < subRequests && slots[i].request != request
        invariant i <= subRequests
        invariant forall j :: 0 <= j < i ==> slots[j].request != request
      {
        i := i + 1;
      }
      assert i == SlotOf(slots[..subRequests], request);
      slots[i] := slots[i].(m := Some(answer));
      done := done + 1;
      assert slots[..subRequests] == old(slots[..subRequests])[i := slots[i]];
    }
  }

  lemma {:induction false} EarlyError(slots: seq<Slot>, k: nat)
    requires k <= |slots| && Encode(slots[..k]).RequestFailed?
    ensures Encode(slots) == Encode(slots[..k])
  {
    if k < |slots| {
      assert slots[..|slots| - 1][..k] == slots[..k];
      EarlyError(slots[..|slots| - 1], k);
    } else {
      assert slots[..k] == slots;
    }
  }
}
