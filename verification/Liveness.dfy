/** Heartbeats.  Each side remembers when it last heard from the other, and a periodic check
    takes a peer that was silent for longer than the threshold for disconnected. */
module Liveness {
  const USEC_PER_MSEC := 1000

  /** The test both sides make; a threshold that is not positive disables it, and a clock that
      runs backwards is not taken for silence. */
  predicate Overdue(thresholdMsec: int, now: nat, lastSeen: nat) {
    thresholdMsec > 0 && now >= lastSeen && now - lastSeen > thresholdMsec * USEC_PER_MSEC
  }

  datatype Watch = Watch(online: bool, lastSeen: nat)

  /** What the controller sees of one node after it registered, with monotonic times. */
  datatype Event = Heartbeat(at: nat) | Check(at: nat)

  /** The node check; a time of zero counts as unknown. */
  function Checked(w: Watch, thresholdMsec: int, now: nat): Watch {
    if w.online && now != 0 && Overdue(thresholdMsec, now, w.lastSeen) then w.(online := false) else w
  }

  /** A node that was disconnected is not listened to. */
  function Watched(w: Watch, thresholdMsec: int, e: Event): Watch {
    match e
    case Heartbeat(at) => if w.online then w.(lastSeen := at) else w
    case Check(at) => Checked(w, thresholdMsec, at)
  }

  /** The node registered at `start`. */
  function RunOf(start: nat, thresholdMsec: int, es: seq<Event>): Watch {
    if es == [] then Watch(true, start)
    else Watched(RunOf(start, thresholdMsec, es[..|es| - 1]), thresholdMsec, es[|es| - 1])
  }

  /** The time of the last heartbeat, or of the registration. */
  function LastBeat(start: nat, es: seq<Event>): nat {
    if es == [] then start
    else if es[|es| - 1].Heartbeat? then es[|es| - 1].at else LastBeat(start, es[..|es| - 1])
  }

  function LastCheck(start: nat, es: seq<Event>): nat {
    if es == [] then start
    else if es[|es| - 1].Check? then es[|es| - 1].at else LastCheck(start, es[..|es| - 1])
  }

  ghost predicate InOrder(start: nat, es: seq<Event>) {
    && (forall i :: 0 <= i < |es| ==> start <= es[i].at)
    && (forall i, j :: 0 <= i < j < |es| ==> es[i].at <= es[j].at)
  }

  /** A node is taken for disconnected exactly if some check found its last heartbeat overdue. */
  lemma {:induction false} OnlineExactly(start: nat, thresholdMsec: int, es: seq<Event>)
    ensures var w := RunOf(start, thresholdMsec, es);
      && (w.online ==> w.lastSeen == LastBeat(start, es))
      && (w.online <==>
           forall i :: 0 <= i < |es| && es[i].Check? ==>
             es[i].at == 0 || !Overdue(thresholdMsec, es[i].at, LastBeat(start, es[..i])))
  {
    if es != [] {
      var front := es[..|es| - 1];
      OnlineExactly(start, thresholdMsec, front);
      assert forall i :: 0 <= i < |front| ==> es[..i] == front[..i];
      assert front == es[..|es| - 1];
    }
  }

  /** No false alarm: heartbeats at most the threshold apart keep the node online, however
      often and whenever it is checked. */
  lemma SteadyNodeStaysOnline(start: nat, thresholdMsec: int, es: seq<Event>)
    requires forall i :: 0 <= i < |es| ==> es[i].at <= LastBeat(start, es[..i]) + thresholdMsec * USEC_PER_MSEC
    ensures RunOf(start, thresholdMsec, es).online
  {
    OnlineExactly(start, thresholdMsec, es);
  }

  /** Checks are never more than `period` apart, up to and including `end`. */
  ghost predicate CheckedEvery(start: nat, es: seq<Event>, period: nat, end: nat) {
    && (forall i :: 0 <= i < |es| ==> es[i].at <= LastCheck(start, es[..i]) + period)
    && end <= LastCheck(start, es) + period
  }

  lemma {:induction false} SomeCheckWithin(start: nat, es: seq<Event>, period: nat, end: nat, x: nat) returns (i: nat)
    requires CheckedEvery(start, es, period, end) && start <= x && x + period < end
    ensures i < |es| && es[i].Check? && x < es[i].at <= x + period
  {
    if es == [] {
      assert false;
    } else {
      var front, last := es[..|es| - 1], es[|es| - 1];
      assert forall k :: 0 <= k < |front| ==> es[..k] == front[..k];
      assert front == es[..|es| - 1];
      if last.Check? && last.at <= x + period {
        i := |es| - 1;
      } else {
        var sooner := if last.Check? then last.at else end;
        assert sooner <= LastCheck(start, front) + period;
        i := SomeCheckWithin(start, front, period, sooner, x);
      }
    }
  }

  lemma {:induction false} BeatsAreOrdered(start: nat, es: seq<Event>, i: nat)
    requires InOrder(start, es) && i <= |es|
    ensures start <= LastBeat(start, es[..i]) <= LastBeat(start, es)
    ensures i > 0 ==> LastBeat(start, es[..i]) <= es[i - 1].at
    decreases |es|
  {
    if i == |es| {
      assert es[..i] == es;
      LastBeatBound(start, es);
    } else {
      var front := es[..|es| - 1];
      assert front[..i] == es[..i];
      BeatsAreOrdered(start, front, i);
      LastBeatBound(start, front);
    }
  }

  lemma {:induction false} LastBeatBound(start: nat, es: seq<Event>)
    requires InOrder(start, es)
    ensures start <= LastBeat(start, es) && (es != [] ==> LastBeat(start, es) <= es[|es| - 1].at)
  {
    if es != [] {
      LastBeatBound(start, es[..|es| - 1]);
    }
  }

  /** A silent node is found out: with checks at most `period` apart, it is taken for
      disconnected no later than threshold plus period after its last heartbeat. */
  lemma SilentNodeIsFound(start: nat, thresholdMsec: int, es: seq<Event>, period: nat, end: nat)
    requires thresholdMsec > 0 && InOrder(start, es) && CheckedEvery(start, es, period, end)
    requires end > LastBeat(start, es) + thresholdMsec * USEC_PER_MSEC + period
    ensures !RunOf(start, thresholdMsec, es).online
    ensures exists i :: 0 <= i < |es| && es[i].at <= LastBeat(start, es) + thresholdMsec * USEC_PER_MSEC + period
              && !RunOf(start, thresholdMsec, es[..i + 1]).online
  {
    LastBeatBound(start, es);
    var last := LastBeat(start, es);
    var i := SomeCheckWithin(start, es, period, end, last + thresholdMsec * USEC_PER_MSEC);
    BeatsAreOrdered(start, es, i);
    assert Overdue(thresholdMsec, es[i].at, LastBeat(start, es[..i]));
    OnlineExactly(start, thresholdMsec, es);
    OnlineExactly(start, thresholdMsec, es[..i + 1]);
    assert es[..i + 1][..i] == es[..i];
    assert es[..i + 1][i] == es[i];
  }

  // ---------------------------------------------------------------- the timer callback

  /** controller_heartbeat_timer_callback: every node is checked against one reading of the
      clock, and those still online are sent a heartbeat, in list order. */
  class NodeWatches {
    var nodes: seq<Watch>
    var thresholdMsec: int

    /** controller_check_node_liveness, of an online node */
    method CheckLiveness(k: nat, now: nat) returns (alive: bool)
      requires k < |nodes| && nodes[k].online
      modifies `nodes
      ensures nodes == old(nodes)[k := Checked(old(nodes)[k], thresholdMsec, now)]
      ensures alive == nodes[k].online
    {
      alive := true;
      if thresholdMsec <= 0 || now == 0 || now < nodes[k].lastSeen {
        return;
      }
      var diff := now - nodes[k].lastSeen;
      if diff > thresholdMsec * USEC_PER_MSEC {
        nodes := nodes[k := nodes[k].(online := false)];
        alive := false;
      }
    }

    method TimerCallback(now: nat) returns (beats: seq<nat>)
      modifies `nodes
      ensures |nodes| == |old(nodes)|
      ensures forall k :: 0 <= k < |nodes| ==> nodes[k] == Checked(old(nodes)[k], thresholdMsec, now)
      ensures forall k :: k in beats <==> 0 <= k < |nodes| && nodes[k].online
      ensures forall i, j :: 0 <= i < j < |beats| ==> beats[i] < beats[j]
    {
      beats := [];
      var k := 0;
      while k < |nodes|
        invariant k <= |nodes| == |old(nodes)|
        invariant forall j :: 0 <= j < |nodes| ==>
                    nodes[j] == if j < k then Checked(old(nodes)[j], thresholdMsec, now) else old(nodes)[j]
        invariant forall j :: j in beats <==> 0 <= j < k && nodes[j].online
        invariant forall i, j :: 0 <= i < j < |beats| ==> beats[i] < beats[j]
        invariant forall i :: 0 <= i < |beats| ==> 0 <= beats[i] < k
      {
        if nodes[k].online {
          var alive := CheckLiveness(k, now);
          if alive {
            beats := beats + [k];
          }
        }
        k := k + 1;
      }
    }
  }
}
