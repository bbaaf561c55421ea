/** Unit jobs on their way from a client through the controller and an agent to systemd and
    back: what the controller lists, what the agent tracks, and what is under way between. */
module Jobs {
  import opened CStrings
  import opened Sequences

  datatype Pending = Pending(id: nat, epoch: nat)

  datatype Tracker = Tracker(path: CString, id: nat)

  datatype AgentReply = Accepted(id: nat) | Refused(id: nat) | JobDone(id: nat, result: CString)

  datatype Job = Job(id: nat, node: nat)

  datatype JobSignal = JobNew(id: nat) | JobRemoved(id: nat, result: CString)

  /** A node on both sides of its connection.  `calls` and `replies` are the two directions of
      the connection number `epoch`; `live` says that the agent still uses that connection.
      `outstanding` is the controller's requests without an answer, `pending` the agent's
      requests to systemd, each with the connection its caller is on. */
  datatype JobNode = JobNode(
    online: bool, epoch: nat, live: bool, outstanding: set<nat>,
    calls: seq<nat>, replies: seq<AgentReply>, pending: seq<Pending>, tracked: seq<Tracker>)

  datatype Issue = Issue(node: nat, epoch: nat)

  /** Job ids count up from one: `issued[id - 1]` is what `id` was issued for. */
  datatype System = System(nodes: seq<JobNode>, jobs: seq<Job>, issued: seq<Issue>, signals: seq<JobSignal>)

  // ---------------------------------------------------------------- the controller's job list

  function JobAt(jobs: seq<Job>, id: nat): (k: nat)
    ensures k <= |jobs|
    ensures k < |jobs| ==> jobs[k].id == id
    ensures forall j :: 0 <= j < k ==> jobs[j].id != id
  {
    First(jobs, (j: Job) => j.id == id)
  }

  function FinishJob(jobs: seq<Job>, id: nat): seq<Job> {
    var k := JobAt(jobs, id);
    if k < |jobs| then RemoveAt(jobs, k) else jobs
  }

  function FinishSignals(jobs: seq<Job>, id: nat, result: CString): seq<JobSignal> {
    if JobAt(jobs, id) < |jobs| then [JobRemoved(id, result)] else []
  }

  /** The jobs of all nodes but `i`. */
  function WithoutNode(jobs: seq<Job>, i: nat): seq<Job> {
    if jobs == [] then []
    else WithoutNode(jobs[..|jobs| - 1], i) + if jobs[|jobs| - 1].node == i then [] else [jobs[|jobs| - 1]]
  }

  // ---------------------------------------------------------------- the agent's trackers

  function TrackerAt(tracked: seq<Tracker>, path: CString): (k: nat)
    ensures k <= |tracked|
    ensures k < |tracked| ==> tracked[k].path == path
    ensures forall j :: 0 <= j < k ==> tracked[j].path != path
  {
    First(tracked, (t: Tracker) => t.path == path)
  }

  // ---------------------------------------------------------------- steps

  datatype Step =
    | ClientRequests(i: nat)
    | RequestTimesOut(i: nat, id: nat)
    | AgentTakesCall(i: nat)
    | SystemdAccepts(i: nat, k: nat, path: CString)
    | SystemdRefuses(i: nat, k: nat)
    | SystemdJobRemoved(i: nat, path: CString, result: CString)
    | ControllerTakesReply(i: nat)
    | AgentCloses(i: nat)
    | AgentRestarts(i: nat)
    | ControllerLosesNode(i: nat)
    | AgentConnects(i: nat)

  function Say(n: JobNode, m: AgentReply): JobNode {
    if n.live then n.(replies := n.replies + [m]) else n
  }

  /** An answer goes to the connection the call came from. */
  function Answer(n: JobNode, p: Pending, m: AgentReply): JobNode {
    if p.epoch == n.epoch then Say(n, m) else n
  }

  function Requested(n: JobNode, id: nat): JobNode {
    if n.online then n.(outstanding := n.outstanding + {id}, calls := n.calls + [id]) else n
  }

  function CallTaken(n: JobNode): JobNode
    requires n.calls != []
  {
    n.(calls := n.calls[1..], pending := n.pending + [Pending(n.calls[0], n.epoch)])
  }

  function JobAccepted(n: JobNode, k: nat, path: CString): JobNode
    requires k < |n.pending|
  {
    var p := n.pending[k];
    Answer(n.(pending := RemoveAt(n.pending, k), tracked := [Tracker(path, p.id)] + n.tracked), p, Accepted(p.id))
  }

  function JobRefused(n: JobNode, k: nat): JobNode
    requires k < |n.pending|
  {
    var p := n.pending[k];
    Answer(n.(pending := RemoveAt(n.pending, k)), p, Refused(p.id))
  }

  function JobReleased(n: JobNode, path: CString, result: CString): JobNode {
    var k := TrackerAt(n.tracked, path);
    if k < |n.tracked| then Say(n.(tracked := RemoveAt(n.tracked, k)), JobDone(n.tracked[k].id, result)) else n
  }

  function ReplyTaken(s: System, i: nat): System
    requires i < |s.nodes| && s.nodes[i].replies != []
  {
    var n := s.nodes[i].(replies := s.nodes[i].replies[1..]);
    match s.nodes[i].replies[0]
    case Accepted(id) =>
      var after := s.(nodes := s.nodes[i := n.(outstanding := n.outstanding - {id})]);
      if id in n.outstanding then after.(jobs := s.jobs + [Job(id, i)], signals := s.signals + [JobNew(id)]) else after
    case Refused(id) => s.(nodes := s.nodes[i := n.(outstanding := n.outstanding - {id})])
    case JobDone(id, result) =>
      s.(nodes := s.nodes[i := n], jobs := FinishJob(s.jobs, id),
         signals := s.signals + FinishSignals(s.jobs, id, result))
  }

  predicate Enabled(s: System, e: Step) {
    && e.i < |s.nodes|
    && var n := s.nodes[e.i];
      match e
      case AgentTakesCall(_) => n.live && n.calls != []
      case SystemdAccepts(_, k, _) => k < |n.pending|
      case SystemdRefuses(_, k) => k < |n.pending|
      case ControllerTakesReply(_) => n.online && n.replies != []
      case ControllerLosesNode(_) => n.online
      case AgentConnects(_) => !n.online
      case _ => true
  }

  /** The node after a step that concerns neither the job list nor the ids. */
  function NodeAfter(n: JobNode, e: Step): JobNode
    requires e.AgentTakesCall? ==> n.calls != []
    requires e.SystemdAccepts? || e.SystemdRefuses? ==> e.k < |n.pending|
  {
    match e
    case RequestTimesOut(_, id) => n.(outstanding := n.outstanding - {id})
    case AgentTakesCall(_) => CallTaken(n)
    case SystemdAccepts(_, k, path) => JobAccepted(n, k, path)
    case SystemdRefuses(_, k) => JobRefused(n, k)
    case SystemdJobRemoved(_, path, result) => JobReleased(n, path, result)
    case AgentCloses(_) => n.(live := false)
    case AgentRestarts(_) => n.(live := false, pending := [], tracked := [])
    case AgentConnects(_) =>
      n.(online := true, epoch := n.epoch + 1, live := true, outstanding := {}, calls := [], replies := [])
    case _ => n
  }

  function Lost(n: JobNode): JobNode {
    n.(online := false, live := false, outstanding := {}, calls := [], replies := [])
  }

  function After(s: System, e: Step): System
    requires Enabled(s, e)
  {
    var n := s.nodes[e.i];
    match e
    case ClientRequests(i) =>
      s.(issued := s.issued + [Issue(i, n.epoch)], nodes := s.nodes[i := Requested(n, |s.issued| + 1)])
    case ControllerTakesReply(i) => ReplyTaken(s, i)
    case ControllerLosesNode(i) => s.(nodes := s.nodes[i := Lost(n)], jobs := WithoutNode(s.jobs, i))
    case _ => s.(nodes := s.nodes[e.i := NodeAfter(n, e)])
  }

  const IDLE := JobNode(false, 0, false, {}, [], [], [], [])

  function Start(nodes: nat): System {
    System(seq(nodes, i => IDLE), [], [], [])
  }

  function RunOf(nodes: nat, es: seq<Step>): Option<System> {
    if es == [] then Some(Start(nodes))
    else
      var before, e := RunOf(nodes, es[..|es| - 1]), es[|es| - 1];
      if before.Some? && Enabled(before.value, e) then Some(After(before.value, e)) else None
  }

  // ---------------------------------------------------------------- counting

  function IsCall(id: nat): nat -> bool { x => x == id }

  function IsPending(id: nat): Pending -> bool { (x: Pending) => x.id == id }

  function IsCurrent(id: nat, epoch: nat): Pending -> bool { (x: Pending) => x.id == id && x.epoch == epoch }

  function IsTracked(id: nat): Tracker -> bool { (x: Tracker) => x.id == id }

  function IsAccepted(id: nat): AgentReply -> bool { (x: AgentReply) => x.Accepted? && x.id == id }

  function IsRefused(id: nat): AgentReply -> bool { (x: AgentReply) => x.Refused? && x.id == id }

  function IsDone(id: nat): AgentReply -> bool { (x: AgentReply) => x.JobDone? && x.id == id }

  function IsJob(id: nat): Job -> bool { (x: Job) => x.id == id }

  function IsNew(id: nat): JobSignal -> bool { (x: JobSignal) => x.JobNew? && x.id == id }

  function IsRemoved(id: nat): JobSignal -> bool { (x: JobSignal) => x.JobRemoved? && x.id == id }

  // ---------------------------------------------------------------- the invariant

  /** Where the operation behind `id` is on the node, whoever still asks for it. */
  function Held(n: JobNode, id: nat): nat {
    Tally(n.calls, IsCall(id)) + Tally(n.pending, IsPending(id)) + Tally(n.tracked, IsTracked(id))
    + Tally(n.replies, IsRefused(id)) + Tally(n.replies, IsDone(id))
  }

  /** The call of the current connection, on its way to an answer. */
  function Asked(n: JobNode, id: nat): nat {
    Tally(n.calls, IsCall(id)) + Tally(n.pending, IsCurrent(id, n.epoch))
    + Tally(n.replies, IsAccepted(id)) + Tally(n.replies, IsRefused(id))
  }

  function Running(n: JobNode, id: nat): nat {
    Tally(n.tracked, IsTracked(id)) + Tally(n.replies, IsDone(id))
  }

  function Listed(s: System, id: nat): nat {
    Tally(s.jobs, IsJob(id))
  }

  /** The end of a job is never reported before its start. */
  ghost predicate DoneLast(replies: seq<AgentReply>, id: nat) {
    forall a, b :: 0 <= a < b < |replies| && replies[a].JobDone? && replies[a].id == id
      ==> !(replies[b].Accepted? && replies[b].id == id)
  }

  /** What is known of `id` on its own node, with `listed`, `new` and `removed` the number of
      listings, JobNew signals and JobRemoved signals it has. */
  ghost predicate HomeOk(n: JobNode, id: nat, epoch: nat, listed: nat, new_: nat, removed: nat) {
    && Held(n, id) <= 1
    && Asked(n, id) + listed <= 1
    && listed + removed <= new_ <= 1
    && epoch <= n.epoch
    && DoneLast(n.replies, id)
    && (id in n.outstanding ==> listed == new_ == 0 && epoch == n.epoch && (n.live ==> Asked(n, id) == 1))
    && (n.live ==> Tally(n.replies, IsAccepted(id)) + listed <= Running(n, id))
    && (listed > 0 ==> n.online && epoch == n.epoch)
  }

  /** Nothing on the node belongs to `id`. */
  ghost predicate Absent(n: JobNode, id: nat) {
    Held(n, id) == 0 && Asked(n, id) == 0 && id !in n.outstanding
  }

  predicate Issued(s: System, id: nat) {
    0 < id <= |s.issued|
  }

  ghost predicate IdOk(s: System, id: nat) {
    && (forall i :: 0 <= i < |s.nodes| && !(Issued(s, id) && s.issued[id - 1].node == i) ==> Absent(s.nodes[i], id))
    && (!Issued(s, id) ==>
          Listed(s, id) == 0 && Tally(s.signals, IsNew(id)) == 0 && Tally(s.signals, IsRemoved(id)) == 0)
    && (Issued(s, id) && s.issued[id - 1].node < |s.nodes| ==>
          HomeOk(s.nodes[s.issued[id - 1].node], id, s.issued[id - 1].epoch,
                 Listed(s, id), Tally(s.signals, IsNew(id)), Tally(s.signals, IsRemoved(id))))
  }

  ghost predicate LinkOk(n: JobNode) {
    && (forall k :: 0 <= k < |n.pending| ==> n.pending[k].epoch <= n.epoch)
    && (!n.online ==> !n.live && n.outstanding == {} && n.calls == [] && n.replies == [])
  }

  ghost predicate Inv(s: System) {
    && (forall i :: 0 <= i < |s.nodes| ==> LinkOk(s.nodes[i]))
    && (forall k :: 0 <= k < |s.issued| ==> s.issued[k].node < |s.nodes|)
    && (forall k :: 0 <= k < |s.jobs| ==>
          Issued(s, s.jobs[k].id) && s.issued[s.jobs[k].id - 1].node == s.jobs[k].node)
    && (forall id :: IdOk(s, id))
  }

  // ---------------------------------------------------------------- steps of one node

  /** A step of the node that keeps every id in order keeps the invariant. */
  lemma NodeStepKeeps(s: System, i: nat, n: JobNode)
    requires Inv(s) && i < |s.nodes| && LinkOk(n)
    requires forall id :: Absent(s.nodes[i], id) ==> Absent(n, id)
    requires forall id, epoch, listed, new_, removed ::
               HomeOk(s.nodes[i], id, epoch, listed, new_, removed) && (listed > 0 ==> s.nodes[i].online)
               ==> HomeOk(n, id, epoch, listed, new_, removed)
    ensures Inv(s.(nodes := s.nodes[i := n]))
  {
    var t := s.(nodes := s.nodes[i := n]);
    forall id ensures IdOk(t, id) {
      assert IdOk(s, id);
      assert Listed(t, id) == Listed(s, id);
    }
  }

  lemma PendingJoins(n: JobNode, p: Pending, id: nat)
    ensures Tally(n.pending + [p], IsPending(id)) == Tally(n.pending, IsPending(id)) + if p.id == id then 1 else 0
    ensures Tally(n.pending + [p], IsCurrent(id, n.epoch))
            == Tally(n.pending, IsCurrent(id, n.epoch)) + if p.id == id && p.epoch == n.epoch then 1 else 0
  {
    TallyPush(n.pending, p, IsPending(id));
    TallyPush(n.pending, p, IsCurrent(id, n.epoch));
  }

  lemma CallTakenTallies(n: JobNode, id: nat)
    requires n.calls != []
    ensures Held(CallTaken(n), id) == Held(n, id) && Asked(CallTaken(n), id) == Asked(n, id)
    ensures Running(CallTaken(n), id) == Running(n, id)
  {
    TallyPop(n.calls, IsCall(id));
    PendingJoins(n, Pending(n.calls[0], n.epoch), id);
  }

  lemma SayTallies(n: JobNode, m: AgentReply, id: nat)
    requires n.live
    ensures Tally(Say(n, m).replies, IsAccepted(id)) == Tally(n.replies, IsAccepted(id)) + if m.Accepted? && m.id == id then 1 else 0
    ensures Tally(Say(n, m).replies, IsRefused(id)) == Tally(n.replies, IsRefused(id)) + if m.Refused? && m.id == id then 1 else 0
    ensures Tally(Say(n, m).replies, IsDone(id)) == Tally(n.replies, IsDone(id)) + if m.JobDone? && m.id == id then 1 else 0
  {
    TallyPush(n.replies, m, IsAccepted(id));
    TallyPush(n.replies, m, IsRefused(id));
    TallyPush(n.replies, m, IsDone(id));
  }

  lemma SayInOrder(n: JobNode, m: AgentReply, id: nat)
    requires DoneLast(n.replies, id)
    requires m == Accepted(id) ==> Tally(n.replies, IsDone(id)) == 0
    ensures DoneLast(Say(n, m).replies, id)
  {
    TallyZero(n.replies, IsDone(id));
    assert forall a :: 0 <= a < |n.replies| ==> n.replies[a] in n.replies;
    assert n.replies[..|n.replies|] == n.replies;
  }

  lemma PendingIncludesCurrent(l: seq<Pending>, id: nat, epoch: nat)
    ensures Tally(l, IsCurrent(id, epoch)) <= Tally(l, IsPending(id))
  {
    if l != [] {
      PendingIncludesCurrent(l[..|l| - 1], id, epoch);
    }
  }

  lemma PendingLeaves(n: JobNode, k: nat, id: nat)
    requires k < |n.pending|
    ensures Tally(n.pending, IsPending(id))
            == Tally(RemoveAt(n.pending, k), IsPending(id)) + if n.pending[k].id == id then 1 else 0
    ensures Tally(n.pending, IsCurrent(id, n.epoch))
            == Tally(RemoveAt(n.pending, k), IsCurrent(id, n.epoch))
               + if n.pending[k].id == id && n.pending[k].epoch == n.epoch then 1 else 0
  {
    TallyRemove(n.pending, k, IsPending(id));
    TallyRemove(n.pending, k, IsCurrent(id, n.epoch));
  }

  /** Whether the answer to the request at `k` reaches the controller. */
  predicate Heard(n: JobNode, k: nat)
    requires k < |n.pending|
  {
    n.pending[k].epoch == n.epoch && n.live
  }

  lemma JobAcceptedTallies(n: JobNode, k: nat, path: CString, id: nat)
    requires k < |n.pending|
    ensures var t, mine := JobAccepted(n, k, path), if n.pending[k].id == id then 1 else 0;
      var told := if Heard(n, k) then mine else 0;
      && Held(t, id) == Held(n, id)
      && Running(t, id) == Running(n, id) + mine
      && Tally(t.replies, IsAccepted(id)) == Tally(n.replies, IsAccepted(id)) + told
      && Asked(t, id) == Asked(n, id) + told - if n.pending[k].epoch == n.epoch then mine else 0
  {
    var p := n.pending[k];
    PendingLeaves(n, k, id);
    TallyPrepend(n.tracked, Tracker(path, p.id), IsTracked(id));
    if Heard(n, k) {
      SayTallies(n.(pending := RemoveAt(n.pending, k), tracked := [Tracker(path, p.id)] + n.tracked), Accepted(p.id), id);
    }
  }

  lemma JobAcceptedOk(n: JobNode, k: nat, path: CString, id: nat, epoch: nat, listed: nat, new_: nat, removed: nat)
    requires k < |n.pending| && HomeOk(n, id, epoch, listed, new_, removed)
    ensures HomeOk(JobAccepted(n, k, path), id, epoch, listed, new_, removed)
  {
    PendingLeaves(n, k, id);
    JobAcceptedTallies(n, k, path, id);
    SayInOrder(n, Accepted(n.pending[k].id), id);
    assert JobAccepted(n, k, path).replies == if Heard(n, k) then n.replies + [Accepted(n.pending[k].id)] else n.replies;
  }

  lemma JobAcceptedAbsent(n: JobNode, k: nat, path: CString, id: nat)
    requires k < |n.pending| && Absent(n, id)
    ensures Absent(JobAccepted(n, k, path), id)
  {
    PendingLeaves(n, k, id);
    JobAcceptedTallies(n, k, path, id);
  }

  lemma JobRefusedTallies(n: JobNode, k: nat, id: nat)
    requires k < |n.pending|
    ensures var t, mine := JobRefused(n, k), if n.pending[k].id == id then 1 else 0;
      var told := if Heard(n, k) then mine else 0;
      && Held(t, id) == Held(n, id) + told - mine
      && Running(t, id) == Running(n, id)
      && Tally(t.replies, IsAccepted(id)) == Tally(n.replies, IsAccepted(id))
      && Asked(t, id) == Asked(n, id) + told - if n.pending[k].epoch == n.epoch then mine else 0
  {
    PendingLeaves(n, k, id);
    if Heard(n, k) {
      SayTallies(n.(pending := RemoveAt(n.pending, k)), Refused(n.pending[k].id), id);
    }
  }

  lemma JobRefusedOk(n: JobNode, k: nat, id: nat, epoch: nat, listed: nat, new_: nat, removed: nat)
    requires k < |n.pending| && HomeOk(n, id, epoch, listed, new_, removed)
    ensures HomeOk(JobRefused(n, k), id, epoch, listed, new_, removed)
  {
    JobRefusedTallies(n, k, id);
    SayInOrder(n, Refused(n.pending[k].id), id);
    assert JobRefused(n, k).replies == if Heard(n, k) then n.replies + [Refused(n.pending[k].id)] else n.replies;
  }

  lemma JobRefusedAbsent(n: JobNode, k: nat, id: nat)
    requires k < |n.pending| && Absent(n, id)
    ensures Absent(JobRefused(n, k), id)
  {
    PendingLeaves(n, k, id);
    JobRefusedTallies(n, k, id);
  }

  lemma JobReleasedOk(n: JobNode, path: CString, result: CString, id: nat, epoch: nat, listed: nat, new_: nat, removed: nat)
    requires HomeOk(n, id, epoch, listed, new_, removed)
    ensures HomeOk(JobReleased(n, path, result), id, epoch, listed, new_, removed)
  {
    var k := TrackerAt(n.tracked, path);
    if k < |n.tracked| {
      TallyRemove(n.tracked, k, IsTracked(id));
      if n.live {
        var mid := n.(tracked := RemoveAt(n.tracked, k));
        SayTallies(mid, JobDone(n.tracked[k].id, result), id);
        SayInOrder(mid, JobDone(n.tracked[k].id, result), id);
      }
    }
  }

  lemma JobReleasedAbsent(n: JobNode, path: CString, result: CString, id: nat)
    requires Absent(n, id)
    ensures Absent(JobReleased(n, path, result), id)
  {
    var k := TrackerAt(n.tracked, path);
    if k < |n.tracked| {
      TallyRemove(n.tracked, k, IsTracked(id));
      if n.live {
        SayTallies(n.(tracked := RemoveAt(n.tracked, k)), JobDone(n.tracked[k].id, result), id);
      }
    }
  }

  lemma NoCurrent(l: seq<Pending>, id: nat, epoch: nat)
    requires forall k :: 0 <= k < |l| ==> l[k].epoch < epoch
    ensures Tally(l, IsCurrent(id, epoch)) == 0
  {
    if l != [] {
      NoCurrent(l[..|l| - 1], id, epoch);
    }
  }

  /** The steps that touch one node only. */
  predicate OnNode(e: Step) {
    !e.ClientRequests? && !e.ControllerTakesReply? && !e.ControllerLosesNode?
  }

  lemma NodeAfterOk(n: JobNode, e: Step, id: nat, epoch: nat, listed: nat, new_: nat, removed: nat)
    requires LinkOk(n) && HomeOk(n, id, epoch, listed, new_, removed) && OnNode(e)
    requires e.AgentTakesCall? ==> n.live && n.calls != []
    requires e.SystemdAccepts? || e.SystemdRefuses? ==> e.k < |n.pending|
    requires e.AgentConnects? ==> !n.online
    ensures HomeOk(NodeAfter(n, e), id, epoch, listed, new_, removed)
  {
    match e
    case AgentTakesCall(_) => CallTakenTallies(n, id);
    case SystemdAccepts(_, k, path) => JobAcceptedOk(n, k, path, id, epoch, listed, new_, removed);
    case SystemdRefuses(_, k) => JobRefusedOk(n, k, id, epoch, listed, new_, removed);
    case SystemdJobRemoved(_, path, result) => JobReleasedOk(n, path, result, id, epoch, listed, new_, removed);
    case AgentConnects(_) => NoCurrent(n.pending, id, n.epoch + 1);
    case _ =>
  }

  lemma NodeAfterAbsent(n: JobNode, e: Step, id: nat)
    requires LinkOk(n) && Absent(n, id) && OnNode(e)
    requires e.AgentTakesCall? ==> n.live && n.calls != []
    requires e.SystemdAccepts? || e.SystemdRefuses? ==> e.k < |n.pending|
    ensures Absent(NodeAfter(n, e), id)
  {
    match e
    case AgentTakesCall(_) => CallTakenTallies(n, id);
    case SystemdAccepts(_, k, path) => JobAcceptedAbsent(n, k, path, id);
    case SystemdRefuses(_, k) => JobRefusedAbsent(n, k, id);
    case SystemdJobRemoved(_, path, result) => JobReleasedAbsent(n, path, result, id);
    case AgentConnects(_) => NoCurrent(n.pending, id, n.epoch + 1);
    case _ =>
  }

  lemma NodeAfterLink(n: JobNode, e: Step)
    requires LinkOk(n) && OnNode(e)
    requires e.AgentTakesCall? ==> n.live && n.calls != []
    requires e.SystemdAccepts? || e.SystemdRefuses? ==> e.k < |n.pending|
    ensures LinkOk(NodeAfter(n, e))
  {
  }

  lemma OneNodeKeeps(s: System, e: Step)
    requires Inv(s) && Enabled(s, e) && OnNode(e)
    ensures Inv(After(s, e))
  {
    var n := s.nodes[e.i];
    var m := NodeAfter(n, e);
    NodeAfterLink(n, e);
    forall id | Absent(n, id) ensures Absent(m, id) {
      NodeAfterAbsent(n, e, id);
    }
    forall id, epoch, listed, new_, removed | HomeOk(n, id, epoch, listed, new_, removed)
      ensures HomeOk(m, id, epoch, listed, new_, removed)
    {
      NodeAfterOk(n, e, id, epoch, listed, new_, removed);
    }
    NodeStepKeeps(s, e.i, m);
  }

  // ---------------------------------------------------------------- the other steps

  lemma NothingSaid(n: JobNode, id: nat)
    requires Absent(n, id)
    ensures DoneLast(n.replies, id)
  {
    TallyZero(n.replies, IsDone(id));
    assert forall a :: 0 <= a < |n.replies| ==> n.replies[a] in n.replies;
  }

  lemma RequestedOther(n: JobNode, mine: nat, id: nat)
    requires id != mine
    ensures Held(Requested(n, mine), id) == Held(n, id) && Asked(Requested(n, mine), id) == Asked(n, id)
    ensures Running(Requested(n, mine), id) == Running(n, id)
    ensures id in Requested(n, mine).outstanding <==> id in n.outstanding
  {
    TallyPush(n.calls, mine, IsCall(id));
  }

  lemma RequestedFirst(n: JobNode, id: nat)
    requires Absent(n, id)
    ensures HomeOk(Requested(n, id), id, n.epoch, 0, 0, 0)
  {
    TallyPush(n.calls, id, IsCall(id));
    NothingSaid(n, id);
  }

  lemma RequestedKeeps(s: System, i: nat)
    requires Inv(s) && i < |s.nodes|
    ensures Inv(After(s, ClientRequests(i)))
  {
    var t, n, mine := After(s, ClientRequests(i)), s.nodes[i], |s.issued| + 1;
    assert t.nodes[i] == Requested(n, mine);
    forall id ensures IdOk(t, id) {
      assert IdOk(s, id);
      assert Issued(s, id) ==> t.issued[id - 1] == s.issued[id - 1];
      if id == mine {
        RequestedFirst(n, id);
        assert t.issued[id - 1] == Issue(i, n.epoch);
      } else {
        RequestedOther(n, mine, id);
      }
    }
  }

  lemma {:induction false} JobsOfOthers(jobs: seq<Job>, i: nat)
    ensures forall j :: j in WithoutNode(jobs, i) ==> j in jobs && j.node != i
  {
    if jobs != [] {
      JobsOfOthers(jobs[..|jobs| - 1], i);
    }
  }

  lemma {:induction false} ListedWithout(jobs: seq<Job>, i: nat, id: nat, node: nat)
    requires forall k :: 0 <= k < |jobs| && jobs[k].id == id ==> jobs[k].node == node
    ensures Tally(WithoutNode(jobs, i), IsJob(id)) == if node == i then 0 else Tally(jobs, IsJob(id))
  {
    if jobs != [] {
      var front, last := jobs[..|jobs| - 1], jobs[|jobs| - 1];
      ListedWithout(front, i, id, node);
      TallyPush(WithoutNode(front, i), last, IsJob(id));
      assert WithoutNode(front, i) + [] == WithoutNode(front, i);
    }
  }

  lemma LostOk(n: JobNode, id: nat, epoch: nat, listed: nat, new_: nat, removed: nat)
    requires HomeOk(n, id, epoch, listed, new_, removed)
    ensures HomeOk(Lost(n), id, epoch, 0, new_, removed)
  {
    PendingIncludesCurrent(n.pending, id, n.epoch);
  }

  lemma LostId(s: System, i: nat, id: nat)
    requires Inv(s) && Enabled(s, ControllerLosesNode(i))
    ensures IdOk(After(s, ControllerLosesNode(i)), id)
  {
    var t := After(s, ControllerLosesNode(i));
    assert t.nodes[i] == Lost(s.nodes[i]);
    assert IdOk(s, id);
    if Issued(s, id) {
      var node := s.issued[id - 1].node;
      ListedWithout(s.jobs, i, id, node);
      if node == i {
        LostOk(s.nodes[i], id, s.issued[id - 1].epoch, Listed(s, id),
               Tally(s.signals, IsNew(id)), Tally(s.signals, IsRemoved(id)));
      }
    } else {
      ListedWithout(s.jobs, i, id, i + 1);
    }
  }

  lemma LostKeeps(s: System, i: nat)
    requires Inv(s) && Enabled(s, ControllerLosesNode(i))
    ensures Inv(After(s, ControllerLosesNode(i)))
  {
    var t := After(s, ControllerLosesNode(i));
    JobsOfOthers(s.jobs, i);
    forall k | 0 <= k < |t.jobs|
      ensures Issued(t, t.jobs[k].id) && t.issued[t.jobs[k].id - 1].node == t.jobs[k].node
    {
      assert t.jobs[k] in s.jobs;
    }
    forall id ensures IdOk(t, id) {
      LostId(s, i, id);
    }
  }

  // ---- replies

  function Popped(n: JobNode): JobNode
    requires n.replies != []
  {
    n.(replies := n.replies[1..])
  }

  lemma PoppedTallies(n: JobNode, id: nat)
    requires n.replies != []
    ensures var m := n.replies[0];
      && Tally(n.replies, IsAccepted(id)) == Tally(Popped(n).replies, IsAccepted(id)) + (if m.Accepted? && m.id == id then 1 else 0)
      && Tally(n.replies, IsRefused(id)) == Tally(Popped(n).replies, IsRefused(id)) + (if m.Refused? && m.id == id then 1 else 0)
      && Tally(n.replies, IsDone(id)) == Tally(Popped(n).replies, IsDone(id)) + (if m.JobDone? && m.id == id then 1 else 0)
    ensures DoneLast(n.replies, id) ==> DoneLast(Popped(n).replies, id)
  {
    TallyPop(n.replies, IsAccepted(id));
    TallyPop(n.replies, IsRefused(id));
    TallyPop(n.replies, IsDone(id));
  }

  /** Whatever else the reply means: a node without it is in order for every other id. */
  lemma PoppedOther(n: JobNode, id: nat, epoch: nat, listed: nat, new_: nat, removed: nat)
    requires n.replies != [] && n.replies[0].id != id && HomeOk(n, id, epoch, listed, new_, removed)
    ensures HomeOk(Popped(n), id, epoch, listed, new_, removed)
    ensures HomeOk(Popped(n).(outstanding := n.outstanding - {n.replies[0].id}), id, epoch, listed, new_, removed)
  {
    PoppedTallies(n, id);
  }

  lemma PoppedAbsent(n: JobNode, id: nat)
    requires n.replies != [] && Absent(n, id)
    ensures Absent(Popped(n), id) && Absent(Popped(n).(outstanding := n.outstanding - {n.replies[0].id}), id)
    ensures n.replies[0].id != id
  {
    PoppedTallies(n, id);
  }

  lemma AcceptedOk(n: JobNode, epoch: nat, listed: nat, new_: nat, removed: nat)
    requires n.online && n.replies != [] && n.replies[0].Accepted?
    requires HomeOk(n, n.replies[0].id, epoch, listed, new_, removed)
    ensures var id, m := n.replies[0].id, Popped(n).(outstanding := n.outstanding - {n.replies[0].id});
      if id in n.outstanding then HomeOk(m, id, epoch, listed + 1, new_ + 1, removed)
      else HomeOk(m, id, epoch, listed, new_, removed)
  {
    PoppedTallies(n, n.replies[0].id);
  }

  lemma RefusedOk(n: JobNode, epoch: nat, listed: nat, new_: nat, removed: nat)
    requires n.replies != [] && n.replies[0].Refused?
    requires HomeOk(n, n.replies[0].id, epoch, listed, new_, removed)
    ensures HomeOk(Popped(n).(outstanding := n.outstanding - {n.replies[0].id}),
                   n.replies[0].id, epoch, listed, new_, removed)
  {
    PoppedTallies(n, n.replies[0].id);
  }

  lemma DoneOk(n: JobNode, epoch: nat, listed: nat, new_: nat, removed: nat)
    requires n.replies != [] && n.replies[0].JobDone?
    requires HomeOk(n, n.replies[0].id, epoch, listed, new_, removed)
    ensures HomeOk(Popped(n), n.replies[0].id, epoch, 0, new_, removed + listed)
  {
    var id := n.replies[0].id;
    PoppedTallies(n, id);
    var rest := n.replies[1..];
    TallyZero(rest, IsAccepted(id));
    assert forall b :: 0 <= b < |rest| ==> rest[b] == n.replies[b + 1];
    assert Tally(rest, IsAccepted(id)) == 0;
  }

  lemma Finished(jobs: seq<Job>, done: nat, id: nat)
    requires Tally(jobs, IsJob(done)) <= 1
    ensures Tally(FinishJob(jobs, done), IsJob(id)) == if id == done then 0 else Tally(jobs, IsJob(id))
    ensures forall j :: j in FinishJob(jobs, done) ==> j in jobs
    ensures JobAt(jobs, done) < |jobs| <==> Tally(jobs, IsJob(done)) == 1
  {
    var k := JobAt(jobs, done);
    TallyZero(jobs, IsJob(done));
    if k < |jobs| {
      TallyRemove(jobs, k, IsJob(id));
      TallyRemove(jobs, k, IsJob(done));
    } else {
      assert forall j :: j in jobs ==> j.id != done;
    }
  }

  lemma SignalTallies(s: seq<JobSignal>, g: JobSignal, id: nat)
    ensures Tally(s + [g], IsNew(id)) == Tally(s, IsNew(id)) + if g.JobNew? && g.id == id then 1 else 0
    ensures Tally(s + [g], IsRemoved(id)) == Tally(s, IsRemoved(id)) + if g.JobRemoved? && g.id == id then 1 else 0
  {
    TallyPush(s, g, IsNew(id));
    TallyPush(s, g, IsRemoved(id));
  }

  /** A reply is about an id that was issued for the node it comes from. */
  lemma ReplyIsHome(s: System, i: nat)
    requires Inv(s) && Enabled(s, ControllerTakesReply(i))
    ensures var id := s.nodes[i].replies[0].id; Issued(s, id) && s.issued[id - 1].node == i
  {
    var n := s.nodes[i];
    var id := n.replies[0].id;
    assert IdOk(s, id);
    PoppedTallies(n, id);
    assert !Absent(n, id);
  }

  lemma AcceptedId(s: System, i: nat, id: nat)
    requires Inv(s) && Enabled(s, ControllerTakesReply(i)) && s.nodes[i].replies[0].Accepted?
    ensures IdOk(After(s, ControllerTakesReply(i)), id)
  {
    var mine := s.nodes[i].replies[0].id;
    ReplyIsHome(s, i);
    assert IdOk(s, id);
    TallyPush(s.jobs, Job(mine, i), IsJob(id));
    SignalTallies(s.signals, JobNew(mine), id);
    ReplyKeepsId(s, After(s, ControllerTakesReply(i)), i, id);
  }

  lemma AcceptedKeeps(s: System, i: nat)
    requires Inv(s) && Enabled(s, ControllerTakesReply(i)) && s.nodes[i].replies[0].Accepted?
    ensures Inv(After(s, ControllerTakesReply(i)))
  {
    ReplyIsHome(s, i);
    forall id ensures IdOk(After(s, ControllerTakesReply(i)), id) {
      AcceptedId(s, i, id);
    }
  }

  /** Given the counts of `id`, only its own node remains to be looked at. */
  lemma ReplyKeepsId(s: System, t: System, i: nat, id: nat)
    requires i < |s.nodes| && s.nodes[i].online && s.nodes[i].replies != [] && IdOk(s, id)
    requires t.issued == s.issued
    requires var n := s.nodes[i];
      t.nodes == s.nodes[i := if n.replies[0].JobDone? then Popped(n)
                                 else Popped(n).(outstanding := n.outstanding - {n.replies[0].id})]
    requires Issued(s, s.nodes[i].replies[0].id) && s.issued[s.nodes[i].replies[0].id - 1].node == i
    requires var n, m := s.nodes[i], s.nodes[i].replies[0];
      var taken := if m.Accepted? && m.id == id && id in n.outstanding then 1 else 0;
      var ended := if m.JobDone? && m.id == id then Listed(s, id) else 0;
      && Listed(t, id) == Listed(s, id) + taken - ended
      && Tally(t.signals, IsNew(id)) == Tally(s.signals, IsNew(id)) + taken
      && Tally(t.signals, IsRemoved(id)) == Tally(s.signals, IsRemoved(id)) + ended
    ensures IdOk(t, id)
  {
    var n := s.nodes[i];
    var listed, new_, removed := Listed(s, id), Tally(s.signals, IsNew(id)), Tally(s.signals, IsRemoved(id));
    if Issued(s, id) && s.issued[id - 1].node == i {
      var epoch := s.issued[id - 1].epoch;
      if n.replies[0].id != id {
        PoppedOther(n, id, epoch, listed, new_, removed);
      } else if n.replies[0].Accepted? {
        AcceptedOk(n, epoch, listed, new_, removed);
      } else if n.replies[0].Refused? {
        RefusedOk(n, epoch, listed, new_, removed);
      } else {
        DoneOk(n, epoch, listed, new_, removed);
      }
    } else {
      PoppedAbsent(n, id);
    }
  }

  lemma RefusedKeeps(s: System, i: nat)
    requires Inv(s) && Enabled(s, ControllerTakesReply(i)) && s.nodes[i].replies[0].Refused?
    ensures Inv(After(s, ControllerTakesReply(i)))
  {
    ReplyIsHome(s, i);
    forall id ensures IdOk(After(s, ControllerTakesReply(i)), id) {
      assert IdOk(s, id);
      ReplyKeepsId(s, After(s, ControllerTakesReply(i)), i, id);
    }
  }

  lemma AtMostOneListed(s: System, id: nat)
    requires Inv(s)
    ensures Listed(s, id) <= 1
  {
    assert IdOk(s, id);
  }

  lemma DoneId(s: System, i: nat, id: nat)
    requires Inv(s) && Enabled(s, ControllerTakesReply(i)) && s.nodes[i].replies[0].JobDone?
    ensures IdOk(After(s, ControllerTakesReply(i)), id)
  {
    var done := s.nodes[i].replies[0].id;
    ReplyIsHome(s, i);
    AtMostOneListed(s, done);
    assert IdOk(s, id);
    Finished(s.jobs, done, id);
    SignalTallies(s.signals, JobRemoved(done, s.nodes[i].replies[0].result), id);
    assert s.signals + [] == s.signals;
    ReplyKeepsId(s, After(s, ControllerTakesReply(i)), i, id);
  }

  lemma DoneKeeps(s: System, i: nat)
    requires Inv(s) && Enabled(s, ControllerTakesReply(i)) && s.nodes[i].replies[0].JobDone?
    ensures Inv(After(s, ControllerTakesReply(i)))
  {
    var t, done := After(s, ControllerTakesReply(i)), s.nodes[i].replies[0].id;
    AtMostOneListed(s, done);
    Finished(s.jobs, done, done);
    forall k | 0 <= k < |t.jobs|
      ensures Issued(t, t.jobs[k].id) && t.issued[t.jobs[k].id - 1].node == t.jobs[k].node
    {
      assert t.jobs[k] in s.jobs;
    }
    forall id ensures IdOk(t, id) {
      DoneId(s, i, id);
    }
  }

  lemma AfterKeeps(s: System, e: Step)
    requires Inv(s) && Enabled(s, e)
    ensures Inv(After(s, e))
  {
    match e
    case ClientRequests(i) => RequestedKeeps(s, i);
    case ControllerLosesNode(i) => LostKeeps(s, i);
    case ControllerTakesReply(i) =>
      if s.nodes[i].replies[0].Accepted? {
        AcceptedKeeps(s, i);
      } else if s.nodes[i].replies[0].Refused? {
        RefusedKeeps(s, i);
      } else {
        DoneKeeps(s, i);
      }
    case _ => OneNodeKeeps(s, e);
  }

  lemma StartOk(nodes: nat)
    ensures Inv(Start(nodes))
  {
    forall id ensures IdOk(Start(nodes), id) {
      NothingAtStart(nodes, id);
    }
  }

  lemma NothingAtStart(nodes: nat, id: nat)
    ensures IdOk(Start(nodes), id)
  {
    var s := Start(nodes);
    forall i | 0 <= i < |s.nodes| ensures Absent(s.nodes[i], id) {
      assert s.nodes[i] == IDLE;
    }
  }

  // ---------------------------------------------------------------- over every run

  lemma {:induction false} RunKeeps(nodes: nat, es: seq<Step>)
    requires RunOf(nodes, es).Some?
    ensures Inv(RunOf(nodes, es).value)
  {
    if es == [] {
      StartOk(nodes);
    } else {
      RunKeeps(nodes, es[..|es| - 1]);
      AfterKeeps(RunOf(nodes, es[..|es| - 1]).value, es[|es| - 1]);
    }
  }

  /** A listed job of a node whose connection is in use is in exactly one of two places: the
      agent tracks it, or its end is on the way.  Once the agent has dropped the connection it
      is in at most one. */
  lemma ListedJobHasOnePlace(nodes: nat, es: seq<Step>, j: Job)
    requires RunOf(nodes, es).Some? && j in RunOf(nodes, es).value.jobs
    ensures var s := RunOf(nodes, es).value;
      && j.node < |s.nodes| && s.nodes[j.node].online
      && Running(s.nodes[j.node], j.id) <= 1
      && (s.nodes[j.node].live ==> Running(s.nodes[j.node], j.id) == 1)
      && forall i :: 0 <= i < |s.nodes| && i != j.node ==> Running(s.nodes[i], j.id) == 0
  {
    RunKeeps(nodes, es);
    var s := RunOf(nodes, es).value;
    assert IdOk(s, j.id);
    TallyZero(s.jobs, IsJob(j.id));
    forall i | 0 <= i < |s.nodes| && i != j.node ensures Running(s.nodes[i], j.id) == 0 {
      assert Absent(s.nodes[i], j.id);
    }
  }

  /** A job is announced at most once, its removal is announced at most once and only after
      that, and while it is listed it was announced and not removed. */
  lemma RemovedOnceAfterNew(nodes: nat, es: seq<Step>, id: nat)
    requires RunOf(nodes, es).Some?
    ensures var s := RunOf(nodes, es).value;
      && Listed(s, id) + Tally(s.signals, IsRemoved(id)) <= Tally(s.signals, IsNew(id)) <= 1
  {
    RunKeeps(nodes, es);
    assert IdOk(RunOf(nodes, es).value, id);
  }

  lemma StaleIsUnlisted(s: System, i: nat, id: nat)
    requires IdOk(s, id) && i < |s.nodes| && Issued(s, id) && s.issued[id - 1].node == i
    ensures s.issued[id - 1].epoch < s.nodes[i].epoch ==> FinishJob(s.jobs, id) == s.jobs && FinishSignals(s.jobs, id, []) == []
  {
    Finished(s.jobs, id, id);
  }

  /** The end of a job that was started over an earlier connection removes nothing and tells
      no client anything. */
  lemma StaleDoneRemovesNothing(nodes: nat, es: seq<Step>, i: nat)
    requires RunOf(nodes, es).Some? && Enabled(RunOf(nodes, es).value, ControllerTakesReply(i))
    requires RunOf(nodes, es).value.nodes[i].replies[0].JobDone?
    ensures var s := RunOf(nodes, es).value;
      var id := s.nodes[i].replies[0].id;
      && Issued(s, id)
      && (s.issued[id - 1].epoch < s.nodes[i].epoch ==>
            After(s, ControllerTakesReply(i)).jobs == s.jobs && After(s, ControllerTakesReply(i)).signals == s.signals)
  {
    RunKeeps(nodes, es);
    var s := RunOf(nodes, es).value;
    ReplyIsHome(s, i);
    StaleIsUnlisted(s, i, s.nodes[i].replies[0].id);
  }

  // ---------------------------------------------------------------- which result

  /** systemd's JobRemoved with this result takes the tracker of `id` off its node's list: the
      first one with the path. */
  ghost predicate Releases(s: System, e: Step, i: nat, id: nat, result: CString) {
    && e.SystemdJobRemoved? && e.i == i && e.result == result && i < |s.nodes|
    && var tracked := s.nodes[i].tracked;
      exists k :: 0 <= k < |tracked| && tracked[k] == Tracker(e.path, id)
                  && forall l :: 0 <= l < k ==> tracked[l].path != e.path
  }

  lemma OthersStay(jobs: seq<Job>, id: nat, j: Job)
    requires j in jobs && j.id != id
    ensures j in FinishJob(jobs, id)
  {
    var k, l :| k == JobAt(jobs, id) && 0 <= l < |jobs| && jobs[l] == j;
    if k < |jobs| {
      assert RemoveAt(jobs, k)[if l < k then l else l - 1] == j;
    }
  }

  lemma FinishedGoes(jobs: seq<Job>, id: nat, j: Job)
    requires Tally(jobs, IsJob(id)) <= 1 && j in FinishJob(jobs, id)
    ensures j in jobs && j.id != id
  {
    Finished(jobs, id, id);
    TallyZero(FinishJob(jobs, id), IsJob(id));
  }

  lemma FinishedJobs(jobs: seq<Job>, id: nat, result: CString)
    requires Tally(jobs, IsJob(id)) <= 1
    ensures forall j :: j in FinishJob(jobs, id) <==> j in jobs && j.id != id
    ensures FinishSignals(jobs, id, result)
              == if exists k :: 0 <= k < |jobs| && jobs[k].id == id then [JobRemoved(id, result)] else []
  {
    forall j ensures j in FinishJob(jobs, id) <==> j in jobs && j.id != id {
      if j in FinishJob(jobs, id) {
        FinishedGoes(jobs, id, j);
      } else if j in jobs && j.id != id {
        OthersStay(jobs, id, j);
      }
    }
  }

  /** The end of a listed job removes it and is passed on with the result the agent gave; the end
      of any other job does neither. */
  lemma DoneIsPassedOn(s: System, i: nat)
    requires Inv(s) && Enabled(s, ControllerTakesReply(i)) && s.nodes[i].replies[0].JobDone?
    ensures var id, result, t := s.nodes[i].replies[0].id, s.nodes[i].replies[0].result, After(s, ControllerTakesReply(i));
      && t.signals
           == s.signals + (if exists k :: 0 <= k < |s.jobs| && s.jobs[k].id == id then [JobRemoved(id, result)] else [])
      && (forall j :: j in t.jobs <==> j in s.jobs && j.id != id)
  {
    AtMostOneListed(s, s.nodes[i].replies[0].id);
    FinishedJobs(s.jobs, s.nodes[i].replies[0].id, s.nodes[i].replies[0].result);
  }

  /** An accepted request that still waits for its answer is listed and announced under its own
      node; the answer to one that timed out, or a refusal, changes neither list. */
  lemma AnswerIsListed(s: System, i: nat)
    requires Enabled(s, ControllerTakesReply(i)) && !s.nodes[i].replies[0].JobDone?
    ensures var m, t := s.nodes[i].replies[0], After(s, ControllerTakesReply(i));
      var starts := m.Accepted? && m.id in s.nodes[i].outstanding;
      && t.jobs == s.jobs + (if starts then [Job(m.id, i)] else [])
      && t.signals == s.signals + (if starts then [JobNew(m.id)] else [])
      && m.id !in t.nodes[i].outstanding
  {
    assert s.jobs + [] == s.jobs && s.signals + [] == s.signals;
  }

  /** A request gets the next id and is sent to the node, if that is connected, to be answered. */
  lemma RequestIsSent(s: System, i: nat)
    requires i < |s.nodes|
    ensures var t, id := After(s, ClientRequests(i)), |s.issued| + 1;
      && Issued(t, id) && !Issued(s, id) && t.issued[id - 1] == Issue(i, s.nodes[i].epoch)
      && t.nodes[i].calls == s.nodes[i].calls + (if s.nodes[i].online then [id] else [])
      && (id in t.nodes[i].outstanding <==> s.nodes[i].online || id in s.nodes[i].outstanding)
      && t.jobs == s.jobs && t.signals == s.signals
  {
    assert s.nodes[i].calls + [] == s.nodes[i].calls;
  }

  /** systemd's answer to a request under way: an accepted one is tracked under the path of its
      job, and either is answered over the connection it came from, if that is still in use. */
  lemma SystemdAnswers(n: JobNode, k: nat, path: CString)
    requires k < |n.pending|
    ensures var p := n.pending[k];
      var reaches := n.live && p.epoch == n.epoch;
      && JobAccepted(n, k, path).tracked == [Tracker(path, p.id)] + n.tracked
      && JobAccepted(n, k, path).replies == n.replies + (if reaches then [Accepted(p.id)] else [])
      && JobRefused(n, k).tracked == n.tracked
      && JobRefused(n, k).replies == n.replies + (if reaches then [Refused(p.id)] else [])
  {
    assert n.replies + [] == n.replies;
  }

  lemma NewDone(s: System, e: Step, i: nat, id: nat, result: CString)
    requires Enabled(s, e) && i < |s.nodes|
    ensures |After(s, e).nodes| == |s.nodes|
    ensures JobDone(id, result) in After(s, e).nodes[i].replies ==>
              JobDone(id, result) in s.nodes[i].replies || Releases(s, e, i, id, result)
  {
    if i == e.i {
      NewDoneHere(s, e, id, result);
    }
  }

  lemma NewDoneHere(s: System, e: Step, id: nat, result: CString)
    requires Enabled(s, e)
    ensures |After(s, e).nodes| == |s.nodes|
    ensures JobDone(id, result) in After(s, e).nodes[e.i].replies ==>
              JobDone(id, result) in s.nodes[e.i].replies || Releases(s, e, e.i, id, result)
  {
    var n := s.nodes[e.i];
    match e
    case SystemdJobRemoved(_, path, r) =>
      var k := TrackerAt(n.tracked, path);
      if k < |n.tracked| && n.tracked[k].id == id && r == result {
        assert n.tracked[k] == Tracker(path, id);
      }
    case ControllerTakesReply(_) =>
      assert forall m :: m in n.replies[1..] ==> m in n.replies;
    case _ =>
  }

  lemma NewRemoved(s: System, e: Step, id: nat, result: CString)
    requires Inv(s) && Enabled(s, e) && JobRemoved(id, result) in After(s, e).signals
    ensures JobRemoved(id, result) in s.signals
      || (Issued(s, id) && s.issued[id - 1].node < |s.nodes|
          && JobDone(id, result) in s.nodes[s.issued[id - 1].node].replies)
  {
    if e.ControllerTakesReply? {
      ReplyIsHome(s, e.i);
      if s.nodes[e.i].replies[0].JobDone? {
        DoneIsPassedOn(s, e.i);
      }
    }
  }

  ghost predicate ReleasedAt(nodes: nat, es: seq<Step>, j: nat, i: nat, id: nat, result: CString) {
    j < |es| && RunOf(nodes, es[..j]).Some? && Releases(RunOf(nodes, es[..j]).value, es[j], i, id, result)
  }

  /** At some step of the run systemd's JobRemoved with the result released the tracker. */
  ghost predicate WasReleased(nodes: nat, es: seq<Step>, i: nat, id: nat, result: CString) {
    exists j: nat :: ReleasedAt(nodes, es, j, i, id, result)
  }

  lemma ReleasedStays(nodes: nat, es: seq<Step>, i: nat, id: nat, result: CString)
    requires es != [] && WasReleased(nodes, es[..|es| - 1], i, id, result)
    ensures WasReleased(nodes, es, i, id, result)
  {
    var front := es[..|es| - 1];
    var j: nat :| ReleasedAt(nodes, front, j, i, id, result);
    assert front[..j] == es[..j];
    assert ReleasedAt(nodes, es, j, i, id, result);
  }

  lemma {:induction false} DoneWasReleased(nodes: nat, es: seq<Step>, i: nat, id: nat, result: CString)
    requires RunOf(nodes, es).Some? && i < |RunOf(nodes, es).value.nodes|
    requires JobDone(id, result) in RunOf(nodes, es).value.nodes[i].replies
    ensures WasReleased(nodes, es, i, id, result)
  {
    if es != [] {
      var front, e := es[..|es| - 1], es[|es| - 1];
      SameSize(RunOf(nodes, front).value, e);
      NewDone(RunOf(nodes, front).value, e, i, id, result);
      if JobDone(id, result) in RunOf(nodes, front).value.nodes[i].replies {
        DoneWasReleased(nodes, front, i, id, result);
        ReleasedStays(nodes, es, i, id, result);
      } else {
        assert ReleasedAt(nodes, es, |es| - 1, i, id, result);
      }
    }
  }

  lemma SameSize(s: System, e: Step)
    requires Enabled(s, e)
    ensures |After(s, e).nodes| == |s.nodes| && s.issued <= After(s, e).issued
  {
  }

  /** Over every run: what clients are told of the end of a job is what systemd told the agent of
      the node the job was requested for, when that released the tracker of the job. */
  lemma {:induction false} ResultIsSystemds(nodes: nat, es: seq<Step>, id: nat, result: CString)
    requires RunOf(nodes, es).Some? && JobRemoved(id, result) in RunOf(nodes, es).value.signals
    ensures Issued(RunOf(nodes, es).value, id)
    ensures WasReleased(nodes, es, RunOf(nodes, es).value.issued[id - 1].node, id, result)
  {
    var front, e := es[..|es| - 1], es[|es| - 1];
    var s := RunOf(nodes, front).value;
    RunKeeps(nodes, front);
    SameSize(s, e);
    NewRemoved(s, e, id, result);
    if JobRemoved(id, result) in s.signals {
      ResultIsSystemds(nodes, front, id, result);
    } else {
      DoneWasReleased(nodes, front, s.issued[id - 1].node, id, result);
    }
    ReleasedStays(nodes, es, s.issued[id - 1].node, id, result);
  }

  /** And such a release reaches a connected controller with this result. */
  lemma ReleaseIsTold(s: System, e: Step, id: nat)
    requires Enabled(s, e) && e.SystemdJobRemoved? && Releases(s, e, e.i, id, e.result)
    ensures var n, t := s.nodes[e.i], After(s, e).nodes[e.i];
      && t.replies == n.replies + (if n.live then [JobDone(id, e.result)] else [])
      && |t.tracked| == |n.tracked| - 1
  {
    var tracked := s.nodes[e.i].tracked;
    var k :| 0 <= k < |tracked| && tracked[k] == Tracker(e.path, id) && forall l :: 0 <= l < k ==> tracked[l].path != e.path;
    assert TrackerAt(tracked, e.path) == k;
    assert s.nodes[e.i].replies + [] == s.nodes[e.i].replies;
  }

  // ---------------------------------------------------------------- shared systemd jobs

  function IsPath(path: CString): Tracker -> bool { (x: Tracker) => x.path == path }

  /** systemd may answer two requests with one job.  Its end releases one tracker only, so of
      the jobs that share it all are reported done if and only if there is just one. */
  lemma OneReleasePerSignal(n: JobNode, path: CString, result: CString)
    ensures var before, after := Tally(n.tracked, IsPath(path)), Tally(JobReleased(n, path, result).tracked, IsPath(path));
      && after == (if before == 0 then 0 else before - 1)
      && (after == 0 <==> before <= 1)
  {
    var k := TrackerAt(n.tracked, path);
    TallyZero(n.tracked, IsPath(path));
    if k < |n.tracked| {
      TallyRemove(n.tracked, k, IsPath(path));
      assert n.tracked[k] in n.tracked;
    } else {
      assert forall t :: t in n.tracked ==> t.path != path;
    }
  }

  // ---------------------------------------------------------------- the code that keeps the lists

  /** The controller's jobs and the signals its clients see. */
  class JobList {
    var jobs: seq<Job>
    var signals: seq<JobSignal>

    /** controller_add_job */
    method Add(job: Job)
      modifies this
      ensures jobs == old(jobs) + [job] && signals == old(signals) + [JobNew(job.id)]
    {
      signals := signals + [JobNew(job.id)];
      jobs := jobs + [job];
    }

    /** controller_finish_job with controller_remove_job */
    method Finish(id: nat, result: CString)
      modifies this
      ensures jobs == FinishJob(old(jobs), id)
      ensures signals == old(signals) + FinishSignals(old(jobs), id, result)
    {
      var k := 0;
      while k < |jobs| && jobs[k].id != id
        invariant k <= |jobs| && forall j :: 0 <= j < k ==> jobs[j].id != id
      {
        k := k + 1;
      }
      assert k == JobAt(jobs, id);
      if k < |jobs| {
        signals := signals + [JobRemoved(id, result)];
        jobs := RemoveAt(jobs, k);
      }
    }

    /** The end of node_disconnect: the jobs of the node go, and no client is told. */
    method DropNode(node: nat)
      modifies this
      ensures jobs == WithoutNode(old(jobs), node) && signals == old(signals)
    {
      ghost var all := jobs;
      var k := 0;
      ghost var seen := 0;
      while k < |jobs|
        invariant 0 <= seen <= |all| && k == |WithoutNode(all[..seen], node)|
        invariant jobs == WithoutNode(all[..seen], node) + all[seen..]
        invariant signals == old(signals)
        decreases |all| - seen
      {
        OneMoreSeen(all, seen, node);
        if jobs[k].node == node {
          jobs := RemoveAt(jobs, k);
        } else {
          k := k + 1;
        }
        seen := seen + 1;
      }
      assert all[..|all|] == all;
    }
  }

  lemma OneMoreSeen(all: seq<Job>, seen: nat, node: nat)
    requires seen < |all|
    ensures var kept := WithoutNode(all[..seen], node);
      && (kept + all[seen..])[|kept|] == all[seen]
      && RemoveAt(kept + all[seen..], |kept|) == kept + all[seen + 1..]
      && WithoutNode(all[..seen + 1], node) == (if all[seen].node == node then kept else kept + [all[seen]])
      && kept + all[seen..] == (kept + [all[seen]]) + all[seen + 1..]
  {
    assert all[..seen + 1][..seen] == all[..seen];
    assert WithoutNode(all[..seen], node) + [] == WithoutNode(all[..seen], node);
  }

  /** The jobs an agent waits for. */
  class JobTrackers {
    var tracked: seq<Tracker>

    /** agent_track_job */
    method Track(path: CString, id: nat)
      modifies this
      ensures tracked == [Tracker(path, id)] + old(tracked)
    {
      tracked := [Tracker(path, id)] + tracked;
    }

    /** agent_match_job_removed: the job to report as done, if one was tracked. */
    method Removed(path: CString) returns (done: Option<nat>)
      modifies this
      ensures var k := TrackerAt(old(tracked), path);
        if k < |old(tracked)| then tracked == RemoveAt(old(tracked), k) && done == Some(old(tracked)[k].id)
        else tracked == old(tracked) && done == None
    {
      var k := 0;
      while k < |tracked| && tracked[k].path != path
        invariant k <= |tracked| && forall j :: 0 <= j < k ==> tracked[j].path != path
      {
        k := k + 1;
      }
      assert k == TrackerAt(tracked, path);
      if k < |tracked| {
        done := Some(tracked[k].id);
        tracked := RemoveAt(tracked, k);
      } else {
        done := None;
      }
    }
  }
}
