/** Connections of agents, from being accepted without a name to being held by the node that
    registered, and the counters behind the status of the whole system. */
module Registration {
  import opened CStrings
  import opened Sequences

  datatype Status = SystemDown | Degraded | SystemUp

  datatype Answer = NoSuchMethod | UnknownName | WrongContext | AlreadyConnected | Registered

  datatype Named = Named(name: CString, required: Option<CString>, bus: Option<nat>)

  /** An accepted connection has the security context of its peer, if it has one. */
  datatype Anonymous = Anonymous(bus: Option<nat>, context: Option<CString>)

  /** `total` and `online` are the counters number_of_nodes and number_of_nodes_online.
      `open` is the environment's side: the connections that were accepted and not yet lost. */
  datatype Registry = Registry(
    named: seq<Named>, anonymous: seq<Anonymous>, total: int, online: int,
    buses: nat, open: set<nat>, emitted: seq<Status>, answers: seq<Answer>)

  /** A section of the configuration for one node: whether it may connect, and with what context. */
  datatype Section = Section(name: CString, allowed: bool, required: Option<CString>)

  /** The names of AllowedNodeNames, and the sections in the order the table of options gives them. */
  datatype NodeConfig = NodeConfig(expected: seq<CString>, sections: seq<Section>)

  datatype Step =
    | Accepted(context: Option<CString>)
    | Register(bus: nat, name: CString)
    | Disconnected(bus: nat)

  // ---------------------------------------------------------------- system status

  function StatusOf(online: int, total: int): Status {
    if online == 0 then SystemDown else if online == total then SystemUp else Degraded
  }

  /** The value of each Status signal is the one current at that moment. */
  function CheckStatus(r: Registry, prev: int): Registry {
    var diff := r.online - prev;
    if prev == 0 || prev == r.total || prev + diff == r.total || prev + diff == 0
    then r.(emitted := r.emitted + [StatusOf(r.online, r.total)])
    else r
  }

  // ---------------------------------------------------------------- nodes

  function NamedAt(named: seq<Named>, name: CString): (k: nat)
    ensures k <= |named|
    ensures k < |named| ==> named[k].name == name
    ensures forall j :: 0 <= j < k ==> named[j].name != name
  {
    First(named, (x: Named) => x.name == name)
  }

  function NamedHolder(named: seq<Named>, bus: nat): (k: nat)
    ensures k <= |named|
    ensures k < |named| ==> named[k].bus == Some(bus)
    ensures forall j :: 0 <= j < k ==> named[j].bus != Some(bus)
  {
    First(named, HoldsNamed(bus))
  }

  function AnonymousHolder(anonymous: seq<Anonymous>, bus: nat): (k: nat)
    ensures k <= |anonymous|
    ensures k < |anonymous| ==> anonymous[k].bus == Some(bus)
    ensures forall j :: 0 <= j < k ==> anonymous[j].bus != Some(bus)
  {
    First(anonymous, HoldsAnonymous(bus))
  }

  function Added(r: Registry, name: CString, required: Option<CString>): Registry {
    r.(named := r.named + [Named(name, required, None)], total := r.total + 1)
  }

  /** A name that is expected twice is one node. */
  function Expected(names: seq<CString>): Registry {
    if names == [] then Registry([], [], 0, 0, 0, {}, [], [])
    else
      var r, name := Expected(names[..|names| - 1]), names[|names| - 1];
      if NamedAt(r.named, name) < |r.named| then r else Added(r, name, None)
  }

  /** A section makes its node, if there is none and it is marked as allowed, and then says what
      context the node must have. */
  function Sectioned(r: Registry, s: Section): Registry {
    var k := NamedAt(r.named, s.name);
    if k == |r.named| then
      if s.allowed then Added(r, s.name, s.required) else r
    else if s.required.None? then r
    else r.(named := r.named[k := r.named[k].(required := s.required)])
  }

  function WithSections(r: Registry, sections: seq<Section>): Registry {
    if sections == [] then r
    else Sectioned(WithSections(r, sections[..|sections| - 1]), sections[|sections| - 1])
  }

  function Configured(config: NodeConfig): Registry {
    WithSections(Expected(config.expected), config.sections)
  }

  function AcceptedFrom(r: Registry, context: Option<CString>): Registry {
    r.(anonymous := r.anonymous + [Anonymous(Some(r.buses), context)],
       buses := r.buses + 1, open := r.open + {r.buses})
  }

  function AnswerTo(r: Registry, bus: nat, name: CString): Answer {
    var a, k := AnonymousHolder(r.anonymous, bus), NamedAt(r.named, name);
    if a == |r.anonymous| then NoSuchMethod
    else if k == |r.named| then UnknownName
    else if r.named[k].required.Some? && r.anonymous[a].context != r.named[k].required then WrongContext
    else if r.named[k].bus.Some? then AlreadyConnected
    else Registered
  }

  /** The connection moves; the anonymous node stays on its list without it. */
  function RegisteredAs(r: Registry, bus: nat, name: CString): Registry {
    var answer := AnswerTo(r, bus, name);
    var told := r.(answers := r.answers + [answer]);
    if answer != Registered then told
    else
      var a, k := AnonymousHolder(r.anonymous, bus), NamedAt(r.named, name);
      CheckStatus(told.(named := r.named[k := r.named[k].(bus := Some(bus))],
                        anonymous := r.anonymous[a := r.anonymous[a].(bus := None)],
                        online := r.online + 1), r.online)
  }

  function Lost(r: Registry, bus: nat): Registry {
    var closed := r.(open := r.open - {bus});
    var a, k := AnonymousHolder(r.anonymous, bus), NamedHolder(r.named, bus);
    if a < |r.anonymous| then closed.(anonymous := RemoveAt(r.anonymous, a))
    else if k < |r.named| then
      CheckStatus(closed.(named := r.named[k := r.named[k].(bus := None)], online := r.online - 1), r.online)
    else closed
  }

  function After(r: Registry, e: Step): Registry {
    match e
    case Accepted(context) => AcceptedFrom(r, context)
    case Register(bus, name) => RegisteredAs(r, bus, name)
    case Disconnected(bus) => Lost(r, bus)
  }

  predicate Enabled(r: Registry, e: Step) {
    e.Accepted? || e.bus in r.open
  }

  function RunOf(config: NodeConfig, es: seq<Step>): Option<Registry> {
    if es == [] then Some(Configured(config))
    else
      var before, e := RunOf(config, es[..|es| - 1]), es[|es| - 1];
      if before.Some? && Enabled(before.value, e) then Some(After(before.value, e)) else None
  }

  // ---------------------------------------------------------------- the invariant

  function HoldsNamed(bus: nat): Named -> bool { (x: Named) => x.bus == Some(bus) }

  function HoldsAnonymous(bus: nat): Anonymous -> bool { (x: Anonymous) => x.bus == Some(bus) }

  function IsOnline(): Named -> bool { (x: Named) => x.bus.Some? }

  function IsLeftover(): Anonymous -> bool { (x: Anonymous) => x.bus.None? }

  function IsSuccess(): Answer -> bool { (x: Answer) => x == Registered }

  /** The nodes that hold the connection. */
  function Holders(r: Registry, bus: nat): nat {
    Tally(r.named, HoldsNamed(bus)) + Tally(r.anonymous, HoldsAnonymous(bus))
  }

  function LastStatus(emitted: seq<Status>): Status {
    if emitted == [] then SystemDown else emitted[|emitted| - 1]
  }

  ghost predicate UniqueNames(named: seq<Named>) {
    forall i, j :: 0 <= i < j < |named| ==> named[i].name != named[j].name
  }

  ghost predicate Inv(r: Registry) {
    && UniqueNames(r.named)
    && r.total == |r.named|
    && r.online == Tally(r.named, IsOnline())
    && (forall bus :: bus in r.open ==> bus < r.buses)
    && (forall bus :: Holders(r, bus) == if bus in r.open then 1 else 0)
    && LastStatus(r.emitted) == StatusOf(r.online, r.total)
    && Tally(r.anonymous, IsLeftover()) == Tally(r.answers, IsSuccess())
  }

  /** A change by one is reported exactly when it changes the status, as long as both counts
      are possible. */
  lemma ReportedExactlyOnChange(r: Registry, prev: int)
    requires 0 <= prev <= r.total && 0 <= r.online <= r.total && (r.online == prev + 1 || r.online == prev - 1)
    ensures |CheckStatus(r, prev).emitted| > |r.emitted| <==> StatusOf(r.online, r.total) != StatusOf(prev, r.total)
    ensures LastStatus(r.emitted) == StatusOf(prev, r.total) ==>
            LastStatus(CheckStatus(r, prev).emitted) == StatusOf(r.online, r.total)
  {
  }

  lemma {:induction false} TallyBound<T(!new)>(s: seq<T>, p: T -> bool)
    ensures Tally(s, p) <= |s|
  {
    if s != [] {
      TallyBound(s[..|s| - 1], p);
    }
  }

  /** Nodes are made, and nobody has connected yet. */
  ghost predicate Fresh(r: Registry) {
    && Inv(r) && r.online == 0 && r.open == {} && r.anonymous == [] && r.buses == 0
    && forall x :: x in r.named ==> x.bus.None?
  }

  lemma AddedKeeps(r: Registry, name: CString, required: Option<CString>)
    requires Fresh(r) && NamedAt(r.named, name) == |r.named|
    ensures Fresh(Added(r, name, required))
  {
    var t, added := Added(r, name, required), Named(name, required, None);
    TallyPush(r.named, added, IsOnline());
    forall bus ensures Holders(t, bus) == 0 {
      TallyPush(r.named, added, HoldsNamed(bus));
      assert Holders(r, bus) == 0;
    }
  }

  lemma RequiredKeeps(r: Registry, k: nat, required: Option<CString>)
    requires Fresh(r) && k < |r.named|
    ensures Fresh(r.(named := r.named[k := r.named[k].(required := required)]))
  {
    var x := r.named[k].(required := required);
    var t := r.(named := r.named[k := x]);
    TallyUpdate(r.named, k, x, IsOnline());
    forall bus ensures Holders(t, bus) == 0 {
      TallyUpdate(r.named, k, x, HoldsNamed(bus));
      assert Holders(r, bus) == 0;
    }
  }

  lemma {:induction false} ExpectedOk(names: seq<CString>)
    ensures Fresh(Expected(names))
  {
    if names != [] {
      var front, last := names[..|names| - 1], names[|names| - 1];
      ExpectedOk(front);
      if NamedAt(Expected(front).named, last) == |Expected(front).named| {
        AddedKeeps(Expected(front), last, None);
      }
    }
  }

  lemma {:induction false} SectionsOk(r: Registry, sections: seq<Section>)
    requires Fresh(r)
    ensures Fresh(WithSections(r, sections))
  {
    if sections != [] {
      var before, s := WithSections(r, sections[..|sections| - 1]), sections[|sections| - 1];
      SectionsOk(r, sections[..|sections| - 1]);
      var k := NamedAt(before.named, s.name);
      if k < |before.named| {
        RequiredKeeps(before, k, s.required);
      } else {
        AddedKeeps(before, s.name, s.required);
      }
    }
  }

  lemma ConfiguredOk(config: NodeConfig)
    ensures Fresh(Configured(config))
  {
    ExpectedOk(config.expected);
    SectionsOk(Expected(config.expected), config.sections);
  }

  ghost predicate HasNode(r: Registry, name: CString) {
    exists k :: 0 <= k < |r.named| && r.named[k].name == name
  }

  lemma AddedNode(r: Registry, name: CString, required: Option<CString>, n: CString)
    ensures HasNode(Added(r, name, required), n) <==> HasNode(r, n) || n == name
  {
    var t := Added(r, name, required);
    assert t.named[|r.named|].name == name;
    assert forall k :: 0 <= k < |r.named| ==> t.named[k] == r.named[k];
  }

  lemma {:induction false} ExpectedNames(names: seq<CString>, name: CString)
    ensures HasNode(Expected(names), name) <==> name in names
    ensures forall x :: x in Expected(names).named ==> x.required.None?
  {
    if names != [] {
      var front, last := names[..|names| - 1], names[|names| - 1];
      ExpectedNames(front, name);
      assert names == front + [last];
      AddedNode(Expected(front), last, None, name);
    }
  }

  ghost predicate Allows(sections: seq<Section>, name: CString) {
    exists i :: 0 <= i < |sections| && sections[i].name == name && sections[i].allowed
  }

  lemma {:induction false} SectionedNames(r: Registry, sections: seq<Section>, name: CString)
    ensures HasNode(WithSections(r, sections), name) <==> HasNode(r, name) || Allows(sections, name)
  {
    if sections != [] {
      var front, s := sections[..|sections| - 1], sections[|sections| - 1];
      SectionedNames(r, front, name);
      SectionNode(WithSections(r, front), s, name);
      AllowsMore(front, s, name);
      assert sections == front + [s];
    }
  }

  lemma AllowsMore(front: seq<Section>, s: Section, name: CString)
    ensures Allows(front + [s], name) <==> Allows(front, name) || (s.name == name && s.allowed)
  {
    assert (front + [s])[|front|] == s;
    assert forall i :: 0 <= i < |front| ==> (front + [s])[i] == front[i];
  }

  lemma SectionNode(r: Registry, s: Section, name: CString)
    ensures HasNode(Sectioned(r, s), name) <==> HasNode(r, name) || (s.name == name && s.allowed)
  {
    AddedNode(r, s.name, s.required, name);
    var t := Sectioned(r, s);
    if NamedAt(r.named, s.name) < |r.named| {
      assert forall k :: 0 <= k < |r.named| ==> t.named[k].name == r.named[k].name;
    }
  }

  /** There is a node for each expected name and for each section that is marked as allowed, and
      for nobody else, in whatever order the sections come. */
  lemma ConfiguredNames(config: NodeConfig, name: CString)
    ensures (exists k :: 0 <= k < |Configured(config).named| && Configured(config).named[k].name == name) <==>
            name in config.expected
            || exists i :: 0 <= i < |config.sections| && config.sections[i].name == name && config.sections[i].allowed
  {
    ExpectedNames(config.expected, name);
    SectionedNames(Expected(config.expected), config.sections, name);
    assert HasNode(Configured(config), name) <==> name in config.expected || Allows(config.sections, name);
  }

  lemma AcceptedHolders(r: Registry, context: Option<CString>, bus: nat)
    ensures Holders(AcceptedFrom(r, context), bus) == Holders(r, bus) + if bus == r.buses then 1 else 0
  {
    TallyPush(r.anonymous, Anonymous(Some(r.buses), context), HoldsAnonymous(bus));
  }

  lemma AcceptedKeeps(r: Registry, context: Option<CString>)
    requires Inv(r)
    ensures Inv(AcceptedFrom(r, context))
  {
    var t := AcceptedFrom(r, context);
    TallyPush(r.anonymous, Anonymous(Some(r.buses), context), IsLeftover());
    forall bus ensures Holders(t, bus) == if bus in t.open then 1 else 0 {
      AcceptedHolders(r, context, bus);
      assert Holders(r, bus) == if bus in r.open then 1 else 0;
    }
  }

  lemma NobodyElseHolds(r: Registry, bus: nat)
    requires Holders(r, bus) <= 1
    ensures AnonymousHolder(r.anonymous, bus) < |r.anonymous| ==>
      Tally(r.anonymous, HoldsAnonymous(bus)) == 1 && Tally(r.named, HoldsNamed(bus)) == 0
    ensures NamedHolder(r.named, bus) < |r.named| ==>
      Tally(r.named, HoldsNamed(bus)) == 1 && Tally(r.anonymous, HoldsAnonymous(bus)) == 0
  {
    var a, k := AnonymousHolder(r.anonymous, bus), NamedHolder(r.named, bus);
    if a < |r.anonymous| {
      TallyRemove(r.anonymous, a, HoldsAnonymous(bus));
    }
    if k < |r.named| {
      TallyRemove(r.named, k, HoldsNamed(bus));
    }
  }

  lemma MovedHolders(r: Registry, bus: nat, name: CString, b: nat)
    requires AnswerTo(r, bus, name) == Registered
    ensures Holders(RegisteredAs(r, bus, name), b) == Holders(r, b)
  {
    var a, k := AnonymousHolder(r.anonymous, bus), NamedAt(r.named, name);
    TallyUpdate(r.named, k, r.named[k].(bus := Some(bus)), HoldsNamed(b));
    TallyUpdate(r.anonymous, a, r.anonymous[a].(bus := None), HoldsAnonymous(b));
  }

  lemma RegisteredCounts(r: Registry, bus: nat, name: CString)
    requires r.total == |r.named| && r.online == Tally(r.named, IsOnline())
    requires LastStatus(r.emitted) == StatusOf(r.online, r.total)
    requires Tally(r.anonymous, IsLeftover()) == Tally(r.answers, IsSuccess())
    ensures var t := RegisteredAs(r, bus, name);
      && t.total == |t.named| && t.online == Tally(t.named, IsOnline())
      && LastStatus(t.emitted) == StatusOf(t.online, t.total)
      && Tally(t.anonymous, IsLeftover()) == Tally(t.answers, IsSuccess())
  {
    var t, answer := RegisteredAs(r, bus, name), AnswerTo(r, bus, name);
    TallyPush(r.answers, answer, IsSuccess());
    if answer == Registered {
      var a, k := AnonymousHolder(r.anonymous, bus), NamedAt(r.named, name);
      TallyUpdate(r.named, k, r.named[k].(bus := Some(bus)), IsOnline());
      TallyUpdate(r.anonymous, a, r.anonymous[a].(bus := None), IsLeftover());
      TallyBound(t.named, IsOnline());
      ReportedExactlyOnChange(t.(emitted := r.emitted), r.online);
    }
  }

  lemma RegisteredKeeps(r: Registry, bus: nat, name: CString)
    requires Inv(r)
    ensures Inv(RegisteredAs(r, bus, name))
  {
    var t := RegisteredAs(r, bus, name);
    RegisteredCounts(r, bus, name);
    forall b ensures Holders(t, b) == if b in t.open then 1 else 0 {
      if AnswerTo(r, bus, name) == Registered {
        MovedHolders(r, bus, name, b);
      }
      assert Holders(r, b) == if b in r.open then 1 else 0;
    }
  }

  lemma {:induction false} HolderListed(r: Registry, bus: nat)
    requires Holders(r, bus) == 1
    ensures AnonymousHolder(r.anonymous, bus) < |r.anonymous| || NamedHolder(r.named, bus) < |r.named|
  {
    TallyZero(r.named, HoldsNamed(bus));
    TallyZero(r.anonymous, HoldsAnonymous(bus));
  }

  lemma LostHolders(r: Registry, bus: nat, b: nat)
    requires Holders(r, bus) == 1
    ensures Holders(Lost(r, bus), b) == if b == bus then 0 else Holders(r, b)
  {
    HolderListed(r, bus);
    NobodyElseHolds(r, bus);
    var a, k := AnonymousHolder(r.anonymous, bus), NamedHolder(r.named, bus);
    if a < |r.anonymous| {
      TallyRemove(r.anonymous, a, HoldsAnonymous(b));
    } else {
      TallyUpdate(r.named, k, r.named[k].(bus := None), HoldsNamed(b));
    }
  }

  lemma LostCounts(r: Registry, bus: nat)
    requires r.total == |r.named| && r.online == Tally(r.named, IsOnline())
    requires LastStatus(r.emitted) == StatusOf(r.online, r.total)
    requires Tally(r.anonymous, IsLeftover()) == Tally(r.answers, IsSuccess())
    requires AnonymousHolder(r.anonymous, bus) < |r.anonymous| || NamedHolder(r.named, bus) < |r.named|
    ensures var t := Lost(r, bus);
      && t.total == |t.named| && t.online == Tally(t.named, IsOnline())
      && LastStatus(t.emitted) == StatusOf(t.online, t.total)
      && Tally(t.anonymous, IsLeftover()) == Tally(t.answers, IsSuccess())
  {
    var a, k := AnonymousHolder(r.anonymous, bus), NamedHolder(r.named, bus);
    if a < |r.anonymous| {
      TallyRemove(r.anonymous, a, IsLeftover());
    } else {
      TallyUpdate(r.named, k, r.named[k].(bus := None), IsOnline());
      TallyBound(r.named, IsOnline());
      ReportedExactlyOnChange(Lost(r, bus).(emitted := r.emitted), r.online);
    }
  }

  lemma LostKeeps(r: Registry, bus: nat)
    requires Inv(r) && bus in r.open
    ensures Inv(Lost(r, bus))
  {
    var t := Lost(r, bus);
    assert Holders(r, bus) == 1;
    HolderListed(r, bus);
    LostCounts(r, bus);
    forall b ensures Holders(t, b) == if b in t.open then 1 else 0 {
      LostHolders(r, bus, b);
      assert Holders(r, b) == if b in r.open then 1 else 0;
    }
  }

  lemma {:induction false} RunKeeps(config: NodeConfig, es: seq<Step>)
    requires RunOf(config, es).Some?
    ensures Inv(RunOf(config, es).value)
  {
    if es == [] {
      ConfiguredOk(config);
    } else {
      RunKeeps(config, es[..|es| - 1]);
      var r := RunOf(config, es[..|es| - 1]).value;
      match es[|es| - 1]
      case Accepted(context) => AcceptedKeeps(r, context);
      case Register(bus, name) => RegisteredKeeps(r, bus, name);
      case Disconnected(bus) => LostKeeps(r, bus);
    }
  }

  // ---------------------------------------------------------------- over every run

  /** Every open connection is held by exactly one node, a closed one by none. */
  lemma EachConnectionHeldOnce(config: NodeConfig, es: seq<Step>, bus: nat)
    requires RunOf(config, es).Some?
    ensures Holders(RunOf(config, es).value, bus) == if bus in RunOf(config, es).value.open then 1 else 0
  {
    RunKeeps(config, es);
  }

  /** The counters count, and the last reported status is the current one. */
  lemma CountersAgree(config: NodeConfig, es: seq<Step>)
    requires RunOf(config, es).Some?
    ensures var r := RunOf(config, es).value;
      && r.total == |r.named| && r.online == Tally(r.named, IsOnline())
      && 0 <= r.online <= r.total
      && LastStatus(r.emitted) == StatusOf(r.online, r.total)
  {
    RunKeeps(config, es);
    TallyBound(RunOf(config, es).value.named, IsOnline());
  }

  /** Each successful registration leaves an anonymous node without a connection on the list;
      it has no way to be told of a disconnect, and nothing else removes it. */
  lemma LeftoversAreRegistrations(config: NodeConfig, es: seq<Step>)
    requires RunOf(config, es).Some?
    ensures var r := RunOf(config, es).value;
      Tally(r.anonymous, IsLeftover()) == Tally(r.answers, IsSuccess())
  {
    RunKeeps(config, es);
  }

  /** When a connection may take a name: it has none yet, the name is expected, the security
      context fits, and nobody holds the name.  Otherwise no node changes. */
  lemma RegisteredExactly(config: NodeConfig, es: seq<Step>, bus: nat, name: CString)
    requires RunOf(config, es).Some?
    requires bus in RunOf(config, es).value.open
    ensures var r := RunOf(config, es).value;
      var t := RegisteredAs(r, bus, name);
      var k := NamedAt(r.named, name);
      && (AnswerTo(r, bus, name) == Registered <==>
           (forall j :: 0 <= j < |r.named| ==> r.named[j].bus != Some(bus))
           && k < |r.named| && r.named[k].bus == None
           && (r.named[k].required.Some? ==>
                 exists a :: 0 <= a < |r.anonymous| && r.anonymous[a] == Anonymous(Some(bus), r.named[k].required)))
      && (AnswerTo(r, bus, name) == Registered ==>
            forall j :: 0 <= j < |t.named| ==> (t.named[j].bus == Some(bus) <==> j == k))
      && (AnswerTo(r, bus, name) != Registered ==> t.named == r.named && t.anonymous == r.anonymous && t.emitted == r.emitted)
  {
    RunKeeps(config, es);
    var r := RunOf(config, es).value;
    assert Holders(r, bus) == 1;
    HolderListed(r, bus);
    NobodyElseHolds(r, bus);
    TallyZero(r.named, HoldsNamed(bus));
    assert forall j :: 0 <= j < |r.named| ==> r.named[j] in r.named;
    var a := AnonymousHolder(r.anonymous, bus);
    if a < |r.anonymous| {
      OneAnonymousHolder(r.anonymous, bus, a);
    }
  }

  lemma OneAnonymousHolder(anonymous: seq<Anonymous>, bus: nat, a: nat)
    requires a < |anonymous| && anonymous[a].bus == Some(bus) && Tally(anonymous, HoldsAnonymous(bus)) == 1
    ensures forall b :: 0 <= b < |anonymous| && anonymous[b].bus == Some(bus) ==> b == a
  {
    var rest := RemoveAt(anonymous, a);
    TallyRemove(anonymous, a, HoldsAnonymous(bus));
    TallyZero(rest, HoldsAnonymous(bus));
    forall b | 0 <= b < |anonymous| && b != a ensures anonymous[b] in rest {
      assert rest[if b < a then b else b - 1] == anonymous[b];
    }
  }

  /** Why a connection is refused, in the order of the checks. */
  lemma RefusedExactly(config: NodeConfig, es: seq<Step>, bus: nat, name: CString)
    requires RunOf(config, es).Some?
    requires bus in RunOf(config, es).value.open
    ensures var r := RunOf(config, es).value;
      var k, answer := NamedAt(r.named, name), AnswerTo(r, bus, name);
      var named := exists j :: 0 <= j < |r.named| && r.named[j].bus == Some(bus);
      var fits := k < |r.named| && (r.named[k].required.Some? ==>
            exists a :: 0 <= a < |r.anonymous| && r.anonymous[a] == Anonymous(Some(bus), r.named[k].required));
      && (answer == NoSuchMethod <==> named)
      && (answer == UnknownName <==> !named && forall j :: 0 <= j < |r.named| ==> r.named[j].name != name)
      && (answer == WrongContext <==> !named && k < |r.named| && !fits)
      && (answer == AlreadyConnected <==> !named && fits && r.named[k].bus.Some?)
  {
    RunKeeps(config, es);
    var r := RunOf(config, es).value;
    assert Holders(r, bus) == 1;
    HolderListed(r, bus);
    NobodyElseHolds(r, bus);
    TallyZero(r.named, HoldsNamed(bus));
    assert forall j :: 0 <= j < |r.named| ==> r.named[j] in r.named;
    var a := AnonymousHolder(r.anonymous, bus);
    if a < |r.anonymous| {
      OneAnonymousHolder(r.anonymous, bus, a);
    }
  }

  lemma {:induction false} TallyAll<T(!new)>(s: seq<T>, p: T -> bool)
    ensures Tally(s, p) == |s| <==> forall x :: x in s ==> p(x)
  {
    if s != [] {
      var front := s[..|s| - 1];
      TallyAll(front, p);
      TallyBound(front, p);
      assert s == front + [s[|s| - 1]];
    }
  }

  /** What the last reported status says of the nodes: down if none is connected, up if there are
      nodes and all are, degraded if some are and some are not. */
  lemma StatusMeans(config: NodeConfig, es: seq<Step>)
    requires RunOf(config, es).Some?
    ensures var r := RunOf(config, es).value;
      && (LastStatus(r.emitted) == SystemDown <==> forall x :: x in r.named ==> x.bus.None?)
      && (LastStatus(r.emitted) == SystemUp <==> r.named != [] && forall x :: x in r.named ==> x.bus.Some?)
      && (LastStatus(r.emitted) == Degraded <==>
            (exists x :: x in r.named && x.bus.Some?) && exists x :: x in r.named && x.bus.None?)
  {
    RunKeeps(config, es);
    var r := RunOf(config, es).value;
    TallyZero(r.named, IsOnline());
    TallyAll(r.named, IsOnline());
    assert r.named != [] ==> r.named[0] in r.named;
  }

  // ---------------------------------------------------------------- contexts

  /** The security contexts of the accepted connections, in order. */
  function PeerContexts(es: seq<Step>): seq<Option<CString>> {
    if es == [] then []
    else PeerContexts(es[..|es| - 1]) + if es[|es| - 1].Accepted? then [es[|es| - 1].context] else []
  }

  /** Names and required contexts are those of `named`. */
  ghost predicate SameNodes(named: seq<Named>, namedNext: seq<Named>) {
    && |namedNext| == |named|
    && forall k :: 0 <= k < |named| ==> namedNext[k].name == named[k].name && namedNext[k].required == named[k].required
  }

  ghost predicate HoldContexts(anonymous: seq<Anonymous>, contexts: seq<Option<CString>>) {
    forall a :: 0 <= a < |anonymous| && anonymous[a].bus.Some? ==>
      anonymous[a].bus.value < |contexts| && anonymous[a].context == contexts[anonymous[a].bus.value]
  }

  lemma ContextsStep(r: Registry, e: Step, contexts: seq<Option<CString>>)
    requires Enabled(r, e) && HoldContexts(r.anonymous, contexts) && r.buses == |contexts|
    ensures var t := After(r, e);
      && HoldContexts(t.anonymous, contexts + if e.Accepted? then [e.context] else [])
      && t.buses == |contexts| + (if e.Accepted? then 1 else 0)
      && SameNodes(r.named, t.named)
  {
    match e
    case Accepted(context) =>
    case Register(bus, name) => MovedContexts(r, bus, name, contexts);
    case Disconnected(bus) => LostContexts(r, bus, contexts);
  }

  lemma MovedContexts(r: Registry, bus: nat, name: CString, contexts: seq<Option<CString>>)
    requires HoldContexts(r.anonymous, contexts)
    ensures var t := RegisteredAs(r, bus, name);
      HoldContexts(t.anonymous, contexts) && t.buses == r.buses && SameNodes(r.named, t.named)
  {
  }

  lemma LostContexts(r: Registry, bus: nat, contexts: seq<Option<CString>>)
    requires HoldContexts(r.anonymous, contexts)
    ensures var t := Lost(r, bus);
      HoldContexts(t.anonymous, contexts) && t.buses == r.buses && SameNodes(r.named, t.named)
  {
  }

  /** Over every run: an anonymous node has the security context of the peer it was made for, and
      the named nodes keep their names and the contexts they require. */
  lemma {:induction false} ContextsArePeers(config: NodeConfig, es: seq<Step>)
    requires RunOf(config, es).Some?
    ensures var r := RunOf(config, es).value;
      && HoldContexts(r.anonymous, PeerContexts(es)) && r.buses == |PeerContexts(es)|
      && SameNodes(Configured(config).named, r.named)
  {
    if es == [] {
      ConfiguredOk(config);
    } else {
      ContextsArePeers(config, es[..|es| - 1]);
      ContextsStep(RunOf(config, es[..|es| - 1]).value, es[|es| - 1], PeerContexts(es[..|es| - 1]));
    }
  }

  /** The table of options lists each section once. */
  ghost predicate EachOnce(sections: seq<Section>) {
    forall i, j :: 0 <= i < j < |sections| ==> sections[i].name != sections[j].name
  }

  /** The context the section of the node gives, and none if there is no section. */
  ghost predicate AsConfigured(sections: seq<Section>, x: Named) {
    && (forall i :: 0 <= i < |sections| && sections[i].name == x.name ==> x.required == sections[i].required)
    && ((forall i :: 0 <= i < |sections| ==> sections[i].name != x.name) ==> x.required.None?)
  }

  lemma {:induction false} SectionContexts(r: Registry, sections: seq<Section>)
    requires EachOnce(sections) && UniqueNames(r.named) && forall x :: x in r.named ==> x.required.None?
    ensures var t := WithSections(r, sections);
      UniqueNames(t.named) && forall k :: 0 <= k < |t.named| ==> AsConfigured(sections, t.named[k])
  {
    if sections != [] {
      var front := sections[..|sections| - 1];
      SectionContexts(r, front);
      OneMoreSection(WithSections(r, front), front, sections[|sections| - 1]);
      assert sections == front + [sections[|sections| - 1]];
    }
  }

  lemma OneMoreSection(r: Registry, front: seq<Section>, s: Section)
    requires EachOnce(front + [s]) && UniqueNames(r.named)
    requires forall k :: 0 <= k < |r.named| ==> AsConfigured(front, r.named[k])
    ensures var t := Sectioned(r, s);
      UniqueNames(t.named) && forall k :: 0 <= k < |t.named| ==> AsConfigured(front + [s], t.named[k])
  {
    var t := Sectioned(r, s);
    forall i | 0 <= i < |front| ensures front[i].name != s.name {
      assert (front + [s])[i] == front[i] && (front + [s])[|front|] == s;
    }
    assert forall i :: 0 <= i < |front| ==> front[i] == (front + [s])[i];
    assert (front + [s])[|front|] == s;
    forall k | 0 <= k < |t.named| ensures AsConfigured(front + [s], t.named[k]) {
      if t.named[k].name != s.name {
        assert AsConfigured(front, r.named[k]);
      } else if k < |r.named| {
        assert AsConfigured(front, r.named[k]) && r.named[k].name == s.name;
      }
    }
  }

  /** So over every run a node asks for the context that its section gives, and for none if it
      has no section or the section gives none. */
  lemma RequiredIsConfigured(config: NodeConfig, es: seq<Step>, k: nat)
    requires RunOf(config, es).Some? && k < |RunOf(config, es).value.named| && EachOnce(config.sections)
    ensures var x := RunOf(config, es).value.named[k];
      && (forall i :: 0 <= i < |config.sections| && config.sections[i].name == x.name
            ==> x.required == config.sections[i].required)
      && ((forall i :: 0 <= i < |config.sections| ==> config.sections[i].name != x.name) ==> x.required.None?)
  {
    ContextsArePeers(config, es);
    ExpectedOk(config.expected);
    ExpectedNames(config.expected, []);
    SectionContexts(Expected(config.expected), config.sections);
    assert AsConfigured(config.sections, Configured(config).named[k]);
  }

  // ---------------------------------------------------------------- the controller's code

  class Nodes {
    var named: seq<Named>
    var anonymous: seq<Anonymous>
    var total: int
    var online: int
    var buses: nat
    var emitted: seq<Status>
    var answers: seq<Answer>
    ghost var open: set<nat>

    ghost function Value(): Registry
      reads this
    {
      Registry(named, anonymous, total, online, buses, open, emitted, answers)
    }

    /** The part of controller_apply_config that creates the nodes and gives them their contexts. */
    constructor (config: NodeConfig)
      ensures Value() == Configured(config)
    {
      named, anonymous, total, online, buses, emitted, answers, open := [], [], 0, 0, 0, [], [], {};
      new;
      var names := config.expected;
      var i := 0;
      while i < |names|
        invariant i <= |names| && Value() == Expected(names[..i])
      {
        var k := FindNode(names[i]);
        if k == |named| {
          AddNode(names[i]);
        }
        assert names[..i + 1][..i] == names[..i];
        i := i + 1;
      }
      assert names[..|names|] == names;
      ApplySections(config.sections);
    }

    /** The loop over the sections. */
    method ApplySections(sections: seq<Section>)
      modifies this
      ensures Value() == WithSections(old(Value()), sections)
    {
      var i := 0;
      while i < |sections|
        invariant i <= |sections| && Value() == WithSections(old(Value()), sections[..i])
      {
        ApplySection(sections[i]);
        assert sections[..i + 1][..i] == sections[..i];
        i := i + 1;
      }
      assert sections[..|sections|] == sections;
    }

    /** One round of it: a node is found or made, and gets its context. */
    method ApplySection(s: Section)
      modifies this
      ensures Value() == Sectioned(old(Value()), s)
    {
      var k := FindNode(s.name);
      if k == |named| {
        if !s.allowed {
          return;
        }
        AddNode(s.name);
      }
      if s.required.Some? {
        named := named[k := named[k].(required := s.required)];
      }
    }

    /** controller_find_node */
    method FindNode(name: CString) returns (k: nat)
      ensures k == NamedAt(named, name)
    {
      k := 0;
      while k < |named| && named[k].name != name
        invariant k <= |named| && forall j :: 0 <= j < k ==> named[j].name != name
      {
        k := k + 1;
      }
    }

    /** controller_add_node, with a name */
    method AddNode(name: CString)
      modifies this
      ensures Value() == Added(old(Value()), name, None)
    {
      total := total + 1;
      named := named + [Named(name, None, None)];
    }

    /** controller_accept_node_connection */
    method Accept(context: Option<CString>)
      modifies this
      ensures Value() == After(old(Value()), Accepted(context))
    {
      anonymous := anonymous + [Anonymous(Some(buses), context)];
      open := open + {buses};
      buses := buses + 1;
    }

    method CheckSystemStatus(prev: int)
      modifies `emitted
      ensures Value() == CheckStatus(old(Value()), prev)
    {
      var diff := online - prev;
      if prev == 0 || prev == total || prev + diff == total || prev + diff == 0 {
        var status := if online == 0 then SystemDown else if online == total then SystemUp else Degraded;
        emitted := emitted + [status];
      }
    }

    /** node_method_register, called on the anonymous node at `a` */
    method MethodRegister(a: nat, name: CString)
      requires a < |anonymous| && anonymous[a].bus.Some? && a == AnonymousHolder(anonymous, anonymous[a].bus.value)
      modifies this
      ensures Value() == After(old(Value()), Register(old(anonymous)[a].bus.value, name))
    {
      var k := FindNode(name);
      if k == |named| {
        answers := answers + [UnknownName];
        return;
      }
      if named[k].required.Some? && (anonymous[a].context.None? || anonymous[a].context != named[k].required) {
        answers := answers + [WrongContext];
        return;
      }
      if named[k].bus.Some? {
        answers := answers + [AlreadyConnected];
        return;
      }
      named := named[k := named[k].(bus := anonymous[a].bus)];
      anonymous := anonymous[a := anonymous[a].(bus := None)];
      var prev := online;
      online := online + 1;
      CheckSystemStatus(prev);
      answers := answers + [Registered];
    }

    /** node_disconnect of the anonymous node at `a`, with controller_remove_node */
    method AnonymousDisconnected(a: nat)
      requires a < |anonymous| && anonymous[a].bus.Some? && a == AnonymousHolder(anonymous, anonymous[a].bus.value)
      modifies this
      ensures Value() == After(old(Value()), Disconnected(old(anonymous)[a].bus.value))
    {
      open := open - {anonymous[a].bus.value};
      anonymous := RemoveAt(anonymous, a);
    }

    /** node_disconnect of the named node at `k`: what it does to connection and counters */
    method NamedDisconnected(k: nat)
      requires k < |named| && named[k].bus.Some? && k == NamedHolder(named, named[k].bus.value)
      requires AnonymousHolder(anonymous, named[k].bus.value) == |anonymous|
      modifies this
      ensures Value() == After(old(Value()), Disconnected(old(named)[k].bus.value))
    {
      open := open - {named[k].bus.value};
      named := named[k := named[k].(bus := None)];
      var prev := online;
      online := online - 1;
      CheckSystemStatus(prev);
    }
  }
}
