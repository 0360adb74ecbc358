/** Which code NetSocketHandler runs for a state, an event source and an event
    type (socket.cpp).

    The three `NetFsmBad*` macros only print, and no arm of the nested switches
    ends in `break`.  An unexpected event therefore falls into the code below it:
    first into the remaining sources of the same state, then into the next state
    of the text.  The functions below follow the text, one per state. */
module SocketFsm {

  // Sources and types share the plain integers of the headers.
  const ACTION := -2
  const START := -2

  const IDLE := 1
  const STARTING := 2
  const BEING_ACCEPTED := 3
  const ACCEPTED := 4
  const CONNECTING := 5
  const ACTIVE := 6
  const REMOVING_FD := 7
  const DONE := 8
  const LISTENING := 9
  const ACCEPTING := 10
  const CANCELLING := 11
  const STOPPING := 12
  const STOPPING_ACCEPT := 13
  const ACCEPTING_ERROR := 14

  const ACT_ACCEPT := 1
  const ACT_BEING_ACCEPTED := 2
  const ACT_CANCEL := 3
  const ACT_LISTEN := 4
  const ACT_CONNECT := 5
  const ACT_ACTIVATE := 6
  const ACT_DONE := 7
  const ACT_ERROR := 8
  const ACT_STARTED := 9

  const SRC_FD := 1
  const SRC_TASK_CONNECTING := 2
  const SRC_TASK_CONNECTED := 3
  const SRC_TASK_ACCEPT := 4
  const SRC_TASK_SEND := 5
  const SRC_TASK_RECV := 6
  const SRC_TASK_STOP := 7

  const FD_IN := 1
  const FD_OUT := 2
  const FD_ERR := 3
  const EXECUTE := 1

  /** The pieces of code that end in `return`. */
  datatype Arm =
    | DoStart | DoListen | DoConnect | DoBeingAccepted | DoStarted
    | PartnerAccepted | DoActivate
    | ConnectedNow | ConnectFailed | ConnectReady | FdBroken
    | Receive | Send | FailActive | RemoveFd
    | DoAccept | AcceptDone | AcceptCancel | AcceptNow | StopAccepting
    | Ignore
    | FellOff

  /** Code that only the closing of sockets is meant to reach. */
  predicate Teardown(arm: Arm) {
    || arm == PartnerAccepted || arm == FailActive || arm == RemoveFd || arm == AcceptCancel
    || arm == StopAccepting || arm == FellOff
  }

  /** The arm that runs in the end, and how many complaints were printed on the way. */
  datatype Dispatched = Dispatched(arm: Arm, bad: nat)

  /** The arm stays within its own socket. */
  predicate Alone(d: Dispatched) {
    d.arm != AcceptNow && d.arm != StopAccepting
  }

  function Run(arm: Arm): Dispatched {
    Dispatched(arm, 0)
  }

  function After(bad: nat, d: Dispatched): Dispatched {
    d.(bad := d.bad + bad)
  }

  function Dispatch(state: int, src: int, typ: int): Dispatched {
    if state == IDLE then IdleCase(src, typ)
    else if state == STARTING then StartingCase(src, typ)
    else if state == BEING_ACCEPTED then BeingAcceptedCase(src, typ)
    else if state == ACCEPTED then AcceptedCase(src, typ)
    else if state == CONNECTING then ConnectingCase(src, typ)
    else if state == ACTIVE then ActiveCase(src, typ)
    else if state == REMOVING_FD then RemovingFdCase(src, typ)
    else if state == DONE then Run(Ignore)
    else if state == LISTENING then ListeningCase(src, typ)
    else if state == ACCEPTING then AcceptingCase(src, typ)
    else if state == ACCEPTING_ERROR then AcceptingErrorCase(src, typ)
    else if state == CANCELLING then CancellingCase(src, typ)
    else InvalidCase()
  }

  // Falling through the states of a connection never reaches a listener's code:
  // Done, in between, returns.

  function IdleCase(src: int, typ: int): (d: Dispatched)
    ensures Alone(d)
  {
    if src == ACTION then
      if typ == START then Run(DoStart) else After(2, StartingCase(src, typ))
    else After(1, StartingCase(src, typ))
  }

  function StartingCase(src: int, typ: int): (d: Dispatched)
    ensures Alone(d)
  {
    if src == ACTION then
      if typ == ACT_LISTEN then Run(DoListen)
      else if typ == ACT_CONNECT then Run(DoConnect)
      else if typ == ACT_BEING_ACCEPTED then Run(DoBeingAccepted)
      else if typ == ACT_STARTED then Run(DoStarted)
      else After(2, BeingAcceptedCase(src, typ))
    else After(1, BeingAcceptedCase(src, typ))
  }

  function BeingAcceptedCase(src: int, typ: int): (d: Dispatched)
    ensures Alone(d)
  {
    if src == ACTION then
      if typ == ACT_DONE then Run(PartnerAccepted) else After(2, AcceptedCase(src, typ))
    else After(1, AcceptedCase(src, typ))
  }

  function AcceptedCase(src: int, typ: int): (d: Dispatched)
    ensures Alone(d)
  {
    if src == ACTION then
      if typ == ACT_ACTIVATE then Run(DoActivate) else After(2, ConnectingCase(src, typ))
    else After(1, ConnectingCase(src, typ))
  }

  function ConnectingCase(src: int, typ: int): (d: Dispatched)
    ensures Alone(d)
  {
    if src == ACTION then
      if typ == ACT_DONE then Run(ConnectedNow)
      else if typ == ACT_ERROR then Run(ConnectFailed)
      else After(1, ConnectingFd(src, typ))
    else if src == SRC_FD then ConnectingFd(src, typ)
    else After(1, ActiveCase(src, typ))
  }

  function ConnectingFd(src: int, typ: int): (d: Dispatched)
    ensures Alone(d)
  {
    if typ == FD_OUT then Run(ConnectReady)
    else if typ == FD_ERR then Run(FdBroken)
    else After(2, ActiveCase(src, typ))
  }

  function ActiveCase(src: int, typ: int): (d: Dispatched)
    ensures Alone(d)
  {
    if src == SRC_FD then
      if typ == FD_IN then Run(Receive)
      else if typ == FD_OUT then Run(Send)
      else if typ == FD_ERR then Run(FdBroken)
      else After(1, ActiveAction(src, typ))
    else if src == ACTION then ActiveAction(src, typ)
    else After(1, RemovingFdCase(src, typ))
  }

  function ActiveAction(src: int, typ: int): (d: Dispatched)
    ensures Alone(d)
  {
    if typ == ACT_ERROR then Run(FailActive) else After(2, RemovingFdCase(src, typ))
  }

  function RemovingFdCase(src: int, typ: int): (d: Dispatched)
    ensures Alone(d)
  {
    if src == SRC_TASK_STOP then
      if typ == EXECUTE then Run(RemoveFd) else After(1, Run(Ignore))
    else if src == SRC_FD then Run(Ignore)
    else if src == ACTION then
      if typ == ACT_ERROR then Run(Ignore) else After(2, Run(Ignore))   // falls into Done, which returns
    else After(1, Run(Ignore))
  }

  function ListeningCase(src: int, typ: int): Dispatched {
    if src == ACTION then
      if typ == ACT_ACCEPT then Run(DoAccept) else After(2, AcceptingCase(src, typ))
    else After(1, AcceptingCase(src, typ))
  }

  function AcceptingCase(src: int, typ: int): Dispatched {
    if src == ACTION then
      if typ == ACT_DONE then Run(AcceptDone)
      else if typ == ACT_CANCEL then Run(AcceptCancel)
      else After(1, AcceptingFd(src, typ))
    else if src == SRC_FD then AcceptingFd(src, typ)
    else After(1, AcceptingErrorCase(src, typ))
  }

  function AcceptingFd(src: int, typ: int): Dispatched {
    if typ == FD_IN then Run(AcceptNow) else After(2, AcceptingErrorCase(src, typ))
  }

  function AcceptingErrorCase(src: int, typ: int): Dispatched {
    if src == ACTION then
      if typ == ACT_ACCEPT then Run(DoAccept) else After(2, CancellingCase(src, typ))
    else After(1, CancellingCase(src, typ))
  }

  function CancellingCase(src: int, typ: int): Dispatched {
    if src == SRC_TASK_STOP then
      if typ == EXECUTE then Run(StopAccepting) else After(1, CancellingFd(src, typ))
    else if src == SRC_FD then CancellingFd(src, typ)
    else After(1, InvalidCase())
  }

  function CancellingFd(src: int, typ: int): Dispatched {
    if typ == FD_IN then Run(Ignore) else After(2, InvalidCase())
  }

  function InvalidCase(): Dispatched {
    Dispatched(FellOff, 1)
  }

  /** The transition table the handler is meant to implement, written without
      regard to the order of the text. */
  predicate Expected(state: int, src: int, typ: int) {
    || (state == IDLE && src == ACTION && typ == START)
    || (state == STARTING && src == ACTION && (typ == ACT_LISTEN || typ == ACT_CONNECT || typ == ACT_BEING_ACCEPTED
        || typ == ACT_STARTED))
    || (state == BEING_ACCEPTED && src == ACTION && typ == ACT_DONE)
    || (state == ACCEPTED && src == ACTION && typ == ACT_ACTIVATE)
    || (state == CONNECTING && src == ACTION && (typ == ACT_DONE || typ == ACT_ERROR))
    || (state == CONNECTING && src == SRC_FD && (typ == FD_OUT || typ == FD_ERR))
    || (state == ACTIVE && src == SRC_FD && (typ == FD_IN || typ == FD_OUT || typ == FD_ERR))
    || ((state == ACTIVE || state == REMOVING_FD) && src == ACTION && typ == ACT_ERROR)
    || (state == REMOVING_FD && src == SRC_FD)
    || ((state == REMOVING_FD || state == CANCELLING) && src == SRC_TASK_STOP && typ == EXECUTE)
    || state == DONE
    || ((state == LISTENING || state == ACCEPTING_ERROR) && src == ACTION && typ == ACT_ACCEPT)
    || (state == ACCEPTING && src == ACTION && (typ == ACT_DONE || typ == ACT_CANCEL))
    || ((state == ACCEPTING || state == CANCELLING) && src == SRC_FD && typ == FD_IN)
  }

  /** The source complains exactly about the events outside the table, whatever
      integers are fed to it. */
  lemma BadIffUnexpected(state: int, src: int, typ: int)
    ensures Dispatch(state, src, typ).bad > 0 <==> !Expected(state, src, typ)
  {
  }

  // ---- The text as data ----

  /** One `case` of the switch over the type, which returns; Always stands for a section
      without such a switch. */
  datatype Case = On(typ: int, arm: Arm) | Always(arm: Arm)

  /** One `case` of the switch over the source. */
  datatype Section = Section(src: int, cases: seq<Case>)

  /** The states in the order of the text. */
  const ORDER: seq<int> :=
    [IDLE, STARTING, BEING_ACCEPTED, ACCEPTED, CONNECTING, ACTIVE, REMOVING_FD, DONE, LISTENING, ACCEPTING,
     ACCEPTING_ERROR, CANCELLING]

  /** The sections of one state, in the order of the text; Done has none, it returns at once. */
  function Text(state: int): seq<Section> {
    if state == IDLE then [Section(ACTION, [On(START, DoStart)])]
    else if state == STARTING then
      [Section(ACTION, [On(ACT_LISTEN, DoListen), On(ACT_CONNECT, DoConnect), On(ACT_BEING_ACCEPTED, DoBeingAccepted),
                        On(ACT_STARTED, DoStarted)])]
    else if state == BEING_ACCEPTED then [Section(ACTION, [On(ACT_DONE, PartnerAccepted)])]
    else if state == ACCEPTED then [Section(ACTION, [On(ACT_ACTIVATE, DoActivate)])]
    else if state == CONNECTING then
      [Section(ACTION, [On(ACT_DONE, ConnectedNow), On(ACT_ERROR, ConnectFailed)]),
       Section(SRC_FD, [On(FD_OUT, ConnectReady), On(FD_ERR, FdBroken)])]
    else if state == ACTIVE then
      [Section(SRC_FD, [On(FD_IN, Receive), On(FD_OUT, Send), On(FD_ERR, FdBroken)]),
       Section(ACTION, [On(ACT_ERROR, FailActive)])]
    else if state == REMOVING_FD then
      [Section(SRC_TASK_STOP, [On(EXECUTE, RemoveFd)]), Section(SRC_FD, [Always(Ignore)]),
       Section(ACTION, [On(ACT_ERROR, Ignore)])]
    else if state == LISTENING then [Section(ACTION, [On(ACT_ACCEPT, DoAccept)])]
    else if state == ACCEPTING then
      [Section(ACTION, [On(ACT_DONE, AcceptDone), On(ACT_CANCEL, AcceptCancel)]),
       Section(SRC_FD, [On(FD_IN, AcceptNow)])]
    else if state == ACCEPTING_ERROR then [Section(ACTION, [On(ACT_ACCEPT, DoAccept)])]
    else if state == CANCELLING then
      [Section(SRC_TASK_STOP, [On(EXECUTE, StopAccepting)]), Section(SRC_FD, [On(FD_IN, Ignore)])]
    else []
  }

  datatype Reached = Returns(arm: Arm) | Leaves

  /** A switch over the type. */
  function Select(cases: seq<Case>, typ: int): Reached {
    if cases == [] then Leaves
    else if cases[0].Always? || cases[0].typ == typ then Returns(cases[0].arm)
    else Select(cases[1..], typ)
  }

  /** The code of one state from a section on: what is not returned from complains and
      runs into the next section, whatever its source, and in the end into the default
      one, which complains as well. */
  function Sections(sections: seq<Section>, typ: int, next: Dispatched): Dispatched {
    if sections == [] then After(1, next)
    else
      match Select(sections[0].cases, typ)
      case Returns(arm) => Run(arm)
      case Leaves => After(1, Sections(sections[1..], typ, next))
  }

  /** A switch over the source. */
  function From(sections: seq<Section>, src: int): seq<Section> {
    if sections == [] || sections[0].src == src then sections else From(sections[1..], src)
  }

  /** The switch over the state, from the n-th one of the text on. */
  function States(n: nat, src: int, typ: int): Dispatched
    requires n <= |ORDER|
    decreases |ORDER| - n
  {
    if n == |ORDER| then Dispatched(FellOff, 1)
    else if ORDER[n] == DONE then Run(Ignore)
    else Sections(From(Text(ORDER[n]), src), typ, States(n + 1, src, typ))
  }

  function Pick(c: Case, typ: int, other: Reached): Reached {
    if c.Always? || c.typ == typ then Returns(c.arm) else other
  }

  lemma SelectOf(a: Case, rest: seq<Case>, typ: int)
    ensures Select([a] + rest, typ) == Pick(a, typ, Select(rest, typ))
  {
    assert ([a] + rest)[1..] == rest;
  }

  lemma SelectTwo(a: Case, b: Case, typ: int)
    ensures Select([a], typ) == Pick(a, typ, Leaves)
    ensures Select([a, b], typ) == Pick(a, typ, Pick(b, typ, Leaves))
  {
    SelectOf(a, [b], typ);
    assert [a] + [b] == [a, b];
  }

  lemma SelectMore(a: Case, b: Case, c: Case, d: Case, typ: int)
    ensures Select([a, b, c], typ) == Pick(a, typ, Pick(b, typ, Pick(c, typ, Leaves)))
    ensures Select([a, b, c, d], typ) == Pick(a, typ, Pick(b, typ, Pick(c, typ, Pick(d, typ, Leaves))))
  {
    SelectTwo(b, c, typ);
    SelectTwo(c, d, typ);
    SelectOf(a, [b, c], typ);
    SelectOf(b, [c, d], typ);
    SelectOf(a, [b, c, d], typ);
    assert [a] + [b, c] == [a, b, c] && [b] + [c, d] == [b, c, d] && [a] + [b, c, d] == [a, b, c, d];
  }

  function Go(r: Reached, other: Dispatched): Dispatched {
    if r.Returns? then Run(r.arm) else After(1, other)
  }

  lemma SectionOf(a: Section, rest: seq<Section>, src: int, typ: int, next: Dispatched)
    ensures Sections([a] + rest, typ, next) == Go(Select(a.cases, typ), Sections(rest, typ, next))
    ensures From([a] + rest, src) == if a.src == src then [a] + rest else From(rest, src)
  {
    assert ([a] + rest)[1..] == rest;
  }

  lemma OneSection(a: Section, src: int, typ: int, next: Dispatched)
    ensures Sections([a], typ, next) == Go(Select(a.cases, typ), After(1, next))
    ensures Sections(From([a], src), typ, next) ==
            if a.src == src then Go(Select(a.cases, typ), After(1, next)) else After(1, next)
  {
    SectionOf(a, [], src, typ, next);
    assert [a] + [] == [a];
  }

  lemma TwoSections(a: Section, b: Section, src: int, typ: int, next: Dispatched)
    ensures Sections([a, b], typ, next) ==
            Go(Select(a.cases, typ), Go(Select(b.cases, typ), After(1, next)))
    ensures Sections(From([a, b], src), typ, next) ==
            if a.src == src then Go(Select(a.cases, typ), Go(Select(b.cases, typ), After(1, next)))
            else if b.src == src then Go(Select(b.cases, typ), After(1, next)) else After(1, next)
  {
    OneSection(b, src, typ, next);
    SectionOf(a, [b], src, typ, next);
    assert [a] + [b] == [a, b];
  }

  lemma ThreeSections(a: Section, b: Section, c: Section, src: int, typ: int, next: Dispatched)
    ensures Sections(From([a, b, c], src), typ, next) ==
            if a.src == src then
              Go(Select(a.cases, typ), Go(Select(b.cases, typ), Go(Select(c.cases, typ), After(1, next))))
            else Sections(From([b, c], src), typ, next)
  {
    TwoSections(b, c, src, typ, next);
    SectionOf(a, [b, c], src, typ, next);
    assert [a] + [b, c] == [a, b, c];
  }

  /** The code of the states, one by one, from the last one of the text to the first. */
  lemma SimpleStates(src: int, typ: int, next: Dispatched)
    ensures Sections(From(Text(ACCEPTING_ERROR), src), typ, next) ==
            if src == ACTION && typ == ACT_ACCEPT then Run(DoAccept) else After(if src == ACTION then 2 else 1, next)
    ensures Sections(From(Text(LISTENING), src), typ, next) ==
            if src == ACTION && typ == ACT_ACCEPT then Run(DoAccept) else After(if src == ACTION then 2 else 1, next)
    ensures Sections(From(Text(ACCEPTED), src), typ, next) ==
            if src == ACTION && typ == ACT_ACTIVATE then Run(DoActivate)
            else After(if src == ACTION then 2 else 1, next)
    ensures Sections(From(Text(BEING_ACCEPTED), src), typ, next) ==
            if src == ACTION && typ == ACT_DONE then Run(PartnerAccepted)
            else After(if src == ACTION then 2 else 1, next)
    ensures Sections(From(Text(IDLE), src), typ, next) ==
            if src == ACTION && typ == START then Run(DoStart) else After(if src == ACTION then 2 else 1, next)
  {
    hide Select, Sections, From;
    forall c: Case ensures Sections(From([Section(ACTION, [c])], src), typ, next) ==
                           if src == ACTION then Go(Pick(c, typ, Leaves), After(1, next)) else After(1, next) {
      SelectTwo(c, c, typ);
      OneSection(Section(ACTION, [c]), src, typ, next);
    }
  }

  lemma CancellingText(src: int, typ: int)
    ensures Sections(From(Text(CANCELLING), src), typ, InvalidCase()) == CancellingCase(src, typ)
  {
    var t := Text(CANCELLING);
    assert t == [t[0], t[1]];
    SelectTwo(On(EXECUTE, StopAccepting), On(EXECUTE, StopAccepting), typ);
    SelectTwo(On(FD_IN, Ignore), On(FD_IN, Ignore), typ);
    TwoSections(t[0], t[1], src, typ, InvalidCase());
    hide Select, Sections, From;
  }

  lemma AcceptingText(src: int, typ: int)
    ensures Sections(From(Text(ACCEPTING), src), typ, AcceptingErrorCase(src, typ)) == AcceptingCase(src, typ)
  {
    var t := Text(ACCEPTING);
    assert t == [t[0], t[1]];
    SelectTwo(On(ACT_DONE, AcceptDone), On(ACT_CANCEL, AcceptCancel), typ);
    SelectTwo(On(FD_IN, AcceptNow), On(FD_IN, AcceptNow), typ);
    TwoSections(t[0], t[1], src, typ, AcceptingErrorCase(src, typ));
    hide Select, Sections, From, AcceptingErrorCase;
  }

  lemma RemovingText(src: int, typ: int)
    ensures Sections(From(Text(REMOVING_FD), src), typ, Run(Ignore)) == RemovingFdCase(src, typ)
  {
    var t := Text(REMOVING_FD);
    assert t == [t[0], t[1], t[2]];
    SelectTwo(On(EXECUTE, RemoveFd), On(EXECUTE, RemoveFd), typ);
    SelectTwo(Always(Ignore), Always(Ignore), typ);
    SelectTwo(On(ACT_ERROR, Ignore), On(ACT_ERROR, Ignore), typ);
    TwoSections(t[1], t[2], src, typ, Run(Ignore));
    ThreeSections(t[0], t[1], t[2], src, typ, Run(Ignore));
    hide Select, Sections, From;
  }

  lemma ActiveSelects(typ: int)
    ensures Select(Text(ACTIVE)[0].cases, typ) ==
            if typ == FD_IN then Returns(Receive) else if typ == FD_OUT then Returns(Send)
            else if typ == FD_ERR then Returns(FdBroken) else Leaves
    ensures Select(Text(ACTIVE)[1].cases, typ) == if typ == ACT_ERROR then Returns(FailActive) else Leaves
  {
    SelectMore(On(FD_IN, Receive), On(FD_OUT, Send), On(FD_ERR, FdBroken), On(FD_ERR, FdBroken), typ);
    SelectTwo(On(ACT_ERROR, FailActive), On(ACT_ERROR, FailActive), typ);
    hide Select;
  }

  lemma ActiveText(src: int, typ: int)
    ensures Sections(From(Text(ACTIVE), src), typ, RemovingFdCase(src, typ)) == ActiveCase(src, typ)
  {
    var t := Text(ACTIVE);
    assert t == [t[0], t[1]];
    ActiveSelects(typ);
    TwoSections(t[0], t[1], src, typ, RemovingFdCase(src, typ));
    hide Select, Sections, From, RemovingFdCase;
  }

  lemma ConnectingText(src: int, typ: int)
    ensures Sections(From(Text(CONNECTING), src), typ, ActiveCase(src, typ)) == ConnectingCase(src, typ)
  {
    var t := Text(CONNECTING);
    assert t == [t[0], t[1]];
    SelectTwo(On(ACT_DONE, ConnectedNow), On(ACT_ERROR, ConnectFailed), typ);
    SelectTwo(On(FD_OUT, ConnectReady), On(FD_ERR, FdBroken), typ);
    TwoSections(t[0], t[1], src, typ, ActiveCase(src, typ));
    hide Select, Sections, From, ActiveCase;
  }

  lemma StartingText(src: int, typ: int)
    ensures Sections(From(Text(STARTING), src), typ, BeingAcceptedCase(src, typ)) == StartingCase(src, typ)
  {
    var t := Text(STARTING)[0];
    assert Text(STARTING) == [t];
    SelectMore(t.cases[0], t.cases[1], t.cases[2], t.cases[3], typ);
    assert t.cases == [t.cases[0], t.cases[1], t.cases[2], t.cases[3]];
    OneSection(t, src, typ, BeingAcceptedCase(src, typ));
    hide Select, Sections, From, BeingAcceptedCase;
  }

  lemma StateOf(n: nat, src: int, typ: int)
    requires n < |ORDER| && ORDER[n] != DONE
    ensures States(n, src, typ) == Sections(From(Text(ORDER[n]), src), typ, States(n + 1, src, typ))
  {
  }

  lemma ConnectionStates(src: int, typ: int)
    ensures States(6, src, typ) == RemovingFdCase(src, typ)
    ensures States(5, src, typ) == ActiveCase(src, typ)
    ensures States(4, src, typ) == ConnectingCase(src, typ)
    ensures States(3, src, typ) == AcceptedCase(src, typ)
    ensures States(2, src, typ) == BeingAcceptedCase(src, typ)
    ensures States(1, src, typ) == StartingCase(src, typ)
    ensures States(0, src, typ) == IdleCase(src, typ)
  {
    assert States(7, src, typ) == Run(Ignore);
    StateOf(6, src, typ);
    StateOf(5, src, typ);
    StateOf(4, src, typ);
    StateOf(3, src, typ);
    StateOf(2, src, typ);
    StateOf(1, src, typ);
    StateOf(0, src, typ);
    RemovingText(src, typ);
    ActiveText(src, typ);
    ConnectingText(src, typ);
    SimpleStates(src, typ, ConnectingCase(src, typ));
    SimpleStates(src, typ, AcceptedCase(src, typ));
    StartingText(src, typ);
    SimpleStates(src, typ, StartingCase(src, typ));
    hide States, Sections, From, Text, RemovingFdCase, ActiveCase, ConnectingCase, StartingCase;
  }

  lemma ListenerStates(src: int, typ: int)
    ensures States(12, src, typ) == InvalidCase() && States(7, src, typ) == Run(Ignore)
    ensures States(11, src, typ) == CancellingCase(src, typ)
    ensures States(10, src, typ) == AcceptingErrorCase(src, typ)
    ensures States(9, src, typ) == AcceptingCase(src, typ)
    ensures States(8, src, typ) == ListeningCase(src, typ)
  {
    assert States(12, src, typ) == InvalidCase() && States(7, src, typ) == Run(Ignore);
    StateOf(11, src, typ);
    StateOf(10, src, typ);
    StateOf(9, src, typ);
    StateOf(8, src, typ);
    CancellingText(src, typ);
    SimpleStates(src, typ, CancellingCase(src, typ));
    AcceptingText(src, typ);
    SimpleStates(src, typ, AcceptingCase(src, typ));
    hide States, Sections, From, Text, CancellingCase, AcceptingCase;
  }

  /** What runs, and how often it complains on the way, for any event in any state is
      what C's rules for nested switches without `break` make of that text. */
  lemma DispatchIsSwitch(n: nat, src: int, typ: int)
    requires n < |ORDER|
    ensures Dispatch(ORDER[n], src, typ) == States(n, src, typ)
  {
    ListenerStates(src, typ);
    ConnectionStates(src, typ);
    hide States, IdleCase, StartingCase, BeingAcceptedCase, AcceptedCase, ConnectingCase, ActiveCase, RemovingFdCase,
        ListeningCase, AcceptingCase, AcceptingErrorCase, CancellingCase;
  }

  /** A state without a case only complains. */
  lemma OutOfOrder(state: int, src: int, typ: int)
    requires forall n :: 0 <= n < |ORDER| ==> state != ORDER[n]
    ensures Dispatch(state, src, typ) == Dispatched(FellOff, 1)
  {
    assert state != ORDER[0] && state != ORDER[1] && state != ORDER[2] && state != ORDER[3];
    assert state != ORDER[4] && state != ORDER[5] && state != ORDER[6] && state != ORDER[7];
    assert state != ORDER[8] && state != ORDER[9] && state != ORDER[10] && state != ORDER[11];
    hide IdleCase, StartingCase, BeingAcceptedCase, AcceptedCase, ConnectingCase, ActiveCase, RemovingFdCase,
        ListeningCase, AcceptingCase, AcceptingErrorCase, CancellingCase;
  }

  /** Falling through is not harmless.  A socket whose Start failed is still Idle
      when the device connects it: two complaints, and then it is connecting. */
  lemma ConnectWithoutStart()
    ensures Dispatch(IDLE, ACTION, ACT_CONNECT) == Dispatched(DoConnect, 2)
  {
  }

  /** Action codes and descriptor events share their numbers, so an unexpected
      action can run the code for a descriptor event. */
  lemma CollidingCodes()
    ensures Dispatch(CONNECTING, ACTION, ACT_BEING_ACCEPTED) == Dispatched(ConnectReady, 1)
    ensures Dispatch(ACCEPTING, ACTION, ACT_ACCEPT) == Dispatched(AcceptNow, 1)
  {
    assert ConnectingFd(ACTION, ACT_BEING_ACCEPTED) == Run(ConnectReady);
    assert ConnectingCase(ACTION, ACT_BEING_ACCEPTED) == After(1, Run(ConnectReady));
    assert AcceptingFd(ACTION, ACT_ACCEPT) == Run(AcceptNow);
    assert AcceptingCase(ACTION, ACT_ACCEPT) == After(1, Run(AcceptNow));
  }
}
