/** The listener's cycle: a listener that waits for a connection gets one, hands it
    to its partner, and waits for the next. */
module EngineLive {
  import opened SocketFsm
  import opened Sequences
  import opened Sockets
  import opened SocketInv
  import opened Engine
  import opened EngineInv
  import opened EngineRuns

  const IN_ONLY := Bits(true, false, false)

  /** Nothing is in anybody's hands, and the listener is polled for its partner p. */
  predicate Awaiting(y: Sys, p: int) {
    && !y.fatal && !y.hijacked && y.driver == LIdle && y.batch == [] && y.ext == []
    && 0 in y.socks && p in y.socks && p != 0
    && var l := y.socks[0];
       && l.st == ACCEPTING && l.asock == Some(p) && l.reg && l.buf == NO_BITS && l.pend == [] && l.work == NoWork
           && !l.locked
  }

  /** What the steps of the cycle look at: listener, partner and the delivering thread. */
  predicate At(y: Sys, p: int, l: Sock, s: Sock, driver: Driver, ext: seq<int>, batch: seq<int>) {
    && Inv(y) && !y.fatal && !y.hijacked && p != 0 && 0 in y.socks && p in y.socks
    && y.socks[0] == l && y.socks[p] == s && y.driver == driver && y.ext == ext && y.batch == batch
  }

  /** Nothing was opened, closed, created, accepted or announced between y and z. */
  predicate SameBooks(y: Sys, z: Sys) {
    y.open == z.open && y.accepts == z.accepts && y.announced == z.announced && y.socks.Keys == z.socks.Keys
  }

  // ---- The steps ----

  lemma ReportStep(z: Sys, p: int, l: Sock, s: Sock)
    requires At(z, p, l, s, LIdle, [], []) && l.reg && l.kernel.rd && l.work == NoWork && l.buf == NO_BITS && !l.locked
    ensures Enabled(z, Wait(0, IN_ONLY)) && SameBooks(z, Do(z, Wait(0, IN_ONLY)))
    ensures Inv(Do(z, Wait(0, IN_ONLY))) ==> At(Do(z, Wait(0, IN_ONLY)), p, l.(buf := IN_ONLY), s, LIdle, [], [])
  {
    hide Inv;
  }

  lemma FetchStep(z: Sys, p: int, l: Sock, s: Sock)
    requires At(z, p, l, s, LIdle, [], []) && l.work == NoWork && l.buf == IN_ONLY && !l.locked
    ensures Enabled(z, Fetch(0)) && SameBooks(z, Do(z, Fetch(0)))
    ensures Inv(Do(z, Fetch(0))) ==> At(Do(z, Fetch(0)), p, l.(buf := NO_BITS, work := RunIo(FD_IN)), s, LIdle, [], [])
  {
    hide Inv;
  }

  lemma AcceptStep(z: Sys, p: int, l: Sock, s: Sock, fd: int)
    requires At(z, p, l, s, LIdle, [], []) && l.st == ACCEPTING && l.asock == Some(p) && l.work == RunIo(FD_IN)
        && !l.locked
    requires fd > 0 && fd !in z.open
    ensures Enabled(z, EnterAccept(Got(fd)))
    ensures var y, r := Do(z, EnterAccept(Got(fd))), AcceptArm(Inside(l), s, fd);
            && (Inv(y) ==> At(y, p, r.0, r.1, LIdle, [p], []))
            && y.accepts == z.accepts + [p] && y.announced == z.announced && y.socks.Keys == z.socks.Keys
  {
    hide SockOk;
    assert Dispatch(ACCEPTING, SRC_FD, FD_IN).arm == AcceptNow;
    assert Enabled(z, EnterAccept(Got(fd)));
    AcceptIs(z, fd);
    hide Inv, Do, Enabled, AcceptArm;
  }

  lemma LeaveStep(z: Sys, p: int, l: Sock, s: Sock, ext: seq<int>)
    requires At(z, p, l, s, LIdle, ext, []) && l.locked && l.events == []
    ensures Enabled(z, Leave(0)) && SameBooks(z, Do(z, Leave(0)))
    ensures Inv(Do(z, Leave(0))) ==> At(Do(z, Leave(0)), p, l.(locked := false), s, LIdle, [], ext)
  {
    hide Dispatch, Inv;
  }

  lemma DeliverSteps(z: Sys, p: int, l: Sock, s: Sock)
    requires At(z, p, l, s, LIdle, [], [p]) && !l.locked && !s.locked
    ensures Enabled(z, DeliverEnter)
    ensures var y := Do(z, DeliverEnter);
            && (Inv(y) ==> At(y, p, l, s.(locked := true), XActivate(p), [], []))
            && y.accepts == z.accepts && y.announced == z.announced + [p] && y.socks.Keys == z.socks.Keys
  {
    hide Inv;
  }

  lemma ActivateStep(z: Sys, p: int, l: Sock, s: Sock)
    requires At(z, p, l, s, XActivate(p), [], []) && s.st == ACCEPTED
    ensures Enabled(z, DeliverActivate) && SameBooks(z, Do(z, DeliverActivate))
    ensures Inv(Do(z, DeliverActivate)) ==> At(Do(z, DeliverActivate), p, l, AddFd(s).(st := ACTIVE), XRecv(p), [], [])
  {
    hide Inv;
    assert Dispatch(ACCEPTED, ACTION, ACT_ACTIVATE) == Run(DoActivate);
  }

  lemma RecvStep(z: Sys, p: int, l: Sock, s: Sock)
    requires At(z, p, l, s, XRecv(p), [], [])
    ensures Enabled(z, DeliverRecv) && SameBooks(z, Do(z, DeliverRecv))
    ensures Inv(Do(z, DeliverRecv)) ==> At(Do(z, DeliverRecv), p, l, Post(s, TRecv), XPair(p), [], [])
  {
    hide Inv;
  }

  lemma PairStep(z: Sys, p: int, l: Sock, s: Sock, q: int, birth: Birth)
    requires At(z, p, l, s, XPair(p), [], []) && l.st == LISTENING && q > 0 && q !in z.socks
    ensures Enabled(z, Pair(q, birth))
    ensures var y := Do(z, Pair(q, birth));
            && (Inv(y) ==> At(y, p, Engaged(l, q), s, XPost(p), [], []))
            && q in y.socks && y.accepts == z.accepts && y.announced == z.announced
  {
    hide SockOk, Dispatch;
    PairIs(z, q, birth);
    hide Inv, Do, Paired, Engaged;
    Replaced(z.socks, p, s, Engaged(l, q), q, Paired(birth));
  }

  lemma Replaced(m: Socks, p: int, s: Sock, l: Sock, q: int, t: Sock)
    requires p in m && m[p] == s && p != 0 && 0 in m && q !in m
    ensures var n := m[0 := l][q := t]; 0 in n && n[0] == l && p in n && n[p] == s && q in n
  {
  }

  lemma PairPostStep(z: Sys, p: int, l: Sock, s: Sock)
    requires At(z, p, l, s, XPost(p), [], [])
    ensures Enabled(z, PairPost) && SameBooks(z, Do(z, PairPost))
    ensures Inv(Do(z, PairPost)) ==> At(Do(z, PairPost), p, Post(l, TAccept), s, XLeave(p), [], [])
  {
    hide Inv;
  }

  lemma LeavePartnerStep(z: Sys, p: int, l: Sock, s: Sock)
    requires At(z, p, l, s, XLeave(p), [], []) && s.events == []
    ensures Enabled(z, DeliverLeave) && SameBooks(z, Do(z, DeliverLeave))
    ensures Inv(Do(z, DeliverLeave)) ==> At(Do(z, DeliverLeave), p, l, s.(locked := false), LIdle, [], [])
  {
    hide Inv;
  }

  lemma PopStep(z: Sys, p: int, l: Sock, s: Sock)
    requires At(z, p, l, s, LIdle, [], []) && l.pend == [TAccept] && l.work == NoWork && !l.locked
    ensures Enabled(z, Pop(0)) && SameBooks(z, Do(z, Pop(0)))
    ensures Inv(Do(z, Pop(0))) ==> At(Do(z, Pop(0)), p, l.(pend := [], work := RunTask(TAccept)), s, LIdle, [], [])
  {
    hide Inv;
  }

  lemma RegisterStep(z: Sys, p: int, l: Sock, s: Sock)
    requires At(z, p, l, s, LIdle, [], []) && l.work == RunTask(TAccept) && !l.locked
    ensures Enabled(z, Enter(0, QUIET)) && SameBooks(z, Do(z, Enter(0, QUIET)))
    ensures Inv(Do(z, Enter(0, QUIET))) ==> At(Do(z, Enter(0, QUIET)), p, SetIn(AddFd(Inside(l))), s, LIdle, [], [])
  {
    hide Inv;
    assert Internal(SRC_TASK_ACCEPT);
  }

  // ---- The cycle ----

  /** The kernel reports a connection request, and the worker has it in hand. */
  lemma Reported(y: Sys, p: int, l: Sock, s: Sock) returns (run: Trace, z: Sys)
    requires At(y, p, l, s, LIdle, [], []) && l.reg && l.kernel.rd
    requires l.work == NoWork && l.buf == NO_BITS && !l.locked
    ensures Leads(y, run, z) && At(z, p, l.(work := RunIo(FD_IN)), s, LIdle, [], []) && SameBooks(y, z)
  {
    hide Inv, Do, Enabled, Leads, Then;
    run, z := Stay(y), y;
    StayLeads(y);
    ReportStep(z, p, l, s);
    run, z := AfterStep(y, run, z, Wait(0, IN_ONLY));
    FetchStep(z, p, l.(buf := IN_ONLY), s);
    run, z := AfterStep(y, run, z, Fetch(0));
  }

  /** From a connection request to the listener's unlocking. */
  lemma Offered(y: Sys, p: int, l: Sock, s: Sock, fd: int) returns (run: Trace, z: Sys)
    requires At(y, p, l, s, LIdle, [], []) && l.st == ACCEPTING && l.asock == Some(p) && l.reg && l.kernel.rd
    requires l.pend == [] && l.work == NoWork && l.buf == NO_BITS && !l.locked && l.events == []
    requires fd > 0 && fd !in y.open
    ensures Leads(y, run, z)
    ensures At(z, p, l.(asock := None, st := LISTENING, reg := false), s.(fd := fd, st := ACCEPTED, asock := None),
               LIdle, [], [p])
    ensures z.accepts == y.accepts + [p] && z.announced == y.announced && z.socks.Keys == y.socks.Keys
  {
    hide Inv, Do, Enabled, Leads, Then;
    run, z := Reported(y, p, l, s);
    var l1 := l.(work := RunIo(FD_IN));
    AcceptStep(z, p, l1, s, fd);
    run, z := AfterStep(y, run, z, EnterAccept(Got(fd)));
    var r := AcceptArm(Inside(l1), s, fd);
    LeaveStep(z, p, r.0, r.1, [p]);
    run, z := AfterStep(y, run, z, Leave(0));
  }

  /** The Accepted event is delivered inside the partner's context, which becomes active. */
  lemma Activated(y: Sys, p: int, l: Sock, s: Sock) returns (run: Trace, z: Sys)
    requires At(y, p, l, s, LIdle, [], [p]) && !l.locked && s.st == ACCEPTED && !s.locked
    ensures Leads(y, run, z) && At(z, p, l, AddFd(s.(locked := true)).(st := ACTIVE), XRecv(p), [], [])
    ensures z.accepts == y.accepts && z.announced == y.announced + [p] && z.socks.Keys == y.socks.Keys
  {
    hide Inv, Do, Enabled, Leads, Then, AddFd;
    run, z := Stay(y), y;
    StayLeads(y);
    DeliverSteps(z, p, l, s);
    run, z := AfterStep(y, run, z, DeliverEnter);
    ActivateStep(z, p, l, s.(locked := true));
    run, z := AfterStep(y, run, z, DeliverActivate);
  }

  /** And task_recv is posted for it. */
  lemma Handed(y: Sys, p: int, l: Sock, s: Sock) returns (run: Trace, z: Sys)
    requires At(y, p, l, s, LIdle, [], [p]) && !l.locked
    requires s.st == ACCEPTED && !s.locked && s.pend == [] && s.fd >= 0 && !s.reg
    ensures Leads(y, run, z)
    ensures At(z, p, l, s.(st := ACTIVE, reg := true, kernel := NO_BITS, cache := NO_BITS, hfd := s.fd, pend := [TRecv],
        locked := true), XPair(p), [], [])
    ensures z.accepts == y.accepts && z.announced == y.announced + [p] && z.socks.Keys == y.socks.Keys
  {
    hide Inv, Do, Enabled, Leads, Then;
    run, z := Activated(y, p, l, s);
    var t := s.(locked := true, st := ACTIVE, reg := true, kernel := NO_BITS, cache := NO_BITS, hfd := s.fd);
    assert AddFd(s.(locked := true)).(st := ACTIVE) == t;
    RecvStep(z, p, l, t);
    run, z := AfterStep(y, run, z, DeliverRecv);
  }

  /** Still inside that context, the listener gets its next partner q. */
  lemma Repaired(y: Sys, p: int, l: Sock, s: Sock, q: int, birth: Birth) returns (run: Trace, z: Sys)
    requires At(y, p, l, s, XPair(p), [], []) && l.st == LISTENING && l.pend == [] && s.events == [] && q > 0
        && q !in y.socks
    ensures Leads(y, run, z)
    ensures At(z, p, Engaged(l, q).(pend := [TAccept]), s.(locked := false), LIdle, [], [])
    ensures z.accepts == y.accepts && z.announced == y.announced && q in z.socks
  {
    hide Inv, Do, Enabled, Leads, Then;
    run, z := Stay(y), y;
    StayLeads(y);
    PairStep(z, p, l, s, q, birth);
    run, z := AfterStep(y, run, z, Pair(q, birth));
    var l1 := Engaged(l, q);
    PairPostStep(z, p, l1, s);
    run, z := AfterStep(y, run, z, PairPost);
    LeavePartnerStep(z, p, l1.(pend := [TAccept]), s);
    run, z := AfterStep(y, run, z, DeliverLeave);
  }

  /** The listener's worker serves task_accept: the descriptor is back in the poller, for IN. */
  lemma Rearmed(y: Sys, p: int, l: Sock, s: Sock) returns (run: Trace, z: Sys)
    requires At(y, p, l, s, LIdle, [], []) && l.pend == [TAccept] && l.work == NoWork && !l.locked && l.events == []
    requires l.fd >= 0 && !l.reg
    ensures Leads(y, run, z)
    ensures At(z, p, l.(pend := [], reg := true, kernel := IN_ONLY, cache := IN_ONLY, hfd := l.fd), s, LIdle, [], [])
    ensures SameBooks(y, z)
  {
    hide Inv, Do, Enabled, Leads, Then;
    run, z := Stay(y), y;
    StayLeads(y);
    PopStep(z, p, l, s);
    run, z := AfterStep(y, run, z, Pop(0));
    var l1 := l.(pend := [], work := RunTask(TAccept));
    RegisterStep(z, p, l1, s);
    run, z := AfterStep(y, run, z, Enter(0, QUIET));
    var l2 := l.(pend := [], reg := true, kernel := IN_ONLY, cache := IN_ONLY, hfd := l.fd, locked := true);
    assert SetIn(AddFd(Inside(l1))) == l2;
    LeaveStep(z, p, l2, s, []);
    run, z := AfterStep(y, run, z, Leave(0));
  }

  lemma ListenerFacts(y: Sys, p: int)
    requires Inv(y) && Awaiting(y, p)
    ensures var l, s := y.socks[0], y.socks[p];
            && l.kernel.rd && l.events == [] && l.fd >= 0
            && s.st == BEING_ACCEPTED && s.pend == [] && s.events == [] && !s.reg && !s.locked && s.work == NoWork
  {
    hide OutboundOk, FdsOk, ExternalOk, HistoriesOk;
  }

  /** Whenever the listener waits, it can take any connection the kernel offers: the
      partner gets the descriptor and becomes active, its Accepted event is announced,
      and the listener waits again, for the next partner. */
  lemma AcceptCycle(y: Sys, p: int, fd: int, q: int, birth: Birth) returns (run: Trace, z: Sys)
    requires Inv(y) && Awaiting(y, p) && fd > 0 && fd !in y.open && q > 0 && q !in y.socks
    ensures Leads(y, run, z) && Inv(z) && Awaiting(z, q)
    ensures p in z.socks && z.socks[p].st == ACTIVE && z.socks[p].fd == fd && z.socks[p].reg
        && z.socks[p].pend == [TRecv]
    ensures z.accepts == y.accepts + [p] && z.announced == y.announced + [p]
  {
    ListenerFacts(y, p);
    hide Inv, Leads, Do;
    var l, s := y.socks[0], y.socks[p];
    var run1, y1 := Offered(y, p, l, s, fd);
    var l1 := l.(asock := None, st := LISTENING, reg := false);
    var s1 := s.(fd := fd, st := ACCEPTED, asock := None);
    var run2, y2 := Handed(y1, p, l1, s1);
    var s2 := s1.(st := ACTIVE, reg := true, kernel := NO_BITS, cache := NO_BITS, hfd := fd, pend := [TRecv],
        locked := true);
    var run3, y3 := Repaired(y2, p, l1, s2, q, birth);
    var run4, y4 := Rearmed(y3, p, Engaged(l1, q).(pend := [TAccept]), s2.(locked := false));
    var r2 := Both(y, run1, y1, run2, y2);
    var r3 := Both(y, r2, y2, run3, y3);
    run := Both(y, r3, y3, run4, y4);
    z := y4;
  }

  // ---- From the start ----

  function Started(y: Sys, fd: int, st: int, driver: Driver): Sys
    requires 0 in y.socks
  {
    y.(socks := map[0 := y.socks[0].(fd := fd, started := true, st := st)], open := y.open[fd := 0], driver := driver)
  }

  lemma StartIs(y: Sys, fd: int)
    requires Built(y) && fd >= 0 && fd !in y.open
    ensures Enabled(y, Start(fd)) && Do(y, Start(fd)) == Started(y, fd, STARTING, LListen)
  {
    assert Dispatch(IDLE, ACTION, START) == Run(DoStart) && !Internal(ACTION);
    hide Dispatch;
    assert Do(y, Start(fd)).socks == Started(y, fd, STARTING, LListen).socks;
  }

  lemma ListenIs(y: Sys, fd: int)
    requires Built(y) && fd >= 0
    ensures var z := Started(y, fd, STARTING, LListen);
            Enabled(z, Listen(true)) && Do(z, Listen(true)) == Started(y, fd, LISTENING, LPair)
  {
    assert Dispatch(STARTING, ACTION, ACT_LISTEN) == Run(DoListen) && !Internal(ACTION);
    hide Dispatch, Internal, InternalTask;
    var z := Started(y, fd, STARTING, LListen);
    assert Do(z, Listen(true)).socks == Started(y, fd, LISTENING, LPair).socks;
  }

  lemma StartsUp(y: Sys, fd: int) returns (run: Trace)
    requires Built(y) && fd >= 0 && fd !in y.open
    ensures var z := Started(y, fd, LISTENING, LPair); Leads(y, run, z) && Inv(z)
  {
    hide Inv, Leads, Enabled, Do, Started, Then, Built;
    InitOk(y);
    StayLeads(y);
    StartIs(y, fd);
    ListenIs(y, fd);
    var r1, y1 := AfterStep(y, Stay(y), y, Start(fd));
    var r2, y2 := AfterStep(y, r1, y1, Listen(true));
    run := r2;
  }

  /** NetDevice::Init leads to a listener that waits for its first partner. */
  lemma SetUp(y: Sys, fd: int, p: int, spare: Birth) returns (run: Trace, z: Sys)
    requires Built(y) && fd >= 0 && fd !in y.open && p > 0
    ensures Leads(y, run, z) && Inv(z) && Awaiting(z, p) && z.accepts == [] && z.announced == []
    ensures z.socks.Keys == {0, p} && z.socks[0].fd == fd && z.open == y.open[fd := 0]
  {
    hide Inv, Do, Enabled, Leads, Then;
    var l := y.socks[0].(fd := fd, started := true, st := LISTENING);
    run := StartsUp(y, fd);
    z := Started(y, fd, LISTENING, LPair);
    FirstPair(z, p, l, spare);
    run, z := AfterStep(y, run, z, Pair(p, spare));
    FirstPost(z, p, Engaged(l, p));
    run, z := AfterStep(y, run, z, PairPost);
    var more, w := Rearmed(z, p, Engaged(l, p).(pend := [TAccept]), z.socks[p]);
    run := Both(y, run, z, more, w);
    z := w;
  }

  lemma FirstPair(z: Sys, p: int, l: Sock, spare: Birth)
    requires Inv(z) && z.driver == LPair && z.socks == map[0 := l] && l.st == LISTENING && p > 0
    requires !z.fatal && !z.hijacked && z.ext == [] && z.batch == []
    ensures Enabled(z, Pair(p, spare)) && !Provokes(z, Pair(p, spare))
    ensures var y := Do(z, Pair(p, spare));
            && (Inv(y) ==> p in y.socks && At(y, p, Engaged(l, p), y.socks[p], LPost, [], []))
            && y.accepts == z.accepts && y.announced == z.announced && y.open == z.open && y.socks.Keys == {0, p}
  {
    PairIs(z, p, spare);
    hide Inv, Do;
  }

  lemma FirstPost(z: Sys, p: int, l: Sock)
    requires p in z.socks && At(z, p, l, z.socks[p], LPost, [], []) && l.pend == []
    ensures Enabled(z, PairPost) && SameBooks(z, Do(z, PairPost))
    ensures var y := Do(z, PairPost);
            Inv(y) ==> p in y.socks && At(y, p, Post(l, TAccept), y.socks[p], LIdle, [], [])
  {
    hide Inv;
  }

  lemma {:induction false} Unused(s: set<int>) returns (n: int)
    ensures n > 0 && forall x :: x in s ==> x < n
  {
    if s == {} {
      n := 1;
    } else {
      assert (forall x :: x !in s) ==> s == {};
      var x :| x in s;
      var m := Unused(s - {x});
      n := if x < m then m else x + 1;
      assert forall y :: y in s ==> y == x || y in s - {x};
    }
  }

  /** The engine can accept any number of connections. */
  lemma {:induction false} AcceptsAny(y0: Sys, spare: Birth, n: nat) returns (run: Trace, z: Sys, p: int)
    requires Built(y0)
    ensures Leads(y0, run, z) && Inv(z) && Awaiting(z, p) && |z.announced| == n && z.accepts == z.announced
  {
    hide Inv, Leads, Awaiting, Built;
    if n == 0 {
      p := 1;
      var fd := Unused(y0.open.Keys);
      run, z := SetUp(y0, fd, 1, spare);
    } else {
      var before, y, was := AcceptsAny(y0, spare, n - 1);
      p := Unused(y.socks.Keys);
      var fd := Unused(y.open.Keys);
      var more;
      more, z := AcceptCycle(y, was, fd, p, spare);
      run := Both(y0, before, y, more, z);
    }
  }
}
