/** What every run of the engine guarantees; a run that comes to a takeover in the
    poller ends there. */
module EngineTheorems {
  import opened SocketFsm
  import opened Sequences
  import opened Sockets
  import opened SocketInv
  import opened Engine
  import opened EngineInv
  import opened EngineRuns
  import opened EngineSockets
  import opened Framing

  // ---- No bad dispatch ----

  lemma FeedBad(y: Sys, id: int, src: int, typ: int, k: Kernel)
    requires id in y.socks
    ensures y.bad ==> Feed(y, id, src, typ, k).bad
    ensures !Internal(src) && Dispatch(y.socks[id].st, src, typ).bad > 0 ==> Feed(y, id, src, typ, k).bad
  {
    hide Dispatch, Perform, InternalTask, Internal;
  }

  lemma FeedKeepsBad()
    ensures forall y: Sys, id, src, typ, k :: id in y.socks && y.bad ==> Feed(y, id, src, typ, k).bad
  {
    forall y: Sys, id, src, typ, k | id in y.socks && y.bad ensures Feed(y, id, src, typ, k).bad {
      FeedBad(y, id, src, typ, k);
    }
  }

  lemma PairBad(y: Sys, id: int, birth: Birth)
    requires Enabled(y, Pair(id, birth)) && (y.bad || y.socks[0].st == STARTING)
    ensures Do(y, Pair(id, birth)).bad
  {
    assert Dispatch(STARTING, ACTION, ACT_ACCEPT).bad > 0 && !Internal(ACTION) && id != 0;
    hide Feed, Dispatch, Internal;
    var y0 := y.(socks := y.socks[id := Fresh(Inbound, birth).(started := true)]);
    FeedBad(y0, id, ACTION, START, QUIET);
    FeedApart(y0, id, ACTION, START, QUIET, 0);
    var y1 := Feed(y0, id, ACTION, START, QUIET);
    FeedBad(y1, id, ACTION, ACT_BEING_ACCEPTED, QUIET);
    FeedApart(y1, id, ACTION, ACT_BEING_ACCEPTED, QUIET, 0);
    var y2 := Feed(y1, id, ACTION, ACT_BEING_ACCEPTED, QUIET);
    FeedBad(y2, 0, ACTION, ACT_ACCEPT, QUIET);
  }

  lemma UpdatesKeepBad()
    ensures forall y: Sys, id, s :: id in y.socks ==> Update(y, id, s).bad == y.bad
  {
  }

  lemma ConnectKeepsBad(y: Sys, id: int, res: ConnectResult)
    requires y.bad && id in y.socks
    ensures ConnectReturns(y, id, res).bad
  {
    hide Dispatch;
  }

  lemma AcceptKeepsBad(y: Sys, res: AcceptResult)
    requires y.bad && Enabled(y, EnterAccept(res))
    ensures DoAcceptNow(y, res).bad
  {
  }

  lemma DrainKeepsBad(y: Sys, id: int)
    requires y.bad && id in y.socks && y.socks[id].events != []
    ensures DoDrain(y, id).bad
  {
  }

  lemma FeedStepKeepsBad(y: Sys, step: Step)
    requires y.bad && Enabled(y, step)
    requires step.Start? || step.Listen? || step.Create? || step.CreateFailed? || step.Enter? || step.DeliverActivate?
    ensures Do(y, step).bad
  {
    FeedKeepsBad();
    hide Feed, Fresh;
  }

  lemma UpdateStepKeepsBad(y: Sys, step: Step)
    requires y.bad && Enabled(y, step)
    requires step.PairPost? || step.CallerStep? || step.SenderPush? || step.SenderPost? || step.Pop? || step.Wait?
        || step.Fetch?
             || step.Leave? || step.DeliverEnter? || step.DeliverRecv? || step.DeliverLeave?
    ensures Do(y, step).bad
  {
    UpdatesKeepBad();
    hide CallerNext, Post, Update;
  }

  lemma BadStays(y: Sys, step: Step)
    requires y.bad && Enabled(y, step)
    ensures Do(y, step).bad
  {
    hide Dispatch, Feed, Update, DoPair, ConnectReturns, DoAcceptNow, DoDrain;
    match step
    case Pair(id, g) => PairBad(y, id, g);
    case Connect(id, res) => ConnectKeepsBad(y, id, res);
    case EnterAccept(res) => AcceptKeepsBad(y, res);
    case Drain(id) => DrainKeepsBad(y, id);
    case Start(_) => FeedStepKeepsBad(y, step);
    case Listen(_) => FeedStepKeepsBad(y, step);
    case Create(_, _, _) => FeedStepKeepsBad(y, step);
    case CreateFailed(_, _) => FeedStepKeepsBad(y, step);
    case Enter(_, _) => FeedStepKeepsBad(y, step);
    case DeliverActivate => FeedStepKeepsBad(y, step);
    case _ => UpdateStepKeepsBad(y, step);
  }

  /** From a run's first ignored failure on, its states are bad; until then they keep the invariant. */
  lemma {:induction false} BadSince(r: Trace, n: nat)
    requires IsRun(r) && Inv(r.states[0]) && n <= |r.steps|
    ensures r.states[n].bad <==> exists i :: 0 <= i < n && ProvokedAt(r, i)
  {
    hide Inv, Do, Enabled, Provokes;
    if n == 0 {
      NotBad(r.states[0]);
    } else {
      BadSince(r, n - 1);
      assert Linked(r, n - 1);
      var y, step := r.states[n - 1], r.steps[n - 1];
      if y.bad {
        BadStays(y, step);
      } else if ProvokedAt(r, n - 1) {
        ProvokingIsBad(y, step);
      } else {
        StateOk(r, n - 1);
        StepKeeps(y, step);
        NotBad(r.states[n]);
      }
    }
  }

  lemma NotBad(y: Sys)
    requires Inv(y)
    ensures !y.bad
  {
  }

  lemma ProvokingIsBad(y: Sys, step: Step)
    requires Enabled(y, step) && Provokes(y, step)
    ensures Do(y, step).bad
  {
    hide Feed;
    if step.Pair? {
      PairBad(y, step.id, step.birth);
    } else {
      ConnectWithoutStart();
      var y0 := y.(socks := y.socks[step.id := Fresh(Outbound, step.birth).(caller := CConnect)]);
      FeedBad(y0, step.id, ACTION, ACT_CONNECT, QUIET);
    }
  }

  /** In every run of the device, under every interleaving, the socket handler
      complains about an event if and only if the device ignored a failure of
      socket() or listen(). */
  lemma NoBadDispatch(r: Trace)
    requires FromStart(r)
    ensures Last(r).bad <==> Provoked(r)
  {
    hide Inv, Linked, Built;
    InitOk(r.states[0]);
    BadSince(r, |r.steps|);
  }

  // ---- The end of the process ----

  /** The device is handed an Error or AcceptError event, or accept4 fails unexpectedly. */
  predicate Kills(y: Sys, step: Step) {
    || step == EnterAccept(Unexpected)
    || (step.Drain? && step.id in y.socks && y.socks[step.id].events != []
        && (y.socks[step.id].events[0].typ == EV_ERROR || y.socks[step.id].events[0].typ == EV_ACCEPT_ERROR))
  }

  lemma UpdatesKeepFatal()
    ensures forall y: Sys, id, s :: id in y.socks ==> Update(y, id, s).fatal == y.fatal
    ensures forall y: Sys, id, src, typ, k :: id in y.socks ==> Feed(y, id, src, typ, k).fatal == y.fatal
  {
    hide Dispatch, Perform, InternalTask, Internal;
  }

  lemma AcceptFatal(y: Sys, res: AcceptResult)
    requires Enabled(y, EnterAccept(res))
    ensures DoAcceptNow(y, res).fatal <==> res == Unexpected
  {
    hide WorkerFree, Accepting, AcceptFailed, AcceptArm, Queued;
  }

  lemma DrainFatal(y: Sys, id: int)
    requires !y.fatal && id in y.socks && y.socks[id].events != []
    ensures DoDrain(y, id).fatal <==> Kills(y, Drain(id))
  {
    hide Drained;
  }

  lemma PairFatal(y: Sys, id: int, birth: Birth)
    requires Enabled(y, Pair(id, birth))
    ensures !DoPair(y, id, birth).fatal
  {
    UpdatesKeepFatal();
    hide Feed, Update;
  }

  lemma ConnectFatal(y: Sys, id: int, res: ConnectResult)
    requires !y.fatal && id in y.socks
    ensures !ConnectReturns(y, id, res).fatal
  {
    hide Dispatch, Refuse;
  }

  lemma FeedStepFatal(y: Sys, step: Step)
    requires Enabled(y, step)
    requires step.Start? || step.Listen? || step.Create? || step.CreateFailed? || step.Enter? || step.DeliverActivate?
    ensures !Do(y, step).fatal
  {
    UpdatesKeepFatal();
    hide Feed, Fresh, WorkerFree, Accepting, Hijacks;
  }

  lemma UpdateStepFatal(y: Sys, step: Step)
    requires Enabled(y, step)
    requires step.PairPost? || step.CallerStep? || step.SenderPush? || step.SenderPost? || step.Pop? || step.Wait?
        || step.Fetch? || step.Leave? || step.DeliverEnter? || step.DeliverRecv? || step.DeliverLeave?
    ensures !Do(y, step).fatal
  {
    UpdatesKeepFatal();
    hide CallerNext, Post, Update, WorkerFree, Delivering;
  }

  lemma StepFatal(y: Sys, step: Step)
    requires Enabled(y, step)
    ensures Do(y, step).fatal <==> Kills(y, step)
  {
    hide Feed, Update, DoPair, ConnectReturns, DoAcceptNow, DoDrain;
    match step
    case Pair(id, birth) => PairFatal(y, id, birth);
    case Connect(id, res) => ConnectFatal(y, id, res);
    case EnterAccept(res) => AcceptFatal(y, res);
    case Drain(id) => DrainFatal(y, id);
    case Start(_) => FeedStepFatal(y, step);
    case Listen(_) => FeedStepFatal(y, step);
    case Create(_, _, _) => FeedStepFatal(y, step);
    case CreateFailed(_, _) => FeedStepFatal(y, step);
    case Enter(_, _) => FeedStepFatal(y, step);
    case DeliverActivate => FeedStepFatal(y, step);
    case _ => UpdateStepFatal(y, step);
  }

  /** A run ends the process if and only if its last step hands an Error or AcceptError
      event to the device or meets an unexpected failure of accept4. */
  lemma FatalIff(r: Trace)
    requires IsRun(r) && !r.states[0].fatal
    ensures Last(r).fatal <==> r.steps != [] && Kills(r.states[|r.steps| - 1], r.steps[|r.steps| - 1])
  {
    hide Do, Enabled, Kills;
    if r.steps != [] {
      assert Linked(r, |r.steps| - 1);
      StepFatal(r.states[|r.steps| - 1], r.steps[|r.steps| - 1]);
    }
  }

  // ---- What every run without an ignored failure guarantees ----

  /** A socket whose messages nobody will send: every task_send posted since
      task_connected merged into one queued ahead of it, and nothing is on its way
      that would make another. */
  predicate Doomed(s: Sock) {
    && s.log.missed && s.caller == CNone && s.senders == 0
    && (Queued(s.events, Established) ==> Swallowed(s))
  }

  /** In every reachable state an active socket with a message queued or half sent is
      somebody's business, however sends from other threads, merged tasks, AddFd and
      the disarming of OUT interleave, unless it is doomed; and a doomed one is nobody's. */
  lemma NoLostWakeup(r: Trace, id: int)
    requires FromStart(r) && !Provoked(r) && id in Last(r).socks
    ensures var s := Last(r).socks[id];
            s.st == ACTIVE && (s.queued > 0 || s.busy) ==> (Cared(s) <==> !Doomed(s))
  {
    hide Linked, Provoked, Built;
    EndOk(r);
    SockAt(Last(r), id);
    hide Inv, SockOk, Cared, Doomed;
    var s := Last(r).socks[id];
    if s.st == ACTIVE && (s.queued > 0 || s.busy) {
      CaredIff(s);
    }
  }

  lemma CaredIff(s: Sock)
    requires SockOk(s) && s.st == ACTIVE && (s.queued > 0 || s.busy)
    ensures s.role == Outbound && (Cared(s) <==> !Doomed(s))
  {
    hide EventsOk, Logged;
  }

  /** No thread has anything left to do for this socket. */
  predicate AtRest(s: Sock) {
    && s.caller == CNone && s.senders == 0 && s.pend == [] && s.work == NoWork && s.buf == NO_BITS && !s.locked
  }

  /** The three steps by which a worker serves the OUT event of socket id. */
  function Serve(id: int, k: Kernel): seq<Step> {
    [Wait(id, Bits(false, true, false)), Fetch(id), Enter(id, k)]
  }

  /** However the engine came to rest, an active socket that is not doomed and has a
      message left is polled for OUT, and when the kernel reports it those three steps can be taken
      and the message moves on: the socket is then one message further or, after a
      short write, still busy with it. */
  lemma RestIsPolled(r: Trace, id: int, k: Kernel) returns (more: Trace)
    requires FromStart(r) && !Provoked(r) && id in Last(r).socks && !Last(r).fatal && !Last(r).hijacked
    requires var s := Last(r).socks[id]; AtRest(s) && !Doomed(s) && s.st == ACTIVE && (s.queued > 0 || s.busy)
    ensures Last(r).socks[id].kernel.wr
    ensures IsRun(more) && more.states[0] == Last(r) && more.steps == Serve(id, k)
    ensures id in Last(more).socks
    ensures var was, s := Last(r).socks[id], Last(more).socks[id];
            s.busy == (k.sent != Complete) && s.queued == was.queued - (if was.busy then 0 else 1)
  {
    hide Linked, Provoked, Built, AtRest;
    EndOk(r);
    more := Served(Last(r), id, k);
  }

  lemma PolledAtRest(s: Sock)
    requires SockOk(s) && AtRest(s) && !Doomed(s) && s.st == ACTIVE && (s.queued > 0 || s.busy)
    ensures s.role == Outbound && s.reg && s.kernel.wr
  {
    CaredIff(s);
    hide SockOk;
  }

  lemma Served(y: Sys, id: int, k: Kernel) returns (r: Trace)
    requires Inv(y) && Alive(y) && id in y.socks
    requires var s := y.socks[id]; AtRest(s) && !Doomed(s) && s.st == ACTIVE && (s.queued > 0 || s.busy)
    ensures y.socks[id].kernel.wr
    ensures IsRun(r) && r.states[0] == y && r.steps == Serve(id, k) && id in Last(r).socks
    ensures var s, t := y.socks[id], Last(r).socks[id];
            t.busy == (k.sent != Complete) && t.queued == s.queued - (if s.busy then 0 else 1)
  {
    hide Do, Enabled;
    var s := y.socks[id];
    SockAt(y, id);
    PolledAtRest(s);
    HoldsNow(y, id);
    hide Inv, SockOk, OutboundOk, Doomed;
    r := PolledRun(y, id, s, y.open, k);
  }

  /** Three steps of a socket that is polled for OUT. */
  lemma PolledRun(y: Sys, id: int, s: Sock, open: map<int, int>, k: Kernel) returns (r: Trace)
    requires Holds(y, id, s, open) && OutboundOk(s) && AtRest(s) && s.st == ACTIVE && s.reg && s.kernel.wr
    requires s.queued > 0 || s.busy
    ensures IsRun(r) && r.states[0] == y && r.steps == Serve(id, k) && id in Last(r).socks
    ensures var t := Last(r).socks[id];
            t.busy == (k.sent != Complete) && t.queued == s.queued - (if s.busy then 0 else 1)
  {
    var bits, s2 := Bits(false, true, false), s.(work := RunIo(FD_OUT));
    InHandOut(y, id, s, open);
    hide OutboundOk, Enabled, Do, Provokes, IsRun, Last, Linked, Next, Ready, Holds;
    var y1 := Do(y, Wait(id, bits));
    var y2 := Do(y1, Fetch(id));
    SendsOut(s2, id, k);
    Goes(y2, id, s2, open, Enter(id, k));
    HoldsMeans(y, id, s, open);
    HoldsMeans(Do(y2, Enter(id, k)), id, Next(s2, Enter(id, k)), open);
    r := ThreeSteps(y, Wait(id, bits), y1, Fetch(id), y2, Enter(id, k));
  }

  /** The kernel's report is buffered and taken. */
  lemma InHandOut(y: Sys, id: int, s: Sock, open: map<int, int>)
    requires Holds(y, id, s, open) && OutboundOk(s) && AtRest(s) && s.reg && s.kernel.wr
    ensures var bits, s2 := Bits(false, true, false), s.(work := RunIo(FD_OUT));
            && Enabled(y, Wait(id, bits)) && Enabled(Do(y, Wait(id, bits)), Fetch(id))
            && OutboundOk(s2) && Holds(Do(Do(y, Wait(id, bits)), Fetch(id)), id, s2, open)
  {
    var bits := Bits(false, true, false);
    var s1, s2 := s.(buf := bits), s.(work := RunIo(FD_OUT));
    Reports(s, id, bits);
    hide OutboundOk, Enabled, Do, Provokes, Next, Ready, Holds;
    Advances(y, id, s, s1, open, Wait(id, bits));
    Fetches(s1, id);
    Advances(Do(y, Wait(id, bits)), id, s1, s2, open, Fetch(id));
  }

  lemma Reports(s: Sock, id: int, bits: Bits)
    requires OutboundOk(s) && AtRest(s) && s.reg && s.kernel.wr && bits == Bits(false, true, false)
    ensures Ready(s, Wait(id, bits)) && Next(s, Wait(id, bits)) == s.(buf := bits)
  {
    hide OutboundOk;
  }

  lemma Fetches(s: Sock, id: int)
    requires OutboundOk(s) && s.work == NoWork && !s.locked && s.buf == Bits(false, true, false)
    ensures Ready(s, Fetch(id)) && Next(s, Fetch(id)) == s.(work := RunIo(FD_OUT), buf := NO_BITS)
  {
    hide OutboundOk;
  }

  lemma ThreeSteps(y: Sys, a: Step, y1: Sys, b: Step, y2: Sys, c: Step) returns (r: Trace)
    requires Enabled(y, a) && Do(y, a) == y1 && Enabled(y1, b) && Do(y1, b) == y2 && Enabled(y2, c)
    ensures IsRun(r) && r.states[0] == y && r.steps == [a, b, c] && Last(r) == Do(y2, c)
  {
    hide Enabled, Do;
    r := Trace([y, y1, y2, Do(y2, c)], [a, b, c]);
    assert Linked(r, 0) && Linked(r, 1) && Linked(r, 2);
  }

  lemma SendsOut(s: Sock, id: int, k: Kernel)
    requires OutboundOk(s) && !s.locked && s.st == ACTIVE && s.work == RunIo(FD_OUT) && (s.queued > 0 || s.busy)
    ensures Ready(s, Enter(id, k))
    ensures var t := Next(s, Enter(id, k));
            t.fd == s.fd && t.busy == (k.sent != Complete) && t.queued == s.queued - (if s.busy then 0 else 1)
  {
    OutboundEnters(s, k);
    assert !Internal(SRC_FD) && Dispatch(ACTIVE, SRC_FD, FD_OUT) == Run(Send);
    hide OutboundOk, Dispatch, Internal, InternalTask, Perform;
    SendIs(Inside(s), k);
    SendAdvances(Inside(s), k);
    hide SendArm;
  }

  lemma SendIs(s: Sock, k: Kernel)
    ensures Perform(s, Send, k) == SendArm(s, k)
  {
  }

  lemma SendAdvances(s: Sock, k: Kernel)
    requires s.queued > 0 || s.busy
    ensures var t := SendArm(s, k);
            && t.fd == s.fd && t.busy == (k.sent != Complete)
            && t.queued == s.queued - (if s.busy then 0 else 1)
  {
    hide ResetOut, Raise;
    var d := if s.busy then s else s.(queued := s.queued - 1, busy := true);
    RaiseOnlyEvents(d.(busy := false), SentEvent, EV_SENT);
  }

  lemma RaiseOnlyEvents(s: Sock, id: EventId, typ: int)
    ensures var t := Raise(s, id, typ); t == s.(events := t.events, log := t.log)
  {
  }

  /** The same for input: in every reachable state an active accepted socket is polled
      for IN, or task_recv is on its way, or the driving thread is just about to post it;
      and so is an accepting listener with task_accept. */
  lemma NoLostInput(r: Trace, id: int)
    requires FromStart(r) && !Provoked(r) && id in Last(r).socks
    ensures var s, driver := Last(r).socks[id], Last(r).driver;
            && (s.role == Inbound && s.st == ACTIVE ==> Receives(s) || driver == XRecv(id))
            && (id == 0 && s.st == ACCEPTING ==> Listens(s) || driver == LPost || driver.XPost?)
  {
    hide Linked, Provoked, Built;
    EndOk(r);
    hide SocksOk, FdsOk, PartnersOk, ExternalOk, HistoriesOk, Receives, Listens;
  }

  // ---- Accepting ----

  /** The listener and the socket it accepts for, if any, point at each other. */
  predicate Matched(m: Socks)
    requires 0 in m
  {
    var l := m[0];
    && (l.st == ACCEPTING || l.st == ACCEPTING_ERROR ==>
          && l.asock.Some? && l.asock.value in m && l.asock.value != 0
          && var p := m[l.asock.value]; p.st == BEING_ACCEPTED && p.fd == -1 && p.asock == Some(0))
    && (forall i :: i in m && i != 0 && m[i].st == BEING_ACCEPTED ==>
          (l.st == ACCEPTING || l.st == ACCEPTING_ERROR) && l.asock == Some(i))
    && (forall i :: i in m && m[i].asock.Some? ==> l.st == ACCEPTING || l.st == ACCEPTING_ERROR)
  }

  /** At every point of every run the accept pairing is mutual and exclusive, and
      none is left in Listening; sockets that got a descriptor got only one, and
      are announced once each, in the order of acceptance, the last one perhaps not yet. */
  lemma AcceptPairing(r: Trace)
    requires FromStart(r) && !Provoked(r)
    ensures var y := Last(r);
            && 0 in y.socks && Matched(y.socks)
            && y.announced <= y.accepts && |y.accepts| <= |y.announced| + 1
            && (forall k, n :: 0 <= k < n < |y.accepts| ==> y.accepts[k] != y.accepts[n])
  {
    hide Linked, Provoked, Built, Matched;
    EndOk(r);
    InvMatched(Last(r).socks);
    hide SocksOk, FdsOk, DriverOk, PartnersOk;
  }

  lemma InvMatched(m: Socks)
    requires SocksOk(m) && PartnersOk(m)
    ensures Matched(m)
  {
    hide OutboundOk;
    forall i | i in m ensures m[i].asock.Some? ==> m[0].st == ACCEPTING || m[0].st == ACCEPTING_ERROR {
      assert SockOk(m[i]);
      if m[i].role == Outbound {
        OutboundAlone(m[i]);
      }
    }
  }

  lemma OutboundAlone(s: Sock)
    requires OutboundOk(s)
    ensures s.asock == None
  {
  }

  // ---- Descriptors, poller and events ----

  /** What each socket may hold and what was ever done with it. */
  predicate WellKept(s: Sock, id: int, open: map<int, int>) {
    // its descriptor is open and its own; a closed or absent one is out of the poller
    && (s.fd >= 0 ==> s.fd in open && open[s.fd] == id)
    && (s.reg ==> s.fd >= 0) && (s.st == DONE ==> s.fd < 0)
    && !s.log.misuse
    // the kernel's mask is the cached one, and what is reported or dispatched is armed
    && (s.reg ==> s.kernel == s.cache)
    && (s.buf.rd || s.work == RunIo(FD_IN) ==> s.cache.rd)
    && (s.buf.wr || s.work == RunIo(FD_OUT) ==> s.cache.wr)
    // no event was raised while it was queued, and none lost its type
    && !s.log.clash && (s.role != Listener ==> EventsOk(s.events))
    // teardown states are never entered
    && s.st != REMOVING_FD && s.st != CANCELLING && s.st != STOPPING && s.st != STOPPING_ACCEPT
  }

  lemma SockWellKept(s: Sock)
    requires SockOk(s)
    ensures s.fd < 0 ==> WellKept(s, 0, map[])
    ensures forall id, open :: s.fd in open && open[s.fd] == id ==> WellKept(s, id, open)
  {
  }

  /** Every run: descriptors have one owner and are closed once, masks agree, events
      do not collide, no CHECK fails and no teardown code runs. */
  lemma AllWellKept(r: Trace)
    requires FromStart(r) && !Provoked(r)
    ensures var y := Last(r);
            && (forall i :: i in y.socks ==> WellKept(y.socks[i], i, y.open))
            && (forall i, j :: i in y.socks && j in y.socks && i != j && y.socks[i].fd >= 0 ==>
                  y.socks[i].fd != y.socks[j].fd)
            && !y.badClose && !y.outside && !y.bad
  {
    hide Linked, Provoked, Built, WellKept, SockOk;
    EndOk(r);
    var y := Last(r);
    forall i | i in y.socks ensures WellKept(y.socks[i], i, y.open) {
      SockWellKept(y.socks[i]);
      NoDescriptor(y.socks[i], i, y.open);
    }
  }

  lemma NoDescriptor(s: Sock, id: int, open: map<int, int>)
    ensures s.fd < 0 ==> WellKept(s, id, open) == WellKept(s, 0, map[])
  {
  }

  /** In every run every event raised was handled or is still queued, in the order of
      raising and with its own type; and once nobody is in its socket's context or
      about to enter it, all have been handled. */
  lemma ExactDelivery(r: Trace, id: int)
    requires FromStart(r) && !Provoked(r) && id in Last(r).socks
    ensures var s := Last(r).socks[id];
            s.log.raised == s.log.handled + s.events && (AtRest(s) ==> s.log.raised == s.log.handled)
  {
    hide Linked, Provoked, Built;
    EndOk(r);
    SockAt(Last(r), id);
    hide Inv, EventsOk, PollOk, TasksOk, Awake, MissedOk;
  }
}
