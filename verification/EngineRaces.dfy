/** The engine's races as schedules: exactly which ones leave messages behind, reach
    into the poller through an unregistered handle, or would take over another
    handle's place there. */
module EngineRaces {
  import opened SocketFsm
  import opened Sequences
  import opened Sockets
  import opened SocketInv
  import opened Engine
  import opened EngineInv
  import opened EngineRuns
  import opened EngineSockets
  import opened EngineTheorems
  import opened EngineLive

  // ---- What one step adds to the histories ----

  /** The creator posts task_connected behind a queued task_send. */
  predicate Overtakes(s: Sock, step: Step) {
    step.CallerStep? && s.caller == CExecConnected && TSend in s.pend
  }

  /** task_send is posted, by the creator, by another thread or by the device on a
      Connected event, and is not merged. */
  predicate Renews(s: Sock, step: Step) {
    && TSend !in s.pend
    && (step.SenderPost? || (step.CallerStep? && s.caller == CExecSend)
        || (step.Drain? && s.events != [] && s.events[0].typ == EV_CONNECTED))
  }

  /** task_send is served on a handle that is not registered. */
  predicate Strays(s: Sock, step: Step) {
    step.Enter? && s.work == RunTask(TSend) && TooSoon(s)
  }

  lemma TaskLogs(s: Sock, k: Kernel)
    requires OutboundOk(s) && !s.locked && s.work.RunTask?
    ensures Entering(s, k).log.missed == s.log.missed
    ensures Entering(s, k).log.stray == (s.log.stray || (s.work == RunTask(TSend) && TooSoon(s)))
  {
    IsOutbound(s);
    OutboundTasks(s);
    if s.work.task == TSend {
      UnregisteredIffTooSoon(s);
    } else {
      TaskRegisters(s);
    }
    hide OutboundOk, SockOk, TooSoon, Perform;
  }

  lemma TaskRegisters(s: Sock)
    requires OutboundOk(s) && s.work.RunTask? && Adds(s.work.task) && !s.locked
    ensures !s.reg && s.fd >= 0
  {
    hide EventsOk, Queued, Awake;
  }

  lemma IoLogs(s: Sock, k: Kernel)
    requires OutboundOk(s) && !s.locked && s.work.RunIo?
    ensures Entering(s, k).log.missed == s.log.missed && Entering(s, k).log.stray == s.log.stray
  {
    OutboundIo(s);
    InsideOutbound(s);
    hide OutboundOk, Dispatch, Enqueued, Queued, OutboundCore, MissedOk;
  }

  lemma CallerLogs(s: Sock)
    requires OutboundOk(s) && s.caller != CConnect && s.caller != CNone
    ensures CallerNext(s).log.stray == s.log.stray
    ensures CallerNext(s).log.missed == ((s.caller == CExecConnected && TSend in s.pend)
        || (s.log.missed && !(s.caller == CExecSend && TSend !in s.pend)))
  {
    hide Enqueued, Queued;
  }

  lemma DrainLogs(s: Sock)
    requires s.events != []
    ensures var t := Drained(s);
            t.log.stray == s.log.stray
            && t.log.missed == (s.log.missed && !(s.events[0].typ == EV_CONNECTED && TSend !in s.pend))
  {
    TakenOnly(s);
    hide Taken;
  }

  lemma TakenOnly(s: Sock)
    requires s.events != []
    ensures var t := Taken(s); t.pend == s.pend && t.log.stray == s.log.stray && t.log.missed == s.log.missed
  {
  }

  lemma SenderLogs(s: Sock)
    requires s.senders > 0
    ensures Posted(s).log.stray == s.log.stray && Posted(s).log.missed == (s.log.missed && TSend in s.pend)
  {
  }

  lemma NextLogs(s: Sock, step: Step)
    requires OutboundOk(s) && Ready(s, step)
    ensures Next(s, step).log.missed == (Overtakes(s, step) || (s.log.missed && !Renews(s, step)))
    ensures Next(s, step).log.stray == (s.log.stray || Strays(s, step))
  {
    hide OutboundOk, TooSoon, Entering, CallerNext, Drained, Posted;
    if step.Enter? {
      if s.work.RunTask? {
        TaskLogs(s, step.k);
      } else {
        IoLogs(s, step.k);
      }
    } else if step.CallerStep? {
      CallerLogs(s);
    } else if step.Drain? {
      DrainLogs(s);
    } else if step.SenderPost? {
      SenderLogs(s);
    }
  }

  // ---- Histories over runs ----

  predicate OwnAt(r: Trace, id: int, i: int) {
    0 <= i < |r.steps| && i < |r.states| && IsOut(r.states[i], id) && Own(r.steps[i]) && r.steps[i].id == id
  }

  predicate OvertakenAt(r: Trace, id: int, i: int) {
    OwnAt(r, id, i) && Overtakes(r.states[i].socks[id], r.steps[i])
  }

  predicate RenewedAt(r: Trace, id: int, i: int) {
    OwnAt(r, id, i) && Renews(r.states[i].socks[id], r.steps[i])
  }

  predicate StrayAt(r: Trace, id: int, i: int) {
    OwnAt(r, id, i) && Strays(r.states[i].socks[id], r.steps[i]) && !Hijacks(r.states[i], id)
  }

  /** Step i posted task_connected behind a queued task_send, and by step n every later task_send was merged. */
  predicate Lapsed(r: Trace, id: int, i: int, n: int) {
    OvertakenAt(r, id, i) && forall j :: i < j < n ==> !RenewedAt(r, id, j)
  }

  /** The histories after n steps of a socket created at step c are what the schedule says. */
  predicate Explained(r: Trace, id: int, c: int, n: nat)
    requires n < |r.states| && IsOut(r.states[n], id)
  {
    var log := r.states[n].socks[id].log;
    && (log.missed <==> exists i :: c < i < n && Lapsed(r, id, i, n))
    && (log.stray <==> exists i :: c < i < n && StrayAt(r, id, i))
  }

  lemma StepLogs(y: Sys, step: Step, id: int)
    requires Inv(y) && Enabled(y, step) && !Provokes(y, step) && IsOut(y, id)
    ensures IsOut(Do(y, step), id)
    ensures var s, t := y.socks[id], Do(y, step).socks[id]; var own := Own(step) && step.id == id;
            && t.log.missed == ((own && Overtakes(s, step)) || (s.log.missed && !(own && Renews(s, step))))
            && t.log.stray == (s.log.stray || (own && Strays(s, step) && !Hijacks(y, id)))
  {
    SeenFrom(y, step, id);
    hide Inv, Enabled, Do, Provokes, OutboundOk, Next, Hijacks, TooSoon;
    if Own(step) && step.id == id && !Ends(y, step) {
      NextLogs(y.socks[id], step);
    }
  }

  lemma {:induction false} Histories(r: Trace, id: int, c: nat, n: nat)
    requires FromStart(r) && !Provoked(r) && c < n <= |r.steps| && r.steps[c].Create? && r.steps[c].id == id
    ensures IsOut(r.states[n], id) && Explained(r, id, c, n)
    decreases n
  {
    hide Inv, Built, Provoked, Do, Enabled, Hijacks, Provokes;
    var m := n - 1;
    StateBefore(r, m);
    assert Linked(r, m);
    if m == c {
      CreateIs(r.states[c], id, r.steps[c].fd, r.steps[c].birth);
    } else {
      Histories(r, id, c, m);
      StepLogs(r.states[m], r.steps[m], id);
      hide Explained, Overtakes, Renews, Strays;
      Extends(r, id, c, m, n);
    }
  }

  lemma StateBefore(r: Trace, n: nat)
    requires FromStart(r) && !Provoked(r) && n <= |r.steps|
    ensures Inv(r.states[n]) && (n < |r.steps| ==> !Provokes(r.states[n], r.steps[n]))
    ensures n == 0 ==> forall id :: !IsOut(r.states[n], id)
  {
    hide Inv, Provoked, Linked;
    InitOk(r.states[0]);
    StateIn(r, n);
  }

  lemma Extends(r: Trace, id: int, c: int, m: nat, n: nat)
    requires c < m < n == m + 1 < |r.states| && IsOut(r.states[m], id) && IsOut(r.states[n], id)
    requires Explained(r, id, c, m)
    requires var was, log := r.states[m].socks[id].log, r.states[n].socks[id].log;
             && log.missed == (OvertakenAt(r, id, m) || (was.missed && !RenewedAt(r, id, m)))
             && log.stray == (was.stray || StrayAt(r, id, m))
    ensures Explained(r, id, c, n)
  {
    hide OvertakenAt, RenewedAt, StrayAt;
    forall i | c < i < m ensures Lapsed(r, id, i, n) <==> Lapsed(r, id, i, m) && !RenewedAt(r, id, m) {
      LapsedGrows(r, id, i, m, n);
    }
    assert Lapsed(r, id, m, n) <==> OvertakenAt(r, id, m);
    hide Lapsed;
    if i :| c < i < n && Lapsed(r, id, i, n) {
      assert i < m ==> Lapsed(r, id, i, m);
    }
    if i :| c < i < m && Lapsed(r, id, i, m) {
      assert RenewedAt(r, id, m) || Lapsed(r, id, i, n);
    }
  }

  lemma LapsedGrows(r: Trace, id: int, i: int, m: nat, n: nat)
    requires i < m && n == m + 1
    ensures Lapsed(r, id, i, n) <==> Lapsed(r, id, i, m) && !RenewedAt(r, id, m)
  {
    hide OvertakenAt, RenewedAt;
  }

  /** Whether a socket's wakeup was missed, and whether it reached into the poller
      through an unregistered handle, is decided by the schedule since its creation at
      step c: the first if and only if its creator posted task_connected behind another
      thread's queued task_send and every later task_send was merged; the second if and
      only if task_send was served before the creator had posted its registering task,
      with that task still behind it, or after connect() had failed at once. */
  lemma RacesIff(r: Trace, id: int, c: nat)
    requires FromStart(r) && !Provoked(r) && c < |r.steps| && r.steps[c].Create? && r.steps[c].id == id
    ensures IsOut(Last(r), id)
    ensures var log, n := Last(r).socks[id].log, |r.steps|;
            && (log.missed <==> exists i :: c < i < n && Lapsed(r, id, i, n))
            && (log.stray <==> exists i :: c < i < n && StrayAt(r, id, i))
  {
    hide Built, Provoked, Linked, Lapsed, StrayAt;
    Histories(r, id, c, |r.steps|);
  }

  // ---- Taking over another handle's place ----

  /** Step i would make epoll_ctl(MOD) name a descriptor that the same poller watches for another handle. */
  predicate TakesOver(y: Sys, step: Step) {
    && step.Enter? && IsOut(y, step.id) && Strays(y.socks[step.id], step) && !y.socks[step.id].cache.wr
    && Hits(y, step.id)
  }

  lemma UpdatesHijackNothing()
    ensures forall y: Sys, i, s :: i in y.socks ==> Update(y, i, s).hijacked == y.hijacked
  {
  }

  lemma FeedsHijackNothing()
    ensures forall y: Sys, i, src, typ, k :: i in y.socks ==> Feed(y, i, src, typ, k).hijacked == y.hijacked
  {
    UpdatesHijackNothing();
    hide Update, Dispatch, Perform, InternalTask, Internal;
  }

  lemma FeedStepHijacks(y: Sys, step: Step)
    requires Enabled(y, step)
    requires step.Start? || step.Listen? || step.Create? || step.CreateFailed? || step.Enter? || step.DeliverActivate?
    ensures Do(y, step).hijacked <==> step.Enter? && Hijacks(y, step.id)
  {
    FeedsHijackNothing();
    hide Feed, Hijacks;
  }

  lemma UpdateStepHijacks(y: Sys, step: Step)
    requires Enabled(y, step)
    requires step.PairPost? || step.CallerStep? || step.SenderPush? || step.SenderPost? || step.Pop? || step.Wait?
        || step.Fetch? || step.Leave? || step.DeliverEnter? || step.DeliverRecv? || step.DeliverLeave?
    ensures !Do(y, step).hijacked
  {
    UpdatesHijackNothing();
    hide Update, CallerNext, Post;
  }

  lemma ConnectHijacks(y: Sys, i: int, res: ConnectResult)
    requires i in y.socks
    ensures ConnectReturns(y, i, res).hijacked == y.hijacked
  {
    UpdatesHijackNothing();
    hide Update, Dispatch, Refuse;
  }

  lemma CallHijacks(y: Sys, step: Step)
    requires Enabled(y, step) && (step.Connect? || step.Drain? || step.EnterAccept?)
    ensures !Do(y, step).hijacked
  {
    UpdatesHijackNothing();
    if step.Connect? {
      ConnectHijacks(y, step.id, step.res);
    }
    hide Update, Dispatch, Drained, Enqueued, Queued, ConnectReturns;
  }

  lemma PairHijacks(y: Sys, step: Step)
    requires Enabled(y, step) && step.Pair?
    ensures !Do(y, step).hijacked
  {
    FeedsHijackNothing();
    hide Feed;
  }

  lemma HijackedBy(y: Sys, step: Step)
    requires Enabled(y, step)
    ensures Do(y, step).hijacked <==> step.Enter? && Hijacks(y, step.id)
  {
    hide Do, Enabled, Hijacks;
    if step.Pair? {
      PairHijacks(y, step);
    } else if step.Connect? || step.Drain? || step.EnterAccept? {
      CallHijacks(y, step);
    } else if step.Start? || step.Listen? || step.Create? || step.CreateFailed? || step.Enter?
        || step.DeliverActivate? {
      FeedStepHijacks(y, step);
    } else {
      UpdateStepHijacks(y, step);
    }
  }

  lemma HijacksIff(y: Sys, step: Step)
    requires Inv(y) && Enabled(y, step)
    ensures step.Enter? && Hijacks(y, step.id) <==> TakesOver(y, step)
  {
  }

  /** A run ends in front of such a call if and only if its last step is to serve
      task_send too soon, on a handle whose uninitialised descriptor is watched. */
  lemma HijackIff(r: Trace)
    requires FromStart(r) && !Provoked(r)
    ensures Last(r).hijacked <==>
            |r.steps| > 0 && TakesOver(r.states[|r.steps| - 1], r.steps[|r.steps| - 1])
  {
    hide Inv, Built, Provoked, Do, Enabled, Hijacks, TakesOver;
    var n := |r.steps|;
    if n == 0 {
      BuiltWell(r.states[0]);
    } else {
      StateBefore(r, n - 1);
      assert Linked(r, n - 1);
      HijackedBy(r.states[n - 1], r.steps[n - 1]);
      HijacksIff(r.states[n - 1], r.steps[n - 1]);
    }
  }

  lemma BuiltWell(y: Sys)
    requires Built(y)
    ensures !y.hijacked
  {
  }

  // ---- Messages left behind ----

  lemma DoomedNext(s: Sock, step: Step)
    requires OutboundOk(s) && Ready(s, step) && Doomed(s) && !step.SenderPush?
    ensures s.queued > 0 && !s.busy
    ensures Doomed(Next(s, step)) && Next(s, step).queued == s.queued
  {
    NextOk(s, step);
    NextLogs(s, step);
    if step.Enter? {
      DoomedEnter(s, step.k);
      hide Next;
    } else if step.Drain? && s.events[0].typ != EV_ERROR {
      DoomedDrain(s);
    }
    hide Entering, Drained, EventsOk, Logged;
  }

  /** The worker can only register the descriptor or find it broken. */
  lemma DoomedEnter(s: Sock, k: Kernel)
    requires OutboundOk(s) && !s.locked && s.work != NoWork && Doomed(s)
    ensures var t := Entering(s, k);
            t.caller == s.caller && t.senders == s.senders && t.pend == s.pend && t.locked && t.queued == s.queued
    ensures Queued(Entering(s, k).events, Established) ==> Queued(s.events, Established)
  {
    if s.work.RunTask? {
      OutboundTasks(s);
      hide OutboundOk, Dispatch, Perform, Queued;
    } else {
      DoomedIsUnarmed(s);
      OutboundIo(s);
      InsideOutbound(s);
      hide OutboundOk, OutboundCore, MissedOk, Doomed, Dispatch, Queued, Enqueued;
      BrokenAdds(Inside(s));
      hide Broken;
    }
  }

  lemma BrokenAdds(s: Sock)
    requires !Queued(s.events, ErrorEvent)
    ensures Queued(Broken(s).events, Established) ==> Queued(s.events, Established)
    ensures var t := Broken(s);
            t.caller == s.caller && t.senders == s.senders && t.pend == s.pend && t.locked == s.locked
            && t.queued == s.queued
  {
    RaiseAdds(CloseFd(RmFd(s)).(st := DONE), ErrorEvent, EV_ERROR);
    hide Raise;
  }

  lemma DoomedIsUnarmed(s: Sock)
    requires OutboundOk(s) && s.work.RunIo? && Doomed(s)
    ensures s.work.event == FD_ERR && !Queued(s.events, ErrorEvent)
  {
  }

  lemma RaiseAdds(s: Sock, id: EventId, typ: int)
    requires !Queued(s.events, id)
    ensures forall other :: Queued(Raise(s, id, typ).events, other) <==> Queued(s.events, other) || other == id
    ensures var t := Raise(s, id, typ); t == s.(events := t.events, log := t.log)
  {
    forall other ensures Queued(Raise(s, id, typ).events, other) <==> Queued(s.events, other) || other == id {
      QueuedAppend(s.events, Raised(id, typ), other);
    }
  }

  lemma DoomedDrain(s: Sock)
    requires OutboundOk(s) && s.locked && s.events != [] && s.events[0].typ != EV_ERROR && Doomed(s)
    ensures var t := Drained(s);
            && t.caller == s.caller && t.senders == s.senders && t.pend == s.pend && t.locked && t.queued == s.queued
            && (Queued(t.events, Established) ==> Queued(s.events, Established))
  {
    TakenEvents(s);
  }

  /** Along every run from a state in which a socket is doomed, it stays doomed, and
      not one of its messages leaves, until another thread sends something on it. */
  lemma {:induction false} LostForGood(r: Trace, id: int, n: nat)
    requires IsRun(r) && Inv(r.states[0]) && !Provoked(r) && n <= |r.steps|
    requires IsOut(r.states[0], id) && Doomed(r.states[0].socks[id])
    requires forall i :: 0 <= i < n ==> r.steps[i] != SenderPush(id)
    ensures IsOut(r.states[n], id) && Doomed(r.states[n].socks[id])
    ensures var was, s := r.states[0].socks[id], r.states[n].socks[id]; s.queued == was.queued > 0 && !s.busy
  {
    hide Inv, Provoked, Do, Enabled, Hijacks, Doomed;
    StateIn(r, n);
    if n > 0 {
      LostForGood(r, id, n - 1);
      StateIn(r, n - 1);
      assert Linked(r, n - 1);
      var y, step := r.states[n - 1], r.steps[n - 1];
      SeenFrom(y, step, id);
      if Own(step) && step.id == id && !Ends(y, step) {
        DoomedNext(y.socks[id], step);
      }
    }
    LeftBehind(r.states[n], id);
  }

  lemma StateIn(r: Trace, n: nat)
    requires IsRun(r) && Inv(r.states[0]) && !Provoked(r) && n <= |r.steps|
    ensures Inv(r.states[n]) && (n < |r.steps| ==> !Provokes(r.states[n], r.steps[n]))
  {
    hide Inv, Linked, Provokes;
    StateOk(r, n);
    assert n < |r.steps| ==> !ProvokedAt(r, n);
  }

  lemma LeftBehind(y: Sys, id: int)
    requires Inv(y) && IsOut(y, id) && Doomed(y.socks[id])
    ensures y.socks[id].queued > 0 && !y.socks[id].busy
  {
    NotDelivered(y, id);
    hide Inv;
  }

  // ---- Runs that show both ----

  /** The step takes the socket from s to t without touching its descriptor. */
  predicate Hop(s: Sock, step: Step, t: Sock, open: map<int, int>) {
    OutboundOk(s) && Own(step) && Ready(s, step) && Plain(s, open, step) && Next(s, step) == t && t.fd == s.fd
  }

  lemma OneMore(x: Sys, r: Trace, y: Sys, s: Sock, t: Sock, open: map<int, int>, step: Step)
    returns (r': Trace, y': Sys)
    requires Own(step) && Leads(x, r, y) && Holds(y, step.id, s, open) && Hop(s, step, t, open)
    ensures Leads(x, r', y') && Holds(y', step.id, t, open) && OutboundOk(t) && y'.socks == y.socks[step.id := t]
  {
    hide OutboundOk, Ready, Plain, Next, Holds, Leads, Inv, Enabled, Do, Provokes;
    HoldsMeans(y, step.id, s, open);
    Advances(y, step.id, s, t, open, step);
    r', y' := AfterStep(x, r, y, step);
  }

  lemma HopConnected(s: Sock, id: int, open: map<int, int>)
    requires OutboundOk(s) && s.caller == CConnect && s.fd >= 0
    ensures Hop(s, Connect(id, Connected), s.(st := ACTIVE, caller := CExecConnected), open)
  {
    hide OutboundOk;
  }

  lemma HopPush(s: Sock, id: int, open: map<int, int>)
    requires OutboundOk(s)
    ensures Hop(s, SenderPush(id), Pushed(s), open)
  {
    hide OutboundOk;
  }

  lemma HopPost(s: Sock, id: int, open: map<int, int>)
    requires OutboundOk(s) && s.senders > 0
    ensures Hop(s, SenderPost(id), Posted(s), open)
  {
    hide OutboundOk;
  }

  lemma HopCaller(s: Sock, id: int, open: map<int, int>)
    requires OutboundOk(s) && s.caller != CConnect && s.caller != CNone
    ensures Hop(s, CallerStep(id), CallerNext(s), open)
  {
    CallerNextOk(s);
    hide OutboundOk, CallerNext;
  }

  lemma HopPop(s: Sock, id: int, open: map<int, int>)
    requires OutboundOk(s) && !s.locked && s.work == NoWork && s.pend != []
    ensures Hop(s, Pop(id), s.(work := RunTask(s.pend[0]), pend := s.pend[1..]), open)
  {
    hide OutboundOk;
  }

  lemma ServesSend(s: Sock)
    requires OutboundOk(s) && !s.locked && s.work == RunTask(TSend)
    ensures Entering(s, QUIET) == SetOut(Inside(s)) && SetOut(Inside(s)).fd == s.fd
  {
    assert Internal(SRC_TASK_SEND);
    hide OutboundOk, Internal;
  }

  lemma HopSend(s: Sock, id: int, open: map<int, int>)
    requires OutboundOk(s) && !s.locked && s.work == RunTask(TSend) && (s.reg || s.cache.wr || s.hfd !in open)
    ensures Hop(s, Enter(id, QUIET), SetOut(Inside(s)), open)
  {
    ServesSend(s);
    hide OutboundOk, Entering, SetOut;
  }

  lemma HopRegister(s: Sock, id: int, open: map<int, int>)
    requires OutboundOk(s) && !s.locked && s.work == RunTask(TConnected)
    ensures Hop(s, Enter(id, QUIET), AddFd(Inside(s)), open)
  {
    assert Internal(SRC_TASK_CONNECTED);
    hide OutboundOk, Internal;
  }

  lemma HopDrain(s: Sock, id: int, open: map<int, int>)
    requires OutboundOk(s) && s.locked && s.events != [] && s.events[0].typ == EV_CONNECTED
    ensures Hop(s, Drain(id), Post(Taken(s), TSend), open)
  {
    hide OutboundOk;
  }

  lemma HopLeave(s: Sock, id: int, open: map<int, int>)
    requires OutboundOk(s) && s.locked && s.events == []
    ensures Hop(s, Leave(id), s.(locked := false), open)
  {
    hide OutboundOk;
  }

  /** connect() has just succeeded when another thread sends: the worker serves its
      task_send before there is anything to arm, and is still in the context. */
  function Intruded(c: Sock): Sock {
    c.(st := ACTIVE, caller := CExecConnected, queued := 1, locked := true, cache := c.cache.(wr := true),
       log := c.log.(stray := true))
  }

  predicate Waiting(c: Sock, open: map<int, int>) {
    && OutboundOk(c) && (c.cache.wr || c.hfd !in open) && c.caller == CConnect && c.fd >= 0 && !c.reg
    && c.pend == [] && c.work == NoWork && !c.locked && c.queued == 0 && c.senders == 0 && c.log == NO_LOG
  }

  lemma Intrudes(x: Sys, r0: Trace, y0: Sys, id: int, c: Sock, open: map<int, int>) returns (r: Trace, y: Sys)
    requires Leads(x, r0, y0) && Holds(y0, id, c, open) && Waiting(c, open)
    ensures Leads(x, r, y) && OutboundOk(Intruded(c)) && Holds(y, id, Intruded(c), open)
  {
    hide Leads, Holds, OutboundOk, Hop;
    r, y := r0, y0;
    var s1 := c.(st := ACTIVE, caller := CExecConnected);
    HopConnected(c, id, open);
    r, y := OneMore(x, r, y, c, s1, open, Connect(id, Connected));
    HopPush(s1, id, open);
    r, y := OneMore(x, r, y, s1, Pushed(s1), open, SenderPush(id));
    var s3 := Posted(Pushed(s1));
    HopPost(Pushed(s1), id, open);
    r, y := OneMore(x, r, y, Pushed(s1), s3, open, SenderPost(id));
    var s4 := s3.(pend := [], work := RunTask(TSend));
    assert s3.pend == [TSend] && s3.pend[1..] == [];
    HopPop(s3, id, open);
    r, y := OneMore(x, r, y, s3, s4, open, Pop(id));
    HopSend(s4, id, open);
    r, y := OneMore(x, r, y, s4, SetOut(Inside(s4)), open, Enter(id, QUIET));
  }

  /** A third thread's task_send is queued when the creator posts task_connected
      behind it, and the device's answer to Connected merges into it. */
  function Overtaken(c: Sock): Sock {
    var e := Raised(Established, EV_CONNECTED);
    c.(st := ACTIVE, caller := CPush, queued := 2, cache := c.cache.(wr := true), pend := [TSend, TConnected],
       log := c.log.(stray := true, missed := true, raised := [e], handled := [e]))
  }

  lemma Overtaking(x: Sys, r0: Trace, y0: Sys, id: int, c: Sock, open: map<int, int>) returns (r: Trace, y: Sys)
    requires Leads(x, r0, y0) && Waiting(c, open) && OutboundOk(Intruded(c)) && Holds(y0, id, Intruded(c), open)
    requires c.events == []
    ensures Leads(x, r, y) && OutboundOk(Overtaken(c)) && Holds(y, id, Overtaken(c), open)
  {
    hide Leads, Holds, OutboundOk, Hop;
    r, y := r0, y0;
    var s0 := Intruded(c);
    HopPush(s0, id, open);
    r, y := OneMore(x, r, y, s0, Pushed(s0), open, SenderPush(id));
    var s1 := Posted(Pushed(s0));
    HopPost(Pushed(s0), id, open);
    r, y := OneMore(x, r, y, Pushed(s0), s1, open, SenderPost(id));
    assert s1.pend == [TSend];
    var s2 := CallerNext(s1);
    HopCaller(s1, id, open);
    r, y := OneMore(x, r, y, s1, s2, open, CallerStep(id));
    assert s2.pend == [TSend, TConnected] && s2.events == [];
    var e := Raised(Established, EV_CONNECTED);
    var s3 := s2.(caller := CPush, events := [e], log := s2.log.(raised := [e]));
    AnnouncedIs(s2);
    HopCaller(s2, id, open);
    r, y := OneMore(x, r, y, s2, s3, open, CallerStep(id));
    HopDrain(s3, id, open);
    var s4 := Post(Taken(s3), TSend);
    r, y := OneMore(x, r, y, s3, s4, open, Drain(id));
    assert s4.events == [] && s4.log.handled == [e];
    HopLeave(s4, id, open);
    r, y := OneMore(x, r, y, s4, s4.(locked := false), open, Leave(id));
  }

  lemma AnnouncedIs(s: Sock)
    requires s.caller == CRaiseConnected && s.events == [] && !s.log.clash && s.log.raised == []
    ensures var e := Raised(Established, EV_CONNECTED);
            CallerNext(s) == s.(caller := CPush, events := [e], log := s.log.(raised := [e]))
  {
    assert !Queued(s.events, Established);
  }

  /** The creator's own task_send merges as well; then both tasks run, task_send first. */
  function Left(c: Sock): Sock {
    var e := Raised(Established, EV_CONNECTED);
    c.(st := ACTIVE, caller := CNone, queued := 3, cache := NO_BITS, kernel := NO_BITS, hfd := c.fd, reg := true,
       log := c.log.(stray := true, missed := true, raised := [e], handled := [e]))
  }

  lemma Leaving(x: Sys, r0: Trace, y0: Sys, id: int, c: Sock, open: map<int, int>) returns (r: Trace, y: Sys)
    requires Leads(x, r0, y0) && Waiting(c, open) && OutboundOk(Overtaken(c)) && Holds(y0, id, Overtaken(c), open)
    requires c.events == []
    ensures Leads(x, r, y) && OutboundOk(Left(c)) && Holds(y, id, Left(c), open)
  {
    hide Leads, Holds, OutboundOk, Hop;
    r, y := r0, y0;
    var s0 := Overtaken(c);
    var s1 := CallerNext(s0);
    HopCaller(s0, id, open);
    r, y := OneMore(x, r, y, s0, s1, open, CallerStep(id));
    var s2 := CallerNext(s1);
    HopCaller(s1, id, open);
    r, y := OneMore(x, r, y, s1, s2, open, CallerStep(id));
    assert s2.pend == [TSend, TConnected] && s2.pend[1..] == [TConnected];
    var s3 := s2.(pend := [TConnected], work := RunTask(TSend));
    HopPop(s2, id, open);
    r, y := OneMore(x, r, y, s2, s3, open, Pop(id));
    var s4 := SetOut(Inside(s3));
    HopSend(s3, id, open);
    r, y := OneMore(x, r, y, s3, s4, open, Enter(id, QUIET));
    HopLeave(s4, id, open);
    var s5 := s4.(locked := false);
    r, y := OneMore(x, r, y, s4, s5, open, Leave(id));
    r, y := Registering(x, r, y, id, s5, open);
  }

  lemma Registering(x: Sys, r0: Trace, y0: Sys, id: int, s: Sock, open: map<int, int>) returns (r: Trace, y: Sys)
    requires Leads(x, r0, y0) && OutboundOk(s) && Holds(y0, id, s, open)
    requires s.pend == [TConnected] && s.work == NoWork && !s.locked && s.events == [] && !s.reg && s.fd >= 0
    ensures var t := s.(pend := [], reg := true, cache := NO_BITS, kernel := NO_BITS, hfd := s.fd);
            Leads(x, r, y) && OutboundOk(t) && Holds(y, id, t, open)
  {
    hide Leads, Holds, OutboundOk, Hop;
    r, y := r0, y0;
    assert s.pend[1..] == [];
    var s1 := s.(pend := [], work := RunTask(TConnected));
    HopPop(s, id, open);
    r, y := OneMore(x, r, y, s, s1, open, Pop(id));
    var s2 := AddFd(Inside(s1));
    HopRegister(s1, id, open);
    r, y := OneMore(x, r, y, s1, s2, open, Enter(id, QUIET));
    HopLeave(s2, id, open);
    r, y := OneMore(x, r, y, s2, s2.(locked := false), open, Leave(id));
  }

  /** A new outbound socket. */
  lemma Creating(x: Sys, r0: Trace, y0: Sys, id: int, fd: int, birth: Birth) returns (r: Trace, y: Sys)
    requires Leads(x, r0, y0) && Inv(y0) && Alive(y0) && 0 in y0.socks
    requires id > 0 && id !in y0.socks && fd >= 0 && fd !in y0.open
    ensures Leads(x, r, y) && OutboundOk(Created(fd, birth)) && Holds(y, id, Created(fd, birth), y0.open[fd := id])
    ensures y.socks == y0.socks[id := Created(fd, birth)]
  {
    var step := Create(id, fd, birth);
    assert Enabled(y0, step) && !Provokes(y0, step);
    CreatedOk(fd, birth);
    CreateIs(y0, id, fd, birth);
    hide Inv, Leads, Do, OutboundOk, Then, Enabled, Provokes;
    r, y := AfterStep(x, r0, y0, step);
    assert Alive(y) && IsOut(y, id);
  }

  /** The device listens, and an outbound socket is created. */
  lemma Underway(x: Sys, lfd: int, p: int, spare: Birth, id: int, fd: int, birth: Birth) returns (r: Trace, y: Sys)
    requires Built(x) && lfd >= 0 && lfd !in x.open && p > 0 && id > 0 && id != p
    requires fd >= 0 && fd !in x.open && fd != lfd
    ensures Leads(x, r, y) && OutboundOk(Created(fd, birth)) && 0 in y.socks
    ensures Holds(y, id, Created(fd, birth), x.open[lfd := 0][fd := id])
  {
    r, y := SetUp(x, lfd, p, spare);
    assert Alive(y) && 0 in y.socks;
    hide Leads, Holds, OutboundOk, Inv, Built, Awaiting;
    r, y := Creating(x, r, y, id, fd, birth);
  }

  /** Once the device listens, three messages are left behind for good, with every
      thread gone, when a second and a third thread send while a socket's creator is
      between connect() and its first task. */
  lemma StrandedRun(x: Sys, lfd: int, p: int, spare: Birth, id: int, fd: int, birth: Birth) returns (r: Trace)
    requires Built(x) && lfd >= 0 && lfd !in x.open && p > 0 && id > 0 && id != p
    requires fd >= 0 && fd !in x.open && fd != lfd
    requires birth.mask.wr || (birth.fd !in x.open && birth.fd != fd && birth.fd != lfd)
    ensures FromStart(r) && !Provoked(r) && IsOut(Last(r), id)
    ensures var s := Last(r).socks[id]; s.st == ACTIVE && s.queued == 3 && AtRest(s) && Doomed(s)
  {
    var y;
    r, y := Underway(x, lfd, p, spare, id, fd, birth);
    hide Inv, Leads, Built, Holds, OutboundOk;
    var c, open := Created(fd, birth), x.open[lfd := 0][fd := id];
    r, y := Intrudes(x, r, y, id, c, open);
    r, y := Overtaking(x, r, y, id, c, open);
    r, y := Leaving(x, r, y, id, c, open);
    HoldsMeans(y, id, Left(c), open);
    LeadsIs(x, r, y);
  }

  lemma LeadsIs(y: Sys, r: Trace, z: Sys)
    requires Leads(y, r, z)
    ensures IsRun(r) && !Provoked(r) && r.states[0] == y && Last(r) == z
  {
  }

  // ---- A run that ends in front of a takeover ----

  lemma HopRefused(s: Sock, id: int, open: map<int, int>)
    requires OutboundOk(s) && s.caller == CConnect
    ensures Own(Connect(id, Refused)) && Ready(s, Connect(id, Refused)) && Plain(s, open, Connect(id, Refused))
    ensures Next(s, Connect(id, Refused)) == Refuse(s).(caller := CRaiseError)
  {
    hide OutboundOk;
  }

  lemma Refusing(x: Sys, r0: Trace, y0: Sys, id: int, c: Sock, open: map<int, int>) returns (r: Trace, y: Sys)
    requires Leads(x, r0, y0) && OutboundOk(c) && Holds(y0, id, c, open) && c.caller == CConnect && c.fd >= 0
    ensures var s := Refuse(c).(caller := CRaiseError);
            && Leads(x, r, y) && OutboundOk(s) && Holds(y, id, s, open - {c.fd}) && y.socks == y0.socks[id := s]
  {
    HopRefused(c, id, open);
    hide Leads, Holds, OutboundOk, Inv, Ready, Plain, Enabled, Do, Provokes;
    Goes(y0, id, c, open, Connect(id, Refused));
    HoldsMeans(y0, id, c, open);
    r, y := AfterStep(x, r0, y0, Connect(id, Refused));
  }

  lemma ErrorIs(s: Sock)
    requires s.caller == CRaiseError && s.events == []
    ensures var t := CallerNext(s); t == s.(caller := CPush, events := t.events, log := t.log)
    ensures CallerNext(s).log.refused == s.log.refused
  {
  }

  /** A connection is refused, its creator, told nothing, sends, and the worker has task_send in hand. */
  lemma SendsOnRefused(x: Sys, r0: Trace, y0: Sys, id: int, c: Sock, open: map<int, int>)
    returns (r: Trace, y: Sys, s: Sock)
    requires Leads(x, r0, y0) && OutboundOk(c) && Holds(y0, id, c, open) && id != 0 && 0 in y0.socks
    requires c.caller == CConnect && c.fd >= 0 && c.pend == [] && c.work == NoWork && !c.locked && c.events == []
    requires !c.reg
    ensures Leads(x, r, y) && OutboundOk(s) && Holds(y, id, s, open - {c.fd})
    ensures s.work == RunTask(TSend) && !s.locked && s.log.refused && !s.reg && s.cache == c.cache && s.hfd == c.hfd
        && s.worker == c.worker
  {
    hide Leads, Holds, OutboundOk, Hop;
    var rest := open - {c.fd};
    r, y := Refusing(x, r0, y0, id, c, open);
    var s1 := Refuse(c).(caller := CRaiseError);
    var s2 := CallerNext(s1);
    ErrorIs(s1);
    HopCaller(s1, id, rest);
    r, y := OneMore(x, r, y, s1, s2, rest, CallerStep(id));
    var s3 := CallerNext(s2);
    HopCaller(s2, id, rest);
    r, y := OneMore(x, r, y, s2, s3, rest, CallerStep(id));
    var s4 := CallerNext(s3);
    HopCaller(s3, id, rest);
    r, y := OneMore(x, r, y, s3, s4, rest, CallerStep(id));
    assert s4.pend == [TSend] && s4.pend[1..] == [];
    s := s4.(pend := [], work := RunTask(TSend));
    HopPop(s4, id, rest);
    r, y := OneMore(x, r, y, s4, s, rest, Pop(id));
  }

  lemma WouldTake(y: Sys, id: int, s: Sock, open: map<int, int>)
    requires Holds(y, id, s, open) && OutboundOk(s) && id in y.socks && y.socks[id] == s
    requires s.work == RunTask(TSend) && !s.locked && !s.reg && !s.cache.wr && Hits(y, id)
    ensures Enabled(y, Enter(id, QUIET)) && !Provokes(y, Enter(id, QUIET)) && Do(y, Enter(id, QUIET)).hijacked
  {
    hide OutboundOk, Enabled, Hits, Do;
    assert Hijacks(y, id) && Ready(s, Enter(id, QUIET)) && !Provokes(y, Enter(id, QUIET));
    hide Inv, Hijacks, Mods, Ready, Provokes;
    EnabledIffReady(y, Enter(id, QUIET));
    hide Holds;
    HijackedBy(y, Enter(id, QUIET));
  }

  lemma NamesEventfd(y: Sys, id: int)
    requires id in y.socks && y.socks[id].hfd in y.open && y.open[y.socks[id].hfd] == -1 - y.socks[id].worker
    ensures Hits(y, id)
  {
  }

  lemma AboutToTake(x: Sys, r0: Trace, y0: Sys, id: int, s: Sock, open: map<int, int>) returns (r: Trace, y: Sys)
    requires Leads(x, r0, y0) && Holds(y0, id, s, open) && OutboundOk(s)
    requires s.work == RunTask(TSend) && !s.locked && !s.reg && !s.cache.wr
    requires s.hfd in open && open[s.hfd] == -1 - s.worker
    ensures Leads(x, r, y) && y.hijacked
  {
    hide Leads, Holds, OutboundOk, Inv, Enabled, Do, Hits, Provokes;
    HoldsMeans(y0, id, s, open);
    NamesEventfd(y0, id);
    WouldTake(y0, id, s, open);
    r, y := AfterStep(x, r0, y0, Enter(id, QUIET));
  }

  /** The takeover is real, whatever worker the socket is given: the device listens, a
      connection is refused at once, and its handle happens to name the eventfd of its
      worker.  task_send is about to give the eventfd's place in the poller to that handle. */
  lemma TakeoverRun(x: Sys, lfd: int, p: int, spare: Birth, id: int, fd: int, birth: Birth) returns (r: Trace)
    requires Built(x) && lfd >= 0 && lfd !in x.open && p > 0 && id > 0 && id != p
    requires fd >= 0 && fd !in x.open && fd != lfd
    requires !birth.mask.wr && birth.fd in x.open && x.open[birth.fd] == -1 - birth.worker
    ensures FromStart(r) && !Provoked(r) && Last(r).hijacked
  {
    var y, s;
    r, y := Underway(x, lfd, p, spare, id, fd, birth);
    hide Leads, Holds, OutboundOk, Inv, Enabled, Do, Hits, Provokes;
    var open := x.open[lfd := 0][fd := id];
    r, y, s := SendsOnRefused(x, r, y, id, Created(fd, birth), open);
    r, y := AboutToTake(x, r, y, id, s, open - {fd});
    LeadsIs(x, r, y);
  }
}
