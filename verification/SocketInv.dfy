/** What holds of each socket, whatever the interleaving, as long as the
    environment's socket() and listen() calls succeed. */
module SocketInv {
  import opened SocketFsm
  import opened Sequences
  import opened Sockets
  import opened Framing

  // ---- Events ----

  /** The events a socket raises, with their types. */
  predicate Proper(e: Raised) {
    e == Raised(Established, EV_CONNECTED) || e == Raised(SentEvent, EV_SENT)
    || e == Raised(ReceivedEvent, EV_RECEIVED) || e == Raised(ErrorEvent, EV_ERROR)
  }

  /** No event is queued twice, and each still carries its own type. */
  predicate EventsOk(events: seq<Raised>) {
    && (forall i :: 0 <= i < |events| ==> Proper(events[i]))
    && (forall i, j :: 0 <= i < j < |events| ==> events[i].id != events[j].id)
  }

  lemma QueuedAppend(events: seq<Raised>, e: Raised, id: EventId)
    ensures Queued(events + [e], id) <==> Queued(events, id) || e.id == id
  {
    var all := events + [e];
    if Queued(events, id) {
      var i :| 0 <= i < |events| && events[i].id == id;
      assert all[i].id == id;
    }
    if e.id == id {
      assert all[|events|].id == id;
    }
  }

  lemma QueuedTail(events: seq<Raised>, id: EventId)
    requires events != []
    ensures Queued(events, id) <==> events[0].id == id || Queued(events[1..], id)
    ensures EventsOk(events) ==> EventsOk(events[1..]) && !Queued(events[1..], events[0].id)
  {
    if Queued(events[1..], id) {
      var i :| 0 <= i < |events[1..]| && events[1..][i].id == id;
      assert events[i + 1].id == id;
    }
    if Queued(events, id) && events[0].id != id {
      var i :| 0 <= i < |events| && events[i].id == id;
      assert events[1..][i - 1].id == id;
    }
  }

  /** Raising an event that is not queued appends it and disturbs nothing. */
  lemma RaiseNew(s: Sock, id: EventId, typ: int)
    requires EventsOk(s.events) && Proper(Raised(id, typ)) && !Queued(s.events, id)
    ensures var e := Raised(id, typ);
            Raise(s, id, typ) == s.(events := s.events + [e], log := s.log.(raised := s.log.raised + [e]))
    ensures EventsOk(Raise(s, id, typ).events)
    ensures forall other :: Queued(Raise(s, id, typ).events, other) <==> Queued(s.events, other) || other == id
    ensures Logged(s) ==> Logged(Raise(s, id, typ))
  {
    var e := Raised(id, typ);
    forall other ensures Queued(Raise(s, id, typ).events, other) <==> Queued(s.events, other) || other == id {
      QueuedAppend(s.events, e, other);
    }
    Associates(s.log.handled, s.events, [e]);
  }

  /** Every event raised was handled or is queued, in order and with its own type. */
  predicate Logged(s: Sock) {
    s.log.raised == s.log.handled + s.events
  }

  lemma TakenLogged(s: Sock)
    requires Logged(s) && s.events != []
    ensures Logged(Taken(s))
  {
    Associates(s.log.handled, [s.events[0]], s.events[1..]);
    assert [s.events[0]] + s.events[1..] == s.events;
  }

  // ---- Parts of the invariant ----

  predicate Quiet(s: Sock) {
    && s.pend == [] && s.work == NoWork && !s.reg && s.buf == NO_BITS && s.events == []
    && s.queued == 0 && !s.busy && s.senders == 0
  }

  /** AddFd only meets open unregistered descriptors, no queued event is raised
      again, only outbound sockets use an unregistered handle, and no event is lost. */
  predicate HistoryOk(s: Sock) {
    !s.log.misuse && !s.log.clash && (s.log.stray ==> s.role == Outbound) && Logged(s)
  }

  /** The cached mask is the kernel's, every reported bit is still wanted, and so
      is every event the worker has in hand. */
  predicate PollOk(s: Sock) {
    && (s.reg ==> s.kernel == s.cache && s.fd >= 0 && s.hfd == s.fd)
    && (s.buf.rd ==> s.reg && s.cache.rd)
    && (s.buf.wr ==> s.reg && s.cache.wr)
    && (s.buf.er ==> s.reg)
    && (s.work.RunIo? ==>
          && s.reg
          && (s.work.event == FD_ERR || (s.work.event == FD_IN && s.cache.rd)
              || (s.work.event == FD_OUT && s.cache.wr)))
  }

  predicate Adds(t: Task) {
    t == TConnecting || t == TConnected
  }

  predicate AddQueued(s: Sock) {
    (|s.pend| > 0 && Adds(s.pend[0])) || (|s.pend| > 1 && Adds(s.pend[1]))
  }

  /** A task that will register the descriptor is queued or about to run. */
  predicate AddWaiting(s: Sock) {
    AddQueued(s) || (s.work.RunTask? && Adds(s.work.task))
  }

  predicate OutTask(t: Task) {
    t == TSend || Adds(t)
  }

  predicate Waits(s: Sock, t: Task) {
    (|s.pend| > 0 && s.pend[0] == t) || (|s.pend| > 1 && s.pend[1] == t) || s.work == RunTask(t)
  }

  /** task_send and one registering task, in any order; the latter fits the state. */
  predicate TasksOk(s: Sock) {
    && |s.pend| <= 2
    && (|s.pend| > 0 ==> OutTask(s.pend[0]))
    && (|s.pend| > 1 ==> OutTask(s.pend[1]) && (s.pend[0] == TSend <==> s.pend[1] != TSend))
    && (s.work.RunTask? ==> OutTask(s.work.task) && (Adds(s.work.task) ==> !AddQueued(s)))
    && (Waits(s, TConnecting) ==> s.st == CONNECTING)
    && (Waits(s, TConnected) ==> s.st == ACTIVE)
  }

  /** Some thread is about to be in the socket's context, or is in it: a queued event will be handled. */
  predicate Entered(s: Sock) {
    s.locked || s.pend != [] || s.work != NoWork || s.caller == CPush || s.caller == CExecSend
  }

  /** A task_send is queued ahead of the task that registers the descriptor, and so
      resets the mask. */
  predicate SendAhead(s: Sock) {
    |s.pend| > 1 && s.pend[0] == TSend && Adds(s.pend[1])
  }

  /** The task_send of the device's answer to a queued Connected event will be merged
      into one queued ahead: nobody can take that one before the event is handled. */
  predicate Swallowed(s: Sock) {
    SendAhead(s) && (s.locked || s.work != NoWork)
  }

  /** Somebody still has to act on the outgoing queue: the kernel, which polls the
      descriptor for OUT with no AddFd about to reset the mask; the worker, with a
      task_send that no registering task follows; a thread that is inside SendMsg; or
      the device, with a Connected event in a context that somebody is in or will
      enter, and whose task_send will not be lost. */
  predicate Cared(s: Sock) {
    || (s.reg && s.kernel.wr && s.cache.wr && !AddWaiting(s))
    || (TSend in s.pend && !SendAhead(s)) || (s.work == RunTask(TSend) && !AddWaiting(s))
    || s.senders > 0 || s.caller != CNone
    || (Queued(s.events, Established) && Entered(s) && !Swallowed(s))
  }

  /** Nothing a sender left behind is forgotten, unless every task_send merged into
      one ahead of task_connected. */
  predicate Awake(s: Sock) {
    s.st == ACTIVE && !s.log.missed ==>
      && (s.queued > 0 || s.busy ==> Cared(s))
      && (AddWaiting(s) ==> TSend in s.pend || s.caller != CNone)
  }

  /** And then it is forgotten: the message of the creator stays, and OUT stays disarmed. */
  predicate MissedOk(s: Sock) {
    && (s.pend == [TSend, TConnected] ==> s.log.missed)
    && (s.log.missed ==>
          && !EarlyCaller(s) && s.caller != CRaiseError && !s.log.refused && !s.busy && s.st != CONNECTING
          && (s.caller == CExecSend || s.caller == CNone ==> s.queued > 0)
          && (TSend in s.pend ==> s.pend == [TSend, TConnected])
          && (s.work == RunTask(TSend) ==> s.pend == [TConnected] || s.pend == [TSend, TConnected])
          && (s.reg ==> s.pend == [] && !s.cache.wr))
  }

  predicate OutboundOk(s: Sock) {
    OutboundCore(s) && Awake(s) && MissedOk(s)
  }

  predicate OutboundCore(s: Sock) {
    && s.role == Outbound && s.started && s.asock == None
    && HistoryOk(s) && PollOk(s) && TasksOk(s) && EventsOk(s.events)
    && (s.st == CONNECTING || s.st == ACTIVE || s.st == DONE)
    && (s.fd >= 0 <==> s.st != DONE)
    && (EarlyCaller(s) ==> !s.reg && !AddWaiting(s) && s.events == [] && !s.busy && s.st != DONE)
    && (s.caller == CConnect || s.caller == CExecConnecting ==> s.st == CONNECTING)
    && (s.caller == CExecConnected || s.caller == CRaiseConnected ==>
          (s.st == ACTIVE || s.st == DONE) && !Queued(s.events, Established))
    && (s.caller == CExecConnected ==> s.st == ACTIVE)
    && (s.caller == CRaiseError ==> s.log.refused && !Queued(s.events, ErrorEvent))
    && (s.st == CONNECTING ==> s.events == [] && !s.busy)
    && (s.st == CONNECTING && s.reg ==> s.cache.wr)
    && (s.reg ==> !s.cache.rd)
    && (s.st != DONE && !EarlyCaller(s) ==> (s.reg <==> !AddWaiting(s)))
    && (s.st == DONE ==> !s.reg && !AddWaiting(s) && (Queued(s.events, ErrorEvent) || s.caller == CRaiseError))
    && (s.st == DONE && !s.locked ==> s.log.refused) && (s.log.refused ==> s.st == DONE)
    && (s.st != DONE ==> !Queued(s.events, ErrorEvent))
    && (!s.locked ==> !Queued(s.events, SentEvent) && !Queued(s.events, ReceivedEvent))
    && (s.locked ==> s.work == NoWork)
    && (s.events != [] ==> Entered(s))
  }

  /** task_send finds the handle unregistered: its creator has not come far enough, the
      registering task is still behind, or connect() failed at once. */
  predicate TooSoon(s: Sock) {
    EarlyCaller(s) || AddQueued(s) || s.log.refused
  }

  lemma UnregisteredIffTooSoon(s: Sock)
    requires SockOk(s) && s.role == Outbound && s.work == RunTask(TSend)
    ensures !s.reg <==> TooSoon(s)
  {
  }

  predicate InboundOk(s: Sock) {
    && s.role == Inbound && s.started && s.caller == CNone && HistoryOk(s) && PollOk(s) && EventsOk(s.events)
    && s.queued == 0 && !s.busy && s.senders == 0
    && (s.st == BEING_ACCEPTED || s.st == ACCEPTED || s.st == ACTIVE || s.st == DONE)
    && (s.st == BEING_ACCEPTED ==> s.fd == -1 && Quiet(s) && !s.locked && s.asock == Some(0))
    && (s.st != BEING_ACCEPTED ==> s.asock == None)
    && (s.st == ACCEPTED ==> s.fd >= 0 && Quiet(s))
    && (s.st == ACTIVE ==> s.fd >= 0 && s.reg && !s.cache.wr && !Queued(s.events, ErrorEvent))
    && (s.st == DONE ==> s.fd == -1 && !s.reg && Queued(s.events, ErrorEvent))
    && (|s.pend| > 0 ==> |s.pend| == 1 && s.pend[0] == TRecv) && (s.work.RunTask? ==> s.work.task == TRecv)
    && (!s.locked ==> s.events == []) && !Queued(s.events, Established)
  }

  /** The listener on its own; who else is involved is in the pairing invariant. */
  predicate ListenerOk(s: Sock) {
    && s.role == Listener && s.caller == CNone && HistoryOk(s) && PollOk(s)
    && s.queued == 0 && !s.busy && s.senders == 0
    && (s.st == IDLE || s.st == STARTING || s.st == LISTENING || s.st == ACCEPTING || s.st == ACCEPTING_ERROR)
    && (s.st == IDLE <==> !s.started) && (s.st == IDLE <==> s.fd == -1) && (s.fd == -1 || s.fd >= 0)
    && (s.st != ACCEPTING && s.st != ACCEPTING_ERROR ==> Quiet(s) && s.asock == None)
    && (s.st == ACCEPTING_ERROR ==>
          && s.locked && s.events == [Raised(ErrorEvent, EV_ACCEPT_ERROR)]
          && s.pend == [] && s.work == NoWork && !s.reg && s.buf == NO_BITS)
    && (s.st == ACCEPTING || s.st == ACCEPTING_ERROR ==> s.asock.Some?)
    && (s.st == ACCEPTING ==>
          && s.events == []
          && (s.pend == [] || (s.pend == [TAccept] && s.work == NoWork))
          && (s.work.RunTask? ==> s.work.task == TAccept)
          && (s.pend != [] || s.work.RunTask? ==> !s.reg)
          && (s.reg ==> s.cache.rd && !s.cache.wr && !s.buf.er)
          && (s.work.RunIo? ==> s.work.event == FD_IN))
    && (s.locked ==> s.work == NoWork)
  }

  /** An active accepted socket is polled for IN, or task_recv is on its way to arm it. */
  predicate Receives(s: Sock) {
    (s.reg && s.kernel.rd && s.cache.rd) || TRecv in s.pend || s.work == RunTask(TRecv)
  }

  predicate Deaf(s: Sock) {
    s.role == Inbound && s.st == ACTIVE && !Receives(s)
  }

  /** The listener is polled for IN, or task_accept is on its way to register and arm it. */
  predicate Listens(l: Sock) {
    (l.reg && l.kernel.rd && l.cache.rd) || TAccept in l.pend || l.work == RunTask(TAccept)
  }

  predicate SockOk(s: Sock) {
    match s.role
    case Outbound => OutboundOk(s)
    case Inbound => InboundOk(s)
    case Listener => ListenerOk(s)
  }

  // ---- The socket's own steps ----

  lemma PopOk(s: Sock)
    requires SockOk(s) && s.work == NoWork && s.pend != [] && (s.locked ==> s.role == Inbound)
    ensures var u := s.(work := RunTask(s.pend[0]), pend := s.pend[1..]); SockOk(u) && Hears(s, u)
  {
  }

  lemma WaitOk(s: Sock, bits: Bits)
    requires SockOk(s) && s.work == NoWork && s.buf == NO_BITS && s.reg && (bits.rd ==> s.kernel.rd)
        && (bits.wr ==> s.kernel.wr)
    requires bits.er ==> s.role != Listener
    ensures SockOk(s.(buf := bits)) && Hears(s, s.(buf := bits))
  {
  }

  lemma FetchOk(s: Sock)
    requires SockOk(s) && s.work == NoWork && s.buf != NO_BITS && (s.locked ==> s.role == Inbound)
    ensures var b := s.buf;
            var e := if b.rd then (FD_IN, b.(rd := false)) else if b.wr then (FD_OUT, b.(wr := false))
                else (FD_ERR, NO_BITS);
            var u := s.(work := RunIo(e.0), buf := e.1);
            SockOk(u) && Hears(s, u)
  {
    hide Dispatch;
  }

  /** The worker enters the context with its task or descriptor event in hand. */
  function Inside(s: Sock): Sock {
    s.(locked := true, work := NoWork)
  }

  /** What the worker's handling of a task or event leaves alone. */
  predicate Moves(s: Sock, u: Sock) {
    && u.role == s.role && u.asock == s.asock && u.locked
    && (u.fd == s.fd || (u.fd < 0 && !u.reg && s.role != Listener))
    && (u.st == s.st || (s.role != Listener && s.st != BEING_ACCEPTED && s.st != ACCEPTED && u.st != BEING_ACCEPTED
        && u.st != ACCEPTED))
    && Hears(s, u)
  }

  /** Whoever was to get IN events still is. */
  predicate Hears(s: Sock, u: Sock) {
    (Deaf(u) ==> Deaf(s)) && (s.role == Listener && Listens(s) ==> Listens(u))
  }

  lemma OutboundHears(s: Sock, u: Sock)
    requires s.role == Outbound && u.role == Outbound
    ensures Hears(s, u)
  {
  }

  lemma SendTaskOk(s: Sock)
    requires OutboundOk(s) && !s.locked && s.work == RunTask(TSend)
    ensures OutboundOk(SetOut(Inside(s))) && Moves(s, SetOut(Inside(s)))
  {
    hide Queued, EventsOk, Hears;
    OutboundHears(s, SetOut(Inside(s)));
  }

  lemma ConnectingTaskOk(s: Sock)
    requires OutboundOk(s) && !s.locked && s.work == RunTask(TConnecting)
    ensures OutboundOk(SetOut(AddFd(Inside(s)))) && Moves(s, SetOut(AddFd(Inside(s))))
  {
    hide Queued, EventsOk, Hears;
    OutboundHears(s, SetOut(AddFd(Inside(s))));
  }

  lemma ConnectedTaskOk(s: Sock)
    requires OutboundOk(s) && !s.locked && s.work == RunTask(TConnected)
    ensures OutboundOk(AddFd(Inside(s))) && Moves(s, AddFd(Inside(s)))
  {
    hide Queued, EventsOk, Hears;
    OutboundHears(s, AddFd(Inside(s)));
  }

  lemma OutboundTaskOk(s: Sock)
    requires OutboundOk(s) && !s.locked && s.work.RunTask?
    ensures Internal(TaskSource(s.work.task))
    ensures var u := InternalTask(Inside(s), TaskSource(s.work.task)); OutboundOk(u) && Moves(s, u)
  {
    hide SetOut, AddFd, OutboundCore, Awake, MissedOk, Moves;
    OutboundTasks(s);
    match s.work.task
    case TSend => SendTaskOk(s);
    case TConnecting => ConnectingTaskOk(s);
    case TConnected => ConnectedTaskOk(s);
  }

  lemma OutboundTasks(s: Sock)
    requires OutboundCore(s) && s.work.RunTask?
    ensures s.work.task == TSend || s.work.task == TConnecting || s.work.task == TConnected
  {
  }

  lemma OutboundBrokenOk(s: Sock)
    requires OutboundCore(s) && MissedOk(s) && s.st != DONE && s.reg && s.locked
    ensures OutboundOk(Broken(s)) && Moves(s, Broken(s))
  {
    RaiseNew(CloseFd(RmFd(s)).(st := DONE), ErrorEvent, EV_ERROR);
  }

  lemma InboundBrokenOk(s: Sock)
    requires InboundOk(s) && s.st == ACTIVE && s.locked && s.work == NoWork
    ensures InboundOk(Broken(s)) && Moves(s, Broken(s))
  {
    RaiseNew(CloseFd(RmFd(s)).(st := DONE), ErrorEvent, EV_ERROR);
  }

  lemma ConnectedOk(s: Sock)
    requires OutboundOk(s) && s.st == CONNECTING && s.reg && s.locked
    ensures var u := Raise(ResetOut(s).(st := ACTIVE), Established, EV_CONNECTED); OutboundOk(u) && Moves(s, u)
  {
    RaiseNew(ResetOut(s).(st := ACTIVE), Established, EV_CONNECTED);
    hide Enqueued, Hears;
    OutboundHears(s, Raise(ResetOut(s).(st := ACTIVE), Established, EV_CONNECTED));
  }

  lemma ConnectReadyOk(s: Sock, k: Kernel)
    requires OutboundOk(s) && s.st == CONNECTING && s.reg && s.locked
    ensures var u := Perform(s, ConnectReady, k); OutboundOk(u) && Moves(s, u)
  {
    if k.soError == 0 {
      ConnectedOk(s);
      hide OutboundOk, Moves, Raise, ResetOut;
    } else {
      OutboundBrokenOk(ResetOut(s).(st := ACTIVE));
    }
  }

  lemma SendArmOk(s: Sock, k: Kernel)
    requires OutboundOk(s) && s.st == ACTIVE && s.reg && s.cache.wr && s.locked && !Queued(s.events, SentEvent)
    ensures OutboundOk(SendArm(s, k)) && Moves(s, SendArm(s, k))
  {
    hide SockOk;
    if s.busy || s.queued > 0 {
      var d := if s.busy then s else s.(queued := s.queued - 1, busy := true);
      if k.sent == Complete {
        RaiseNew(d.(busy := false), SentEvent, EV_SENT);
      }
    }
  }

  lemma OutboundIoOk(s: Sock, k: Kernel)
    requires OutboundOk(s) && !s.locked && s.work.RunIo?
    ensures var d := Dispatch(s.st, SRC_FD, s.work.event);
            && d.bad == 0 && (d.arm == ConnectReady || d.arm == FdBroken || d.arm == Send)
            && var u := Perform(Inside(s), d.arm, k); OutboundOk(u) && Moves(s, u)
  {
    OutboundIo(s);
    var t := Inside(s);
    InsideOutbound(s);
    hide SendArm, Broken, ResetOut, OutboundOk, Dispatch;
    if s.work.event == FD_ERR {
      OutboundBrokenOk(t);
    } else if s.st == CONNECTING {
      ConnectReadyOk(t, k);
    } else {
      SendArmOk(t, k);
    }
  }

  lemma InsideOutbound(s: Sock)
    requires OutboundOk(s) && !s.locked && s.work.RunIo?
    ensures var t := Inside(s); OutboundOk(t) && OutboundCore(t) && MissedOk(t)
    ensures s.reg && s.st != DONE && !Queued(s.events, SentEvent)
    ensures s.work.event == FD_ERR || (s.work.event == FD_OUT && s.cache.wr)
  {
  }

  lemma OutboundIo(s: Sock)
    requires OutboundOk(s) && !s.locked && s.work.RunIo?
    ensures var d := Dispatch(s.st, SRC_FD, s.work.event);
            && (s.st == CONNECTING || s.st == ACTIVE) && d.bad == 0
            && d.arm == if s.work.event == FD_ERR then FdBroken else if s.st == CONNECTING then ConnectReady else Send
  {
    hide Awake, MissedOk, EventsOk, Queued;
  }

  lemma InboundTaskOk(s: Sock)
    requires InboundOk(s) && !s.locked && s.work.RunTask?
    ensures Internal(TaskSource(s.work.task))
    ensures var u := InternalTask(Inside(s), TaskSource(s.work.task)); InboundOk(u) && Moves(s, u)
  {
    hide OutboundOk;
  }

  lemma InboundIo(s: Sock)
    requires InboundOk(s) && !s.locked && s.work.RunIo?
    ensures s.st == ACTIVE && s.reg && (s.work.event == FD_ERR || s.work.event == FD_IN)
    ensures InboundOk(Inside(s)) && !Queued(s.events, ReceivedEvent)
  {
  }

  lemma InboundReceiveOk(s: Sock)
    requires InboundOk(s) && s.st == ACTIVE && s.locked && !Queued(s.events, ReceivedEvent)
    ensures var u := Raise(s, ReceivedEvent, EV_RECEIVED); InboundOk(u) && Moves(s, u)
  {
    RaiseNew(s, ReceivedEvent, EV_RECEIVED);
  }

  lemma InboundIoOk(s: Sock, k: Kernel)
    requires InboundOk(s) && !s.locked && s.work.RunIo?
    ensures var d := Dispatch(s.st, SRC_FD, s.work.event);
            && d.bad == 0 && (d.arm == Receive || d.arm == FdBroken)
            && var u := Perform(Inside(s), d.arm, k); InboundOk(u) && Moves(s, u)
  {
    InboundIo(s);
    var t := Inside(s);
    hide InboundOk, Raise, Broken;
    if s.work.event == FD_ERR {
      InboundBrokenOk(t);
    } else if k.received == Complete {
      InboundReceiveOk(t);
    }
  }

  lemma ListenerTaskOk(s: Sock)
    requires ListenerOk(s) && !s.locked && s.work.RunTask?
    ensures Internal(TaskSource(s.work.task))
    ensures var u := InternalTask(Inside(s), TaskSource(s.work.task)); ListenerOk(u) && Moves(s, u)
  {
  }

  lemma TakenEvents(s: Sock)
    requires EventsOk(s.events) && s.events != []
    ensures Proper(s.events[0]) && EventsOk(Taken(s).events)
    ensures forall id :: Queued(s.events, id) <==> s.events[0].id == id || Queued(Taken(s).events, id)
    ensures !Queued(Taken(s).events, s.events[0].id)
  {
    forall id {
      QueuedTail(s.events, id);
    }
  }

  lemma OutboundDrainOk(s: Sock)
    requires OutboundOk(s) && s.locked && s.events != [] && s.events[0].typ != EV_ERROR
    ensures OutboundOk(Drained(s))
  {
    TakenEvents(s);
    TakenLogged(s);
    hide Queued, EventsOk, Logged;
  }

  lemma InboundDrainOk(s: Sock)
    requires InboundOk(s) && s.locked && s.events != [] && s.events[0].typ != EV_ERROR
    ensures Drained(s) == Taken(s) && InboundOk(Drained(s))
  {
    TakenEvents(s);
    TakenLogged(s);
    hide Queued, EventsOk, Logged;
  }

  lemma DrainOk(s: Sock)
    requires SockOk(s) && s.role != Listener && s.locked && s.events != []
    requires s.events[0].typ != EV_ERROR
    ensures Proper(s.events[0])
    ensures var u := Drained(s);
            SockOk(u) && u.fd == s.fd && u.st == s.st && u.locked && u.role == s.role && Hears(s, u)
  {
    TakenEvents(s);
    if s.role == Outbound {
      OutboundDrainOk(s);
    } else {
      InboundDrainOk(s);
    }
  }

  lemma LeaveOk(s: Sock)
    requires SockOk(s) && s.locked && s.events == [] && s.role != Listener
    ensures SockOk(s.(locked := false))
  {
    hide Dispatch;
  }

  lemma SenderPushOk(s: Sock)
    requires OutboundOk(s)
    ensures OutboundOk(Pushed(s)) && Pushed(s).fd == s.fd
  {
  }

  lemma SenderPostOk(s: Sock)
    requires OutboundOk(s) && s.senders > 0
    ensures OutboundOk(Posted(s)) && Posted(s).fd == s.fd
  {
  }

  // ---- Steps of the thread that creates an outbound socket ----

  function Created(fd: int, birth: Birth): Sock {
    Fresh(Outbound, birth).(fd := fd, started := true, caller := CConnect, st := CONNECTING)
  }

  lemma CreatedOk(fd: int, birth: Birth)
    requires fd >= 0
    ensures OutboundOk(Created(fd, birth))
  {
  }

  lemma ConnectOk(s: Sock)
    requires OutboundOk(s) && s.caller == CConnect
    ensures OutboundOk(s.(caller := CExecConnecting))
    ensures OutboundOk(s.(st := ACTIVE, caller := CExecConnected))
    ensures OutboundOk(Refuse(s).(caller := CRaiseError))
  {
    hide SockOk;
  }

  lemma CallerRaisesOk(s: Sock)
    requires OutboundOk(s) && (s.caller == CRaiseConnected || s.caller == CRaiseError)
    ensures OutboundOk(CallerNext(s)) && CallerNext(s).fd == s.fd
  {
    hide Enqueued, Queued;
    if s.caller == CRaiseConnected {
      RaiseNew(s, Established, EV_CONNECTED);
    } else {
      RaiseNew(s, ErrorEvent, EV_ERROR);
    }
  }

  lemma ConnectedPostOk(s: Sock)
    requires OutboundOk(s) && s.caller == CExecConnected
    ensures OutboundOk(Post(s, TConnected).(caller := CRaiseConnected))
  {
  }

  lemma ConnectingPostOk(s: Sock)
    requires OutboundOk(s) && s.caller == CExecConnecting
    ensures OutboundOk(Post(s, TConnecting).(caller := CPush))
  {
  }

  lemma CallerPushOk(s: Sock)
    requires OutboundOk(s) && s.caller == CPush
    ensures OutboundOk(s.(queued := s.queued + 1, caller := CExecSend))
  {
  }

  lemma SendPostOk(s: Sock)
    requires OutboundOk(s) && s.caller == CExecSend
    ensures OutboundOk(Post(s, TSend).(caller := CNone))
  {
  }

  lemma CallerPostsOk(s: Sock)
    requires OutboundOk(s) && (s.caller == CExecConnected || s.caller == CExecConnecting || s.caller == CPush
        || s.caller == CExecSend)
    ensures OutboundOk(CallerNext(s)) && CallerNext(s).fd == s.fd
  {
    hide OutboundOk;
    match s.caller
    case CExecConnected => ConnectedPostOk(s);
    case CExecConnecting => ConnectingPostOk(s);
    case CPush => CallerPushOk(s);
    case CExecSend => SendPostOk(s);
  }

  lemma CallerNextOk(s: Sock)
    requires OutboundOk(s) && s.caller != CConnect && s.caller != CNone
    ensures OutboundOk(CallerNext(s)) && CallerNext(s).fd == s.fd
  {
    hide OutboundOk, CallerNext;
    if s.caller == CRaiseConnected || s.caller == CRaiseError {
      CallerRaisesOk(s);
    } else {
      CallerPostsOk(s);
    }
  }

  // ---- Steps of the thread that pairs and delivers ----

  lemma ActivateOk(s: Sock)
    requires InboundOk(s) && s.st == ACCEPTED
    ensures Dispatch(s.st, ACTION, ACT_ACTIVATE) == Run(DoActivate)
    ensures forall k :: InboundOk(Perform(s, DoActivate, k)) && Perform(s, DoActivate, k).fd == s.fd
  {
  }

  lemma RecvPostOk(s: Sock)
    requires InboundOk(s) && (s.st == ACTIVE || s.st == DONE)
    ensures var u := Post(s, TRecv); InboundOk(u) && u.st == s.st && u.locked == s.locked && u.fd == s.fd
    ensures !Deaf(Post(s, TRecv))
  {
  }

  function Paired(birth: Birth): Sock {
    Fresh(Inbound, birth).(started := true, st := BEING_ACCEPTED, asock := Some(0))
  }

  lemma PairedOk(birth: Birth)
    ensures InboundOk(Paired(birth))
  {
  }

  /** A connection is accepted: the listener is free of it, the partner owns the descriptor. */
  lemma AcceptArmOk(l: Sock, p: Sock, fd: int)
    requires ListenerOk(l) && l.st == ACCEPTING && l.reg && l.locked && l.pend == [] && l.work == NoWork
    requires InboundOk(p) && p.st == BEING_ACCEPTED && fd >= 0
    ensures ListenerOk(AcceptArm(l, p, fd).0) && InboundOk(AcceptArm(l, p, fd).1)
  {
  }
}
