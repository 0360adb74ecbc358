/** Each outbound socket as a machine of its own: which of the engine's steps it can
    take, and what they make of it, depends on nothing but its own record. */
module EngineSockets {
  import opened SocketFsm
  import opened Sequences
  import opened Sockets
  import opened SocketInv
  import opened Engine
  import opened EngineInv

  /** The steps that belong to an existing socket; step.id says which. */
  predicate Own(step: Step) {
    || step.Connect? || step.CallerStep? || step.SenderPush? || step.SenderPost? || step.Pop? || step.Wait?
    || step.Fetch? || step.Enter? || step.Drain? || step.Leave?
  }

  /** The socket's record allows the step. */
  predicate Ready(s: Sock, step: Step) {
    match step
    case Connect(_, res) => s.caller == CConnect && (s.fd < 0 ==> res.Refused?)
    case CallerStep(_) => s.caller != CConnect && s.caller != CNone
    case SenderPush(_) => true
    case SenderPost(_) => s.senders > 0
    case Pop(_) => !s.locked && s.work == NoWork && s.pend != []
    case Wait(_, bits) =>
      && !s.locked && s.work == NoWork && s.buf == NO_BITS && s.reg
      && (bits.rd ==> s.kernel.rd) && (bits.wr ==> s.kernel.wr)
    case Fetch(_) => !s.locked && s.work == NoWork && s.buf != NO_BITS
    case Enter(_, _) => !s.locked && s.work != NoWork
    case Drain(_) => s.locked && s.events != []
    case Leave(_) => s.locked && s.events == []
    case _ => false
  }

  /** What the step makes of it; an Error event stays, as it ends the process. */
  function Next(s: Sock, step: Step): Sock
    requires OutboundOk(s) && Ready(s, step)
  {
    match step
    case Connect(_, InProgress) => s.(caller := CExecConnecting)
    case Connect(_, Connected) => s.(st := ACTIVE, caller := CExecConnected)
    case Connect(_, Refused) => Refuse(s).(caller := CRaiseError)
    case CallerStep(_) => CallerNext(s)
    case SenderPush(_) => Pushed(s)
    case SenderPost(_) => Posted(s)
    case Pop(_) => s.(work := RunTask(s.pend[0]), pend := s.pend[1..])
    case Wait(_, bits) => s.(buf := bits)
    case Fetch(_) => s.(work := RunIo(NextIo(s.buf).0), buf := NextIo(s.buf).1)
    case Enter(_, k) => Entering(s, k)
    case Drain(_) => if s.events[0].typ == EV_ERROR then s else Drained(s)
    case Leave(_) => s.(locked := false)
  }

  function Entering(s: Sock, k: Kernel): Sock
    requires OutboundOk(s) && !s.locked && s.work != NoWork
  {
    OutboundEnters(s, k);
    Handle(Inside(s), Source(s.work).0, Source(s.work).1, k)
  }

  lemma OutboundEnters(s: Sock, k: Kernel)
    requires OutboundOk(s) && !s.locked && s.work != NoWork
    ensures !Accepting(s)
    ensures var src, typ := Source(s.work).0, Source(s.work).1;
            && (Internal(src) || Clean(Dispatch(s.st, src, typ)))
            && var u := Handle(Inside(s), src, typ, k); OutboundOk(u) && Moves(s, u)
  {
    NotAccepting(s);
    IsOutbound(s);
    hide OutboundOk, Moves, Handle, Dispatch, InboundOk, ListenerOk;
    EnteredOk(s, k);
  }

  lemma IsOutbound(s: Sock)
    requires OutboundOk(s)
    ensures s.role == Outbound && SockOk(s)
  {
  }

  lemma NotAccepting(s: Sock)
    requires OutboundOk(s)
    ensures !Accepting(s)
  {
    hide Awake, MissedOk, EventsOk, Queued;
  }

  lemma WorkerNextOk(s: Sock, step: Step)
    requires OutboundOk(s) && Ready(s, step) && (step.Pop? || step.Wait? || step.Fetch? || step.Leave?)
    ensures OutboundOk(Next(s, step))
  {
    IsOutbound(s);
    hide OutboundOk;
    match step
    case Pop(_) => PopOk(s);
    case Wait(_, bits) => WaitOk(s, bits);
    case Fetch(_) => FetchOk(s);
    case Leave(_) => LeaveOk(s);
  }

  lemma DrainNextOk(s: Sock, step: Step)
    requires OutboundOk(s) && Ready(s, step) && step.Drain?
    ensures OutboundOk(Next(s, step))
  {
    hide OutboundOk, Drained;
    if s.events[0].typ != EV_ERROR {
      OutboundDrainOk(s);
    }
  }

  lemma NextOk(s: Sock, step: Step)
    requires OutboundOk(s) && Ready(s, step)
    ensures OutboundOk(Next(s, step))
  {
    hide OutboundOk, CallerNext, Pushed, Posted, Handle, Dispatch, Refuse;
    match step
    case Connect(_, _) => ConnectOk(s);
    case CallerStep(_) => CallerNextOk(s);
    case SenderPush(_) => SenderPushOk(s);
    case SenderPost(_) => SenderPostOk(s);
    case Enter(_, k) => OutboundEnters(s, k);
    case Drain(_) => DrainNextOk(s, step); hide Next;
    case _ => WorkerNextOk(s, step); hide Next;
  }

  // ---- The engine's steps, seen from one outbound socket ----

  predicate Alive(y: Sys) {
    !y.fatal && !y.hijacked
  }

  predicate IsOut(y: Sys, id: int) {
    id in y.socks && y.socks[id].role == Outbound
  }

  lemma NotDelivered(y: Sys, id: int)
    requires Inv(y) && IsOut(y, id)
    ensures OutboundOk(y.socks[id]) && id != 0 && 0 in y.socks && y.socks[id].started && !Delivering(y.driver, id)
  {
    SockAt(y, id);
    hide SocksOk, FdsOk, PartnersOk, ExternalOk, HistoriesOk, ListenerOk, InboundOk;
    DeliversInbound(y.socks, y.driver, id);
  }

  /** The engine allows a step of the socket exactly when the socket's own record does. */
  lemma EnabledIffReady(y: Sys, step: Step)
    requires Inv(y) && Alive(y) && Own(step) && IsOut(y, step.id)
    ensures Enabled(y, step) <==> Ready(y.socks[step.id], step)
  {
    hide SockOk;
    NotDelivered(y, step.id);
    hide Inv, OutboundOk, Dispatch, Delivering, Accepting;
    if step.Enter? {
      NotAccepting(y.socks[step.id]);
    }
  }

  /** The one step of a socket that looks at another's descriptor, and the one that ends the process. */
  predicate Ends(y: Sys, step: Step)
    requires Own(step) && step.id in y.socks
  {
    var s := y.socks[step.id];
    (step.Enter? && Hijacks(y, step.id)) || (step.Drain? && s.events != [] && s.events[0].typ == EV_ERROR)
  }

  lemma OwnStep(y: Sys, step: Step)
    requires Inv(y) && Enabled(y, step) && Own(step) && IsOut(y, step.id) && !Ends(y, step)
    ensures var s := y.socks[step.id];
            OutboundOk(s) && Ready(s, step) && Do(y, step) == Update(y, step.id, Next(s, step))
  {
    hide SockOk;
    NotDelivered(y, step.id);
    EnabledIffReady(y, step);
    if step.Enter? {
      EnterIs(y, step.id, step.k);
    } else if step.Connect? {
      ConnectIs(y, step.id, step.res);
    } else if step.Drain? {
      DrainIs(y, step.id);
    } else {
      hide Inv, Enabled, OutboundOk, Update, Ready, CallerNext, Pushed, Posted;
    }
  }

  lemma EnterIs(y: Sys, id: int, k: Kernel)
    requires Inv(y) && IsOut(y, id) && OutboundOk(y.socks[id]) && Enabled(y, Enter(id, k)) && !Hijacks(y, id)
    requires Ready(y.socks[id], Enter(id, k))
    ensures Do(y, Enter(id, k)) == Update(y, id, Next(y.socks[id], Enter(id, k)))
  {
    var s := y.socks[id];
    OutboundEnters(s, k);
    hide Inv, OutboundOk, Handle, Feed, Update, Hijacks, Dispatch, Moves;
    FeedIs(y, id, Inside(s), Source(s.work).0, Source(s.work).1, k);
  }

  lemma ConnectIs(y: Sys, id: int, res: ConnectResult)
    requires Inv(y) && IsOut(y, id) && OutboundOk(y.socks[id]) && Enabled(y, Connect(id, res))
    requires Ready(y.socks[id], Connect(id, res))
    ensures Do(y, Connect(id, res)) == Update(y, id, Next(y.socks[id], Connect(id, res)))
  {
    NotBroken(y);
    ConnectDispatches(y.socks[id]);
    hide Inv, OutboundOk, Update, Dispatch;
    assert y.(bad := false, outside := false) == y;
  }

  lemma DrainIs(y: Sys, id: int)
    requires Inv(y) && IsOut(y, id) && OutboundOk(y.socks[id]) && Enabled(y, Drain(id))
    requires y.socks[id].events != [] && y.socks[id].events[0].typ != EV_ERROR && Ready(y.socks[id], Drain(id))
    ensures Do(y, Drain(id)) == Update(y, id, Next(y.socks[id], Drain(id)))
  {
    var s := y.socks[id];
    TakenEvents(s);
    hide Inv, OutboundOk, Update, Drained;
  }

  /** An outbound socket's steps depend on its own record, and nobody else's step changes it. */
  lemma SeenFrom(y: Sys, step: Step, id: int)
    requires Inv(y) && Enabled(y, step) && !Provokes(y, step) && IsOut(y, id)
    ensures IsOut(Do(y, step), id) && OutboundOk(y.socks[id])
    ensures var s, t := y.socks[id], Do(y, step).socks[id];
            if Own(step) && step.id == id && !Ends(y, step) then Ready(s, step) && t == Next(s, step) else t == s
  {
    NotDelivered(y, id);
    hide Inv, Enabled, Do, Provokes, Update, Next, Ready, OutboundOk;
    if !Own(step) {
      ForeignStep(y, step, id);
    } else if step.id != id {
      hide Ends;
      OtherStep(y, step, id);
    } else if Ends(y, step) {
      EndsAlone(y, step);
    } else {
      hide Ends;
      OwnStep(y, step);
      NextKeeps(y.socks[id], step);
      UpdateAt(y, id, Next(y.socks[id], step));
    }
  }

  lemma UpdateAt(y: Sys, id: int, s: Sock)
    requires id in y.socks
    ensures var z := Update(y, id, s); z.socks == y.socks[id := s] && z.fatal == y.fatal && z.hijacked == y.hijacked
    ensures Update(y, id, s).open == OpenAfter(y.open, y.socks[id], s)
  {
  }

  /** An outbound socket and the open descriptors, at a point where the process goes on. */
  predicate Holds(y: Sys, id: int, s: Sock, open: map<int, int>) {
    Inv(y) && Alive(y) && IsOut(y, id) && y.socks[id] == s && y.open == open && OutboundOk(s)
  }

  lemma HoldsNow(y: Sys, id: int)
    requires Inv(y) && Alive(y) && IsOut(y, id)
    ensures Holds(y, id, y.socks[id], y.open) && OutboundOk(y.socks[id])
  {
    NotDelivered(y, id);
    hide Inv;
  }

  lemma HoldsMeans(y: Sys, id: int, s: Sock, open: map<int, int>)
    requires Holds(y, id, s, open)
    ensures Inv(y) && Alive(y) && IsOut(y, id) && id in y.socks
    ensures y.socks[id] == s && y.open == open && OutboundOk(s)
  {
    hide Inv, OutboundOk;
  }

  /** The step is no call on a handle that names an open descriptor, and hands no Error to the device. */
  predicate Plain(s: Sock, open: map<int, int>, step: Step) {
    && (step.Enter? && s.work.RunTask? ==> !Mods(s, TaskSource(s.work.task)) || s.hfd !in open)
    && (step.Drain? ==> s.events != [] && s.events[0].typ != EV_ERROR)
  }

  lemma PlainGoesOn(y: Sys, id: int, s: Sock, open: map<int, int>, step: Step)
    requires Holds(y, id, s, open) && Own(step) && step.id == id && Plain(s, open, step)
    ensures !Ends(y, step)
  {
    hide Inv, OutboundOk;
  }

  function OpenAfter(open: map<int, int>, s: Sock, t: Sock): map<int, int> {
    if s.fd >= 0 && t.fd < 0 then open - {s.fd} else open
  }

  lemma StepTaken(y: Sys, s: Sock, step: Step)
    requires Inv(y) && Alive(y) && Own(step) && IsOut(y, step.id) && s == y.socks[step.id] && OutboundOk(s)
    requires Ready(s, step) && !Ends(y, step)
    ensures Enabled(y, step) && !Provokes(y, step) && Do(y, step) == Update(y, step.id, Next(s, step))
    ensures Inv(Do(y, step)) && OutboundOk(Next(s, step)) && Next(s, step).role == Outbound
  {
    EnabledIffReady(y, step);
    assert !Provokes(y, step);
    hide Enabled, Do, Next, Ready, OutboundOk, Inv, Ends, Update, Provokes, Alive;
    OwnStep(y, step);
    StepKeeps(y, step);
    NextOk(s, step);
    NextKeeps(s, step);
  }

  lemma UpdateHolds(y: Sys, id: int, s: Sock, open: map<int, int>, t: Sock)
    requires Holds(y, id, s, open) && id in y.socks && OutboundOk(t) && t.role == Outbound && Inv(Update(y, id, t))
    ensures Holds(Update(y, id, t), id, t, OpenAfter(open, s, t)) && Update(y, id, t).socks == y.socks[id := t]
  {
    UpdateAt(y, id, t);
    hide Inv, OutboundOk, Update, OpenAfter;
  }

  /** The engine takes any step that the socket's record allows. */
  lemma Goes(y: Sys, id: int, s: Sock, open: map<int, int>, step: Step)
    requires Holds(y, id, s, open) && Own(step) && step.id == id && OutboundOk(s) && Ready(s, step)
    requires Plain(s, open, step)
    ensures OutboundOk(Next(s, step)) && Enabled(y, step) && !Provokes(y, step)
    ensures Holds(Do(y, step), id, Next(s, step), OpenAfter(open, s, Next(s, step)))
    ensures Do(y, step).socks == y.socks[id := Next(s, step)]
  {
    hide Enabled, Do, Next, Ready, OutboundOk, Inv, Plain, OpenAfter, Update, Provokes, Holds, IsOut, Alive;
    HoldsMeans(y, id, s, open);
    PlainGoesOn(y, id, s, open, step);
    hide Ends;
    StepTaken(y, s, step);
    UpdateHolds(y, id, s, open, Next(s, step));
  }

  /** A step that keeps the descriptor. */
  lemma Advances(y: Sys, id: int, s: Sock, t: Sock, open: map<int, int>, step: Step)
    requires Holds(y, id, s, open) && Own(step) && step.id == id && OutboundOk(s) && Ready(s, step)
        && Plain(s, open, step)
    requires Next(s, step) == t && t.fd == s.fd
    ensures OutboundOk(t) && Enabled(y, step) && !Provokes(y, step) && Holds(Do(y, step), id, t, open)
    ensures Do(y, step).socks == y.socks[id := t]
  {
    hide OutboundOk, Ready, Plain, Next, Holds, Enabled, Do, Provokes;
    Goes(y, id, s, open, step);
  }

  lemma NextKeeps(s: Sock, step: Step)
    requires OutboundOk(s) && Ready(s, step)
    ensures Next(s, step).role == Outbound
  {
    NextOk(s, step);
    IsOutbound(Next(s, step));
    hide OutboundOk, Next;
  }

  lemma EndsAlone(y: Sys, step: Step)
    requires Own(step) && Enabled(y, step) && step.id in y.socks && Ends(y, step)
    ensures Do(y, step).socks == y.socks
  {
    hide Inv;
  }

  lemma FeedApart(y: Sys, i: int, src: int, typ: int, k: Kernel, id: int)
    requires i in y.socks && id in y.socks && i != id
    ensures id in Feed(y, i, src, typ, k).socks && Feed(y, i, src, typ, k).socks[id] == y.socks[id]
  {
    UpdatesApart(id);
    hide Perform, InternalTask, Dispatch, Internal, Update;
  }

  lemma UpdatesApart(id: int)
    ensures forall y: Sys, i, s :: i in y.socks && id in y.socks && i != id ==> Update(y, i, s).socks[id] == y.socks[id]
  {
  }

  lemma FeedsApart(id: int)
    ensures forall y: Sys, i, src, typ, k :: i in y.socks && id in y.socks && i != id ==>
              Feed(y, i, src, typ, k).socks[id] == y.socks[id]
  {
    forall y: Sys, i, src, typ, k | i in y.socks && id in y.socks && i != id
      ensures Feed(y, i, src, typ, k).socks[id] == y.socks[id]
    {
      FeedApart(y, i, src, typ, k, id);
    }
  }

  lemma ConnectApart(y: Sys, i: int, res: ConnectResult, id: int)
    requires i in y.socks && id in y.socks && i != id
    ensures id in ConnectReturns(y, i, res).socks && ConnectReturns(y, i, res).socks[id] == y.socks[id]
  {
    UpdatesApart(id);
    hide Update, Dispatch, Refuse;
  }

  lemma DrainApart(y: Sys, i: int, id: int)
    requires i in y.socks && y.socks[i].events != [] && id in y.socks && i != id
    ensures id in DoDrain(y, i).socks && DoDrain(y, i).socks[id] == y.socks[id]
  {
    UpdatesApart(id);
    hide Update, Drained;
  }

  lemma EnterApart(y: Sys, i: int, k: Kernel, id: int)
    requires Enabled(y, Enter(i, k)) && id in y.socks && i != id
    ensures id in Do(y, Enter(i, k)).socks && Do(y, Enter(i, k)).socks[id] == y.socks[id]
  {
    FeedsApart(id);
    hide Feed, Hijacks, Dispatch;
  }

  lemma SimpleApart(y: Sys, step: Step, id: int)
    requires Own(step) && Enabled(y, step) && id in y.socks && step.id != id
    requires !step.Enter? && !step.Connect? && !step.Drain?
    ensures id in Do(y, step).socks && Do(y, step).socks[id] == y.socks[id]
  {
    UpdatesApart(id);
    hide Update, CallerNext, Pushed, Posted;
  }

  lemma OtherStep(y: Sys, step: Step, id: int)
    requires Own(step) && Enabled(y, step) && id in y.socks && step.id != id
    ensures id in Do(y, step).socks && Do(y, step).socks[id] == y.socks[id]
  {
    if step.Connect? {
      ConnectApart(y, step.id, step.res, id);
      hide ConnectReturns;
    } else if step.Drain? {
      DrainApart(y, step.id, id);
      hide DoDrain;
    } else {
      hide Do, Enabled;
      if step.Enter? {
        EnterApart(y, step.id, step.k, id);
      } else {
        SimpleApart(y, step, id);
      }
    }
  }

  lemma DeliverEnterIs(y: Sys)
    requires Enabled(y, DeliverEnter)
    ensures 0 in y.socks && y.batch != [] && y.batch[0] in y.socks
    ensures Do(y, DeliverEnter).socks == y.socks[y.batch[0] := y.socks[y.batch[0]].(locked := true)]
  {
  }

  lemma DeliverEnterApart(y: Sys, id: int)
    requires Inv(y) && Enabled(y, DeliverEnter) && IsOut(y, id)
    ensures id in Do(y, DeliverEnter).socks && Do(y, DeliverEnter).socks[id] == y.socks[id]
  {
    DeliverEnterIs(y);
    hide Do, Enabled, Inv;
    BatchIs(y);
  }

  lemma DeliveryStep(y: Sys, step: Step, id: int)
    requires Enabled(y, step) && id in y.socks && !Delivering(y.driver, id)
    requires step.DeliverActivate? || step.DeliverRecv? || step.DeliverLeave?
    ensures id in Do(y, step).socks && Do(y, step).socks[id] == y.socks[id]
  {
    UpdatesApart(id);
    FeedsApart(id);
    hide Feed, Update, Post;
  }

  lemma SetupStep(y: Sys, step: Step, id: int)
    requires Enabled(y, step) && id in y.socks && id != 0
    requires step.Start? || step.Listen? || step.PairPost?
    ensures id in Do(y, step).socks && Do(y, step).socks[id] == y.socks[id]
  {
    UpdatesApart(id);
    FeedsApart(id);
    hide Feed, Update, Post;
  }

  /** A new socket changes no outbound one. */
  lemma NewcomerApart(y: Sys, step: Step, id: int)
    requires Inv(y) && Enabled(y, step) && !Provokes(y, step) && id in y.socks && id != 0
    requires step.Pair? || step.Create?
    ensures id in Do(y, step).socks && Do(y, step).socks[id] == y.socks[id]
  {
    hide OutboundOk, SockOk;
    if step.Pair? {
      PairIs(y, step.id, step.birth);
    } else {
      CreateIs(y, step.id, step.fd, step.birth);
    }
    hide Inv, Do;
  }

  lemma ForeignStep(y: Sys, step: Step, id: int)
    requires Inv(y) && Enabled(y, step) && !Provokes(y, step) && !Own(step) && IsOut(y, id)
    ensures id in Do(y, step).socks && Do(y, step).socks[id] == y.socks[id]
  {
    NotDelivered(y, id);
    assert !step.CreateFailed?;
    hide Inv, OutboundOk, Do, Enabled, Provokes;
    match step
    case Pair(_, _) => NewcomerApart(y, step, id);
    case Create(_, _, _) => NewcomerApart(y, step, id);
    case EnterAccept(res) => AcceptApart(y, res, id);
    case Start(_) => SetupStep(y, step, id);
    case Listen(_) => SetupStep(y, step, id);
    case PairPost => SetupStep(y, step, id);
    case DeliverEnter => DeliverEnterApart(y, id);
    case _ => DeliveryStep(y, step, id);
  }

  lemma AcceptedApart(m: Socks, fd: int, id: int)
    requires 0 in m && m[0].asock.Some? && m[0].asock.value in m && id in m && id != 0 && id != m[0].asock.value
    ensures id in Accepted(m, fd) && Accepted(m, fd)[id] == m[id]
  {
  }

  lemma RejectApart(y: Sys, res: AcceptResult, id: int)
    requires Enabled(y, EnterAccept(res)) && !res.Got? && id in y.socks && id != 0
    ensures id in Do(y, EnterAccept(res)).socks && Do(y, EnterAccept(res)).socks[id] == y.socks[id]
  {
    UpdatesApart(id);
    hide AcceptFailed, Update, WorkerFree, Accepting;
  }

  /** The partner that is accepted on is no outbound socket. */
  lemma GotApart(y: Sys, fd: int, id: int)
    requires Inv(y) && Enabled(y, EnterAccept(Got(fd))) && IsOut(y, id) && id != 0
    ensures id in Do(y, EnterAccept(Got(fd))).socks && Do(y, EnterAccept(Got(fd))).socks[id] == y.socks[id]
  {
    hide OutboundOk, SockOk;
    AcceptorReady(y);
    AcceptIs(y, fd);
    hide Do, Inv, Enabled, Accepted;
    AcceptedApart(y.socks, fd, id);
  }

  lemma AcceptApart(y: Sys, res: AcceptResult, id: int)
    requires Inv(y) && Enabled(y, EnterAccept(res)) && IsOut(y, id)
    ensures id in Do(y, EnterAccept(res)).socks && Do(y, EnterAccept(res)).socks[id] == y.socks[id]
  {
    NotDelivered(y, id);
    hide Do, Inv, Enabled, OutboundOk;
    if res.Got? {
      GotApart(y, res.fd, id);
    } else {
      RejectApart(y, res, id);
    }
  }
}
