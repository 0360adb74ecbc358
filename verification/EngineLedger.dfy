/** Every socket's life told from outside: what connect(), SO_ERROR, the writes, the
    reads and EPOLLERR answered, and who sent on it, decide what the device is told, in
    which state the socket is and how many messages it still holds. */
module EngineLedger {
  import opened SocketFsm
  import opened Sequences
  import opened Sockets
  import opened SocketInv
  import opened SocketLaws
  import opened Engine
  import opened EngineInv
  import opened EngineRuns
  import opened EngineSockets
  import opened Framing

  function Tally(events: seq<Raised>, id: EventId): nat {
    if events == [] then 0
    else Tally(events[..|events| - 1], id) + if events[|events| - 1].id == id then 1 else 0
  }

  lemma TallyAppend(events: seq<Raised>, e: Raised, id: EventId)
    ensures Tally(events + [e], id) == Tally(events, id) + if e.id == id then 1 else 0
  {
    assert (events + [e])[..|events|] == events;
  }

  /** The state, the events raised so far, and the number of messages sent on the socket. */
  datatype Account = Account(st: int, raised: seq<Raised>, given: nat)

  function Told(a: Account, id: EventId, typ: int): Account {
    a.(raised := a.raised + [Raised(id, typ)])
  }

  /** The kernel's answer to the worker that has a descriptor event in hand. */
  function Answered(a: Account, event: int, k: Kernel): Account {
    if event == FD_ERR || (a.st == CONNECTING && k.soError != 0) then Told(a.(st := DONE), ErrorEvent, EV_ERROR)
    else if a.st == CONNECTING then Told(a.(st := ACTIVE), Established, EV_CONNECTED)
    else if event == FD_IN then if k.received == Complete then Told(a, ReceivedEvent, EV_RECEIVED) else a
    else if a.given > Tally(a.raised, SentEvent) && k.sent == Complete then Told(a, SentEvent, EV_SENT)
    else a
  }

  /** A step of the socket. */
  function Booked(a: Account, caller: Caller, work: Work, step: Step): Account {
    match step
    case Connect(_, Connected) => a.(st := ACTIVE)
    case Connect(_, Refused) => a.(st := DONE)
    case CallerStep(_) =>
      if caller == CRaiseConnected then Told(a, Established, EV_CONNECTED)
      else if caller == CRaiseError then Told(a, ErrorEvent, EV_ERROR)
      else if caller == CPush then a.(given := a.given + 1)
      else a
    case SenderPush(_) => a.(given := a.given + 1)
    case Enter(_, k) => if work.RunIo? then Answered(a, work.event, k) else a
    case _ => a
  }

  /** Before there is a socket. */
  const NO_ACCOUNT := Account(BEING_ACCEPTED, [], 0)

  /** A step of the engine, as far as it is booked for socket id. */
  function WithStep(a: Account, y: Sys, step: Step, id: int): Account {
    if step.Create? && step.id == id then Account(CONNECTING, [], 0)
    else if Own(step) && step.id == id && id in y.socks then Booked(a, y.socks[id].caller, y.socks[id].work, step)
    else a
  }

  /** The account of socket id after n steps of the run. */
  function AccountOf(r: Trace, id: int, n: nat): Account
    requires IsRun(r) && n <= |r.steps|
  {
    if n == 0 then NO_ACCOUNT else WithStep(AccountOf(r, id, n - 1), r.states[n - 1], r.steps[n - 1], id)
  }

  /** The socket is as the account says: the events raised, the messages still in hand
      and, for an outbound socket, the state. */
  predicate Books(s: Sock, a: Account) {
    && s.log.raised == a.raised && Unsent(s) + Tally(a.raised, SentEvent) == a.given
    && (if s.role == Outbound then s.st == a.st else a.st != CONNECTING)
  }

  // ---- One socket ----

  lemma IoExpected(s: Sock)
    requires SockOk(s) && s.role != Listener && !s.locked && s.work.RunIo?
    ensures Expected(s.st, SRC_FD, s.work.event) && !Internal(SRC_FD) && (s.st == CONNECTING || s.st == ACTIVE)
    ensures s.role == Outbound ==> s.work.event == FD_OUT || s.work.event == FD_ERR
    ensures s.role == Inbound ==> s.st == ACTIVE && (s.work.event == FD_IN || s.work.event == FD_ERR)
  {
    if s.role == Outbound {
      OutboundIo(s);
      hide Awake, MissedOk, EventsOk, Queued, Dispatch;
    } else {
      InboundIo(s);
      hide InboundOk;
    }
  }

  /** What the table says of the event is what the account says. */
  lemma TableAnswers(s: Sock, event: int, k: Kernel, a: Account)
    requires Books(s, a) && Expected(s.st, SRC_FD, event) && (s.st == CONNECTING || s.st == ACTIVE)
    requires if s.role == Outbound then event == FD_OUT || event == FD_ERR
             else s.st == ACTIVE && (event == FD_IN || event == FD_ERR)
    ensures var e, b := Table(s, SRC_FD, event, k), Answered(a, event, k);
            && b.raised == a.raised + (if e.raises.None? then [] else [e.raises.value]) && b.given == a.given
            && (s.role == Outbound ==> b.st == e.st) && (s.role != Outbound ==> b.st == a.st || b.st == DONE)
  {
    hide Tally, Expected;
  }

  lemma FollowsBooks(s: Sock, u: Sock, e: Effect, a: Account, b: Account)
    requires Books(s, a) && Follows(s, u, e)
    requires b.raised == a.raised + (if e.raises.None? then [] else [e.raises.value]) && b.given == a.given
    requires if s.role == Outbound then b.st == e.st else b.st == a.st || b.st == DONE
    requires e.raises.Some? ==> (e.raises.value.id == SentEvent <==> e.raises == Some(Raised(SentEvent, EV_SENT)))
    ensures Books(u, b)
  {
    hide Queued;
    if e.raises.Some? {
      TallyAppend(a.raised, e.raises.value, SentEvent);
    } else {
      assert a.raised + [] == a.raised;
    }
    hide Tally;
  }

  lemma AnswersBooks(s: Sock, a: Account, id: EventId, typ: int)
    requires Books(s, a) && id != SentEvent
    ensures Books(Raise(s, id, typ), Told(a, id, typ))
  {
    TallyAppend(a.raised, Raised(id, typ), SentEvent);
    hide Tally, Enqueued;
  }

  /** The thread in SendMsg goes on. */
  lemma CallerBooks(s: Sock, a: Account, id: int)
    requires Books(s, a) && s.caller != CConnect && s.caller != CNone
    ensures Books(CallerNext(s), Booked(a, s.caller, s.work, CallerStep(id)))
  {
    if s.caller == CRaiseConnected {
      AnswersBooks(s, a, Established, EV_CONNECTED);
      hide Raise, Tally;
    } else if s.caller == CRaiseError {
      AnswersBooks(s, a, ErrorEvent, EV_ERROR);
      hide Raise, Tally;
    } else {
      CallerPosts(s, a, id);
      hide CallerNext, Books;
    }
  }

  /** Nothing that is booked differs. */
  predicate Alike(s: Sock, t: Sock) {
    t.role == s.role && t.st == s.st && t.log.raised == s.log.raised && t.queued == s.queued && t.busy == s.busy
  }

  lemma AlikeBooks(s: Sock, t: Sock, a: Account)
    requires Books(s, a) && Alike(s, t)
    ensures Books(t, a)
  {
    hide Tally;
  }

  lemma CallerPosts(s: Sock, a: Account, id: int)
    requires Books(s, a) && s.caller != CConnect && s.caller != CNone
    requires s.caller != CRaiseConnected && s.caller != CRaiseError
    ensures Books(CallerNext(s), Booked(a, s.caller, s.work, CallerStep(id)))
  {
    if s.caller != CPush {
      PostsAlike(s);
      hide CallerNext, Books;
      AlikeBooks(s, CallerNext(s), a);
    }
    hide Post, Tally;
  }

  lemma PostsAlike(s: Sock)
    requires s.caller == CExecConnected || s.caller == CExecConnecting || s.caller == CExecSend
    ensures Alike(s, CallerNext(s))
  {
    hide Missed;
  }

  /** The worker serves what it has in hand. */
  lemma IoBooks(s: Sock, k: Kernel, a: Account)
    requires SockOk(s) && s.role != Listener && !s.locked && s.work.RunIo? && Books(s, a)
    ensures Alone(Dispatch(s.st, SRC_FD, s.work.event))
    ensures Books(Handle(Inside(s), SRC_FD, s.work.event, k), Answered(a, s.work.event, k))
  {
    IoExpected(s);
    hide SockOk, Handle, Dispatch, Tally, Follows, Answered;
    var t := Inside(s);
    HandlerTable(t, SRC_FD, s.work.event, k);
    TableAnswers(t, s.work.event, k, a);
    FollowsBooks(t, Handle(t, SRC_FD, s.work.event, k), Table(t, SRC_FD, s.work.event, k), a,
                 Answered(a, s.work.event, k));
  }

  lemma TaskBooks(s: Sock, k: Kernel, a: Account)
    requires s.work.RunTask? && s.work.task != TStop && Books(s, a)
    ensures Internal(TaskSource(s.work.task))
    ensures Books(Handle(Inside(s), TaskSource(s.work.task), EXECUTE, k), a)
  {
    TaskTable(Inside(s), s.work.task);
    hide InternalTask, Tally, Dispatch;
  }

  lemma EntersBooks(s: Sock, k: Kernel, a: Account, id: int)
    requires SockOk(s) && s.role != Listener && !s.locked && s.work != NoWork && Books(s, a)
    ensures Internal(Source(s.work).0) || Alone(Dispatch(s.st, Source(s.work).0, Source(s.work).1))
    ensures Books(Handle(Inside(s), Source(s.work).0, Source(s.work).1, k), Booked(a, s.caller, s.work, Enter(id, k)))
  {
    hide SockOk, Handle, Books, Dispatch, Answered, Internal;
    if s.work.RunIo? {
      IoBooks(s, k, a);
    } else {
      NoStop(s);
      TaskBooks(s, k, a);
    }
  }

  lemma NoStop(s: Sock)
    requires SockOk(s) && s.role != Listener && s.work.RunTask?
    ensures s.work.task != TStop
  {
    hide Awake, MissedOk, EventsOk, HistoryOk, PollOk;
  }

  predicate Passive(step: Step) {
    step.SenderPost? || step.Pop? || step.Wait? || step.Fetch? || step.Drain? || step.Leave?
  }

  lemma PassiveNext(s: Sock, step: Step)
    requires OutboundOk(s) && Ready(s, step) && Passive(step)
    ensures Alike(s, Next(s, step))
  {
    hide OutboundOk, Missed, CallerNext, Handle;
  }

  lemma PassiveBooks(s: Sock, t: Sock, a: Account, step: Step)
    requires Books(s, a) && Alike(s, t) && Passive(step)
    ensures Books(t, Booked(a, s.caller, s.work, step))
  {
    AlikeBooks(s, t, a);
    hide Books, Answered;
  }

  lemma ConnectBooks(s: Sock, step: Step, a: Account)
    requires OutboundOk(s) && Ready(s, step) && Books(s, a) && (step.Connect? || step.SenderPush?)
    ensures Books(Next(s, step), Booked(a, s.caller, s.work, step))
  {
    IsOutbound(s);
    hide OutboundOk, Tally, Answered, SockOk;
  }

  /** Every step an outbound socket takes is booked. */
  lemma NextBooks(s: Sock, step: Step, a: Account)
    requires OutboundOk(s) && Ready(s, step) && Books(s, a)
    ensures Books(Next(s, step), Booked(a, s.caller, s.work, step))
  {
    hide OutboundOk, Books, Booked;
    if step.Enter? {
      IsOutbound(s);
      EntersBooks(s, step.k, a, step.id);
      hide Handle;
    } else if step.CallerStep? {
      CallerBooks(s, a, step.id);
      hide CallerNext;
    } else if Passive(step) {
      PassiveNext(s, step);
      PassiveBooks(s, Next(s, step), a, step);
    } else {
      ConnectBooks(s, step, a);
      hide Next;
    }
  }

  // ---- The engine ----

  /** An accepted socket's own steps are booked; the rest leaves its account alone. */
  lemma InboundBooks(y: Sys, step: Step, id: int, a: Account)
    requires Inv(y) && Enabled(y, step) && !Provokes(y, step) && id in y.socks && y.socks[id].role == Inbound
    requires Books(y.socks[id], a)
    ensures id in Do(y, step).socks
    ensures Books(Do(y, step).socks[id], if Own(step) && step.id == id
              then Booked(a, y.socks[id].caller, y.socks[id].work, step) else a)
  {
    SockAt(y, id);
    hide Inv, Do, Enabled, Provokes, Books, Booked, SockOk;
    if !Own(step) {
      InboundForeign(y, step, id, a);
    } else if step.id != id {
      OtherStep(y, step, id);
    } else if step.Enter? {
      InboundEnter(y, id, step.k, a);
    } else {
      InboundOwn(y, step, a);
    }
  }

  lemma InboundEnter(y: Sys, id: int, k: Kernel, a: Account)
    requires Inv(y) && Enabled(y, Enter(id, k)) && id in y.socks && y.socks[id].role == Inbound && SockOk(y.socks[id])
    requires Books(y.socks[id], a)
    ensures id in Do(y, Enter(id, k)).socks
    ensures Books(Do(y, Enter(id, k)).socks[id], Booked(a, y.socks[id].caller, y.socks[id].work, Enter(id, k)))
  {
    var s := y.socks[id];
    EnterCan(y, id, k);
    EnteredOk(s, k);
    EntersBooks(s, k, a, id);
    hide Inv, SockOk, Books, Handle, Dispatch, Enabled, Internal;
    if Hijacks(y, id) {
      EndsAlone(y, Enter(id, k));
    } else {
      FeedIs(y, id, Inside(s), Source(s.work).0, Source(s.work).1, k);
      EnterFeeds(y, id, k);
      hide Feed, Hijacks, Update, Do;
      UpdateAt(y, id, Handle(Inside(s), Source(s.work).0, Source(s.work).1, k));
    }
  }

  lemma EnterCan(y: Sys, id: int, k: Kernel)
    requires Enabled(y, Enter(id, k))
    ensures id in y.socks && !y.socks[id].locked && y.socks[id].work != NoWork && !Accepting(y.socks[id])
  {
    hide Accepting, WorkerFree;
  }

  lemma EnterFeeds(y: Sys, id: int, k: Kernel)
    requires Enabled(y, Enter(id, k)) && !Hijacks(y, id)
    ensures id in y.socks && y.socks[id].work != NoWork
    ensures var s := y.socks[id];
            Do(y, Enter(id, k)) ==
            Feed(y.(socks := y.socks[id := Inside(s)]), id, Source(s.work).0, Source(s.work).1, k)
  {
    hide Feed, Hijacks, Accepting, WorkerFree;
  }

  lemma InboundOwn(y: Sys, step: Step, a: Account)
    requires Inv(y) && Enabled(y, step) && Own(step) && !step.Enter? && step.id in y.socks
    requires y.socks[step.id].role == Inbound && SockOk(y.socks[step.id]) && Books(y.socks[step.id], a)
    ensures step.id in Do(y, step).socks
    ensures Books(Do(y, step).socks[step.id], Booked(a, y.socks[step.id].caller, y.socks[step.id].work, step))
  {
    NoCaller(y.socks[step.id]);
    hide Inv, SockOk, Books, Booked, Do;
    PassiveOnly(y, step);
    if step.Drain? {
      PassiveDrain(y, step.id);
    } else {
      PassiveStep(y, step);
    }
    PassiveBooks(y.socks[step.id], Do(y, step).socks[step.id], a, step);
  }

  lemma PassiveOnly(y: Sys, step: Step)
    requires Enabled(y, step) && Own(step) && !step.Enter? && step.id in y.socks && y.socks[step.id].role != Outbound
    requires y.socks[step.id].caller == CNone && y.socks[step.id].senders == 0
    ensures Passive(step) && !step.SenderPost?
  {
    hide WorkerFree, Delivering;
  }

  lemma PassiveStep(y: Sys, step: Step)
    requires Enabled(y, step) && (step.Pop? || step.Wait? || step.Fetch? || step.Leave?)
    ensures step.id in y.socks && step.id in Do(y, step).socks && Alike(y.socks[step.id], Do(y, step).socks[step.id])
  {
    hide WorkerFree, Delivering;
  }

  lemma PassiveDrain(y: Sys, id: int)
    requires Enabled(y, Drain(id))
    ensures id in y.socks && id in Do(y, Drain(id)).socks && Alike(y.socks[id], Do(y, Drain(id)).socks[id])
  {
    Posting(Taken(y.socks[id]), TSend);
    hide Post;
  }

  /** Nobody but the device's own threads sends on an outbound socket. */
  lemma NoCaller(s: Sock)
    requires SockOk(s) && s.role == Inbound
    ensures s.caller == CNone && s.senders == 0
  {
  }

  lemma InboundForeign(y: Sys, step: Step, id: int, a: Account)
    requires Inv(y) && Enabled(y, step) && !Provokes(y, step) && !Own(step) && id in y.socks
    requires y.socks[id].role == Inbound && SockOk(y.socks[id]) && Books(y.socks[id], a)
    ensures id in Do(y, step).socks && Books(Do(y, step).socks[id], a)
  {
    NotListener(y, id);
    assert !step.CreateFailed?;
    hide Inv, SockOk, Do, Enabled, Provokes, Books;
    match step
    case Pair(_, _) => NewcomerApart(y, step, id);
    case Create(_, _, _) => NewcomerApart(y, step, id);
    case EnterAccept(res) => InboundAccept(y, res, id, a);
    case Start(_) => SetupStep(y, step, id);
    case Listen(_) => SetupStep(y, step, id);
    case PairPost => SetupStep(y, step, id);
    case DeliverEnter => InboundEntered(y, id, a);
    case _ => InboundDelivery(y, step, id, a);
  }

  lemma NotListener(y: Sys, id: int)
    requires Inv(y) && id in y.socks && y.socks[id].role == Inbound
    ensures id != 0
  {
    SockAt(y, id);
    hide Inv;
  }

  lemma InboundAccept(y: Sys, res: AcceptResult, id: int, a: Account)
    requires Inv(y) && Enabled(y, EnterAccept(res)) && id in y.socks && id != 0 && Books(y.socks[id], a)
    requires y.socks[id].role == Inbound
    ensures id in Do(y, EnterAccept(res)).socks && Books(Do(y, EnterAccept(res)).socks[id], a)
  {
    if res.Got? {
      AcceptIs(y, res.fd);
      hide Inv, Do, Enabled, Accepted, Books;
      AcceptedBooks(y.socks, res.fd, id, a);
    } else {
      hide Inv, Do, Enabled, Books;
      RejectApart(y, res, id);
    }
  }

  lemma AcceptedBooks(m: Socks, fd: int, id: int, a: Account)
    requires 0 in m && m[0].asock.Some? && m[0].asock.value in m && id in m && id != 0 && Books(m[id], a)
    requires m[id].role == Inbound
    ensures id in Accepted(m, fd) && Books(Accepted(m, fd)[id], a)
  {
    hide Tally, RmFd;
  }

  lemma InboundEntered(y: Sys, id: int, a: Account)
    requires Enabled(y, DeliverEnter) && id in y.socks && Books(y.socks[id], a)
    ensures id in Do(y, DeliverEnter).socks && Books(Do(y, DeliverEnter).socks[id], a)
  {
    DeliverEnterIs(y);
    hide Do, Enabled, Tally;
  }

  lemma InboundDelivery(y: Sys, step: Step, id: int, a: Account)
    requires Inv(y) && Enabled(y, step) && id in y.socks && y.socks[id].role == Inbound && Books(y.socks[id], a)
    requires step.DeliverActivate? || step.DeliverRecv? || step.DeliverLeave?
    ensures id in Do(y, step).socks && Books(Do(y, step).socks[id], a)
  {
    hide SockOk;
    if Delivering(y.driver, id) {
      if step.DeliverActivate? {
        ActivateBooks(y, id, a);
      } else {
        PostBooks(y, step, id, a);
      }
      hide Inv, Do, Books;
    } else {
      hide Inv, Books;
      DeliveryStep(y, step, id);
    }
  }

  lemma ActivateBooks(y: Sys, id: int, a: Account)
    requires Inv(y) && Enabled(y, DeliverActivate) && y.driver == XActivate(id) && id in y.socks
    requires y.socks[id].role == Inbound && Books(y.socks[id], a)
    ensures id in Do(y, DeliverActivate).socks && Books(Do(y, DeliverActivate).socks[id], a)
  {
    ActivateIs(y);
    hide Inv, Do, Enabled, Tally;
  }

  lemma PostBooks(y: Sys, step: Step, id: int, a: Account)
    requires Enabled(y, step) && Delivering(y.driver, id) && id in y.socks
    requires y.socks[id].role == Inbound && Books(y.socks[id], a) && (step.DeliverRecv? || step.DeliverLeave?)
    ensures id in Do(y, step).socks && Books(Do(y, step).socks[id], a)
  {
    hide Tally, Missed;
  }

  lemma OutboundBooks(y: Sys, step: Step, id: int, a: Account)
    requires Inv(y) && Enabled(y, step) && !Provokes(y, step) && IsOut(y, id) && Books(y.socks[id], a)
    ensures id in Do(y, step).socks
    ensures Books(Do(y, step).socks[id], if Own(step) && step.id == id
              then Booked(a, y.socks[id].caller, y.socks[id].work, step) else a)
  {
    SeenFrom(y, step, id);
    var s := y.socks[id];
    hide Inv, Do, Enabled, Provokes, Books, OutboundOk, Ready, Next;
    if Own(step) && step.id == id {
      if Ends(y, step) {
        hide Hijacks, Answered;
      } else {
        hide Ends, Booked;
        NextBooks(s, step, a);
      }
    }
  }

  lemma KeysKept(y: Sys, step: Step)
    requires Enabled(y, step) && !step.Create? && !step.CreateFailed? && !step.Pair?
    ensures Do(y, step).socks.Keys == y.socks.Keys
  {
    hide Update, Feed, Hijacks, Post, CallerNext, Pushed, Posted, WorkerFree, Delivering, Accepting;
    match step
    case EnterAccept(res) => AcceptKeys(y, res); hide DoAcceptNow;
    case Connect(id, res) => ConnectKeys(y, id, res); hide ConnectReturns;
    case Drain(id) => DrainKeys(y, id); hide DoDrain;
    case _ => hide DoAcceptNow, ConnectReturns, DoDrain;
  }

  lemma AcceptKeys(y: Sys, res: AcceptResult)
    requires Enabled(y, EnterAccept(res))
    ensures DoAcceptNow(y, res).socks.Keys == y.socks.Keys
  {
    hide Update, AcceptArm, AcceptFailed, WorkerFree, Accepting, Queued;
  }

  lemma ConnectKeys(y: Sys, id: int, res: ConnectResult)
    requires id in y.socks
    ensures ConnectReturns(y, id, res).socks.Keys == y.socks.Keys
  {
    hide Update, Refuse, Dispatch;
  }

  lemma DrainKeys(y: Sys, id: int)
    requires id in y.socks && y.socks[id].events != []
    ensures DoDrain(y, id).socks.Keys == y.socks.Keys
  {
    hide Update, Drained;
  }

  /** The account a socket starts with. */
  function Opened(step: Step): Account {
    Account(if step.Create? then CONNECTING else BEING_ACCEPTED, [], 0)
  }

  lemma NewcomerBooks(y: Sys, step: Step, id: int)
    requires Inv(y) && Enabled(y, step) && !Provokes(y, step) && id !in y.socks && id in Do(y, step).socks
    ensures (step.Create? || step.Pair?) && step.id == id && Books(Do(y, step).socks[id], Opened(step))
  {
    hide Inv, Do, Books, Created, Paired, Engaged;
    FreshBooks(step);
    if step.Create? {
      CreateIs(y, step.id, step.fd, step.birth);
      hide Enabled;
    } else if step.Pair? {
      assert y.socks[0].st != STARTING;
      PairIs(y, step.id, step.birth);
      hide Enabled;
    } else {
      KeysKept(y, step);
      hide Enabled, Provokes;
    }
  }

  lemma FreshBooks(step: Step)
    ensures step.Create? ==> Books(Created(step.fd, step.birth), Opened(step))
    ensures step.Pair? ==> Books(Paired(step.birth), Opened(step))
  {
  }

  /** A step of the engine moves every socket's account as it moves the socket. */
  lemma StepBooks(y: Sys, step: Step, id: int, a: Account)
    requires Inv(y) && Enabled(y, step) && !Provokes(y, step) && id != 0
    requires if id in y.socks then Books(y.socks[id], a) else a == NO_ACCOUNT
    ensures var z, b := Do(y, step), WithStep(a, y, step, id);
            if id in z.socks then Books(z.socks[id], b) else b == NO_ACCOUNT
  {
    hide Inv, Do, Provokes, Books, Booked, SockOk;
    CreatesNew(y, step);
    hide Enabled;
    if id in y.socks {
      SockAt(y, id);
      if y.socks[id].role == Outbound {
        OutboundBooks(y, step, id, a);
      } else {
        InboundBooks(y, step, id, a);
      }
    } else if id in Do(y, step).socks {
      NewcomerBooks(y, step, id);
    } else if step.Create? {
      CreateIs(y, step.id, step.fd, step.birth);
    }
  }

  lemma CreatesNew(y: Sys, step: Step)
    requires Enabled(y, step)
    ensures step.Create? ==> step.id !in y.socks
  {
  }

  lemma {:induction false} BooksAt(r: Trace, id: int, n: nat)
    requires FromStart(r) && !Provoked(r) && n <= |r.steps| && id != 0
    ensures var a := AccountOf(r, id, n);
            if id in r.states[n].socks then Books(r.states[n].socks[id], a) else a == NO_ACCOUNT
  {
    hide Inv, Do, Enabled, Provokes, Books, Booked;
    InitOk(r.states[0]);
    if n > 0 {
      BooksAt(r, id, n - 1);
      StateOk(r, n - 1);
      assert Linked(r, n - 1) && !ProvokedAt(r, n - 1);
      StepBooks(r.states[n - 1], r.steps[n - 1], id, AccountOf(r, id, n - 1));
    }
  }

  /** Over every run, what every connection's socket has raised is what connect(),
      SO_ERROR, the writes, the reads and EPOLLERR answered, in that order; an outbound
      socket is in the state they call for; and the messages it was given are those it
      reported as sent and those it still holds. */
  lemma Ledger(r: Trace, id: int)
    requires FromStart(r) && !Provoked(r) && id in Last(r).socks && id != 0
    ensures var s, a := Last(r).socks[id], AccountOf(r, id, |r.steps|);
            && s.log.raised == a.raised && (s.role == Outbound ==> s.st == a.st)
            && a.given == Tally(a.raised, SentEvent) + s.queued + (if s.busy then 1 else 0)
  {
    BooksAt(r, id, |r.steps|);
    hide Linked, Provoked, Built, Tally, AccountOf;
  }

  // ---- The end of an asynchronous connect ----

  lemma OwnsFd(y: Sys, id: int)
    requires Inv(y) && id in y.socks && y.socks[id].fd >= 0
    ensures y.socks[id].fd in y.open && y.open[y.socks[id].fd] == id
  {
    hide SocksOk, DriverOk, PartnersOk, ExternalOk, HistoriesOk;
  }

  lemma ConnectingFacts(s: Sock, t: Sock)
    requires OutboundOk(s) && s.st == CONNECTING && OutboundOk(t)
    ensures s.fd >= 0 && !s.log.refused && s.events == [] && !Queued(s.events, Established)
        && !Queued(s.events, ErrorEvent)
    ensures t.reg ==> t.kernel == t.cache && (t.buf.wr ==> t.cache.wr)
    ensures !t.reg ==> t.buf == NO_BITS
  {
    hide Awake, MissedOk, TasksOk, HistoryOk;
  }

  /** The connect has ended in t: active, with the descriptor it had, which is polled as
      before but no longer for OUT, and Connected raised; or done, out of the poller,
      the descriptor given up, and Error raised. */
  predicate Ended(s: Sock, t: Sock, soError: int) {
    s.events == [] && s.fd >= 0 &&
    if soError == 0 then
      && t.st == ACTIVE && t.fd == s.fd && t.reg == s.reg && (t.reg ==> !t.cache.wr && !t.kernel.wr) && !t.buf.wr
      && t.events == [Raised(Established, EV_CONNECTED)]
    else
      t.st == DONE && t.fd == -1 && !t.reg && t.buf == NO_BITS && t.events == [Raised(ErrorEvent, EV_ERROR)]
  }

  lemma SocketEnds(s: Sock, id: int, k: Kernel)
    requires OutboundOk(s) && Ready(s, Enter(id, k)) && s.st == CONNECTING && s.work == RunIo(FD_OUT)
    ensures Ended(s, Next(s, Enter(id, k)), k.soError)
  {
    EntersTable(s, id, k);
    NextOk(s, Enter(id, k));
    ConnectingFacts(s, Next(s, Enter(id, k)));
    hide OutboundOk, Next, Ready, Expected;
  }

  lemma EntersTable(s: Sock, id: int, k: Kernel)
    requires OutboundOk(s) && Ready(s, Enter(id, k)) && s.st == CONNECTING && s.work == RunIo(FD_OUT)
    ensures Expected(CONNECTING, SRC_FD, FD_OUT)
    ensures Follows(Inside(s), Next(s, Enter(id, k)), Table(Inside(s), SRC_FD, FD_OUT, k))
  {
    OutboundEnters(s, k);
    HandlerTable(Inside(s), SRC_FD, FD_OUT, k);
    hide OutboundOk, Handle, Follows, Table;
  }

  /** An OUT event of a connecting socket ends the connect, for every such socket in
      every state of the engine, as SO_ERROR says; a descriptor that is given up is
      closed once and is open no more. */
  lemma ConnectEnds(y: Sys, id: int, k: Kernel)
    requires Inv(y) && Enabled(y, Enter(id, k)) && IsOut(y, id)
    requires y.socks[id].st == CONNECTING && y.socks[id].work == RunIo(FD_OUT)
    ensures id in Do(y, Enter(id, k)).socks
    ensures var s, z := y.socks[id], Do(y, Enter(id, k));
            && Ended(s, z.socks[id], k.soError) && s.fd in y.open && !z.badClose
            && z.open == if k.soError == 0 then y.open else y.open - {s.fd}
  {
    var step, s := Enter(id, k), y.socks[id];
    hide Inv, Do, Enabled, OutboundOk, Next, Ready, Update;
    OwnStep(y, step);
    StepKeeps(y, step);
    NotBroken(Do(y, step));
    SocketEnds(s, id, k);
    OwnsFd(y, id);
    UpdateAt(y, id, Next(s, step));
    hide Hijacks;
  }
}
