/** One NetSocket with everything that belongs to it: its state machine, its
    entry in the worker's poller, its tasks, its context's event queue and its
    outgoing messages (socket.cpp, worker.cpp, poller.cpp, fsm.cpp). */
module Sockets {
  import opened SocketFsm
  import opened Framing
  import opened Sequences

  datatype Task = TConnecting | TConnected | TAccept | TSend | TRecv | TStop

  /** What the worker thread has in hand for this socket. */
  datatype Work = NoWork | RunTask(task: Task) | RunIo(event: int)

  /** IN, OUT and the remaining reported bits of one entry. */
  datatype Bits = Bits(rd: bool, wr: bool, er: bool)

  const NO_BITS := Bits(false, false, false)

  datatype EventId = Established | SentEvent | ReceivedEvent | ErrorEvent
  datatype Raised = Raised(id: EventId, typ: int)

  const EV_CONNECTED := 1
  const EV_ACCEPTED := 2
  const EV_SENT := 3
  const EV_RECEIVED := 4
  const EV_ERROR := 5
  const EV_ACCEPT_ERROR := 6
  const EV_SHUTDOWN := 8

  /** How far the thread that creates an outbound socket has come in SendMsg. */
  datatype Caller =
    | CConnect         // in connect()
    | CExecConnected   // connect() succeeded: about to post task_connected
    | CRaiseConnected  //   and then to raise Connected
    | CExecConnecting  // connect() is in progress: about to post task_connecting
    | CRaiseError      // connect() failed: about to raise Error
    | CPush            // in AsyncSendMsg, before the message is pushed
    | CExecSend        // pushed, task_send not posted yet
    | CNone            // returned

  datatype Role = Listener | Outbound | Inbound

  /** What NetSocket::Init leaves in the poller handle, which it does not initialise,
      and the worker it chooses. */
  datatype Birth = Birth(mask: Bits, fd: int, worker: int)

  /** Histories, which no code looks at. */
  datatype Log = Log(
    misuse: bool,          // AddFd met a closed or registered descriptor
    stray: bool,           // SetIn, SetOut, ResetOut or RmFd met an unregistered handle
    clash: bool,           // Raise met an event already queued
    missed: bool,          // every task_send posted since task_connected merged into one queued ahead of it
    refused: bool,         // connect() failed at once
    raised: seq<Raised>,   // the events raised
    handled: seq<Raised>   // the events processed
  )

  datatype Sock = Sock(
    role: Role,
    st: int,              // NetSocket::state_
    started: bool,        // NetFsm::state_ is Active
    fd: int,              // s_
    asock: Option<int>,
    worker: int,
    reg: bool,            // the kernel polls the descriptor for this handle
    kernel: Bits,         //   with this interest mask
    cache: Bits,          // hndl->events
    hfd: int,             // hndl->fd
    buf: Bits,            // reported and not yet returned by Event
    pend: seq<Task>,      // its tasks in the worker's batch and queue, in order
    work: Work,
    locked: bool,         // a thread is inside its context
    events: seq<Raised>,  // ctx events_
    queued: nat,          // msg_buffer_queue_
    busy: bool,           // is_out_buf_busy_
    senders: nat,         // other threads between Push and Execute in AsyncSendMsg
    caller: Caller,
    log: Log
  )

  /** The creator has not yet posted the task that registers the descriptor. */
  predicate EarlyCaller(s: Sock) {
    s.caller == CConnect || s.caller == CExecConnecting || s.caller == CExecConnected
  }

  const NO_LOG := Log(false, false, false, false, false, [], [])

  function Fresh(role: Role, birth: Birth): Sock {
    Sock(role, IDLE, false, -1, None, birth.worker, false, NO_BITS, birth.mask, birth.fd, NO_BITS, [], NoWork, false,
        [],
         0, false, 0, CNone, NO_LOG)
  }

  // ---- Operations of the worker and of the context ----

  function AddFd(s: Sock): Sock {
    var ok := !s.reg && s.fd >= 0;
    s.(cache := NO_BITS, hfd := s.fd, reg := s.reg || ok, kernel := if ok then NO_BITS else s.kernel,
       log := s.log.(misuse := s.log.misuse || !ok))
  }

  function Stray(s: Sock): Log {
    s.log.(stray := s.log.stray || !s.reg)
  }

  function RmFd(s: Sock): Sock {
    s.(reg := false, buf := NO_BITS, log := Stray(s))
  }

  /** epoll_ctl(MOD) with the cached mask. */
  function Modify(s: Sock): Sock {
    s.(kernel := if s.reg then s.cache else s.kernel, log := Stray(s))
  }

  function SetIn(s: Sock): Sock {
    if s.cache.rd then s.(log := Stray(s)) else Modify(s.(cache := s.cache.(rd := true)))
  }

  function SetOut(s: Sock): Sock {
    if s.cache.wr then s.(log := Stray(s)) else Modify(s.(cache := s.cache.(wr := true)))
  }

  function ResetOut(s: Sock): Sock {
    if !s.cache.wr then s.(log := Stray(s))
    else Modify(s.(cache := s.cache.(wr := false))).(buf := s.buf.(wr := false))
  }

  /** Serving this source means an epoll_ctl(MOD) through a handle that is not registered. */
  predicate Mods(s: Sock, src: int) {
    !s.reg && ((src == SRC_TASK_SEND && !s.cache.wr) || (src == SRC_TASK_RECV && !s.cache.rd))
  }

  /** Whether task_send would still have to run after task_connected: lost when it is
      queued ahead, and regained by a post that finds it nowhere. */
  function Missed(s: Sock, t: Task): bool {
    if t == TConnected then TSend in s.pend else if t == TSend then s.log.missed && TSend in s.pend else s.log.missed
  }

  /** NetWorker::Execute: coalesced while the task is queued. */
  function Post(s: Sock, t: Task): Sock {
    s.(pend := if t in s.pend then s.pend else s.pend + [t], log := s.log.(missed := Missed(s, t)))
  }

  predicate Queued(events: seq<Raised>, id: EventId) {
    exists i :: 0 <= i < |events| && events[i].id == id
  }

  function Overwrite(events: seq<Raised>, e: Raised): seq<Raised> {
    if events == [] then [] else [if events[0].id == e.id then e else events[0]] + Overwrite(events[1..], e)
  }

  /** The push of NetQueue, after the event's fields have been overwritten. */
  function Enqueued(events: seq<Raised>, e: Raised): seq<Raised> {
    if Queued(events, e.id) then Overwrite(events, e) else events + [e]
  }

  /** NetFsm::Raise: the event's fields are overwritten even when it is queued. */
  function Raise(s: Sock, id: EventId, typ: int): Sock {
    var e := Raised(id, typ);
    s.(events := Enqueued(s.events, e), log := s.log.(clash := s.log.clash || Queued(s.events, id),
        raised := s.log.raised + [e]))
  }

  /** Pop, and NetFsmEvent::Process up to the call of the handler. */
  function Taken(s: Sock): Sock
    requires s.events != []
  {
    s.(events := s.events[1..], log := s.log.(handled := s.log.handled + [s.events[0]]))
  }

  function CloseFd(s: Sock): Sock {
    s.(fd := -1)
  }

  /** connect() failed at once. */
  function Refuse(s: Sock): Sock {
    CloseFd(s).(st := DONE, log := s.log.(refused := true))
  }

  // ---- InternalTasks and the arms of NetSocketHandler ----

  function TaskSource(t: Task): int {
    match t
    case TConnecting => SRC_TASK_CONNECTING
    case TConnected => SRC_TASK_CONNECTED
    case TAccept => SRC_TASK_ACCEPT
    case TSend => SRC_TASK_SEND
    case TRecv => SRC_TASK_RECV
    case TStop => SRC_TASK_STOP
  }

  /** Tasks served before the state is even looked at. */
  predicate Internal(src: int) {
    || src == SRC_TASK_SEND || src == SRC_TASK_RECV || src == SRC_TASK_CONNECTED || src == SRC_TASK_CONNECTING
    || src == SRC_TASK_ACCEPT
  }

  function InternalTask(s: Sock, src: int): Sock {
    if src == SRC_TASK_SEND then SetOut(s)
    else if src == SRC_TASK_RECV then SetIn(s)
    else if src == SRC_TASK_CONNECTED then AddFd(s)
    else if src == SRC_TASK_CONNECTING then SetOut(AddFd(s))
    else if src == SRC_TASK_ACCEPT then SetIn(AddFd(s))
    else s
  }

  datatype ConnectResult = Connected | InProgress | Refused

  /** What accept4 returns: ECONNABORTED, want of resources, any other failure, a descriptor. */
  datatype AcceptResult = Aborted | NoResource | Unexpected | Got(fd: int)

  /** What the other system calls made by one arm return. */
  datatype Kernel = Kernel(soError: int, sent: Outcome, received: Outcome)

  /** The OUT event of an active socket: dequeue if out_buf is free, disarm OUT
      if there is nothing to dequeue, otherwise send. */
  function SendArm(s: Sock, k: Kernel): Sock {
    if !s.busy && s.queued == 0 then ResetOut(s)
    else
      var d := if s.busy then s else s.(queued := s.queued - 1, busy := true);
      if k.sent == Complete then Raise(d.(busy := false), SentEvent, EV_SENT) else d
  }

  function Broken(s: Sock): Sock {
    Raise(CloseFd(RmFd(s)).(st := DONE), ErrorEvent, EV_ERROR)
  }

  /** Every arm but the two that reach into another socket. */
  function Perform(s: Sock, arm: Arm, k: Kernel): Sock
    requires arm != AcceptNow && arm != StopAccepting
  {
    match arm
    case DoStart => s.(st := STARTING)
    case DoListen => s.(st := LISTENING)
    case DoConnect => s.(st := CONNECTING)
    case DoBeingAccepted => s.(st := BEING_ACCEPTED)
    case DoStarted => AddFd(s).(st := ACTIVE)
    case PartnerAccepted => Raise(s.(st := ACCEPTED), Established, EV_ACCEPTED)
    case DoActivate => AddFd(s).(st := ACTIVE)
    case ConnectedNow => Raise(Post(s.(st := ACTIVE), TConnected), Established, EV_CONNECTED)
    case ConnectFailed => Raise(Refuse(s), ErrorEvent, EV_ERROR)
    case ConnectReady =>
      var a := ResetOut(s).(st := ACTIVE);
      if k.soError == 0 then Raise(a, Established, EV_CONNECTED) else Broken(a)
    case FdBroken => Broken(s)
    case Receive => if k.received == Complete then Raise(s, ReceivedEvent, EV_RECEIVED) else s
    case Send => SendArm(s, k)
    case FailActive => Raise(Post(s.(st := REMOVING_FD), TStop), ErrorEvent, EV_SHUTDOWN)
    case RemoveFd => Broken(s)
    case DoAccept => s.(st := ACCEPTING)
    case AcceptDone => s.(st := LISTENING)
    case AcceptCancel => Post(s.(st := CANCELLING), TStop)
    case Ignore => s
    case FellOff => s
  }

  /** Feed(src, typ) on a socket that is not stopping. */
  function Handle(s: Sock, src: int, typ: int, k: Kernel): Sock
    requires Internal(src) || Alone(Dispatch(s.st, src, typ))
  {
    if Internal(src) then InternalTask(s, src) else Perform(s, Dispatch(s.st, src, typ).arm, k)
  }

  /** The IN event of a listener, once accept4 has returned descriptor `fd`. */
  function AcceptArm(l: Sock, p: Sock, fd: int): (Sock, Sock) {
    (RmFd(l.(asock := None)).(st := LISTENING), p.(fd := fd, st := ACCEPTED, asock := None))
  }

  /** And when it failed for want of resources. */
  function AcceptFailed(l: Sock): Sock {
    Raise(RmFd(l.(st := ACCEPTING_ERROR)), ErrorEvent, EV_ACCEPT_ERROR)
  }

  /** AsyncSendMsg of another thread: the message is queued, and then task_send is posted. */
  function Pushed(s: Sock): Sock {
    s.(queued := s.queued + 1, senders := s.senders + 1)
  }

  function Posted(s: Sock): Sock
    requires s.senders > 0
  {
    Post(s.(senders := s.senders - 1), TSend)
  }

  /** An event handed to the device, which answers Connected by sending what is queued. */
  function Drained(s: Sock): Sock
    requires s.events != []
  {
    if s.events[0].typ == EV_CONNECTED then Post(Taken(s), TSend) else Taken(s)
  }

  /** The rest of SendMsg, one access to shared state at a time. */
  function CallerNext(s: Sock): Sock
    requires s.caller != CConnect && s.caller != CNone
  {
    match s.caller
    case CExecConnected => Post(s, TConnected).(caller := CRaiseConnected)
    case CRaiseConnected => Raise(s, Established, EV_CONNECTED).(caller := CPush)
    case CExecConnecting => Post(s, TConnecting).(caller := CPush)
    case CRaiseError => Raise(s, ErrorEvent, EV_ERROR).(caller := CPush)
    case CPush => s.(queued := s.queued + 1, caller := CExecSend)
    case CExecSend => Post(s, TSend).(caller := CNone)
  }
}
