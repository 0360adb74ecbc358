/** The whole engine as a step system: one listener, any number of outbound and
    accepted sockets, the threads that send on them, their worker threads and the
    kernel, in any interleaving.

    Each step is one atomic piece of the source: a queue operation under its lock,
    a handler run together with its system calls inside the socket's context, the
    processing of one queued event.  `pend` is the socket's own part of its
    worker's batch and queue (see Workers.Projection), and `reg`, `kernel`, `cache`
    and `buf` its own part of the worker's poller (see PollerSockets).

    The environment is the device of device.cpp: sockets are listened on, accepted
    on, connected and sent on, never stopped.  Any thread may send on an outbound
    socket from the moment it is started.  An Error or AcceptError event ends the
    process, as LOG(FATAL) does; and a run ends in front of a system call that would
    take over another handle's place in the poller. */
module Engine {
  import opened SocketFsm
  import opened Sequences
  import opened Sockets
  import opened Framing

  /** Where the thread that drives the listener is outside its context: first
      NetDevice::Init, later the listener's worker with an Accepted event. */
  datatype Driver =
    | LStart | LListen | LPair | LPost
    | LIdle
    | XActivate(p: int) | XRecv(p: int) | XPair(p: int) | XPost(p: int) | XLeave(p: int)

  datatype Sys = Sys(
    socks: map<int, Sock>,   // 0 is the listener
    open: map<int, int>,     // the open descriptors and their sockets; -1 - w stands for the eventfd of worker w
    driver: Driver,
    ext: seq<int>,           // the listener context's eventsto_: sockets with a raised Accepted event
    batch: seq<int>,         // the copy of eventsto_ that is being delivered
    accepts: seq<int>,       // history: the socket that got the n-th accepted descriptor
    announced: seq<int>,     // history: the sockets whose Accepted event was processed
    fatal: bool,             // LOG(FATAL)
    bad: bool,               // history: some dispatch printed a NetFsmBad* message
    hijacked: bool,          // the next call would take another handle's descriptor over in the poller
    outside: bool,           // history: a CHECK failed, or teardown code ran
    badClose: bool           // history: a descriptor was closed twice or while polled
  )


  datatype Step =
    | Start(fd: int) | Listen(ok: bool) | Pair(id: int, birth: Birth) | PairPost
    | Create(id: int, fd: int, birth: Birth) | CreateFailed(id: int, birth: Birth)
    | Connect(id: int, res: ConnectResult) | CallerStep(id: int) | SenderPush(id: int) | SenderPost(id: int)
    | Pop(id: int) | Wait(id: int, bits: Bits) | Fetch(id: int)
    | Enter(id: int, k: Kernel) | EnterAccept(acc: AcceptResult) | Drain(id: int) | Leave(id: int)
    | DeliverEnter | DeliverActivate | DeliverRecv | DeliverLeave

  /** After NetPool::Init and the listener's Init; `efds` are the workers' eventfds. */
  function Init(birth: Birth, efds: map<int, int>): Sys {
    Sys(map[0 := Fresh(Role.Listener, birth)], efds, LStart, [], [], [], [], false, false, false, false, false)
  }

  // ---- Helpers ----

  /** The delivering thread is inside the context of socket id. */
  predicate Delivering(driver: Driver, id: int) {
    driver == XActivate(id) || driver == XRecv(id) || driver == XPair(id) || driver == XPost(id) || driver == XLeave(id)
  }

  /** The socket's own worker can turn to it: it is not inside the socket's
      context, and for the listener it is not busy delivering. */
  predicate WorkerFree(y: Sys, id: int)
    requires id in y.socks
  {
    && (y.socks[id].locked ==> Delivering(y.driver, id))
    && (id == 0 ==> y.driver == LIdle && y.batch == [])
  }

  /** Replace one socket; a descriptor it gives up is closed. */
  function Update(y: Sys, id: int, s: Sock): (z: Sys)
    requires id in y.socks
    ensures z.socks.Keys == y.socks.Keys
  {
    var was := y.socks[id];
    if was.fd >= 0 && s.fd < 0 then
      y.(socks := y.socks[id := s], open := y.open - {was.fd}, badClose := y.badClose || was.fd !in y.open || s.reg)
    else y.(socks := y.socks[id := s])
  }

  /** Feed with a check of what was dispatched. */
  function Feed(y: Sys, id: int, src: int, typ: int, k: Kernel): (z: Sys)
    requires id in y.socks
    ensures z.socks.Keys == y.socks.Keys
  {
    var s := y.socks[id];
    if Internal(src) then Update(y, id, InternalTask(s, src))
    else
      var d := Dispatch(s.st, src, typ);
      var z := y.(bad := y.bad || d.bad > 0, outside := y.outside || Teardown(d.arm));
      if d.arm == StopAccepting || d.arm == AcceptNow then z.(outside := true)
      else Update(z, id, Perform(s, d.arm, k))
  }

  const QUIET: Kernel := Kernel(0, WouldBlock, WouldBlock)

  function Source(w: Work): (int, int)
    requires w != NoWork
  {
    match w
    case RunTask(t) => (TaskSource(t), EXECUTE)
    case RunIo(e) => (SRC_FD, e)
  }

  predicate Accepting(s: Sock) {
    s.work.RunIo? && Dispatch(s.st, SRC_FD, s.work.event).arm == AcceptNow
  }

  /** The worker's poller has the descriptor that the handle of socket id names, for
      another handle or for its own eventfd. */
  predicate Hits(y: Sys, id: int)
    requires id in y.socks
  {
    var s := y.socks[id];
    && s.hfd in y.open
    && var j := y.open[s.hfd];
       || j == -1 - s.worker
       || (j in y.socks && j != id && y.socks[j].reg && y.socks[j].fd == s.hfd && y.socks[j].worker == s.worker)
  }

  /** The task in hand would have epoll_ctl(MOD) give that descriptor to this handle. */
  predicate Hijacks(y: Sys, id: int)
    requires id in y.socks
  {
    y.socks[id].work.RunTask? && Mods(y.socks[id], TaskSource(y.socks[id].work.task)) && Hits(y, id)
  }

  /** The order in which Event returns the bits of one entry. */
  function NextIo(b: Bits): (int, Bits) {
    if b.rd then (FD_IN, b.(rd := false)) else if b.wr then (FD_OUT, b.(wr := false)) else (FD_ERR, NO_BITS)
  }

  // ---- Steps ----

  predicate Enabled(y: Sys, step: Step) {
    && !y.fatal && !y.hijacked && 0 in y.socks
    && match step
       case Start(fd) => y.driver == LStart && fd >= 0 && fd !in y.open
       case Listen(_) => y.driver == LListen
       case Pair(id, _) => (y.driver == LPair || y.driver.XPair?) && id > 0 && id !in y.socks
       case PairPost => y.driver == LPost || y.driver.XPost?
       case Create(id, fd, _) => id > 0 && id !in y.socks && fd >= 0 && fd !in y.open
       case CreateFailed(id, _) => id > 0 && id !in y.socks
       case Connect(id, res) =>
         id in y.socks && y.socks[id].caller == CConnect && (y.socks[id].fd < 0 ==> res.Refused?)
       case CallerStep(id) => id in y.socks && y.socks[id].caller != CConnect && y.socks[id].caller != CNone
       case SenderPush(id) => id in y.socks && y.socks[id].role == Outbound && y.socks[id].started
       case SenderPost(id) => id in y.socks && y.socks[id].senders > 0
       case Pop(id) => id in y.socks && WorkerFree(y, id) && y.socks[id].work == NoWork && y.socks[id].pend != []
       case Wait(id, bits) =>
         && id in y.socks && WorkerFree(y, id) && y.socks[id].work == NoWork && y.socks[id].buf == NO_BITS
             && y.socks[id].reg
         && (bits.rd ==> y.socks[id].kernel.rd) && (bits.wr ==> y.socks[id].kernel.wr) && (bits.er ==> id != 0)
       case Fetch(id) => id in y.socks && WorkerFree(y, id) && y.socks[id].work == NoWork && y.socks[id].buf != NO_BITS
       case Enter(id, _) =>
         id in y.socks && WorkerFree(y, id) && !y.socks[id].locked && y.socks[id].work != NoWork
             && !Accepting(y.socks[id])
       case EnterAccept(res) =>
         && WorkerFree(y, 0) && !y.socks[0].locked && Accepting(y.socks[0])
         && (res.Got? ==> res.fd > 0 && res.fd !in y.open)
       case Drain(id) => id in y.socks && y.socks[id].locked && y.socks[id].events != []
       case Leave(id) => id in y.socks && y.socks[id].locked && y.socks[id].events == [] && !Delivering(y.driver, id)
       case DeliverEnter =>
         y.driver == LIdle && !y.socks[0].locked && y.batch != [] && y.batch[0] in y.socks
             && !y.socks[y.batch[0]].locked
       case DeliverActivate => y.driver.XActivate? && y.driver.p in y.socks
       case DeliverRecv => y.driver.XRecv? && y.driver.p in y.socks
       case DeliverLeave => y.driver.XLeave? && y.driver.p in y.socks && y.socks[y.driver.p].events == []
  }

  function Do(y: Sys, step: Step): Sys
    requires Enabled(y, step)
  {
    match step
    case Start(fd) =>
      var s := y.socks[0];
      var z := y.(open := y.open[fd := 0], driver := LListen, outside := y.outside || s.fd != -1 || s.started);
      Feed(z.(socks := z.socks[0 := s.(fd := fd, started := true)]), 0, ACTION, START, QUIET)
    case Listen(ok) =>
      // the device ignores a failure of listen()
      if ok then Feed(y.(driver := LPair), 0, ACTION, ACT_LISTEN, QUIET) else y.(driver := LPair)
    case Pair(id, birth) => DoPair(y, id, birth)
    case PairPost =>
      Update(y, 0, Post(y.socks[0], TAccept)).(driver := if y.driver == LPost then LIdle else XLeave(y.driver.p))
    case Create(id, fd, birth) =>
      var s := Fresh(Outbound, birth).(fd := fd, started := true, caller := CConnect);
      var z := Feed(y.(socks := y.socks[id := s], open := y.open[fd := id]), id, ACTION, START, QUIET);
      Feed(z, id, ACTION, ACT_CONNECT, QUIET)
    case CreateFailed(id, birth) =>
      // the device ignores a failure of Start
      var z := y.(socks := y.socks[id := Fresh(Outbound, birth).(caller := CConnect)]);
      Feed(z, id, ACTION, ACT_CONNECT, QUIET)
    case Connect(id, res) => ConnectReturns(y, id, res)
    case CallerStep(id) => Update(y, id, CallerNext(y.socks[id]))
    case SenderPush(id) => Update(y, id, Pushed(y.socks[id]))
    case SenderPost(id) => Update(y, id, Posted(y.socks[id]))
    case Pop(id) =>
      var s := y.socks[id];
      Update(y, id, s.(work := RunTask(s.pend[0]), pend := s.pend[1..]))
    case Wait(id, bits) => Update(y, id, y.socks[id].(buf := bits))
    case Fetch(id) =>
      var s := y.socks[id];
      Update(y, id, s.(work := RunIo(NextIo(s.buf).0), buf := NextIo(s.buf).1))
    case Enter(id, k) =>
      var s := y.socks[id];
      var src := Source(s.work);
      if Hijacks(y, id) then y.(hijacked := true)
      else Feed(y.(socks := y.socks[id := s.(locked := true, work := NoWork)]), id, src.0, src.1, k)
    case EnterAccept(res) => DoAcceptNow(y, res)
    case Drain(id) => DoDrain(y, id)
    case Leave(id) =>
      var z := Update(y, id, y.socks[id].(locked := false));
      if id == 0 then z.(batch := y.ext, ext := []) else z
    case DeliverEnter =>
      var p := y.batch[0];
      Update(y, p, y.socks[p].(locked := true)).(batch := y.batch[1..], driver := XActivate(p),
          announced := y.announced + [p])
    case DeliverActivate => Feed(y.(driver := XRecv(y.driver.p)), y.driver.p, ACTION, ACT_ACTIVATE, QUIET)
    case DeliverRecv => Update(y.(driver := XPair(y.driver.p)), y.driver.p, Post(y.socks[y.driver.p], TRecv))
    case DeliverLeave => Update(y.(driver := LIdle), y.driver.p, y.socks[y.driver.p].(locked := false))
  }

  /** PairListenSocket and Accept, up to the posting of task_accept. */
  function DoPair(y: Sys, id: int, birth: Birth): Sys
    requires Enabled(y, Pair(id, birth))
  {
    var y1 := Feed(y.(socks := y.socks[id := Fresh(Inbound, birth).(started := true)]), id, ACTION, START, QUIET);
    var y2 := Feed(y1, id, ACTION, ACT_BEING_ACCEPTED, QUIET);
    Link(Feed(y2, 0, ACTION, ACT_ACCEPT, QUIET), id, if y.driver == LPair then LPost else XPost(y.driver.p))
  }

  function Link(y: Sys, id: int, driver: Driver): Sys
    requires 0 in y.socks && id in y.socks
  {
    var l, p := y.socks[0], y.socks[id];
    y.(socks := y.socks[0 := l.(asock := Some(id))][id := p.(asock := Some(0))],
       outside := y.outside || l.asock.Some? || p.asock.Some?,
       driver := driver)
  }

  /** connect() returned: the first half of the Connecting state's answer to it. */
  function ConnectReturns(y: Sys, id: int, res: ConnectResult): Sys
    requires id in y.socks
  {
    var s := y.socks[id];
    match res
    case InProgress => Update(y, id, s.(caller := CExecConnecting))
    case Connected =>
      var d := Dispatch(s.st, ACTION, ACT_DONE);
      Update(y.(bad := y.bad || d.bad > 0, outside := y.outside || d.arm != ConnectedNow), id,
             s.(st := ACTIVE, caller := CExecConnected))
    case Refused =>
      var d := Dispatch(s.st, ACTION, ACT_ERROR);
      Update(y.(bad := y.bad || d.bad > 0, outside := y.outside || d.arm != ConnectFailed), id,
             Refuse(s).(caller := CRaiseError))
  }

  /** The listener's IN event. */
  function DoAcceptNow(y: Sys, res: AcceptResult): Sys
    requires Enabled(y, EnterAccept(res))
  {
    var l := y.socks[0].(locked := true, work := NoWork);
    match res
    case Aborted => Update(y, 0, l)
    case NoResource => Update(y, 0, AcceptFailed(l))
    case Unexpected => y.(fatal := true)
    case Got(fd) =>
      if l.asock == None || l.asock.value !in y.socks || l.asock.value == 0 then y.(outside := true)
      else
        var p := l.asock.value;
        var ps := y.socks[p];
        var r := AcceptArm(l, ps, fd);
        var queued := p in y.ext || p in y.batch || Queued(ps.events, Established);
        y.(socks := y.socks[0 := r.0][p := r.1.(log := ps.log.(clash := ps.log.clash || queued))],
           open := y.open[fd := p],
           ext := if queued then y.ext else y.ext + [p],
           accepts := y.accepts + [p],
           outside := y.outside || (ps.st != IDLE && ps.st != BEING_ACCEPTED) || ps.fd != -1)
  }

  /** One event of the context's queue, as the device handles it. */
  function DoDrain(y: Sys, id: int): Sys
    requires id in y.socks && y.socks[id].events != []
  {
    var e := y.socks[id].events[0];
    if e.typ == EV_CONNECTED || e.typ == EV_SENT || e.typ == EV_RECEIVED then Update(y, id, Drained(y.socks[id]))
    else if e.typ == EV_ERROR || e.typ == EV_ACCEPT_ERROR then y.(fatal := true)
    else y.(outside := true)
  }
}
