/** The engine's inductive invariant and what follows from it for every run. */
module EngineInv {
  import opened SocketFsm
  import opened Sequences
  import opened Sockets
  import opened SocketInv
  import opened Engine

  type Socks = map<int, Sock>

  // ---- The invariant ----

  predicate SocksOk(m: Socks) {
    && 0 in m
    && (forall i :: i in m ==> SockOk(m[i]))
    && (forall i :: i in m ==> (m[i].role == Listener <==> i == 0))
  }

  /** Every descriptor held is open and was handed to its holder, so no two sockets hold the same one. */
  predicate FdsOk(m: Socks, open: map<int, int>) {
    forall i :: i in m && m[i].fd >= 0 ==> m[i].fd in open && open[m[i].fd] == i
  }

  predicate IsInbound(m: Socks, p: int) {
    p in m && p != 0 && m[p].role == Inbound
  }

  /** The socket a delivering thread is inside of, after its activation. */
  predicate InHand(m: Socks, p: int) {
    IsInbound(m, p) && m[p].locked && (m[p].st == ACTIVE || m[p].st == DONE)
  }

  /** Every active accepted socket gets its IN events, or the driving thread is just about to see to it. */
  predicate HeardOk(m: Socks, driver: Driver) {
    forall i :: i in m && Deaf(m[i]) ==> driver == XRecv(i)
  }

  /** Where the driving thread is, the listener and the socket in hand agree. */
  predicate DriverOk(m: Socks, driver: Driver)
    requires 0 in m
  {
    var l := m[0];
    && HeardOk(m, driver)
    && match driver
       case LStart => l.st == IDLE
       case LListen => l.st == STARTING
       case LPair => l.st == LISTENING || l.st == STARTING   // STARTING when listen() failed
       case LPost => l.st == ACCEPTING && Quiet(l)
       case LIdle => l.st == LISTENING || (l.st == ACCEPTING && Listens(l)) || l.st == ACCEPTING_ERROR
       case XActivate(p) => l.st == LISTENING && IsInbound(m, p) && m[p].locked && m[p].st == ACCEPTED
       case XRecv(p) => l.st == LISTENING && InHand(m, p)
       case XPair(p) => l.st == LISTENING && InHand(m, p)
       case XPost(p) => l.st == ACCEPTING && Quiet(l) && InHand(m, p)
       case XLeave(p) => l.st == ACCEPTING && Listens(l) && InHand(m, p)
  }

  predicate ListenerEngaged(l: Sock) {
    l.st == ACCEPTING || l.st == ACCEPTING_ERROR
  }

  /** An accepting listener and the socket being accepted point at each other,
      and nothing else is being accepted. */
  predicate PartnersOk(m: Socks)
    requires 0 in m
  {
    && (ListenerEngaged(m[0]) ==>
          m[0].asock.Some? && IsInbound(m, m[0].asock.value) && m[m[0].asock.value].st == BEING_ACCEPTED)
    && (forall i :: i in m && i != 0 && m[i].st == BEING_ACCEPTED ==> ListenerEngaged(m[0]) && m[0].asock == Some(i))
  }

  /** Sockets with an Accepted event not yet acted on: at most one, first in the
      context's queue, then in its copy, then in the driving thread's hands. */
  predicate ExternalOk(m: Socks, driver: Driver, ext: seq<int>, batch: seq<int>)
    requires 0 in m
  {
    && |ext| + |batch| <= 1
    && (ext != [] ==> m[0].locked && m[0].st == LISTENING && IsInbound(m, ext[0]) && m[ext[0]].st == ACCEPTED)
    && (batch != [] ==> !m[0].locked && m[0].st == LISTENING && IsInbound(m, batch[0]) && m[batch[0]].st == ACCEPTED)
    && (driver != LIdle ==> ext == [] && batch == [] && !m[0].locked)
    && (driver == LIdle && ext == [] && batch == [] ==> m[0].st != LISTENING)
    && (forall i :: i in m && i != 0 && m[i].st == ACCEPTED ==>
          (ext != [] && ext[0] == i) || (batch != [] && batch[0] == i) || driver == XActivate(i))
  }

  /** Each accepted descriptor's socket is announced once, in the order of acceptance. */
  predicate HistoriesOk(m: Socks, accepts: seq<int>, announced: seq<int>, pending: seq<int>) {
    && accepts == announced + pending
    && (forall n :: 0 <= n < |accepts| ==> IsInbound(m, accepts[n]) && m[accepts[n]].st != BEING_ACCEPTED)
    && (forall k, n :: 0 <= k < n < |accepts| ==> accepts[k] != accepts[n])
  }

  predicate Inv(y: Sys) {
    && SocksOk(y.socks) && FdsOk(y.socks, y.open) && DriverOk(y.socks, y.driver) && PartnersOk(y.socks)
    && ExternalOk(y.socks, y.driver, y.ext, y.batch) && HistoriesOk(y.socks, y.accepts, y.announced, y.batch + y.ext)
    && !y.bad && !y.outside && !y.badClose
  }

  // ---- Replacing one socket ----

  /** A change of socket id that accepting does not notice. */
  predicate Bystander(m: Socks, driver: Driver, id: int, s: Sock)
    requires id in m
  {
    var was := m[id];
    && id != 0 && s.role == was.role
    && (s.fd == was.fd || (s.fd < 0 && !s.reg))
    && (s.st == was.st || (s.st != BEING_ACCEPTED && s.st != ACCEPTED && was.st != BEING_ACCEPTED
        && was.st != ACCEPTED))
    && (Delivering(driver, id) ==> s.locked && s.st == was.st)
    && (Deaf(s) ==> Deaf(was))
  }

  lemma OthersPairing(m: Socks, driver: Driver, id: int, s: Sock)
    requires 0 in m && DriverOk(m, driver) && PartnersOk(m) && id in m && Bystander(m, driver, id, s)
    ensures DriverOk(m[id := s], driver) && PartnersOk(m[id := s])
  {
  }

  lemma OthersExternal(m: Socks, driver: Driver, ext: seq<int>, batch: seq<int>, id: int, s: Sock)
    requires 0 in m && ExternalOk(m, driver, ext, batch) && id in m && Bystander(m, driver, id, s)
    ensures ExternalOk(m[id := s], driver, ext, batch)
  {
  }

  lemma OthersHistories(m: Socks, driver: Driver, accepts: seq<int>, announced: seq<int>, pending: seq<int>, id: int,
      s: Sock)
    requires HistoriesOk(m, accepts, announced, pending) && id in m && Bystander(m, driver, id, s)
    ensures HistoriesOk(m[id := s], accepts, announced, pending)
  {
  }

  /** A socket other than the listener moves without taking part in accepting. */
  lemma OthersKeep(y: Sys, id: int, s: Sock)
    requires Inv(y) && id in y.socks && SockOk(s) && Bystander(y.socks, y.driver, id, s)
    ensures Inv(Update(y, id, s))
  {
    hide SockOk, DriverOk, PartnersOk, ExternalOk, HistoriesOk;
    OthersPairing(y.socks, y.driver, id, s);
    OthersExternal(y.socks, y.driver, y.ext, y.batch, id, s);
    OthersHistories(y.socks, y.driver, y.accepts, y.announced, y.batch + y.ext, id, s);
  }

  /** What the invariant says of one socket alone. */
  lemma SockAt(y: Sys, id: int)
    requires Inv(y) && id in y.socks
    ensures SockOk(y.socks[id]) && (y.socks[id].role == Listener <==> id == 0)
  {
    hide SockOk, FdsOk, DriverOk, PartnersOk, ExternalOk, HistoriesOk;
  }

  /** One socket changes and keeps its descriptor. */
  lemma SocksStay(m: Socks, open: map<int, int>, id: int, s: Sock)
    requires SocksOk(m) && FdsOk(m, open) && id in m && SockOk(s) && s.role == m[id].role && s.fd == m[id].fd
    ensures SocksOk(m[id := s]) && FdsOk(m[id := s], open)
  {
    hide SockOk;
  }

  lemma ListenerPairing(m: Socks, ext: seq<int>, s: Sock)
    requires 0 in m && DriverOk(m, LIdle) && PartnersOk(m) && ExternalOk(m, LIdle, ext, [])
    requires s.st == m[0].st && s.asock == m[0].asock && (ext != [] ==> s.locked)
    requires s.role == Listener && (Listens(m[0]) ==> Listens(s))
    ensures DriverOk(m[0 := s], LIdle) && PartnersOk(m[0 := s]) && ExternalOk(m[0 := s], LIdle, ext, [])
  {
  }

  /** The listener moves within its state, on its own worker. */
  lemma ListenerKeeps(y: Sys, s: Sock)
    requires Inv(y) && 0 in y.socks && ListenerOk(s) && s.role == Listener
    requires s.st == y.socks[0].st && s.asock == y.socks[0].asock && s.fd == y.socks[0].fd
    requires Listens(y.socks[0]) ==> Listens(s)
    requires y.driver == LIdle && y.batch == [] && (y.ext != [] ==> s.locked)
    ensures Inv(Update(y, 0, s))
  {
    SockAt(y, 0);
    hide SocksOk, FdsOk, DriverOk, PartnersOk, ExternalOk, HistoriesOk, ListenerOk, OutboundOk, InboundOk;
    SocksStay(y.socks, y.open, 0, s);
    ListenerPairing(y.socks, y.ext, s);
    HistoryUpdate(y.socks, 0, s, y.accepts, y.announced, y.batch + y.ext);
  }

  // ---- Worker steps ----

  /** Whoever is inside a context the worker can turn to, it is that of an accepted socket. */
  lemma LockedByDelivery(y: Sys, id: int)
    requires Inv(y) && id in y.socks && WorkerFree(y, id)
    ensures y.socks[id].locked ==> y.socks[id].role == Inbound
  {
    hide SocksOk, FdsOk, PartnersOk, ExternalOk, HistoriesOk;
  }

  lemma PopKeeps(y: Sys, id: int)
    requires Inv(y) && Enabled(y, Pop(id))
    ensures Inv(Do(y, Pop(id)))
  {
    var s := y.socks[id];
    SockAt(y, id);
    LockedByDelivery(y, id);
    hide SockOk, Inv, Update;
    PopOk(s);
    MoveKeeps(y, id, s.(work := RunTask(s.pend[0]), pend := s.pend[1..]));
  }

  /** A move of the socket's worker that leaves state, descriptor, partner and lock alone. */
  lemma MoveKeeps(y: Sys, id: int, s: Sock)
    requires Inv(y) && id in y.socks && SockOk(s) && WorkerFree(y, id)
    requires var was := y.socks[id];
             s.role == was.role && s.st == was.st && s.fd == was.fd && s.asock == was.asock && s.locked == was.locked
             && Hears(was, s)
    ensures Inv(Update(y, id, s))
  {
    SockAt(y, id);
    LockNeeded(y);
    hide Inv, Update, OutboundOk, InboundOk, ListenerOk;
    if id == 0 {
      ListenerKeeps(y, s);
    } else {
      OthersKeep(y, id, s);
    }
  }

  lemma LockNeeded(y: Sys)
    requires Inv(y)
    ensures 0 in y.socks && (y.ext != [] ==> y.socks[0].locked)
        && (y.socks[0].locked ==> y.driver == LIdle && y.batch == [])
  {
    hide FdsOk, DriverOk, PartnersOk, HistoriesOk, SockOk;
  }

  lemma WaitKeeps(y: Sys, id: int, bits: Bits)
    requires Inv(y) && Enabled(y, Wait(id, bits))
    ensures Inv(Do(y, Wait(id, bits)))
  {
    hide OutboundOk;
    SockAt(y, id);
    hide Inv, SockOk, Update;
    WaitOk(y.socks[id], bits);
    MoveKeeps(y, id, y.socks[id].(buf := bits));
  }

  lemma FetchKeeps(y: Sys, id: int)
    requires Inv(y) && Enabled(y, Fetch(id))
    ensures Inv(Do(y, Fetch(id)))
  {
    var s := y.socks[id];
    SockAt(y, id);
    LockedByDelivery(y, id);
    hide Inv, SockOk, Update;
    FetchOk(s);
    MoveKeeps(y, id, s.(work := RunIo(NextIo(s.buf).0), buf := NextIo(s.buf).1));
  }

  /** A dispatch without complaints, to an arm that stays within the socket. */
  predicate Clean(d: Dispatched) {
    d.bad == 0 && Alone(d) && !Teardown(d.arm)
  }

  lemma NotBroken(y: Sys)
    requires Inv(y)
    ensures !y.bad && !y.outside && !y.badClose
  {
  }

  lemma FeedIs(y: Sys, id: int, s: Sock, src: int, typ: int, k: Kernel)
    requires Inv(y) && id in y.socks && s.fd == y.socks[id].fd
    requires Internal(src) || Clean(Dispatch(s.st, src, typ))
    ensures Feed(y.(socks := y.socks[id := s]), id, src, typ, k) == Update(y, id, Handle(s, src, typ, k))
  {
    hide OutboundOk, SockOk;
    NotBroken(y);
    hide Inv, Perform, InternalTask, Dispatch, Internal;
    var t := Handle(s, src, typ, k);
    assert y.socks[id := s][id := t] == y.socks[id := t];
  }

  /** What any task or descriptor event does to its socket. */
  lemma EnteredOk(s: Sock, k: Kernel)
    requires SockOk(s) && !s.locked && s.work != NoWork && !Accepting(s)
    ensures var src, typ := Source(s.work).0, Source(s.work).1;
            && (Internal(src) || Clean(Dispatch(s.st, src, typ)))
            && var u := Handle(Inside(s), src, typ, k); SockOk(u) && Moves(s, u)
  {
    hide SockOk, Moves, Handle, Dispatch;
    if s.work.RunTask? {
      EnteredTaskOk(s, k);
    } else {
      EnteredIoOk(s, k);
    }
  }

  lemma EnteredTaskOk(s: Sock, k: Kernel)
    requires SockOk(s) && !s.locked && s.work.RunTask?
    ensures var src := TaskSource(s.work.task);
            Internal(src) && var u := Handle(Inside(s), src, EXECUTE, k); SockOk(u) && Moves(s, u)
  {
    hide OutboundOk, InboundOk, ListenerOk, InternalTask, Dispatch, Perform;
    match s.role
    case Outbound => OutboundTaskOk(s);
    case Inbound => InboundTaskOk(s);
    case Listener => ListenerTaskOk(s);
  }

  lemma EnteredIoOk(s: Sock, k: Kernel)
    requires SockOk(s) && !s.locked && s.work.RunIo? && !Accepting(s)
    ensures var d := Dispatch(s.st, SRC_FD, s.work.event);
            Clean(d) && var u := Handle(Inside(s), SRC_FD, s.work.event, k); SockOk(u) && Moves(s, u)
  {
    hide OutboundOk, InboundOk, ListenerOk, InternalTask, Dispatch, Perform;
    assert !Internal(SRC_FD);
    match s.role
    case Outbound => OutboundIoOk(s, k);
    case Inbound => InboundIoOk(s, k);
    case Listener => ListenerIo(s);
  }

  /** The only descriptor event a listener gets is the one that accepts. */
  lemma ListenerIo(s: Sock)
    requires ListenerOk(s) && s.work.RunIo?
    ensures Accepting(s)
  {
  }

  lemma EnterFeeds(y: Sys, id: int, k: Kernel)
    requires Enabled(y, Enter(id, k))
    ensures id in y.socks && WorkerFree(y, id) && Do(y, Enter(id, k)).socks.Keys == y.socks.Keys
    ensures var s := y.socks[id];
            && !s.locked && s.work != NoWork && !Accepting(s)
            && Do(y, Enter(id, k)) ==
               if Hijacks(y, id) then y.(hijacked := true)
               else Feed(y.(socks := y.socks[id := Inside(s)]), id, Source(s.work).0, Source(s.work).1, k)
  {
    hide Feed, Hijacks, Dispatch;
  }

  lemma EnterKeeps(y: Sys, id: int, k: Kernel)
    requires Inv(y) && Enabled(y, Enter(id, k))
    ensures Inv(Do(y, Enter(id, k)))
  {
    EnterFeeds(y, id, k);
    hide Inv, Do, Enabled, SockOk, Handle, Feed, Update, Hijacks, Dispatch, Moves, Accepting, WorkerFree;
    if Hijacks(y, id) {
      HijackKeeps(y);
    } else {
      var s := y.socks[id];
      SockAt(y, id);
      var src, typ := Source(s.work).0, Source(s.work).1;
      EnteredOk(s, k);
      FeedIs(y, id, Inside(s), src, typ, k);
      EnteredKeeps(y, id, Handle(Inside(s), src, typ, k));
    }
  }

  lemma HijackKeeps(y: Sys)
    requires Inv(y)
    ensures Inv(y.(hijacked := true)) && Inv(y.(fatal := true))
  {
    hide SocksOk, FdsOk, DriverOk, PartnersOk, ExternalOk, HistoriesOk;
  }

  lemma EnteredKeeps(y: Sys, id: int, u: Sock)
    requires Inv(y) && id in y.socks && WorkerFree(y, id) && !y.socks[id].locked
    requires SockOk(u) && Moves(y.socks[id], u)
    ensures Inv(Update(y, id, u))
  {
    SockAt(y, id);
    hide Inv, Update, OutboundOk, InboundOk, ListenerOk;
    if id == 0 {
      ListenerKeeps(y, u);
    } else {
      OthersKeep(y, id, u);
    }
  }

  lemma ListenerEvents(s: Sock)
    requires ListenerOk(s) && s.events != []
    ensures s.events[0] == Raised(ErrorEvent, EV_ACCEPT_ERROR)
  {
  }

  lemma DrainKeeps(y: Sys, id: int)
    requires Inv(y) && Enabled(y, Drain(id))
    ensures Inv(Do(y, Drain(id)))
  {
    var s := y.socks[id];
    SockAt(y, id);
    HijackKeeps(y);
    hide Inv, OutboundOk, InboundOk, ListenerOk, Update, Drained;
    if id == 0 {
      ListenerEvents(s);
    } else if s.events[0].typ != EV_ERROR {
      DrainOk(s);
      OthersKeep(y, id, Drained(s));
    } else {
      DrainOnlyProper(s);
    }
  }

  lemma DrainOnlyProper(s: Sock)
    requires SockOk(s) && s.events != []
    ensures s.events[0].typ != EV_ACCEPT_ERROR || s.role == Listener
  {
  }

  /** The listener's worker unlocks the context and takes its external events along. */
  lemma ListenerLeaves(m: Socks, ext: seq<int>, u: Sock)
    requires 0 in m && DriverOk(m, LIdle) && PartnersOk(m) && ExternalOk(m, LIdle, ext, [])
    requires u == m[0].(locked := false) && u.role == Listener
    ensures DriverOk(m[0 := u], LIdle) && PartnersOk(m[0 := u]) && ExternalOk(m[0 := u], LIdle, [], ext)
  {
  }

  lemma ListenerLeaveOk(s: Sock)
    requires ListenerOk(s) && s.events == []
    ensures ListenerOk(s.(locked := false))
  {
  }

  lemma LeaveKeeps(y: Sys, id: int)
    requires Inv(y) && Enabled(y, Leave(id))
    ensures Inv(Do(y, Leave(id)))
  {
    hide OutboundOk;
    var s := y.socks[id];
    var u := s.(locked := false);
    SockAt(y, id);
    LockNeeded(y);
    if id == 0 {
      ListenerLeaveKeeps(y, u);
    } else {
      hide Inv, SockOk, Update;
      LeaveOk(s);
      OthersKeep(y, id, u);
    }
  }

  lemma ListenerLeaveKeeps(y: Sys, u: Sock)
    requires Inv(y) && 0 in y.socks && y.driver == LIdle && y.batch == []
    requires y.socks[0].events == [] && u == y.socks[0].(locked := false)
    ensures Inv(Update(y, 0, u).(batch := y.ext, ext := []))
  {
    SockAt(y, 0);
    hide SocksOk, FdsOk, DriverOk, PartnersOk, ExternalOk, HistoriesOk, OutboundOk, InboundOk, ListenerOk;
    ListenerLeaveOk(y.socks[0]);
    SocksStay(y.socks, y.open, 0, u);
    ListenerLeaves(y.socks, y.ext, u);
    HistoryUpdate(y.socks, 0, u, y.accepts, y.announced, y.batch + y.ext);
    assert [] + y.ext == y.ext + [];
  }

  // ---- Senders ----

  lemma DeliversInbound(m: Socks, driver: Driver, id: int)
    requires 0 in m && DriverOk(m, driver)
    ensures Delivering(driver, id) ==> IsInbound(m, id) && m[id].locked
  {
  }

  /** Outbound sockets have no part in accepting. */
  lemma OutboundKeeps(y: Sys, id: int, u: Sock)
    requires Inv(y) && id in y.socks && y.socks[id].role == Outbound && OutboundOk(u)
    requires u.fd == y.socks[id].fd || (u.fd < 0 && !u.reg)
    ensures Inv(Update(y, id, u))
  {
    hide DriverOk, PartnersOk, ExternalOk, HistoriesOk, FdsOk, InboundOk, ListenerOk, Update;
    DeliversInbound(y.socks, y.driver, id);
    OthersKeep(y, id, u);
  }

  lemma CallerKeeps(y: Sys, id: int)
    requires Inv(y) && Enabled(y, CallerStep(id))
    ensures Inv(Do(y, CallerStep(id)))
  {
    SockAt(y, id);
    RoleOfCaller(y.socks[id]);
    hide Inv, OutboundOk, InboundOk, ListenerOk, Update, CallerNext;
    CallerNextOk(y.socks[id]);
    OutboundKeeps(y, id, CallerNext(y.socks[id]));
  }

  lemma RoleOfCaller(s: Sock)
    requires SockOk(s)
    ensures s.caller != CNone || s.senders > 0 ==> s.role == Outbound
  {
  }

  lemma SenderPushIs(y: Sys, id: int)
    requires Enabled(y, SenderPush(id))
    ensures id in y.socks && y.socks[id].role == Outbound && Do(y, SenderPush(id)) == Update(y, id, Pushed(y.socks[id]))
  {
    hide Update;
  }

  lemma SenderPostIs(y: Sys, id: int)
    requires Enabled(y, SenderPost(id))
    ensures id in y.socks && y.socks[id].senders > 0
    ensures Do(y, SenderPost(id)) == Update(y, id, Posted(y.socks[id]))
  {
    hide Update, Post;
  }

  lemma SenderPushKeeps(y: Sys, id: int)
    requires Inv(y) && Enabled(y, SenderPush(id))
    ensures Inv(Do(y, SenderPush(id)))
  {
    SenderPushIs(y, id);
    hide Inv, Do, Enabled, OutboundOk, InboundOk, ListenerOk, Update, Pushed;
    SockAt(y, id);
    SenderPushOk(y.socks[id]);
    OutboundKeeps(y, id, Pushed(y.socks[id]));
  }

  lemma SenderPostKeeps(y: Sys, id: int)
    requires Inv(y) && Enabled(y, SenderPost(id))
    ensures Inv(Do(y, SenderPost(id)))
  {
    SenderPostIs(y, id);
    hide Inv, Do, Enabled, OutboundOk, Update, Posted;
    SockAt(y, id);
    RoleOfCaller(y.socks[id]);
    hide InboundOk, ListenerOk;
    SenderPostOk(y.socks[id]);
    OutboundKeeps(y, id, Posted(y.socks[id]));
  }

  lemma ConnectDispatches(s: Sock)
    requires OutboundOk(s) && s.caller == CConnect
    ensures Dispatch(s.st, ACTION, ACT_DONE) == Run(ConnectedNow)
        && Dispatch(s.st, ACTION, ACT_ERROR) == Run(ConnectFailed)
  {
  }

  lemma ConnectKeeps(y: Sys, id: int, res: ConnectResult)
    requires Inv(y) && Enabled(y, Connect(id, res))
    ensures Inv(Do(y, Connect(id, res)))
  {
    var s := y.socks[id];
    SockAt(y, id);
    RoleOfCaller(s);
    NotBroken(y);
    hide Inv, OutboundOk, InboundOk, ListenerOk, Update, Dispatch;
    ConnectOk(s);
    ConnectDispatches(s);
    match res
    case InProgress => OutboundKeeps(y, id, s.(caller := CExecConnecting));
    case Connected =>
      assert y.(bad := false, outside := false) == y;
      OutboundKeeps(y, id, s.(st := ACTIVE, caller := CExecConnected));
    case Refused =>
      assert y.(bad := false, outside := false) == y;
      OutboundKeeps(y, id, Refuse(s).(caller := CRaiseError));
  }

  // ---- New sockets ----

  lemma CreateIs(y: Sys, id: int, fd: int, birth: Birth)
    requires Inv(y) && Enabled(y, Create(id, fd, birth))
    ensures Do(y, Create(id, fd, birth)) == y.(socks := y.socks[id := Created(fd, birth)], open := y.open[fd := id])
  {
    hide Inv;
    var s0 := Fresh(Outbound, birth).(fd := fd, started := true, caller := CConnect);
    var s1 := s0.(st := STARTING);
    assert y.socks[id := s0][id := s1][id := Created(fd, birth)] == y.socks[id := Created(fd, birth)];
  }

  lemma NewcomerKeeps(m: Socks, driver: Driver, ext: seq<int>, batch: seq<int>, id: int, s: Sock)
    requires 0 in m && DriverOk(m, driver) && PartnersOk(m) && ExternalOk(m, driver, ext, batch)
    requires id !in m && s.role == Outbound && s.st == CONNECTING
    ensures DriverOk(m[id := s], driver) && PartnersOk(m[id := s]) && ExternalOk(m[id := s], driver, ext, batch)
  {
  }

  lemma NewSock(m: Socks, open: map<int, int>, id: int, fd: int, s: Sock)
    requires SocksOk(m) && FdsOk(m, open) && id !in m && fd !in open && SockOk(s) && s.role != Listener && s.fd == fd
    ensures SocksOk(m[id := s]) && FdsOk(m[id := s], open[fd := id])
  {
    hide SockOk;
  }

  lemma CreatedKeeps(y: Sys, id: int, fd: int, s: Sock)
    requires Inv(y) && id !in y.socks && fd !in y.open && SockOk(s) && s.role == Outbound && s.st == CONNECTING
        && s.fd == fd
    ensures Inv(y.(socks := y.socks[id := s], open := y.open[fd := id]))
  {
    LockNeeded(y);
    hide SocksOk, FdsOk, DriverOk, PartnersOk, ExternalOk, HistoriesOk, SockOk;
    NewSock(y.socks, y.open, id, fd, s);
    NewcomerKeeps(y.socks, y.driver, y.ext, y.batch, id, s);
    NewcomerHistory(y.socks, id, s, y.accepts, y.announced, y.batch + y.ext);
  }

  lemma NewcomerHistory(m: Socks, id: int, s: Sock, accepts: seq<int>, announced: seq<int>, pending: seq<int>)
    requires HistoriesOk(m, accepts, announced, pending) && id !in m
    ensures HistoriesOk(m[id := s], accepts, announced, pending)
  {
  }

  lemma CreateKeeps(y: Sys, id: int, fd: int, birth: Birth)
    requires Inv(y) && Enabled(y, Create(id, fd, birth))
    ensures Inv(Do(y, Create(id, fd, birth)))
  {
    CreateIs(y, id, fd, birth);
    CreatedOk(fd, birth);
    assert id !in y.socks && fd !in y.open && fd >= 0;
    hide Inv, Do, Enabled, OutboundOk, InboundOk, ListenerOk;
    CreatedKeeps(y, id, fd, Created(fd, birth));
  }

  // ---- Setting up the listener ----

  lemma StartKeeps(y: Sys, fd: int)
    requires Inv(y) && Enabled(y, Start(fd))
    ensures Inv(Do(y, Start(fd)))
  {
    hide OutboundOk, InboundOk;
    var s := y.socks[0];
    var t := s.(fd := fd, started := true);
    var u := t.(st := STARTING);
    assert y.socks[0 := t][0 := u] == y.socks[0 := u];
  }

  lemma ListenKeeps(y: Sys, ok: bool)
    requires Inv(y) && Enabled(y, Listen(ok))
    ensures Inv(Do(y, Listen(ok)))
  {
    hide OutboundOk, InboundOk;
  }

  /** The listener with task_accept posted, while the driving thread moves on. */
  lemma PairPosted(m: Socks, from: Driver, to: Driver, u: Sock)
    requires 0 in m && DriverOk(m, from) && PartnersOk(m) && ExternalOk(m, from, [], [])
    requires (from == LPost && to == LIdle) || (from.XPost? && to == XLeave(from.p))
    requires ListenerOk(m[0]) && u == Post(m[0], TAccept)
    ensures ListenerOk(u) && DriverOk(m[0 := u], to) && PartnersOk(m[0 := u]) && ExternalOk(m[0 := u], to, [], [])
  {
    hide OutboundOk, InboundOk;
  }

  lemma PairPostIs(y: Sys)
    requires Enabled(y, PairPost)
    ensures 0 in y.socks && (y.driver == LPost || y.driver.XPost?)
    ensures Do(y, PairPost) ==
            y.(socks := y.socks[0 := Post(y.socks[0], TAccept)],
               driver := if y.driver == LPost then LIdle else XLeave(y.driver.p))
  {
  }

  lemma PairPostKeeps(y: Sys)
    requires Inv(y) && Enabled(y, PairPost)
    ensures Inv(Do(y, PairPost))
  {
    PairPostIs(y);
    NotIdle(y);
    SockAt(y, 0);
    ListenerAt(y.socks[0]);
    var u, to := Post(y.socks[0], TAccept), if y.driver == LPost then LIdle else XLeave(y.driver.p);
    assert u.fd == y.socks[0].fd && u.role == Listener && u.st == y.socks[0].st;
    hide Do, Enabled, SocksOk, FdsOk, DriverOk, PartnersOk, ExternalOk, HistoriesOk, ListenerOk, OutboundOk,
        InboundOk, Post;
    PairPosted(y.socks, y.driver, to, u);
    SocksStay(y.socks, y.open, 0, u);
    HistoryUpdate(y.socks, 0, u, y.accepts, y.announced, y.batch + y.ext);
  }

  lemma ListenerAt(s: Sock)
    requires SockOk(s) && s.role == Listener
    ensures ListenerOk(s)
  {
  }

  // ---- Pairing and accepting ----

  lemma ListenerThere(y: Sys, step: Step)
    requires Enabled(y, step)
    ensures 0 in y.socks
  {
  }

  function Engaged(l: Sock, id: int): Sock {
    l.(st := ACCEPTING, asock := Some(id))
  }

  lemma PairIs(y: Sys, id: int, birth: Birth)
    requires Inv(y) && Enabled(y, Pair(id, birth)) && y.socks[0].st != STARTING
    ensures Do(y, Pair(id, birth)) ==
            y.(socks := y.socks[0 := Engaged(y.socks[0], id)][id := Paired(birth)],
               driver := if y.driver == LPair then LPost else XPost(y.driver.p))
  {
    hide OutboundOk, InboundOk, PartnersOk, ExternalOk, HistoriesOk, FdsOk;
    var l := y.socks[0];
    var p0 := Fresh(Inbound, birth).(started := true);
    var p1, p2 := p0.(st := STARTING), p0.(st := BEING_ACCEPTED);
    var y0 := y.(socks := y.socks[id := p0]);
    var y1 := y.(socks := y.socks[id := p1]);
    var y2 := y.(socks := y.socks[id := p2]);
    assert y.socks[id := p0][id := p1] == y.socks[id := p1];
    assert y.socks[id := p1][id := p2] == y.socks[id := p2];
    assert Feed(y0, id, ACTION, START, QUIET) == y1;
    assert Feed(y1, id, ACTION, ACT_BEING_ACCEPTED, QUIET) == y2;
    PairListener(y2, id, y.socks, birth);
  }

  lemma PairListener(y: Sys, id: int, m: Socks, birth: Birth)
    requires id != 0 && 0 in m && y.socks == m[id := Paired(birth).(asock := None)]
    requires m[0].st == LISTENING && m[0].asock == None && !y.bad && !y.outside
    ensures forall driver :: Link(Feed(y, 0, ACTION, ACT_ACCEPT, QUIET), id, driver)
                             == y.(socks := m[0 := Engaged(m[0], id)][id := Paired(birth)], driver := driver)
  {
    var a := m[0].(st := ACCEPTING);
    var z := Feed(y, 0, ACTION, ACT_ACCEPT, QUIET);
    assert z == y.(socks := y.socks[0 := a]);
    assert z.socks[0 := Engaged(m[0], id)][id := Paired(birth)] == m[0 := Engaged(m[0], id)][id := Paired(birth)];
  }

  /** The listener engages with a new partner. */
  lemma PairedKeeps(m: Socks, open: map<int, int>, driver: Driver, to: Driver, id: int, p: Sock)
    requires SocksOk(m) && FdsOk(m, open) && DriverOk(m, driver) && PartnersOk(m)
    requires (driver == LPair && to == LPost) || (driver.XPair? && to == XPost(driver.p))
    requires m[0].st == LISTENING && id > 0 && id !in m
    requires InboundOk(p) && p.st == BEING_ACCEPTED
    ensures var n := m[0 := Engaged(m[0], id)][id := p];
            SocksOk(n) && FdsOk(n, open) && DriverOk(n, to) && PartnersOk(n)
  {
    hide OutboundOk;
    EngagedOk(m[0], id);
  }

  lemma EngagedOk(l: Sock, id: int)
    requires ListenerOk(l) && l.st == LISTENING
    ensures ListenerOk(Engaged(l, id)) && Quiet(Engaged(l, id)) && l.asock == None
  {
  }

  lemma PairedExternal(m: Socks, driver: Driver, to: Driver, id: int, l: Sock, p: Sock)
    requires 0 in m && ExternalOk(m, driver, [], []) && driver != LIdle && !driver.XActivate?
    requires to != LIdle && l.st == ACCEPTING && !l.locked && p.st == BEING_ACCEPTED && id != 0
    ensures ExternalOk(m[0 := l][id := p], to, [], [])
  {
  }

  lemma NotIdle(y: Sys)
    requires Inv(y) && 0 in y.socks && y.driver != LIdle
    ensures y.ext == [] && y.batch == [] && !y.socks[0].locked
  {
    hide SocksOk, FdsOk, DriverOk, PartnersOk, HistoriesOk;
  }

  lemma ListenerIsListening(y: Sys)
    requires Inv(y) && 0 in y.socks && (y.driver == LPair || y.driver.XPair?) && y.socks[0].st != STARTING
    ensures y.socks[0].st == LISTENING
  {
    hide SocksOk, FdsOk, PartnersOk, ExternalOk, HistoriesOk;
  }

  lemma PairKeeps(y: Sys, id: int, birth: Birth)
    requires Inv(y) && Enabled(y, Pair(id, birth)) && y.socks[0].st != STARTING
    ensures Inv(Do(y, Pair(id, birth)))
  {
    PairIs(y, id, birth);
    ListenerThere(y, Pair(id, birth));
    NotIdle(y);
    ListenerIsListening(y);
    assert (y.driver == LPair || y.driver.XPair?) && id > 0 && id !in y.socks;
    hide Do, Enabled, Inv;
    PairedInv(y, id, birth);
  }

  lemma PairedInv(y: Sys, id: int, birth: Birth)
    requires Inv(y) && 0 in y.socks && y.ext == [] && y.batch == [] && !y.socks[0].locked && y.socks[0].st == LISTENING
    requires (y.driver == LPair || y.driver.XPair?) && id > 0 && id !in y.socks
    ensures Inv(y.(socks := y.socks[0 := Engaged(y.socks[0], id)][id := Paired(birth)],
                   driver := if y.driver == LPair then LPost else XPost(y.driver.p)))
  {
    PairedOk(birth);
    var l, p := Engaged(y.socks[0], id), Paired(birth);
    var to := if y.driver == LPair then LPost else XPost(y.driver.p);
    hide SocksOk, FdsOk, DriverOk, PartnersOk, ExternalOk, HistoriesOk, InboundOk, ListenerOk, OutboundOk;
    PairedKeeps(y.socks, y.open, y.driver, to, id, p);
    PairedExternal(y.socks, y.driver, to, id, l, p);
    NewcomerHistory(y.socks, id, p, y.accepts, y.announced, y.batch + y.ext);
    var n := y.socks[0 := l][id := p];
    assert n == y.socks[id := p][0 := l];
    HistoryUpdate(y.socks[id := p], 0, l, y.accepts, y.announced, y.batch + y.ext);
  }

  /** Histories only look at accepted sockets, and they stay accepted. */
  lemma HistoryFrame(m: Socks, n: Socks, accepts: seq<int>, announced: seq<int>, pending: seq<int>)
    requires HistoriesOk(m, accepts, announced, pending)
    requires forall i :: IsInbound(m, i) && m[i].st != BEING_ACCEPTED ==> IsInbound(n, i) && n[i].st != BEING_ACCEPTED
    ensures HistoriesOk(n, accepts, announced, pending)
  {
  }

  lemma HistoryUpdate(m: Socks, p: int, u: Sock, accepts: seq<int>, announced: seq<int>, pending: seq<int>)
    requires HistoriesOk(m, accepts, announced, pending) && p in m && u.role == m[p].role
    requires u.st == m[p].st || u.st != BEING_ACCEPTED
    ensures HistoriesOk(m[p := u], accepts, announced, pending)
  {
  }

  lemma AcceptAbortedKeeps(y: Sys)
    requires Inv(y) && Enabled(y, EnterAccept(Aborted))
    ensures Inv(Do(y, EnterAccept(Aborted)))
  {
    hide OutboundOk, InboundOk;
    ListenerKeeps(y, Inside(y.socks[0]));
  }

  lemma AcceptFailedKeeps(y: Sys)
    requires Inv(y) && Enabled(y, EnterAccept(NoResource))
    ensures Inv(Do(y, EnterAccept(NoResource)))
  {
    hide OutboundOk, InboundOk, HistoriesOk;
    var l := Inside(y.socks[0]);
    var u := AcceptFailed(l);
    assert l.reg;
    assert ListenerOk(u);
    HistoryUpdate(y.socks, 0, u, y.accepts, y.announced, y.batch + y.ext);
  }

  /** What accept4 finds: a registered listener with a partner that has no descriptor. */
  lemma AcceptorReady(y: Sys)
    requires Inv(y) && 0 in y.socks && WorkerFree(y, 0) && !y.socks[0].locked && Accepting(y.socks[0])
    ensures var l := y.socks[0];
            && l.st == ACCEPTING && l.reg && l.pend == [] && l.asock.Some? && y.ext == []
            && var p := l.asock.value;
               IsInbound(y.socks, p) && y.socks[p].st == BEING_ACCEPTED && y.socks[p].fd == -1
               && y.socks[p].asock == Some(0) && y.socks[p].events == [] && p !in y.accepts
  {
    hide OutboundOk, FdsOk;
    var p := y.socks[0].asock.value;
    assert SockOk(y.socks[p]);
  }

  function Accepted(m: Socks, fd: int): Socks
    requires 0 in m && m[0].asock.Some? && m[0].asock.value in m
  {
    var p := m[0].asock.value;
    var r := AcceptArm(Inside(m[0]), m[p], fd);
    m[0 := r.0][p := r.1]
  }

  lemma AcceptIs(y: Sys, fd: int)
    requires Inv(y) && Enabled(y, EnterAccept(Got(fd)))
    ensures y.socks[0].asock.Some?
    ensures var p := y.socks[0].asock.value;
            && p in y.socks && fd >= 0 && fd !in y.open
            && Do(y, EnterAccept(Got(fd))) ==
               y.(socks := Accepted(y.socks, fd), open := y.open[fd := p], ext := [p], accepts := y.accepts + [p])
  {
    hide OutboundOk, InboundOk, HistoriesOk, ListenerOk, FdsOk, DriverOk;
    AcceptorReady(y);
    var p := y.socks[0].asock.value;
    assert !Queued(y.socks[p].events, Established);
    assert y.batch == [] && y.ext + [p] == [p];
  }

  lemma AcceptKeeps(y: Sys, fd: int)
    requires Inv(y) && Enabled(y, EnterAccept(Got(fd)))
    ensures Inv(Do(y, EnterAccept(Got(fd))))
  {
    hide OutboundOk, InboundOk, HistoriesOk, ListenerOk, Do;
    AcceptIs(y, fd);
    AcceptorReady(y);
    var p := y.socks[0].asock.value;
    InsideListener(y.socks[0]);
    AcceptArmOk(Inside(y.socks[0]), y.socks[p], fd);
    assert y.batch + y.ext == [];
    HistoryGrows(y.socks, Accepted(y.socks, fd), y.accepts, y.announced, p);
    assert y.batch + [p] == [p];
  }

  lemma InsideListener(s: Sock)
    requires ListenerOk(s) && !s.locked
    ensures ListenerOk(Inside(s))
  {
  }

  lemma HistoryGrows(m: Socks, n: Socks, accepts: seq<int>, announced: seq<int>, p: int)
    requires HistoriesOk(m, accepts, announced, []) && p !in accepts
    requires forall i :: IsInbound(m, i) && m[i].st != BEING_ACCEPTED ==> IsInbound(n, i) && n[i].st != BEING_ACCEPTED
    requires IsInbound(n, p) && n[p].st != BEING_ACCEPTED
    ensures HistoriesOk(n, accepts + [p], announced, [p])
  {
  }

  // ---- Delivering the Accepted event ----

  lemma DeliverEnters(m: Socks, p: int, u: Sock)
    requires 0 in m && DriverOk(m, LIdle) && PartnersOk(m) && ExternalOk(m, LIdle, [], [p])
    requires p in m && u == m[p].(locked := true)
    ensures var n := m[p := u]; DriverOk(n, XActivate(p)) && PartnersOk(n) && ExternalOk(n, XActivate(p), [], [])
  {
    hide ListenerOk, OutboundOk, InboundOk;
  }

  lemma DeliverEnterKeeps(y: Sys)
    requires Inv(y) && Enabled(y, DeliverEnter)
    ensures Inv(Do(y, DeliverEnter))
  {
    var p := y.batch[0];
    var u := y.socks[p].(locked := true);
    SockAt(y, p);
    BatchIs(y);
    hide SocksOk, FdsOk, DriverOk, PartnersOk, ExternalOk, HistoriesOk, OutboundOk, InboundOk, ListenerOk, Enabled;
    EnterAcceptedOk(y.socks[p]);
    SocksStay(y.socks, y.open, p, u);
    DeliverEnters(y.socks, p, u);
    assert y.batch + y.ext == [p] && y.batch[1..] + y.ext == [];
    HistoryFrame(y.socks, y.socks[p := u], y.accepts, y.announced, y.batch + y.ext);
    HistoryMoves(y.socks, y.socks[p := u], y.accepts, y.announced, p);
  }

  lemma EnterAcceptedOk(s: Sock)
    requires SockOk(s) && s.role == Inbound && s.st == ACCEPTED
    ensures InboundOk(s.(locked := true))
  {
  }

  lemma BatchIs(y: Sys)
    requires Inv(y) && y.batch != [] && 0 in y.socks && y.batch[0] in y.socks
    ensures y.batch == [y.batch[0]] && y.ext == [] && y.driver == LIdle
    ensures IsInbound(y.socks, y.batch[0]) && y.socks[y.batch[0]].st == ACCEPTED
  {
    hide SocksOk, FdsOk, DriverOk, PartnersOk, HistoriesOk;
  }

  lemma HistoryMoves(m: Socks, n: Socks, accepts: seq<int>, announced: seq<int>, p: int)
    requires HistoriesOk(m, accepts, announced, [p])
    requires forall i :: IsInbound(m, i) && m[i].st != BEING_ACCEPTED ==> IsInbound(n, i) && n[i].st != BEING_ACCEPTED
    ensures HistoriesOk(n, accepts, announced + [p], [])
  {
  }

  lemma ActivateIs(y: Sys)
    requires Inv(y) && Enabled(y, DeliverActivate)
    ensures y.driver.p in y.socks && y.socks[y.driver.p].role == Inbound && y.socks[y.driver.p].st == ACCEPTED
    ensures var p := y.driver.p;
            Do(y, DeliverActivate) == y.(socks := y.socks[p := Perform(y.socks[p], DoActivate, QUIET)],
                driver := XRecv(p))
  {
    ActivateFeeds(y);
    var p := y.driver.p;
    InTransit(y.socks, y.driver, p);
    SockAt(y, p);
    NotBroken(y);
    hide Inv, OutboundOk, InboundOk, ListenerOk, Feed, Dispatch, Perform, Do, Enabled;
    ActivateOk(y.socks[p]);
    FeedStays(y.(driver := XRecv(p)), p, ACTION, ACT_ACTIVATE, QUIET);
  }

  lemma ActivateFeeds(y: Sys)
    requires Enabled(y, DeliverActivate)
    ensures y.driver.XActivate? && 0 in y.socks && y.driver.p in y.socks
    ensures var p := y.driver.p; Do(y, DeliverActivate) == Feed(y.(driver := XRecv(p)), p, ACTION, ACT_ACTIVATE, QUIET)
  {
    hide Feed;
  }

  lemma InTransit(m: Socks, driver: Driver, p: int)
    requires 0 in m && DriverOk(m, driver) && driver == XActivate(p)
    ensures IsInbound(m, p) && m[p].locked && m[p].st == ACCEPTED
  {
  }

  /** A clean dispatch to an arm that keeps the descriptor. */
  lemma FeedStays(y: Sys, id: int, src: int, typ: int, k: Kernel)
    requires id in y.socks && !y.bad && !y.outside && !Internal(src) && Clean(Dispatch(y.socks[id].st, src, typ))
    requires Perform(y.socks[id], Dispatch(y.socks[id].st, src, typ).arm, k).fd == y.socks[id].fd
    ensures Feed(y, id, src, typ, k)
            == y.(socks := y.socks[id := Perform(y.socks[id], Dispatch(y.socks[id].st, src, typ).arm, k)])
  {
    hide Dispatch, Perform;
  }

  lemma DeliverActivateKeeps(y: Sys)
    requires Inv(y) && Enabled(y, DeliverActivate)
    ensures Inv(Do(y, DeliverActivate))
  {
    hide OutboundOk, InboundOk, HistoriesOk, ListenerOk, Feed;
    var p := y.driver.p;
    ActivateIs(y);
    ActivateOk(y.socks[p]);
    HistoryUpdate(y.socks, p, Perform(y.socks[p], DoActivate, QUIET), y.accepts, y.announced, y.batch + y.ext);
    hide Do;
  }

  /** The socket in hand changes only its tasks and its lock while the driving thread moves on. */
  lemma DeliverMoves(m: Socks, from: Driver, to: Driver, p: int, u: Sock)
    requires 0 in m && DriverOk(m, from) && PartnersOk(m) && ExternalOk(m, from, [], [])
    requires (from == XRecv(p) && to == XPair(p) && u.locked) || (from == XLeave(p) && to == LIdle)
    requires u.role == Inbound && u.st == m[p].st && !Deaf(u)
    ensures DriverOk(m[p := u], to) && PartnersOk(m[p := u]) && ExternalOk(m[p := u], to, [], [])
  {
  }

  lemma DeliverRecvKeeps(y: Sys)
    requires Inv(y) && Enabled(y, DeliverRecv)
    ensures Inv(Do(y, DeliverRecv))
  {
    hide OutboundOk, InboundOk, HistoriesOk, ListenerOk, PartnersOk, Post;
    var p := y.driver.p;
    var u := Post(y.socks[p], TRecv);
    assert y.ext == [] && y.batch == [];
    RecvPostOk(y.socks[p]);
    DeliverMoves(y.socks, y.driver, XPair(p), p, u);
    HistoryUpdate(y.socks, p, u, y.accepts, y.announced, y.batch + y.ext);
    hide DriverOk, ExternalOk;
  }

  lemma DeliverLeaveKeeps(y: Sys)
    requires Inv(y) && Enabled(y, DeliverLeave)
    ensures Inv(Do(y, DeliverLeave))
  {
    hide OutboundOk, InboundOk, HistoriesOk, ListenerOk, PartnersOk;
    var p := y.driver.p;
    var u := y.socks[p].(locked := false);
    assert y.ext == [] && y.batch == [];
    LeaveOk(y.socks[p]);
    DeliverMoves(y.socks, y.driver, LIdle, p, u);
    HistoryUpdate(y.socks, p, u, y.accepts, y.announced, y.batch + y.ext);
    hide DriverOk, ExternalOk;
  }

  // ---- Every step ----

  /** The two return codes the device ignores: SendMsg goes on with a socket whose
      Start failed, and Init pairs a listener whose Listen failed. */
  predicate Provokes(y: Sys, step: Step) {
    step.CreateFailed? || (step.Pair? && 0 in y.socks && y.socks[0].st == STARTING)
  }

  lemma FatalKeeps(y: Sys)
    requires Inv(y) && Enabled(y, EnterAccept(Unexpected))
    ensures Inv(Do(y, EnterAccept(Unexpected)))
  {
    hide Enabled, SockOk;
    HijackKeeps(y);
    hide Inv;
  }

  lemma StepKeeps(y: Sys, step: Step)
    requires Inv(y) && Enabled(y, step) && !Provokes(y, step)
    ensures Inv(Do(y, step))
  {
    ListenerThere(y, step);
    hide Inv, Do, Enabled;
    match step
    case Start(fd) => StartKeeps(y, fd);
    case Listen(ok) => ListenKeeps(y, ok);
    case Pair(id, g) => PairKeeps(y, id, g);
    case PairPost => PairPostKeeps(y);
    case Create(id, fd, g) => CreateKeeps(y, id, fd, g);
    case Connect(id, res) => ConnectKeeps(y, id, res);
    case CallerStep(id) => CallerKeeps(y, id);
    case SenderPush(id) => SenderPushKeeps(y, id);
    case SenderPost(id) => SenderPostKeeps(y, id);
    case Pop(id) => PopKeeps(y, id);
    case Wait(id, bits) => WaitKeeps(y, id, bits);
    case Fetch(id) => FetchKeeps(y, id);
    case Enter(id, k) => EnterKeeps(y, id, k);
    case EnterAccept(Aborted) => AcceptAbortedKeeps(y);
    case EnterAccept(NoResource) => AcceptFailedKeeps(y);
    case EnterAccept(Unexpected) => FatalKeeps(y);
    case EnterAccept(Got(fd)) => AcceptKeeps(y, fd);
    case Drain(id) => DrainKeeps(y, id);
    case Leave(id) => LeaveKeeps(y, id);
    case DeliverEnter => DeliverEnterKeeps(y);
    case DeliverActivate => DeliverActivateKeeps(y);
    case DeliverRecv => DeliverRecvKeeps(y);
    case DeliverLeave => DeliverLeaveKeeps(y);
  }
}
