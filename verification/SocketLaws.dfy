/** The transition table of NetSocketHandler with its effects: what an expected event
    makes of a socket, told by state and event and not by the code that runs. */
module SocketLaws {
  import opened SocketFsm
  import opened Sequences
  import opened Sockets
  import opened SocketInv
  import opened Framing

  /** The next state, the event raised, whether the descriptor is closed, whether it is
      polled afterwards and for OUT, whether a message is in out_buf, and the task posted. */
  datatype Effect =
    Effect(st: int, raises: Option<Raised>, closed: bool, polled: bool, out: bool, busy: bool, posts: Option<Task>)

  /** The two entries of the table that reach into another socket. */
  predicate Reaches(st: int, src: int, typ: int) {
    (st == ACCEPTING && src == SRC_FD) || (st == CANCELLING && src == SRC_TASK_STOP)
  }

  /** The messages that are queued or half sent. */
  function Unsent(s: Sock): nat {
    s.queued + if s.busy then 1 else 0
  }

  function Table(s: Sock, src: int, typ: int, k: Kernel): Effect
    requires Expected(s.st, src, typ) && !Reaches(s.st, src, typ)
  {
    var stays := Effect(s.st, None, false, s.reg, s.cache.wr, s.busy, None);
    // the socket leaves the poller, its descriptor is closed, and the device is told
    var breaks := Effect(DONE, Some(Raised(ErrorEvent, EV_ERROR)), true, false, false, s.busy, None);
    if s.st == IDLE then stays.(st := STARTING)
    else if s.st == STARTING then
      if typ == ACT_LISTEN then stays.(st := LISTENING)
      else if typ == ACT_CONNECT then stays.(st := CONNECTING)
      else if typ == ACT_BEING_ACCEPTED then stays.(st := BEING_ACCEPTED)
      else stays.(st := ACTIVE, polled := s.reg || s.fd >= 0, out := false)
    else if s.st == BEING_ACCEPTED then stays.(st := ACCEPTED, raises := Some(Raised(Established, EV_ACCEPTED)))
    else if s.st == ACCEPTED then stays.(st := ACTIVE, polled := s.reg || s.fd >= 0, out := false)
    else if s.st == CONNECTING then
      var connects := stays.(st := ACTIVE, raises := Some(Raised(Established, EV_CONNECTED)));
      if src == ACTION then
        if typ == ACT_DONE then connects.(posts := Some(TConnected)) else breaks.(polled := s.reg, out := s.cache.wr)
      else if typ == FD_OUT && k.soError == 0 then connects.(out := false)
      else breaks
    else if s.st == ACTIVE then
      if src == ACTION then
        stays.(st := REMOVING_FD, raises := Some(Raised(ErrorEvent, EV_SHUTDOWN)), posts := Some(TStop))
      else if typ == FD_IN then
        stays.(raises := if k.received == Complete then Some(Raised(ReceivedEvent, EV_RECEIVED)) else None)
      else if typ == FD_OUT then
        if !s.busy && s.queued == 0 then stays.(out := false)
        else if k.sent == Complete then stays.(raises := Some(Raised(SentEvent, EV_SENT)), busy := false)
        else stays.(busy := true)
      else breaks
    else if s.st == REMOVING_FD && src == SRC_TASK_STOP then breaks
    else if s.st == LISTENING || s.st == ACCEPTING_ERROR then stays.(st := ACCEPTING)
    else if s.st == ACCEPTING then
      if typ == ACT_DONE then stays.(st := LISTENING) else stays.(st := CANCELLING, posts := Some(TStop))
    else stays
  }

  predicate Follows(s: Sock, u: Sock, e: Effect) {
    && u.role == s.role && u.st == e.st && u.fd == (if e.closed then -1 else s.fd) && u.reg == e.polled
    && (u.reg ==> u.cache.wr == e.out) && u.busy == e.busy
    && Unsent(u) == Unsent(s) - (if e.raises == Some(Raised(SentEvent, EV_SENT)) then 1 else 0)
    && u.pend == (if e.posts.None? || e.posts.value in s.pend then s.pend else s.pend + [e.posts.value])
    && (e.raises.None? ==> u.events == s.events && u.log.raised == s.log.raised)
    && (e.raises.Some? ==>
          u.log.raised == s.log.raised + [e.raises.value]
          && (!Queued(s.events, e.raises.value.id) ==> u.events == s.events + [e.raises.value]))
  }

  lemma Raising(s: Sock, id: EventId, typ: int)
    ensures var u := Raise(s, id, typ);
            && u == s.(events := u.events, log := u.log) && u.log.raised == s.log.raised + [Raised(id, typ)]
            && (!Queued(s.events, id) ==> u.events == s.events + [Raised(id, typ)])
  {
    hide Queued, Overwrite;
  }

  lemma Breaking(s: Sock)
    ensures Follows(s, Broken(s), Effect(DONE, Some(Raised(ErrorEvent, EV_ERROR)), true, false, false, s.busy, None))
  {
    Raising(CloseFd(RmFd(s)).(st := DONE), ErrorEvent, EV_ERROR);
    hide Raise, Queued;
  }

  /** Only the poller's entry differs. */
  predicate Entry(s: Sock, u: Sock) {
    && u == s.(reg := u.reg, kernel := u.kernel, cache := u.cache, hfd := u.hfd, log := u.log)
    && u.log.raised == s.log.raised
  }

  lemma Adding(s: Sock)
    ensures var u := AddFd(s);
            && Entry(s, u) && u.cache == NO_BITS && u.hfd == s.fd && u.reg == (s.reg || s.fd >= 0)
            && (!s.reg && s.fd >= 0 ==> u.kernel == NO_BITS)
  {
  }

  lemma OpeningArm(st: int, src: int, typ: int)
    requires (st == IDLE || st == STARTING || st == BEING_ACCEPTED || st == ACCEPTED) && Expected(st, src, typ)
    ensures Dispatch(st, src, typ) ==
        Run(if st == IDLE then DoStart else if st == BEING_ACCEPTED then PartnerAccepted
            else if st == ACCEPTED then DoActivate else if typ == ACT_LISTEN then DoListen
            else if typ == ACT_CONNECT then DoConnect else if typ == ACT_BEING_ACCEPTED then DoBeingAccepted
            else DoStarted)
  {
    hide ConnectingCase;
  }

  lemma ListeningArm(st: int, src: int, typ: int)
    requires st == LISTENING || st == ACCEPTING || st == ACCEPTING_ERROR || st == CANCELLING
    requires Expected(st, src, typ) && !Reaches(st, src, typ)
    ensures Dispatch(st, src, typ) ==
        Run(if st == LISTENING || st == ACCEPTING_ERROR then DoAccept else if st == CANCELLING then Ignore
            else if typ == ACT_DONE then AcceptDone else AcceptCancel)
  {
  }

  lemma OpeningTable(s: Sock, src: int, typ: int, k: Kernel)
    requires s.st == IDLE || s.st == STARTING || s.st == BEING_ACCEPTED || s.st == ACCEPTED
    requires Expected(s.st, src, typ)
    ensures Alone(Dispatch(s.st, src, typ))
    ensures Follows(s, Perform(s, Dispatch(s.st, src, typ).arm, k), Table(s, src, typ, k))
  {
    OpeningArm(s.st, src, typ);
    hide Raise, Queued, SendArm, Broken, Refuse, Dispatch, AddFd, Expected;
    Adding(s);
    if s.st == BEING_ACCEPTED {
      Raising(s.(st := ACCEPTED), Established, EV_ACCEPTED);
    }
  }

  /** Disarming OUT. */
  lemma Resetting(s: Sock)
    ensures var u := ResetOut(s);
            && u.role == s.role && u.st == s.st && u.fd == s.fd && u.reg == s.reg && u.pend == s.pend && !u.cache.wr
            && u.events == s.events && u.log.raised == s.log.raised && u.queued == s.queued && u.busy == s.busy
  {
  }

  lemma Posting(s: Sock, t: Task)
    ensures var u := Post(s, t);
            && u.role == s.role && u.st == s.st && u.fd == s.fd && u.reg == s.reg && u.cache == s.cache
            && u.pend == (if t in s.pend then s.pend else s.pend + [t])
            && u.events == s.events && u.log.raised == s.log.raised && u.queued == s.queued && u.busy == s.busy
  {
  }

  lemma ConnectedTable(s: Sock, typ: int, k: Kernel)
    requires s.st == CONNECTING && Expected(s.st, ACTION, typ)
    ensures Alone(Dispatch(s.st, ACTION, typ))
    ensures Follows(s, Perform(s, Dispatch(s.st, ACTION, typ).arm, k), Table(s, ACTION, typ, k))
  {
    assert Dispatch(CONNECTING, ACTION, typ) == Run(if typ == ACT_DONE then ConnectedNow else ConnectFailed);
    hide Raise, Queued, Post, SendArm, Broken, ResetOut, Dispatch;
    if typ == ACT_DONE {
      Posting(s.(st := ACTIVE), TConnected);
      Raising(Post(s.(st := ACTIVE), TConnected), Established, EV_CONNECTED);
    } else {
      Raising(Refuse(s), ErrorEvent, EV_ERROR);
    }
  }

  lemma ConnectingTable(s: Sock, typ: int, k: Kernel)
    requires s.st == CONNECTING && Expected(s.st, SRC_FD, typ)
    ensures Alone(Dispatch(s.st, SRC_FD, typ))
    ensures Follows(s, Perform(s, Dispatch(s.st, SRC_FD, typ).arm, k), Table(s, SRC_FD, typ, k))
  {
    hide Raise, Queued, SendArm, Broken, ResetOut, ActiveCase;
    Breaking(s);
    Resetting(s);
    var a := ResetOut(s).(st := ACTIVE);
    Raising(a, Established, EV_CONNECTED);
    Breaking(a);
  }

  lemma ExpectedSources(src: int, typ: int)
    requires Expected(CONNECTING, src, typ)
    ensures src == ACTION || src == SRC_FD
  {
  }

  lemma ActiveTable(s: Sock, src: int, typ: int, k: Kernel)
    requires s.st == ACTIVE && Expected(s.st, src, typ)
    ensures Alone(Dispatch(s.st, src, typ))
    ensures Follows(s, Perform(s, Dispatch(s.st, src, typ).arm, k), Table(s, src, typ, k))
  {
    assert Dispatch(ACTIVE, src, typ) ==
        Run(if src == ACTION then FailActive else if typ == FD_IN then Receive else if typ == FD_OUT then Send
            else FdBroken);
    hide Raise, Queued, Post, Broken, ResetOut, Dispatch, SendArm;
    if src == ACTION {
      Posting(s.(st := REMOVING_FD), TStop);
      Raising(Post(s.(st := REMOVING_FD), TStop), ErrorEvent, EV_SHUTDOWN);
    } else if typ == FD_IN {
      Raising(s, ReceivedEvent, EV_RECEIVED);
    } else if typ == FD_OUT {
      SendingTable(s, k);
    } else {
      Breaking(s);
    }
  }

  lemma SendingTable(s: Sock, k: Kernel)
    requires s.st == ACTIVE
    ensures Follows(s, SendArm(s, k), Table(s, SRC_FD, FD_OUT, k))
  {
    hide Raise, Queued, ResetOut;
    Resetting(s);
    var d := if s.busy then s else if s.queued > 0 then s.(queued := s.queued - 1, busy := true) else s;
    Raising(d.(busy := false), SentEvent, EV_SENT);
  }

  lemma ClosingTable(s: Sock, src: int, typ: int, k: Kernel)
    requires s.st == REMOVING_FD || s.st == DONE
    requires Expected(s.st, src, typ)
    ensures Alone(Dispatch(s.st, src, typ))
    ensures Follows(s, Perform(s, Dispatch(s.st, src, typ).arm, k), Table(s, src, typ, k))
  {
    Breaking(s);
    hide Raise, Queued, Broken, SendArm;
  }

  lemma AcceptingTable(s: Sock, src: int, typ: int, k: Kernel)
    requires s.st == ACCEPTING && Expected(s.st, src, typ) && !Reaches(s.st, src, typ)
    ensures Alone(Dispatch(s.st, src, typ))
    ensures Follows(s, Perform(s, Dispatch(s.st, src, typ).arm, k), Table(s, src, typ, k))
  {
    ListeningArm(s.st, src, typ);
    hide Raise, Queued, Broken, SendArm, Refuse, Dispatch, Post;
    Posting(s.(st := CANCELLING), TStop);
  }

  lemma ListeningTable(s: Sock, src: int, typ: int, k: Kernel)
    requires s.st == LISTENING || s.st == ACCEPTING || s.st == ACCEPTING_ERROR || s.st == CANCELLING
    requires Expected(s.st, src, typ) && !Reaches(s.st, src, typ)
    ensures Alone(Dispatch(s.st, src, typ))
    ensures Follows(s, Perform(s, Dispatch(s.st, src, typ).arm, k), Table(s, src, typ, k))
  {
    if s.st == ACCEPTING {
      AcceptingTable(s, src, typ, k);
    } else {
      ListeningArm(s.st, src, typ);
    }
    hide Raise, Queued, Broken, SendArm, Refuse, Dispatch, Post, Expected, Reaches;
  }

  /** Whatever else is the matter with the socket, every expected event has the effect
      the table says. */
  lemma HandlerTable(s: Sock, src: int, typ: int, k: Kernel)
    requires Expected(s.st, src, typ) && !Reaches(s.st, src, typ) && !Internal(src)
    ensures Alone(Dispatch(s.st, src, typ))
    ensures Follows(s, Handle(s, src, typ, k), Table(s, src, typ, k))
  {
    hide Perform, Dispatch, Follows, Table;
    if s.st == IDLE || s.st == STARTING || s.st == BEING_ACCEPTED || s.st == ACCEPTED {
      OpeningTable(s, src, typ, k);
    } else if s.st == CONNECTING {
      ExpectedSources(src, typ);
      if src == ACTION {
        ConnectedTable(s, typ, k);
      } else {
        ConnectingTable(s, typ, k);
      }
    } else if s.st == ACTIVE {
      ActiveTable(s, src, typ, k);
    } else if s.st == REMOVING_FD || s.st == DONE {
      ClosingTable(s, src, typ, k);
    } else {
      ListeningTable(s, src, typ, k);
    }
  }

  predicate Registers(t: Task) {
    t == TConnecting || t == TConnected || t == TAccept
  }

  /** What a task wants polled: a registering one starts from nothing. */
  function Wants(t: Task, mask: Bits): Bits {
    match t
    case TConnecting => Bits(false, true, false)
    case TConnected => NO_BITS
    case TAccept => Bits(true, false, false)
    case TSend => mask.(wr := true)
    case TRecv => mask.(rd := true)
    case TStop => mask
  }

  lemma SettingIn(s: Sock)
    ensures var u := SetIn(s);
            && Entry(s, u) && u.cache == s.cache.(rd := true) && u.hfd == s.hfd && u.reg == s.reg
            && (s.reg && s.kernel == s.cache ==> u.kernel == u.cache)
  {
  }

  lemma SettingOut(s: Sock)
    ensures var u := SetOut(s);
            && Entry(s, u) && u.cache == s.cache.(wr := true) && u.hfd == s.hfd && u.reg == s.reg
            && (s.reg && s.kernel == s.cache ==> u.kernel == u.cache)
  {
  }

  /** The same for tasks: they change nothing but the poller's entry, and the kernel
      polls as wanted unless the task is served while the entry is not its own to use. */
  lemma TaskTable(s: Sock, t: Task)
    requires t != TStop
    ensures var u := InternalTask(s, TaskSource(t));
            && Entry(s, u) && u.cache == Wants(t, s.cache)
            && u.reg == (s.reg || (Registers(t) && s.fd >= 0)) && (Registers(t) ==> u.hfd == s.fd)
            && (Registers(t) && !s.reg && s.fd >= 0 ==> u.kernel == u.cache)
            && (!Registers(t) && s.reg && s.kernel == s.cache ==> u.kernel == u.cache)
  {
    Adding(s);
    SettingIn(s);
    SettingOut(s);
    SettingIn(AddFd(s));
    SettingOut(AddFd(s));
    hide AddFd, SetIn, SetOut;
  }
}
