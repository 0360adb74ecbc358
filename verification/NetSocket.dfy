/** NetSocket and its handler, in place (socket.cpp).

    The handler is the source's nested switch: one method per state, each of which
    falls into the next one of the text when its own cases do not return. */
module NetSockets {
  import opened SocketFsm
  import opened Sequences
  import opened Sockets
  import opened Framing

  /** A queue of events, each with the type its object holds now. */
  function Listed(ids: seq<EventId>, types: map<EventId, int>): (r: seq<Raised>)
    ensures |r| == |ids| && forall i :: 0 <= i < |ids| ==> r[i].id == ids[i]
  {
    if ids == [] then [] else [Raised(ids[0], if ids[0] in types then types[ids[0]] else -1)] + Listed(ids[1..], types)
  }

  lemma {:induction false} ListedOverwrite(ids: seq<EventId>, types: map<EventId, int>, e: EventId, typ: int)
    ensures Listed(ids, types[e := typ]) == Overwrite(Listed(ids, types), Raised(e, typ))
    ensures e !in ids ==> Listed(ids, types[e := typ]) == Listed(ids, types)
    ensures Listed(ids + [e], types[e := typ]) == Listed(ids, types[e := typ]) + [Raised(e, typ)]
  {
    if ids != [] {
      ListedOverwrite(ids[1..], types, e, typ);
      assert Listed(ids, types)[1..] == Listed(ids[1..], types);
      assert (ids + [e])[1..] == ids[1..] + [e];
    }
  }

  lemma ListedQueued(ids: seq<EventId>, types: map<EventId, int>, e: EventId)
    ensures Queued(Listed(ids, types), e) <==> e in ids
  {
    if e in ids {
      var i :| 0 <= i < |ids| && ids[i] == e;
      assert Listed(ids, types)[i].id == e;
    }
  }

  class NetSocket {
    const id: int
    var state: int
    var active: bool               // NetFsm::state_
    var s: int
    var asock: NetSocket?
    var isOutBufBusy: bool
    var queued: nat                // msg_buffer_queue_
    var events: seq<EventId>       // events_ of the socket's context
    var types: map<EventId, int>   // type_ of each event object
    var eventsto: seq<int>         // eventsto_: the sockets whose Established event is queued there
    // its share of the worker: the poller's entry and the tasks in the queue
    const worker: int
    var reg: bool
    var kernel: Bits
    var cache: Bits
    var hfd: int
    var buf: Bits
    var pend: seq<Task>
    ghost var log: Log
    ghost var rest: Sock           // what other threads have in hand

    ghost function View(): (v: Sock)
      reads this
      ensures v.st == state && v.busy == isOutBufBusy && v.queued == queued && v.fd == s && v.started == active
    {
      Sock(rest.role, state, active, s, if asock == null then None else Some(asock.id), worker, reg, kernel, cache, hfd,
           buf, pend, rest.work, rest.locked, Listed(events, types), queued, isOutBufBusy, rest.senders, rest.caller,
               log)
    }

    constructor (id: int, birth: Birth, ghost role: Role)
      ensures View() == Fresh(role, birth) && this.id == id && asock == null
    {
      this.id, worker := id, birth.worker;
      state, active, s, asock, isOutBufBusy, queued, events, types := IDLE, false, -1, null, false, 0, [], map[];
      eventsto := [];
      reg, kernel, cache, hfd, buf, pend := false, NO_BITS, birth.mask, birth.fd, NO_BITS, [];
      log, rest := NO_LOG, Fresh(role, birth);
    }

    // ---- What the handler calls ----

    method Raise(e: EventId, typ: int)
      modifies this`events, this`types, this`log
      ensures View() == Sockets.Raise(old(View()), e, typ)
    {
      hide Listed, Overwrite, Queued;
      ListedOverwrite(events, types, e, typ);
      ListedQueued(events, types, e);
      log := log.(clash := log.clash || e in events, raised := log.raised + [Raised(e, typ)]);
      types := types[e := typ];
      if e !in events {
        events := events + [e];
      }
    }

    method Execute(t: Task)
      modifies this`pend, this`log
      ensures View() == Post(old(View()), t) && t in pend
    {
      hide Listed, Overwrite, Queued;
      log := log.(missed := Missed(View(), t));
      if t !in pend {
        pend := pend + [t];
      }
    }

    method AddFd()
      modifies this`reg, this`kernel, this`cache, this`hfd, this`log
      ensures View() == Sockets.AddFd(old(View()))
    {
      hide Listed, Overwrite, Queued;
      var ok := !reg && s >= 0;
      log := log.(misuse := log.misuse || !ok);
      hfd, cache := s, NO_BITS;
      if ok {
        reg, kernel := true, NO_BITS;
      }
    }

    method RmFd()
      modifies this`reg, this`buf, this`log
      ensures View() == Sockets.RmFd(old(View())) && !reg && buf == NO_BITS
    {
      hide Listed, Overwrite, Queued;
      log := Stray(View());
      reg, buf := false, NO_BITS;
    }

    method Mod()
      modifies this`kernel, this`log
      ensures View() == Modify(old(View()))
    {
      hide Listed, Overwrite, Queued;
      log := Stray(View());
      if reg {
        kernel := cache;
      }
    }

    method SetIn()
      modifies this`kernel, this`cache, this`log
      ensures View() == Sockets.SetIn(old(View()))
    {
      hide Listed, Overwrite, Queued;
      if cache.rd {
        log := Stray(View());
        return;
      }
      cache := cache.(rd := true);
      Mod();
    }

    method SetOut()
      modifies this`kernel, this`cache, this`log
      ensures View() == Sockets.SetOut(old(View()))
    {
      hide Listed, Overwrite, Queued;
      if cache.wr {
        log := Stray(View());
        return;
      }
      cache := cache.(wr := true);
      Mod();
    }

    method ResetOut()
      modifies this`kernel, this`cache, this`buf, this`log
      ensures View() == Sockets.ResetOut(old(View())) && !cache.wr
    {
      hide Listed, Overwrite, Queued;
      if !cache.wr {
        log := Stray(View());
        return;
      }
      cache := cache.(wr := false);
      Mod();
      buf := buf.(wr := false);
    }

    method Become(st: int)
      modifies this`state
      ensures View() == old(View()).(st := st)
    {
      hide Listed;
      state := st;
    }

    /** close() after connect() has failed at once. */
    method CloseRefused()
      modifies this`s, this`state, this`log
      ensures View() == Refuse(old(View()))
    {
      hide Listed;
      s, state := -1, DONE;
      log := log.(refused := true);
    }

    method Close()
      modifies this`s
      ensures View() == CloseFd(old(View())) && s == -1
    {
      hide Listed;
      s := -1;
    }

    /** RmFd, close and Done, with an Error event. */
    method Fail()
      modifies this
      ensures View() == Broken(old(View())) && state == DONE && s == -1 && !reg
      ensures asock == old(asock)
    {
      hide NetSocket.View, Sockets.RmFd, Sockets.Raise, CloseFd;
      RmFd();
      Close();
      Become(DONE);
      Raise(ErrorEvent, EV_ERROR);
    }

    /** Its checks end the process on a task with any type but EXECUTE. */
    method InternalTasks(src: int, typ: int) returns (served: bool, alive: bool)
      modifies this`reg, this`kernel, this`cache, this`hfd, this`log
      ensures served <==> Internal(src)
      ensures alive <==> !Internal(src) || typ == EXECUTE
      ensures View() == if served && alive then InternalTask(old(View()), src) else old(View())
    {
      hide Listed, Overwrite, Queued;
      served, alive := true, true;
      if typ != EXECUTE {
        served := Internal(src);
        alive := !served;
        return;
      }
      if src == SRC_TASK_SEND {
        SetOut();
      } else if src == SRC_TASK_RECV {
        SetIn();
      } else if src == SRC_TASK_CONNECTED {
        AddFd();
      } else if src == SRC_TASK_CONNECTING {
        AddFd();
        SetOut();
      } else if src == SRC_TASK_ACCEPT {
        AddFd();
        SetIn();
      } else {
        served := false;
      }
    }

    // ---- NetSocketHandler ----

    /** DequeueNetMsgToBuf, as far as the socket's bookkeeping goes. */
    method Dequeue() returns (ok: bool)
      requires !isOutBufBusy
      modifies this`queued, this`isOutBufBusy
      ensures ok <==> old(queued) > 0
      ensures View() == if ok then old(View()).(queued := old(queued) - 1, busy := true) else old(View())
    {
      hide Listed;
      ok := queued > 0;
      if ok {
        queued, isOutBufBusy := queued - 1, true;
      }
    }

    method NotBusy()
      modifies this`isOutBufBusy
      ensures View() == old(View()).(busy := false)
    {
      hide Listed;
      isOutBufBusy := false;
    }

    /** The OUT event in the Active state. */
    method OnOut(k: Kernel)
      modifies this
      ensures View() == SendArm(old(View()), k)
      ensures asock == old(asock)
    {
      hide NetSocket.View, Sockets.ResetOut, Sockets.Raise;
      if !isOutBufBusy {
        var ok := Dequeue();
        if !ok {
          ResetOut();
          return;
        }
      }
      if k.sent == Complete {
        NotBusy();
        Raise(SentEvent, EV_SENT);
      }
    }

    /** The end of an asynchronous connect. */
    method OnConnectReady(k: Kernel)
      modifies this
      ensures View() == Perform(old(View()), ConnectReady, k)
      ensures asock == old(asock)
      ensures k.soError == 0 ==> state == ACTIVE && s == old(s) && reg == old(reg) && !cache.wr
      ensures k.soError != 0 ==> state == DONE && s == -1 && !reg
    {
      hide NetSocket.View, Sockets.ResetOut, Sockets.Raise, Broken;
      ResetOut();
      Become(ACTIVE);
      if k.soError == 0 {
        Raise(Established, EV_CONNECTED);
      } else {
        Fail();
      }
    }

    // The cases of the switch.  A case that is left without `return` complains, and
    // the next one of the text runs; the number returned is that of the complaints.

    method IdleCase(src: int, typ: int, k: Kernel) returns (bad: nat)
      modifies this
      ensures Ran(old(View()), SocketFsm.IdleCase(src, typ), k, bad, View())
      ensures asock == old(asock)
    {
      hide NetSocket.View, Sockets.AddFd, Sockets.RmFd, Sockets.Raise, Post, Broken, CloseFd, Refuse, SendArm,
          SocketFsm.StartingCase;
      if src == ACTION {
        if typ == START {
          Become(STARTING);
          return 0;
        }
        bad := StartingCase(src, typ, k);
        return bad + 2;
      }
      bad := StartingCase(src, typ, k);
      bad := bad + 1;
    }

    method StartingCase(src: int, typ: int, k: Kernel) returns (bad: nat)
      modifies this
      ensures Ran(old(View()), SocketFsm.StartingCase(src, typ), k, bad, View())
      ensures asock == old(asock)
    {
      hide NetSocket.View, Sockets.AddFd, Sockets.RmFd, Sockets.Raise, Post, Broken, CloseFd, Refuse, SendArm,
          SocketFsm.BeingAcceptedCase;
      if src == ACTION {
        if typ == ACT_LISTEN {
          Become(LISTENING);
          return 0;
        } else if typ == ACT_CONNECT {
          Become(CONNECTING);
          return 0;
        } else if typ == ACT_BEING_ACCEPTED {
          Become(BEING_ACCEPTED);
          return 0;
        } else if typ == ACT_STARTED {
          AddFd();
          Become(ACTIVE);
          return 0;
        }
        bad := BeingAcceptedCase(src, typ, k);
        return bad + 2;
      }
      bad := BeingAcceptedCase(src, typ, k);
      bad := bad + 1;
    }

    method BeingAcceptedCase(src: int, typ: int, k: Kernel) returns (bad: nat)
      modifies this
      ensures Ran(old(View()), SocketFsm.BeingAcceptedCase(src, typ), k, bad, View())
      ensures asock == old(asock)
    {
      hide NetSocket.View, Sockets.AddFd, Sockets.RmFd, Sockets.Raise, Post, Broken, CloseFd, Refuse, SendArm,
          SocketFsm.AcceptedCase;
      if src == ACTION {
        if typ == ACT_DONE {
          Become(ACCEPTED);
          Raise(Established, EV_ACCEPTED);
          return 0;
        }
        bad := AcceptedCase(src, typ, k);
        return bad + 2;
      }
      bad := AcceptedCase(src, typ, k);
      bad := bad + 1;
    }

    method AcceptedCase(src: int, typ: int, k: Kernel) returns (bad: nat)
      modifies this
      ensures Ran(old(View()), SocketFsm.AcceptedCase(src, typ), k, bad, View())
      ensures asock == old(asock)
    {
      hide NetSocket.View, Sockets.AddFd, Sockets.RmFd, Sockets.Raise, Post, Broken, CloseFd, Refuse, SendArm,
          SocketFsm.ConnectingCase;
      if src == ACTION {
        if typ == ACT_ACTIVATE {
          AddFd();
          Become(ACTIVE);
          return 0;
        }
        bad := ConnectingCase(src, typ, k);
        return bad + 2;
      }
      bad := ConnectingCase(src, typ, k);
      bad := bad + 1;
    }

    method ConnectingCase(src: int, typ: int, k: Kernel) returns (bad: nat)
      modifies this
      ensures Ran(old(View()), SocketFsm.ConnectingCase(src, typ), k, bad, View())
      ensures asock == old(asock)
    {
      hide NetSocket.View, Sockets.AddFd, Sockets.RmFd, Sockets.Raise, Post, Broken, CloseFd, Refuse, SendArm,
          SocketFsm.ConnectingFd, SocketFsm.ActiveCase;
      if src == ACTION {
        if typ == ACT_DONE {
          Become(ACTIVE);
          Execute(TConnected);
          Raise(Established, EV_CONNECTED);
          return 0;
        } else if typ == ACT_ERROR {
          CloseRefused();
          Raise(ErrorEvent, EV_ERROR);
          return 0;
        }
        bad := ConnectingFd(src, typ, k);
        return bad + 1;
      } else if src == SRC_FD {
        bad := ConnectingFd(src, typ, k);
        return bad;
      }
      bad := ActiveCase(src, typ, k);
      bad := bad + 1;
    }

    method ConnectingFd(src: int, typ: int, k: Kernel) returns (bad: nat)
      modifies this
      ensures Ran(old(View()), SocketFsm.ConnectingFd(src, typ), k, bad, View())
      ensures asock == old(asock)
    {
      hide NetSocket.View, Sockets.AddFd, Sockets.RmFd, Sockets.Raise, Post, Broken, CloseFd, Refuse, SendArm,
          SocketFsm.ActiveCase;
      if typ == FD_OUT {
        OnConnectReady(k);
        return 0;
      } else if typ == FD_ERR {
        Fail();
        return 0;
      }
      bad := ActiveCase(src, typ, k);
      bad := bad + 2;
    }

    method ActiveCase(src: int, typ: int, k: Kernel) returns (bad: nat)
      modifies this
      ensures Ran(old(View()), SocketFsm.ActiveCase(src, typ), k, bad, View())
      ensures asock == old(asock)
    {
      hide NetSocket.View, Sockets.AddFd, Sockets.RmFd, Sockets.Raise, Post, Broken, CloseFd, Refuse, SendArm,
          SocketFsm.ActiveAction, SocketFsm.RemovingFdCase;
      if src == SRC_FD {
        if typ == FD_IN {
          if k.received == Complete {
            Raise(ReceivedEvent, EV_RECEIVED);
          }
          return 0;
        } else if typ == FD_OUT {
          OnOut(k);
          return 0;
        } else if typ == FD_ERR {
          Fail();
          return 0;
        }
        bad := ActiveAction(src, typ, k);
        return bad + 1;
      } else if src == ACTION {
        bad := ActiveAction(src, typ, k);
        return bad;
      }
      bad := RemovingFdCase(src, typ, k);
      bad := bad + 1;
    }

    method ActiveAction(src: int, typ: int, k: Kernel) returns (bad: nat)
      modifies this
      ensures Ran(old(View()), SocketFsm.ActiveAction(src, typ), k, bad, View())
      ensures asock == old(asock)
    {
      hide NetSocket.View, Sockets.AddFd, Sockets.RmFd, Sockets.Raise, Post, Broken, CloseFd, Refuse, SendArm,
          SocketFsm.RemovingFdCase;
      if typ == ACT_ERROR {
        Become(REMOVING_FD);
        Execute(TStop);
        Raise(ErrorEvent, EV_SHUTDOWN);
        return 0;
      }
      bad := RemovingFdCase(src, typ, k);
      bad := bad + 2;
    }

    method RemovingFdCase(src: int, typ: int, k: Kernel) returns (bad: nat)
      modifies this
      ensures Ran(old(View()), SocketFsm.RemovingFdCase(src, typ), k, bad, View())
      ensures asock == old(asock)
    {
      hide NetSocket.View, Sockets.AddFd, Sockets.RmFd, Sockets.Raise, Post, Broken, CloseFd, Refuse, SendArm;
      if src == SRC_TASK_STOP {
        if typ == EXECUTE {
          Fail();
          return 0;
        }
        return 1;             // falls into the case of the descriptor, which returns
      } else if src == SRC_FD {
        return 0;
      } else if src == ACTION {
        return if typ == ACT_ERROR then 0 else 2;   // falls into Done, which returns
      }
      return 1;
    }

    // The cases of a listener can end in code that reaches into another socket; that
    // code is left to the caller.

    method ListeningCase(src: int, typ: int, k: Kernel) returns (bad: nat, left: Option<Arm>)
      modifies this
      ensures Stopped(old(View()), SocketFsm.ListeningCase(src, typ), k, bad, left, View())
      ensures asock == old(asock)
    {
      hide NetSocket.View, Sockets.AddFd, Sockets.RmFd, Sockets.Raise, Post, Broken, CloseFd, Refuse, SendArm,
          SocketFsm.AcceptingCase;
      if src == ACTION {
        if typ == ACT_ACCEPT {
          Become(ACCEPTING);
          return 0, None;
        }
        bad, left := AcceptingCase(src, typ, k);
        return bad + 2, left;
      }
      bad, left := AcceptingCase(src, typ, k);
      bad := bad + 1;
    }

    method AcceptingCase(src: int, typ: int, k: Kernel) returns (bad: nat, left: Option<Arm>)
      modifies this
      ensures Stopped(old(View()), SocketFsm.AcceptingCase(src, typ), k, bad, left, View())
      ensures asock == old(asock)
    {
      hide NetSocket.View, Sockets.AddFd, Sockets.RmFd, Sockets.Raise, Post, Broken, CloseFd, Refuse, SendArm,
          SocketFsm.AcceptingFd, SocketFsm.AcceptingErrorCase;
      if src == ACTION {
        if typ == ACT_DONE {
          Become(LISTENING);
          return 0, None;
        } else if typ == ACT_CANCEL {
          Become(CANCELLING);
          Execute(TStop);
          return 0, None;
        }
        bad, left := AcceptingFd(src, typ, k);
        return bad + 1, left;
      } else if src == SRC_FD {
        bad, left := AcceptingFd(src, typ, k);
        return;
      }
      bad, left := AcceptingErrorCase(src, typ, k);
      bad := bad + 1;
    }

    method AcceptingFd(src: int, typ: int, k: Kernel) returns (bad: nat, left: Option<Arm>)
      modifies this
      ensures Stopped(old(View()), SocketFsm.AcceptingFd(src, typ), k, bad, left, View())
      ensures asock == old(asock)
    {
      hide NetSocket.View, Sockets.AddFd, Sockets.RmFd, Sockets.Raise, Post, Broken, CloseFd, Refuse, SendArm,
          SocketFsm.AcceptingErrorCase;
      if typ == FD_IN {
        return 0, Some(AcceptNow);
      }
      bad, left := AcceptingErrorCase(src, typ, k);
      bad := bad + 2;
    }

    method AcceptingErrorCase(src: int, typ: int, k: Kernel) returns (bad: nat, left: Option<Arm>)
      modifies this
      ensures Stopped(old(View()), SocketFsm.AcceptingErrorCase(src, typ), k, bad, left, View())
      ensures asock == old(asock)
    {
      hide NetSocket.View, Sockets.AddFd, Sockets.RmFd, Sockets.Raise, Post, Broken, CloseFd, Refuse, SendArm,
          SocketFsm.CancellingCase;
      if src == ACTION {
        if typ == ACT_ACCEPT {
          Become(ACCEPTING);
          return 0, None;
        }
        bad, left := CancellingCase(src, typ);
        PerformNothing(View(), k);
        return bad + 2, left;
      }
      bad, left := CancellingCase(src, typ);
      PerformNothing(View(), k);
      bad := bad + 1;
    }

    method CancellingCase(src: int, typ: int) returns (bad: nat, left: Option<Arm>)
      ensures var d := SocketFsm.CancellingCase(src, typ);
              && bad == d.bad && left == (if Alone(d) then None else Some(d.arm))
              && (Alone(d) ==> d.arm == Ignore || d.arm == FellOff)
    {
      if src == SRC_TASK_STOP {
        if typ == EXECUTE {
          return 0, Some(StopAccepting);
        }
        bad := CancellingFd(typ);
        return bad + 1, None;
      } else if src == SRC_FD {
        bad := CancellingFd(typ);
        return bad, None;
      }
      return 2, None;
    }

    method CancellingFd(typ: int) returns (bad: nat)
      ensures bad == if typ == FD_IN then 0 else 3
    {
      return if typ == FD_IN then 0 else 3;
    }

    /** The switch over the state. */
    method Switch(src: int, typ: int, k: Kernel) returns (bad: nat, left: Option<Arm>)
      modifies this
      ensures Stopped(old(View()), Dispatch(old(state), src, typ), k, bad, left, View())
      ensures asock == old(asock)
    {
      hide NetSocket.View, Perform, SocketFsm.IdleCase, SocketFsm.StartingCase, SocketFsm.BeingAcceptedCase,
          SocketFsm.AcceptedCase, SocketFsm.ConnectingCase, SocketFsm.ActiveCase, SocketFsm.RemovingFdCase,
          SocketFsm.ListeningCase, SocketFsm.AcceptingCase, SocketFsm.AcceptingErrorCase, SocketFsm.CancellingCase;
      left := None;
      if state == IDLE {
        bad := IdleCase(src, typ, k);
      } else if state == STARTING {
        bad := StartingCase(src, typ, k);
      } else if state == BEING_ACCEPTED {
        bad := BeingAcceptedCase(src, typ, k);
      } else if state == ACCEPTED {
        bad := AcceptedCase(src, typ, k);
      } else if state == CONNECTING {
        bad := ConnectingCase(src, typ, k);
      } else if state == ACTIVE {
        bad := ActiveCase(src, typ, k);
      } else if state == REMOVING_FD {
        bad := RemovingFdCase(src, typ, k);
      } else if state == DONE {
        PerformNothing(View(), k);
        bad := 0;
      } else if state == LISTENING {
        bad, left := ListeningCase(src, typ, k);
      } else if state == ACCEPTING {
        bad, left := AcceptingCase(src, typ, k);
      } else if state == ACCEPTING_ERROR {
        bad, left := AcceptingErrorCase(src, typ, k);
      } else if state == CANCELLING {
        PerformNothing(View(), k);
        bad, left := CancellingCase(src, typ);
      } else {
        PerformNothing(View(), k);
        bad := 1;
      }
    }

    /** The listener's IN event: accept4 and what follows.  The process ends when
        accept4 fails unexpectedly, when there is no partner, or when the partner has
        a descriptor or is in a state that InitFromFd refuses. */
    method AcceptConnection(acc: AcceptResult) returns (alive: bool)
      requires asock != this
      modifies this, asock
      ensures alive <==> CanAccept(acc, if old(asock) == null then None else Some(old(asock.View())))
      ensures alive && acc == Aborted ==> View() == old(View())
      ensures alive && acc == NoResource ==> View() == AcceptFailed(old(View()))
      ensures alive && !acc.Got? && old(asock) != null ==> asock == old(asock) && asock.View() == old(asock.View())
      ensures alive && acc.Got? ==>
                old(asock) != null && (View(), old(asock).View()) == AcceptsFor(old(View()), old(asock.View()), acc.fd)
      ensures alive && acc.Got? ==> asock == null && old(asock).asock == null
    {
      match acc
      case Aborted => return true;
      case NoResource =>
        hide NetSocket.View, Sockets.RmFd, Sockets.Raise;
        Become(ACCEPTING_ERROR);
        RmFd();
        Raise(ErrorEvent, EV_ACCEPT_ERROR);
        return true;
      case Unexpected => return false;
      case Got(fd) =>
        if fd <= 0 || asock == null || (asock.state != IDLE && asock.state != BEING_ACCEPTED) || asock.s != -1 {
          return false;
        }
        Accept4(fd);
        return true;
    }

    /** The end of a cancelled accept: the partner's own action runs in the same breath. */
    method StopAccept(k: Kernel) returns (alive: bool)
      requires asock != this
      modifies this, asock
      ensures alive <==> old(asock) != null
      ensures alive ==> View() == Sockets.RmFd(old(View())).(st := LISTENING) && asock == old(asock)
      ensures alive ==> asock.View() == Handle(old(asock.View()), ACTION, ACT_DONE, k)
    {
      hide NetSocket.View, Sockets.RmFd, Perform, Dispatch;
      RmFd();
      Become(LISTENING);
      if asock == null {
        return false;
      }
      DoneIsAlone(asock.state);
      var bad, left := asock.Switch(ACTION, ACT_DONE, k);
      return true;
    }

    /** Feed on a socket that is not stopping, on any source and type in any state.
        `acc` is what accept4 returns if it is called; the process may end there. */
    method NetSocketHandler(src: int, typ: int, k: Kernel, acc: AcceptResult) returns (bad: nat, alive: bool)
      requires asock != this
      modifies this, asock
      ensures bad == if Internal(src) then 0 else Dispatch(old(state), src, typ).bad
      ensures Internal(src) ==> (alive <==> typ == EXECUTE)
      ensures (if Internal(src) then alive else Alone(Dispatch(old(state), src, typ))) ==>
                alive && View() == Handle(old(View()), src, typ, k) && asock == old(asock)
                && (asock != null ==> asock.View() == old(asock.View()) && asock.asock == old(asock.asock))
      ensures !Internal(src) && Dispatch(old(state), src, typ).arm == AcceptNow ==>
                && (alive <==> CanAccept(acc, if old(asock) == null then None else Some(old(asock.View()))))
                && (alive && acc == Aborted ==> View() == old(View()))
                && (alive && acc == NoResource ==> View() == AcceptFailed(old(View())))
                && (alive && acc.Got? ==>
                      old(asock) != null && asock == null && old(asock).asock == null
                      && (View(), old(asock).View()) == AcceptsFor(old(View()), old(asock.View()), acc.fd))
                && (alive && !acc.Got? && old(asock) != null ==>
                      asock == old(asock) && asock.View() == old(asock.View()))
      ensures !Internal(src) && Dispatch(old(state), src, typ).arm == StopAccepting ==>
                && (alive <==> old(asock) != null)
                && (alive ==>
                      && View() == Sockets.RmFd(old(View())).(st := LISTENING) && asock == old(asock)
                      && asock.View() == Handle(old(asock.View()), ACTION, ACT_DONE, k))
    {
      hide NetSocket.View, Perform, InternalTask, Internal, Dispatch, AcceptsFor, CanAccept;
      var served;
      served, alive := InternalTasks(src, typ);
      if served {
        return 0, alive;
      }
      var left;
      bad, left := Switch(src, typ, k);
      alive := true;
      if left == Some(AcceptNow) {
        alive := AcceptConnection(acc);
      } else if left == Some(StopAccepting) {
        alive := StopAccept(k);
      }
    }

    // ---- What user threads and the device call ----

    /** fsm().Start() and fsm().Action() where they stay within this socket. */
    method Act(typ: int, k: Kernel)
      requires Alone(Dispatch(state, ACTION, typ))
      modifies this
      ensures View() == Handle(old(View()), ACTION, typ, k) && asock == old(asock)
    {
      hide NetSocket.View, Dispatch, InternalTask, Perform;
      assert !Internal(ACTION);
      var bad, left := Switch(ACTION, typ, k);
    }

    /** `fd` is the result of socket(); on failure nothing changes, and the caller has
        to notice.  The process ends at a check of InitFromFd or of fsm().Start(). */
    method Start(fd: int, k: Kernel) returns (rc: int, alive: bool)
      modifies this
      ensures rc == 0 <==> fd >= 0
      ensures fd < 0 ==> alive && View() == old(View())
      ensures fd >= 0 ==> (alive <==> CanStart(old(View())))
      ensures fd >= 0 && alive ==> View() == Handle(old(View()).(fd := fd), ACTION, START, k).(started := true)
      ensures fd >= 0 && alive && old(state) == IDLE ==>
                View() == old(View()).(fd := fd, st := STARTING, started := true)
    {
      if fd < 0 {
        return -1, true;
      }
      if (state != IDLE && state != BEING_ACCEPTED) || s != -1 || active {
        return 0, false;
      }
      hide NetSocket.View, Dispatch, InternalTask, Perform;
      InitFromFd(fd);
      StartsIdle(View(), k);
      StartIsAlone(state);
      Act(START, k);
      MarkStarted();
      return 0, true;
    }

    method InitFromFd(fd: int)
      modifies this`s
      ensures View() == old(View()).(fd := fd)
    {
      hide Listed;
      s := fd;
    }

    method MarkStarted()
      modifies this`active
      ensures View() == old(View()).(started := true)
    {
      hide Listed;
      active := true;
    }

    method BeAccepted(k: Kernel)
      modifies this
      ensures View() == Engaging(old(View()), k) && asock == old(asock)
      ensures old(state) == IDLE ==> View() == old(View()).(started := true, st := BEING_ACCEPTED)
    {
      hide NetSocket.View, Dispatch, InternalTask, Perform, Handle;
      EngagingIs(View(), k);
      StartIsAlone(state);
      Act(START, k);
      MarkStarted();
      BeingAcceptedIsAlone(state);
      Act(ACT_BEING_ACCEPTED, k);
    }

    method Unlink()
      modifies this`asock
      ensures View() == old(View()).(asock := None) && asock == null
    {
      hide Listed;
      asock := null;
    }

    method Link(other: NetSocket)
      modifies this`asock
      ensures View() == old(View()).(asock := Some(other.id)) && asock == other
    {
      hide Listed;
      asock := other;
    }

    /** The end of Accept, with its two checks. */
    method LinkBoth(listener: NetSocket) returns (alive: bool)
      requires listener != this
      modifies this, listener
      ensures alive <==> (old(asock) == null || old(asock) == listener)
                         && (old(listener.asock) == null || old(listener.asock) == this)
      ensures alive ==> View() == old(View()).(asock := Some(listener.id))
      ensures alive ==> listener.View() == Post(old(listener.View()).(asock := Some(id)), TAccept)
      ensures alive ==> asock == listener && listener.asock == this && TAccept in listener.pend
    {
      hide NetSocket.View, Post;
      if (asock != null && asock != listener) || (listener.asock != null && listener.asock != this) {
        return false;
      }
      Link(listener);
      listener.Link(this);
      listener.Execute(TAccept);
      return true;
    }

    /** Pair this socket with a listener: from here on they point at each other, and
        the listener's worker is asked to register it.  The process ends at the checks
        that neither is paired with a third one.  A listener that is accepting already
        takes the code of the action for that of an IN event and calls accept4; `acc`
        is what that returns. */
    method Accept(listener: NetSocket, k: Kernel, acc: AcceptResult) returns (alive: bool)
      requires listener != this && listener.asock != listener
      modifies this, listener, listener.asock
      ensures Alone(Dispatch(old(listener.state), ACTION, ACT_ACCEPT)) ==>
                && (alive <==> (old(asock) == null || old(asock) == listener)
                               && (old(listener.asock) == null || old(listener.asock) == this))
                && (alive ==>
                      && View() == (if old(active) then old(View())
                          else Engaging(old(View()), k)).(asock := Some(listener.id))
                      && listener.View() ==
                           Post(Handle(old(listener.View()), ACTION, ACT_ACCEPT, k).(asock := Some(id)), TAccept))
      ensures old(listener.state) == LISTENING || old(listener.state) == ACCEPTING_ERROR ==>
                Handle(old(listener.View()), ACTION, ACT_ACCEPT, k) == old(listener.View()).(st := ACCEPTING)
      ensures alive && !Alone(Dispatch(old(listener.state), ACTION, ACT_ACCEPT)) ==>
                var s, l := (if old(active) then old(View()) else Engaging(old(View()), k)), old(listener.View());
                var mine := acc.Got? && old(listener.asock) == this;
                && (acc.Got? ==> old(listener.asock) != null)
                && listener.View() == Post(AfterAccept(l, acc).(asock := Some(id)), TAccept)
                && View() == (if mine then AcceptsFor(l, s, acc.fd).1 else s).(asock := Some(listener.id))
                && (acc.Got? && !mine ==>
                      old(listener.asock).View() == AcceptsFor(l, old(listener.asock.View()), acc.fd).1)
      ensures alive ==> asock == listener && listener.asock == this && TAccept in listener.pend
    {
      hide NetSocket.View, Post, Dispatch, InternalTask, Perform, AcceptsFor, Engaging, Handle, AfterAccept;
      OnlyAcceptNow(listener.state);
      if !active {
        BeAccepted(k);
      }
      EngagesListener(listener.View(), k);
      AfterAcceptIs(listener.View(), acc);
      var bad;
      bad, alive := listener.NetSocketHandler(ACTION, ACT_ACCEPT, k, acc);
      if alive {
        alive := LinkBoth(listener);
      }
    }

    method Activate(k: Kernel)
      requires Alone(Dispatch(state, ACTION, ACT_ACTIVATE))
      modifies this
      ensures View() == Handle(old(View()), ACTION, ACT_ACTIVATE, k)
      ensures old(state) == ACCEPTED ==> View() == Sockets.AddFd(old(View())).(st := ACTIVE)
    {
      hide NetSocket.View, InternalTask, Sockets.AddFd;
      Act(ACT_ACTIVATE, k);
    }

    /** NetFsm::RaiseTo with the partner's Established event: its fields are
        overwritten, and it joins this context's external events unless it is queued. */
    method RaiseAccepted(p: NetSocket)
      requires p != this
      modifies this`eventsto, p`types
      ensures View() == old(View())
      ensures p.View() == old(p.View()).(events := Overwrite(old(p.View()).events, Raised(Established, EV_ACCEPTED)))
      ensures eventsto == if Established in old(p.events) || p.id in old(eventsto) then old(eventsto)
                          else old(eventsto) + [p.id]
    {
      hide Listed, Overwrite, Queued;
      ListedOverwrite(p.events, p.types, Established, EV_ACCEPTED);
      p.types := p.types[Established := EV_ACCEPTED];
      if Established !in p.events && p.id !in eventsto {
        eventsto := eventsto + [p.id];
      }
    }

    /** What follows a successful accept4: the partner takes the descriptor over and has
        an Accepted event raised, both links are cut, and the listener leaves the poller. */
    method Accept4(fd: int)
      requires asock != null && asock != this && fd > 0
      requires (asock.state == IDLE || asock.state == BEING_ACCEPTED) && asock.s == -1
      modifies this, asock
      ensures (View(), old(asock).View()) == AcceptsFor(old(View()), old(asock.View()), fd)
      ensures asock == null && old(asock).asock == null
      ensures eventsto == if Established in old(asock.events) || old(asock.id) in old(eventsto) then old(eventsto)
                          else old(eventsto) + [old(asock.id)]
    {
      hide Listed, Sockets.RmFd, Overwrite, NetSocket.View;
      var p := asock;
      p.InitFromFd(fd);
      p.Become(ACCEPTED);
      RaiseAccepted(p);
      p.Unlink();
      Unlink();
      RmFd();
      Become(LISTENING);
    }
  }

  /** From s, what dispatch d asks for was done, and as many complaints printed. */
  predicate Ran(s: Sock, d: Dispatched, k: Kernel, bad: nat, t: Sock)
    requires Alone(d)
  {
    t == Perform(s, d.arm, k) && bad == d.bad
  }

  /** The same, but code that reaches into another socket is left to be run. */
  predicate Stopped(s: Sock, d: Dispatched, k: Kernel, bad: nat, left: Option<Arm>, t: Sock) {
    && bad == d.bad && left == (if Alone(d) then None else Some(d.arm))
    && t == if Alone(d) then Perform(s, d.arm, k) else s
  }

  /** accept4's result is one that the code goes on from, for a partner p. */
  predicate CanAccept(acc: AcceptResult, p: Option<Sock>) {
    match acc
    case Aborted => true
    case NoResource => true
    case Unexpected => false
    case Got(fd) => fd > 0 && p.Some? && (p.value.st == IDLE || p.value.st == BEING_ACCEPTED) && p.value.fd == -1
  }

  /** AcceptArm, with the partner's event overwritten in case it was queued. */
  function AcceptsFor(l: Sock, p: Sock, fd: int): (Sock, Sock) {
    var r := AcceptArm(l, p, fd);
    (r.0, r.1.(events := Overwrite(p.events, Raised(Established, EV_ACCEPTED))))
  }

  /** The listener after accept4 returned acc and the process went on. */
  function AfterAccept(l: Sock, acc: AcceptResult): Sock {
    match acc
    case Aborted => l
    case NoResource => AcceptFailed(l)
    case Unexpected => l
    case Got(_) => RmFd(l.(asock := None)).(st := LISTENING)
  }

  lemma AfterAcceptIs(l: Sock, acc: AcceptResult)
    ensures acc == Aborted ==> AfterAccept(l, acc) == l
    ensures acc == NoResource ==> AfterAccept(l, acc) == AcceptFailed(l)
    ensures acc.Got? ==> forall p :: AcceptsFor(l, p, acc.fd).0 == AfterAccept(l, acc)
  {
  }

  lemma OnlyAcceptNow(st: int)
    ensures var d := Dispatch(st, ACTION, ACT_ACCEPT); Alone(d) || d.arm == AcceptNow
    ensures !Internal(ACTION)
  {
  }

  predicate CanStart(s: Sock) {
    (s.st == IDLE || s.st == BEING_ACCEPTED) && s.fd == -1 && !s.started
  }

  /** What the start of Accept makes of a socket that is not started. */
  function Engaging(s: Sock, k: Kernel): Sock {
    StartIsAlone(s.st);
    var t := Handle(s, ACTION, START, k).(started := true);
    BeingAcceptedIsAlone(t.st);
    Handle(t, ACTION, ACT_BEING_ACCEPTED, k)
  }

  lemma EngagingIs(s: Sock, k: Kernel)
    ensures s.st == IDLE ==> Engaging(s, k) == s.(started := true, st := BEING_ACCEPTED)
  {
    hide InternalTask;
  }

  lemma BeingAcceptedIsAlone(st: int)
    ensures Alone(Dispatch(st, ACTION, ACT_BEING_ACCEPTED))
  {
  }

  lemma DoneIsAlone(st: int)
    ensures Alone(Dispatch(st, ACTION, ACT_DONE)) && !Internal(ACTION)
  {
  }

  lemma StartsIdle(s: Sock, k: Kernel)
    ensures s.st == IDLE ==> Handle(s, ACTION, START, k) == s.(st := STARTING)
  {
    hide InternalTask;
  }

  lemma StartIsAlone(st: int)
    ensures Alone(Dispatch(st, ACTION, START))
  {
  }

  lemma EngagesListener(s: Sock, k: Kernel)
    ensures s.st == LISTENING || s.st == ACCEPTING_ERROR ==> Handle(s, ACTION, ACT_ACCEPT, k) == s.(st := ACCEPTING)
  {
    hide InternalTask;
  }

  lemma PerformNothing(s: Sock, k: Kernel)
    ensures Perform(s, Ignore, k) == s && Perform(s, FellOff, k) == s
  {
  }
}
