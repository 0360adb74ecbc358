/** Connection sharing in device.cpp: every token leads to a socket for its machine,
    found by token, else by scanning for a socket with the same address, else made. */
module Devices {
  import opened Sequences
  import opened SocketFsm
  import Framing
  import Sockets

  /** sockaddr_in; the comparison ignores the padding. */
  datatype Addr = Addr(family: int, port: int, addr: int, padding: int)

  predicate IsIpEqual(a: Addr, b: Addr) {
    a.family == b.family && a.port == b.port && a.addr == b.addr
  }

  /** An outbound NetSocket as the device sees it. */
  datatype Out<M> = Out(
    ip: Addr,
    idle: bool,      // IsIdle(), which asks the state machine and not the socket's state
    st: int,         // the socket's state when it is still idle
    starts: nat,     // successful calls of Start
    connects: nat,   // calls of Connect
    queue: seq<M>    // every message given to AsyncSendMsg
  )

  /** `aborted`: a CHECK has ended the process. */
  datatype Dev<H(==), M> = Dev(token2sock: map<int, H>, outs: map<H, Out<M>>, aborted: bool)

  /** One call of SendMsg: whether socket() would succeed and what connect() on its
      descriptor would return, the order in which the hash table is scanned, and the
      address of a new NetSocket should one be made. */
  datatype Send<H, M> =
    Send(token: int, msg: M, startOk: bool, reply: Sockets.ConnectResult, order: seq<int>, made: H)

  predicate Enumerates(order: seq<int>, keys: set<int>) {
    (forall i :: 0 <= i < |order| ==> order[i] in keys) && (forall t :: t in keys ==> t in order)
  }

  predicate Closed<H(==), M>(d: Dev<H, M>) {
    forall t :: t in d.token2sock ==> d.token2sock[t] in d.outs
  }

  predicate Enabled<H(==), M>(d: Dev<H, M>, c: Send<H, M>) {
    !d.aborted && Enumerates(c.order, d.token2sock.Keys) && c.made !in d.outs
  }

  function SockOf<H(==), M>(d: Dev<H, M>, t: int): (s: H)
    requires Closed(d) && t in d.token2sock
    ensures s in d.outs
  {
    d.token2sock[t]
  }

  /** The scanning loop: the first socket with the address. */
  function Scan<H(==), M>(d: Dev<H, M>, addr: Addr, order: seq<int>): Option<H>
    requires Closed(d) && forall i :: 0 <= i < |order| ==> order[i] in d.token2sock
  {
    if order == [] then None
    else if IsIpEqual(d.outs[SockOf(d, order[0])].ip, addr) then Some(SockOf(d, order[0]))
    else Scan(d, addr, order[1..])
  }

  /** The socket SendMsg ends up with. */
  function Chosen<H(==), M>(d: Dev<H, M>, where: int -> Addr, token: int, order: seq<int>, made: H): H
    requires Closed(d) && Enumerates(order, d.token2sock.Keys)
  {
    if token in d.token2sock then d.token2sock[token]
    else
      var s := Scan(d, where(token), order);
      if s.Some? then s.value else made
  }

  /** The socket's state after an action of the user, as the handler decides. */
  function StateAfter(st: int, typ: int): int {
    var d, s := Dispatch(st, ACTION, typ), Sockets.Fresh(Sockets.Outbound, Sockets.Birth(Sockets.NO_BITS, -1, 0));
    if Alone(d) then Sockets.Perform(s.(st := st), d.arm, Sockets.Kernel(0, Framing.WouldBlock, Framing.WouldBlock)).st
    else st
  }

  /** InitFromFd's check on the state. */
  predicate CheckFails(o: Out, startOk: bool) {
    o.idle && startOk && o.st != IDLE && o.st != BEING_ACCEPTED
  }

  /** Connect, whose descriptor is -1 if Start has failed. */
  function Connected(st: int, startOk: bool, reply: Sockets.ConnectResult): int {
    var c := StateAfter(st, ACT_CONNECT);
    if !startOk || reply.Refused? then StateAfter(c, ACT_ERROR)
    else if reply.Connected? then StateAfter(c, ACT_DONE)
    else c
  }

  /** Start and Connect if idle, whatever Start returns; then AsyncSendMsg. */
  function Served<M>(o: Out<M>, startOk: bool, reply: Sockets.ConnectResult, msg: M): Out<M> {
    var p := if !o.idle then o
             else o.(idle := !startOk, starts := o.starts + (if startOk then 1 else 0), connects := o.connects + 1,
                     st := Connected(if startOk then StateAfter(o.st, START) else o.st, startOk, reply));
    p.(queue := p.queue + [msg])
  }

  function Made<M>(ip: Addr): Out<M> {
    Out(ip, true, IDLE, 0, 0, [])
  }

  function AfterSend<H(==), M>(d: Dev<H, M>, where: int -> Addr, c: Send<H, M>): (e: Dev<H, M>)
    requires Closed(d) && Enumerates(c.order, d.token2sock.Keys)
    ensures Closed(e)
  {
    var s := Chosen(d, where, c.token, c.order, c.made);
    var o := if s in d.outs then d.outs[s] else Made(where(c.token));
    var tokens := d.token2sock[c.token := s];
    if CheckFails(o, c.startOk) then Dev(tokens, d.outs[s := o], true)
    else Dev(tokens, d.outs[s := Served(o, c.startOk, c.reply, c.msg)], d.aborted)
  }

  /** SendMsg in its two halves. */
  lemma PickedAndServed<H, M>(d: Dev<H, M>, where: int -> Addr, c: Send<H, M>, picked: Dev<H, M>, e: Dev<H, M>)
    requires Closed(d) && !d.aborted && Enumerates(c.order, d.token2sock.Keys)
    requires c.made == Chosen(d, where, c.token, c.order, c.made)
    requires picked == Dev(d.token2sock[c.token := c.made],
                           if c.made in d.outs then d.outs else d.outs[c.made := Made(where(c.token))], false)
    requires var o := picked.outs[c.made];
             e == Dev(picked.token2sock,
                      picked.outs[c.made := if CheckFails(o, c.startOk) then o
                          else Served(o, c.startOk, c.reply, c.msg)],
                      CheckFails(o, c.startOk))
    ensures e == AfterSend(d, where, c)
  {
    hide Served, CheckFails, Chosen;
  }

  // ---- Runs ----

  predicate Valid<H(==), M>(d: Dev<H, M>, where: int -> Addr, calls: seq<Send<H, M>>)
    decreases |calls|
  {
    Closed(d) && (calls == [] || (Enabled(d, calls[0]) && Valid(AfterSend(d, where, calls[0]), where, calls[1..])))
  }

  function Final<H(==), M>(d: Dev<H, M>, where: int -> Addr, calls: seq<Send<H, M>>): (e: Dev<H, M>)
    requires Valid(d, where, calls)
    ensures Closed(e)
    decreases |calls|
  {
    if calls == [] then d else Final(AfterSend(d, where, calls[0]), where, calls[1..])
  }

  /** The messages among the calls that are meant for one address, in order. */
  function SentTo<H, M>(calls: seq<Send<H, M>>, where: int -> Addr, ip: Addr): seq<M> {
    if calls == [] then []
    else
      SentTo(calls[..|calls| - 1], where, ip)
      + (if IsIpEqual(where(calls[|calls| - 1].token), ip) then [calls[|calls| - 1].msg] else [])
  }

  /** The first call for the address. */
  function FirstFor<H, M>(calls: seq<Send<H, M>>, where: int -> Addr, ip: Addr): Option<Send<H, M>> {
    if calls == [] then None
    else
      var before, last := FirstFor(calls[..|calls| - 1], where, ip), calls[|calls| - 1];
      if before.Some? then before else if IsIpEqual(where(last.token), ip) then Some(last) else None
  }

  /** Call i is the first one for the address. */
  ghost predicate First<H, M>(calls: seq<Send<H, M>>, where: int -> Addr, ip: Addr, i: int) {
    && 0 <= i < |calls| && IsIpEqual(where(calls[i].token), ip)
    && forall j :: 0 <= j < i ==> !IsIpEqual(where(calls[j].token), ip)
  }

  lemma {:induction false} FirstForIs<H, M>(calls: seq<Send<H, M>>, where: int -> Addr, ip: Addr) returns (i: int)
    ensures FirstFor(calls, where, ip).Some? ==>
              First(calls, where, ip, i) && calls[i] == FirstFor(calls, where, ip).value
    ensures FirstFor(calls, where, ip).None? ==>
              forall j :: 0 <= j < |calls| ==> !IsIpEqual(where(calls[j].token), ip)
  {
    i := 0;
    if calls != [] {
      hide IsIpEqual;
      var n := |calls| - 1;
      var before := calls[..n];
      i := FirstForIs(before, where, ip);
      assert forall j :: 0 <= j < n ==> before[j] == calls[j];
      if FirstFor(before, where, ip).None? {
        i := n;
      }
    }
  }

  /** The state in which connect() leaves a started socket. */
  function Reached(reply: Sockets.ConnectResult): int {
    match reply
    case Connected => ACTIVE
    case InProgress => CONNECTING
    case Refused => DONE
  }

  /** What an address's calls make of its socket: after a first success, it is started
      and connected once, and in the state that connect() called for; after a first
      failure, it is in Done with an idle state machine, never started, and connected
      at every call. */
  ghost predicate Accounted<H, M>(o: Out<M>, calls: seq<Send<H, M>>, where: int -> Addr, ip: Addr) {
    && o.queue == SentTo(calls, where, ip)
    && match FirstFor(calls, where, ip)
       case None => false
       case Some(first) =>
         && o.idle == !first.startOk && o.st == (if first.startOk then Reached(first.reply) else DONE)
         && (if first.startOk then o.starts == o.connects == 1 else o.starts == 0 && o.connects == |o.queue|)
  }

  ghost predicate OutOk<H, M>(d: Dev<H, M>, where: int -> Addr, calls: seq<Send<H, M>>, s: H)
    requires s in d.outs
  {
    && (exists t :: t in d.token2sock && d.token2sock[t] == s)
    && Accounted(d.outs[s], calls, where, d.outs[s].ip)
  }

  ghost predicate Inv<H, M>(d: Dev<H, M>, where: int -> Addr, calls: seq<Send<H, M>>) {
    && Closed(d)
    && (forall i :: 0 <= i < |calls| ==> calls[i].token in d.token2sock)
    && (forall t :: t in d.token2sock ==> IsIpEqual(d.outs[SockOf(d, t)].ip, where(t)))
    && (forall s, r :: s in d.outs && r in d.outs && IsIpEqual(d.outs[s].ip, d.outs[r].ip) ==> s == r)
    && (forall s :: s in d.outs ==> OutOk(d, where, calls, s))
  }

  lemma {:induction false} ScanFinds<H, M>(d: Dev<H, M>, addr: Addr, order: seq<int>)
    requires Closed(d) && forall i :: 0 <= i < |order| ==> order[i] in d.token2sock
    ensures var r := Scan(d, addr, order);
            if r.Some? then r.value in d.outs && IsIpEqual(d.outs[r.value].ip, addr)
            else forall i :: 0 <= i < |order| ==> !IsIpEqual(d.outs[SockOf(d, order[i])].ip, addr)
  {
    if order != [] {
      ScanFinds(d, addr, order[1..]);
      assert order == [order[0]] + order[1..];
    }
  }

  /** Whatever the scanning order, the socket for a token is the one socket with its address. */
  lemma ChosenIsShared<H, M>(d: Dev<H, M>, where: int -> Addr, calls: seq<Send<H, M>>, c: Send<H, M>)
    requires Inv(d, where, calls) && Enabled(d, c)
    ensures var s := Chosen(d, where, c.token, c.order, c.made);
            && (s in d.outs ==> IsIpEqual(d.outs[s].ip, where(c.token)))
            && (s !in d.outs ==> s == c.made && forall r :: r in d.outs ==> !IsIpEqual(d.outs[r].ip, where(c.token)))
  {
    if c.token !in d.token2sock {
      ScanFinds(d, where(c.token), c.order);
      if Chosen(d, where, c.token, c.order, c.made) !in d.outs {
        forall r | r in d.outs ensures !IsIpEqual(d.outs[r].ip, where(c.token)) {
          assert OutOk(d, where, calls, r);
          var t :| t in d.token2sock && d.token2sock[t] == r;
          assert t in c.order;
        }
      }
    }
  }

  lemma {:induction false} NobodyYet<H, M>(calls: seq<Send<H, M>>, where: int -> Addr, ip: Addr)
    requires forall i :: 0 <= i < |calls| ==> !IsIpEqual(where(calls[i].token), ip)
    ensures SentTo(calls, where, ip) == [] && FirstFor(calls, where, ip) == None
  {
    if calls != [] {
      NobodyYet(calls[..|calls| - 1], where, ip);
    }
  }

  /** What one more call adds to an address's account. */
  lemma OneMore<H, M>(calls: seq<Send<H, M>>, c: Send<H, M>, where: int -> Addr, ip: Addr)
    ensures var all, mine := calls + [c], IsIpEqual(where(c.token), ip);
            && SentTo(all, where, ip) == SentTo(calls, where, ip) + (if mine then [c.msg] else [])
            && FirstFor(all, where, ip) ==
               if FirstFor(calls, where, ip).Some? then FirstFor(calls, where, ip)
               else if mine then Some(c) else None
  {
    var all := calls + [c];
    assert all[..|calls|] == calls && all[|calls|] == c;
  }

  /** A message to a new address is the first one on its account. */
  lemma NewAddress<H, M>(d: Dev<H, M>, where: int -> Addr, calls: seq<Send<H, M>>, ip: Addr)
    requires Inv(d, where, calls) && forall r :: r in d.outs ==> !IsIpEqual(d.outs[r].ip, ip)
    ensures SentTo(calls, where, ip) == [] && FirstFor(calls, where, ip) == None
  {
    forall i | 0 <= i < |calls| ensures !IsIpEqual(where(calls[i].token), ip) {
      assert IsIpEqual(d.outs[SockOf(d, calls[i].token)].ip, where(calls[i].token));
    }
    NobodyYet(calls, where, ip);
  }

  lemma StartedStates()
    ensures StateAfter(IDLE, START) == STARTING && StateAfter(STARTING, ACT_CONNECT) == CONNECTING
    ensures StateAfter(CONNECTING, ACT_DONE) == ACTIVE && StateAfter(CONNECTING, ACT_ERROR) == DONE
  {
    hide Sockets.Enqueued;
  }

  lemma StateOf(st: int, typ: int, arm: Arm)
    requires Dispatch(st, ACTION, typ).arm == arm && (arm == DoConnect || arm == ConnectFailed || arm == Ignore)
    ensures StateAfter(st, typ) == if arm == DoConnect then CONNECTING else if arm == ConnectFailed then DONE else st
  {
    hide Dispatch, Sockets.Enqueued;
  }

  /** A failed Start is followed by a Connect that falls through to Connecting and ends
      in Done; a started socket goes where connect() sends it. */
  lemma StatesOfSending(reply: Sockets.ConnectResult)
    ensures Connected(IDLE, false, reply) == DONE && Connected(DONE, false, reply) == DONE
    ensures Connected(StateAfter(IDLE, START), true, reply) == Reached(reply)
  {
    FailedStates();
    StartedStates();
    hide StateAfter;
  }

  lemma FailedStates()
    ensures StateAfter(IDLE, ACT_CONNECT) == CONNECTING && StateAfter(CONNECTING, ACT_ERROR) == DONE
    ensures StateAfter(DONE, ACT_CONNECT) == DONE && StateAfter(DONE, ACT_ERROR) == DONE
  {
    ConnectWithoutStart();
    assert Dispatch(CONNECTING, ACTION, ACT_ERROR) == Run(ConnectFailed);
    assert forall typ :: Dispatch(DONE, ACTION, typ) == Run(Ignore);
    hide Dispatch, StateAfter;
    StateOf(IDLE, ACT_CONNECT, DoConnect);
    StateOf(CONNECTING, ACT_ERROR, ConnectFailed);
    StateOf(DONE, ACT_CONNECT, Ignore);
    StateOf(DONE, ACT_ERROR, Ignore);
  }

  lemma ServedAccounted<H, M>(o: Out<M>, calls: seq<Send<H, M>>, c: Send<H, M>, where: int -> Addr)
    requires IsIpEqual(where(c.token), o.ip) && !CheckFails(o, c.startOk)
    requires Accounted(o, calls, where, o.ip)
             || (o == Made<M>(o.ip) && SentTo(calls, where, o.ip) == [] && FirstFor(calls, where, o.ip) == None)
    ensures Accounted(Served(o, c.startOk, c.reply, c.msg), calls + [c], where, o.ip)
  {
    OneMore(calls, c, where, o.ip);
    StatesOfSending(c.reply);
    hide SentTo, FirstFor, Connected, StateAfter;
  }

  /** The call that aborts: the address's first one failed, and this one would succeed. */
  ghost predicate Fatal<H, M>(calls: seq<Send<H, M>>, where: int -> Addr, c: Send<H, M>) {
    var first := FirstFor(calls, where, where(c.token));
    first.Some? && !first.value.startOk && c.startOk
  }

  lemma AbortsIff<H, M>(d: Dev<H, M>, where: int -> Addr, calls: seq<Send<H, M>>, c: Send<H, M>)
    requires Inv(d, where, calls) && Enabled(d, c)
    ensures AfterSend(d, where, c).aborted <==> Fatal(calls, where, c)
    ensures Fatal(calls, where, c) ==> AfterSend(d, where, c).outs == d.outs
  {
    hide Scan, SentTo, Served, FirstFor;
    var s := Chosen(d, where, c.token, c.order, c.made);
    ChosenIsShared(d, where, calls, c);
    if s in d.outs {
      assert OutOk(d, where, calls, s);
      SameAccount(calls, where, d.outs[s].ip, where(c.token));
    } else {
      NewAddress(d, where, calls, where(c.token));
    }
  }

  lemma OutKept<H, M>(d: Dev<H, M>, where: int -> Addr, calls: seq<Send<H, M>>, c: Send<H, M>, s: H)
    requires Inv(d, where, calls) && Enabled(d, c) && !Fatal(calls, where, c) && s in AfterSend(d, where, c).outs
    ensures OutOk(AfterSend(d, where, c), where, calls + [c], s)
  {
    hide SentTo, FirstFor, Scan, Connected, StateAfter, CheckFails, Fatal;
    var e, chosen := AfterSend(d, where, c), Chosen(d, where, c.token, c.order, c.made);
    AbortsIff(d, where, calls, c);
    ChosenIsShared(d, where, calls, c);
    if s == chosen {
      assert e.token2sock[c.token] == s;
      if s in d.outs {
        assert OutOk(d, where, calls, s);
        ServedAccounted(d.outs[s], calls, c, where);
      } else {
        NewAddress(d, where, calls, where(c.token));
        ServedAccounted(Made(where(c.token)), calls, c, where);
      }
    } else {
      assert OutOk(d, where, calls, s);
      OneMore(calls, c, where, e.outs[s].ip);
      var t :| t in d.token2sock && d.token2sock[t] == s;
      assert t != c.token && e.token2sock[t] == s;
    }
  }

  lemma StepKeeps<H, M>(d: Dev<H, M>, where: int -> Addr, calls: seq<Send<H, M>>, c: Send<H, M>)
    requires Inv(d, where, calls) && Enabled(d, c) && !Fatal(calls, where, c)
    ensures Inv(AfterSend(d, where, c), where, calls + [c]) && !AfterSend(d, where, c).aborted
  {
    hide OutOk, Scan, Fatal;
    var e := AfterSend(d, where, c);
    AbortsIff(d, where, calls, c);
    ChosenIsShared(d, where, calls, c);
    forall s | s in e.outs ensures OutOk(e, where, calls + [c], s) {
      OutKept(d, where, calls, c, s);
    }
    hide Chosen;
  }

  /** Some call of the run is fatal. */
  ghost predicate Dies<H, M>(calls: seq<Send<H, M>>, where: int -> Addr, from: nat)
    requires from <= |calls|
  {
    exists n :: from <= n < |calls| && Fatal(calls[..n], where, calls[n])
  }

  lemma {:induction false} SameAccount<H, M>(calls: seq<Send<H, M>>, where: int -> Addr, ip: Addr, other: Addr)
    requires IsIpEqual(ip, other)
    ensures SentTo(calls, where, ip) == SentTo(calls, where, other)
    ensures FirstFor(calls, where, ip) == FirstFor(calls, where, other)
  {
    if calls != [] {
      SameAccount(calls[..|calls| - 1], where, ip, other);
    }
  }

  /** The calls that were carried out: all of them, but for one that aborted. */
  function Carried<H(==), M>(d: Dev<H, M>, calls: seq<Send<H, M>>): seq<Send<H, M>> {
    if d.aborted && calls != [] then calls[..|calls| - 1] else calls
  }

  lemma AbortKeeps<H, M>(d: Dev<H, M>, where: int -> Addr, calls: seq<Send<H, M>>, c: Send<H, M>)
    requires Inv(d, where, calls) && Enabled(d, c) && Fatal(calls, where, c)
    ensures Inv(AfterSend(d, where, c), where, calls) && AfterSend(d, where, c).aborted
  {
    var e, chosen := AfterSend(d, where, c), Chosen(d, where, c.token, c.order, c.made);
    AbortsIff(d, where, calls, c);
    ChosenIsShared(d, where, calls, c);
    hide Scan, Fatal, Chosen, Accounted, Served, CheckFails;
    forall s | s in e.outs ensures OutOk(e, where, calls, s) {
      assert OutOk(d, where, calls, s);
      var t :| t in d.token2sock && d.token2sock[t] == s;
      assert t == c.token ==> s == chosen;
      assert e.token2sock[t] == s;
    }
  }

  lemma {:induction false} RunKeeps<H, M>(d: Dev<H, M>, where: int -> Addr, before: seq<Send<H, M>>,
      calls: seq<Send<H, M>>)
    requires Inv(d, where, before) && !d.aborted && Valid(d, where, calls)
    ensures var e := Final(d, where, calls);
            && Inv(e, where, before + Carried(e, calls))
            && (e.aborted <==> Dies(before + calls, where, |before|))
    decreases |calls|
  {
    hide Inv, AfterSend, Enumerates, Fatal, IsIpEqual, FirstFor, SentTo;
    var all := before + calls;
    if calls == [] {
      assert all == before;
    } else {
      var c, rest := calls[0], calls[1..];
      assert all[..|before|] == before && all[|before|] == c;
      if Fatal(before, where, c) {
        AbortKeeps(d, where, before, c);
        assert rest == [] && calls == [c];
        assert before + [] == before;
      } else {
        StepKeeps(d, where, before, c);
        RunKeeps(AfterSend(d, where, c), where, before + [c], rest);
        CarriedLater(Final(d, where, calls), before, calls);
      }
    }
  }

  lemma CarriedLater<H, M>(e: Dev<H, M>, before: seq<Send<H, M>>, calls: seq<Send<H, M>>)
    requires calls != [] && (e.aborted ==> |calls| > 1)
    ensures before + [calls[0]] + calls[1..] == before + calls
    ensures before + [calls[0]] + Carried(e, calls[1..]) == before + Carried(e, calls)
  {
    assert Carried(e, calls) == [calls[0]] + Carried(e, calls[1..]);
  }

  function New<H(==), M>(): Dev<H, M> {
    Dev(map[], map[], false)
  }

  lemma TokenServed<H, M>(d: Dev<H, M>, where: int -> Addr, calls: seq<Send<H, M>>, t: int)
    requires Inv(d, where, calls) && t in d.token2sock
    ensures Accounted(d.outs[SockOf(d, t)], calls, where, where(t))
  {
    hide SentTo, FirstFor;
    var s := SockOf(d, t);
    assert OutOk(d, where, calls, s);
    SameAccount(calls, where, d.outs[s].ip, where(t));
  }

  lemma TokensShare<H, M>(d: Dev<H, M>, where: int -> Addr, calls: seq<Send<H, M>>, t: int, u: int)
    requires Inv(d, where, calls) && t in d.token2sock && u in d.token2sock
    ensures SockOf(d, t) == SockOf(d, u) <==> IsIpEqual(where(t), where(u))
  {
    hide OutOk;
    assert IsIpEqual(d.outs[SockOf(d, t)].ip, where(t)) && IsIpEqual(d.outs[SockOf(d, u)].ip, where(u));
  }

  /** After any sequence of SendMsg calls, with any Token2Ip and any scanning order:
      every token used leads to a socket, two tokens share one exactly if their
      addresses agree, and each socket has taken its address's messages in order, was
      started once if and only if socket() succeeded at the first of them, and then is
      active, connecting or done as its connect() said.  The
      process has ended at InitFromFd's check if and only if some call for an address
      whose first one failed found socket() succeeding. */
  lemma ConnectionSharing<H, M>(where: int -> Addr, calls: seq<Send<H, M>>)
    requires Valid(New(), where, calls)
    ensures var d := Final(New(), where, calls);
            var done := Carried(d, calls);
            && (d.aborted <==> Dies(calls, where, 0))
            && (forall i :: 0 <= i < |done| ==> done[i].token in d.token2sock)
            && (forall t :: t in d.token2sock ==> Accounted(d.outs[SockOf(d, t)], done, where, where(t)))
            && (forall t, u :: t in d.token2sock && u in d.token2sock ==>
                  (SockOf(d, t) == SockOf(d, u) <==> IsIpEqual(where(t), where(u))))
  {
    hide Valid, Final, Accounted, OutOk, IsIpEqual, SockOf, Dies;
    var d := Final(New(), where, calls);
    var done := Carried(d, calls);
    RunKeeps(New(), where, [], calls);
    assert [] + calls == calls && [] + done == done;
    forall t | t in d.token2sock {
      TokenServed(d, where, done, t);
    }
    forall t, u | t in d.token2sock && u in d.token2sock {
      TokensShare(d, where, done, t, u);
    }
  }

  // ---- The device's tables in place ----

  class OutSocket<M> {
    const ip: Addr
    var idle: bool
    var st: int
    var starts: nat
    var connects: nat
    var queue: seq<M>

    function State(): Out<M>
      reads this
    {
      Out(ip, idle, st, starts, connects, queue)
    }

    constructor (ip: Addr)
      ensures State() == Made(ip)
    {
      this.ip := ip;
      idle, st, starts, connects, queue := true, IDLE, 0, 0, [];
    }

    /** Start, with the check of InitFromFd. */
    method Start(ok: bool) returns (rc: int, alive: bool)
      requires idle
      modifies this`idle, this`st, this`starts
      ensures rc == 0 <==> ok
      ensures alive <==> !CheckFails(old(State()), ok)
      ensures State() ==
              if ok && alive then
                old(State()).(idle := false, st := StateAfter(old(st), START), starts := old(starts) + 1)
              else old(State())
    {
      if !ok {
        return -1, true;
      }
      if st != IDLE && st != BEING_ACCEPTED {
        return 0, false;
      }
      idle, st, starts := false, StateAfter(st, START), starts + 1;
      return 0, true;
    }

    /** Connect; connect() on the descriptor -1 fails. */
    method Connect(ok: bool, reply: Sockets.ConnectResult)
      modifies this`connects, this`st
      ensures connects == old(connects) + 1 && st == Connected(old(st), ok, reply)
    {
      connects := connects + 1;
      st := StateAfter(st, ACT_CONNECT);
      if !ok || reply.Refused? {
        st := StateAfter(st, ACT_ERROR);
      } else if reply.Connected? {
        st := StateAfter(st, ACT_DONE);
      }
    }

    method AsyncSendMsg(msg: M)
      modifies this`queue
      ensures queue == old(queue) + [msg]
    {
      queue := queue + [msg];
    }

    /** The second half of SendMsg. */
    method Serve(startOk: bool, reply: Sockets.ConnectResult, msg: M) returns (alive: bool)
      modifies this
      ensures alive <==> !CheckFails(old(State()), startOk)
      ensures State() == if alive then Served(old(State()), startOk, reply, msg) else old(State())
    {
      hide StateAfter;
      alive := true;
      if idle {
        var rc;
        rc, alive := Start(startOk);
        if !alive {
          return;
        }
        Connect(startOk, reply);
      }
      AsyncSendMsg(msg);
    }
  }

  class NetDevice<M> {
    var token2sock: map<int, OutSocket<M>>
    var sockSets: set<OutSocket<M>>
    var aborted: bool

    ghost function View(): Dev<OutSocket<M>, M>
      reads this, sockSets
    {
      Dev(token2sock, map s | s in sockSets :: s.State(), aborted)
    }

    constructor ()
      ensures View() == New()
    {
      token2sock, sockSets, aborted := map[], {}, false;
    }

    /** The loop over token2sock_. */
    method Find(addr: Addr, order: seq<int>) returns (r: Option<OutSocket<M>>)
      requires Closed(View()) && forall i :: 0 <= i < |order| ==> order[i] in token2sock
      ensures r == Scan(View(), addr, order)
    {
      ghost var d := View();
      var i := 0;
      while i < |order|
        invariant 0 <= i <= |order| && Scan(d, addr, order) == Scan(d, addr, order[i..])
      {
        var sock := token2sock[order[i]];
        assert sock == SockOf(d, order[i]) && order[i..][1..] == order[i + 1..];
        if IsIpEqual(sock.ip, addr) {
          return Some(sock);
        }
        i := i + 1;
      }
      r := None;
    }

    /** The first half of SendMsg: the socket for the token, found or made. */
    method Pick(where: int -> Addr, token: int, order: seq<int>) returns (out: OutSocket<M>)
      requires Closed(View()) && Enumerates(order, token2sock.Keys)
      modifies this`token2sock, this`sockSets
      ensures out == Chosen(old(View()), where, token, order, out) && token2sock == old(token2sock)[token := out]
      ensures out in sockSets && out.State() == View().outs[out]
      ensures var d := old(View());
              View() == Dev(d.token2sock[token := out],
                  if out in d.outs then d.outs else d.outs[out := Made(where(token))], d.aborted)
      ensures if out in old(sockSets) then sockSets == old(sockSets)
              else fresh(out) && sockSets == old(sockSets) + {out} && out.State() == Made(where(token))
    {
      ghost var d := View();
      if token in token2sock {
        out := token2sock[token];
        assert out == SockOf(d, token);
        return;
      }
      var found := Find(where(token), order);
      ScanFinds(d, where(token), order);
      if found.Some? {
        out := found.value;
      } else {
        out := new OutSocket(where(token));
        sockSets := sockSets + {out};
      }
      token2sock := token2sock[token := out];
    }

    /** The second half of SendMsg, on one of the device's sockets. */
    method ServeIn(out: OutSocket<M>, startOk: bool, reply: Sockets.ConnectResult, msg: M)
      requires !aborted && out in sockSets
      modifies this`aborted, out
      ensures var d, o := old(View()), old(out.State());
              View() == Dev(d.token2sock, d.outs[out := if CheckFails(o, startOk) then o
                  else Served(o, startOk, reply, msg)],
                  CheckFails(o, startOk))
    {
      hide Served, CheckFails;
      var alive := out.Serve(startOk, reply, msg);
      aborted := !alive;
    }

    /** `out` is the socket the message was for; it is new only if no token led to one. */
    method SendMsg(where: int -> Addr, token: int, msg: M, startOk: bool, reply: Sockets.ConnectResult, order: seq<int>)
      returns (out: OutSocket<M>)
      requires !aborted && Closed(View()) && Enumerates(order, token2sock.Keys)
      modifies this, sockSets
      ensures Closed(View()) && (out in old(sockSets) || fresh(out))
      ensures View() == AfterSend(old(View()), where, Send.Send(token, msg, startOk, reply, order, out))
    {
      ghost var d := View();
      assert !d.aborted;
      hide Chosen, Served, CheckFails, Scan, Enumerates, NetDevice.View, OutSocket.State, AfterSend;
      out := Pick(where, token, order);
      ghost var picked := View();
      ServeIn(out, startOk, reply, msg);
      PickedAndServed(d, where, Send.Send(token, msg, startOk, reply, order, out), picked, View());
    }
  }
}
