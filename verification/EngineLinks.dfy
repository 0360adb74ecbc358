/** How the engine's bookkeeping ties in with the byte streams, with the contexts and
    with the code it splits into steps. */
module EngineLinks {
  import opened SocketFsm
  import opened Sequences
  import opened Sockets
  import opened SocketInv
  import opened SocketLaws
  import opened Framing
  import Contexts
  import Streams

  // ---- The split of Connect ----

  /** The engine lets other threads in between the statements of Connect; run
      without interruption, its steps are the handler's two answers to connect(). */
  lemma ConnectSplit(s: Sock, k: Kernel)
    requires s.st == CONNECTING && s.caller == CConnect
    ensures CallerNext(CallerNext(s.(st := ACTIVE, caller := CExecConnected))) ==
        Perform(s, ConnectedNow, k).(caller := CPush)
    ensures CallerNext(Refuse(s).(caller := CRaiseError)) == Perform(s, ConnectFailed, k).(caller := CPush)
  {
    AcceptedSplit(s.(st := ACTIVE));
    RefusedSplit(Refuse(s));
    hide Raise, Post, CallerNext;
  }

  lemma PostsConnected(s: Sock)
    requires s.caller == CExecConnected
    ensures CallerNext(s) == Post(s, TConnected).(caller := CRaiseConnected)
  {
  }

  lemma RaisesConnected(s: Sock)
    requires s.caller == CRaiseConnected
    ensures CallerNext(s) == Raise(s, Established, EV_CONNECTED).(caller := CPush)
  {
  }

  lemma AcceptedSplit(s: Sock)
    ensures CallerNext(CallerNext(s.(caller := CExecConnected))) ==
        Raise(Post(s, TConnected), Established, EV_CONNECTED).(caller := CPush)
  {
    hide Raise, Post, CallerNext;
    PostsConnected(s.(caller := CExecConnected));
    PostKeepsCaller(s, TConnected, CExecConnected);
    RaisesConnected(Post(s, TConnected).(caller := CRaiseConnected));
    RaiseKeepsCaller(Post(s, TConnected), Established, EV_CONNECTED, CRaiseConnected);
  }

  lemma RefusedSplit(s: Sock)
    ensures CallerNext(s.(caller := CRaiseError)) == Raise(s, ErrorEvent, EV_ERROR).(caller := CPush)
  {
    hide Raise;
    RaiseKeepsCaller(s, ErrorEvent, EV_ERROR, CRaiseError);
  }

  lemma PostKeepsCaller(s: Sock, t: Task, c: Caller)
    ensures Post(s.(caller := c), t) == Post(s, t).(caller := c)
  {
  }

  lemma RaiseKeepsCaller(s: Sock, id: EventId, typ: int, c: Caller)
    ensures Raise(s.(caller := c), id, typ) == Raise(s, id, typ).(caller := c)
  {
    hide Overwrite, Queued;
  }

  // ---- Counts and bytes ----

  /** The engine counts the messages that the stream holds. */
  predicate Counts(s: Sock, t: Streams.Stream) {
    s.queued == |t.snd.queue| && s.busy == t.snd.busy
  }

  /** The outcome of the SendRaw call in an OUT event. */
  function SentIn(t: Streams.Stream, io1: Io, io2: Io): Outcome
    requires Streams.Shaped(t) && (t.snd.busy || t.snd.queue != [])
  {
    var p := if t.snd.busy then t.snd else Streams.Dequeue(t.snd);
    SendRaw(p.buf, p.off, p.mem, io1, io2).outcome
  }

  /** One OUT event moves the counts as it moves the stream, and the Sent event is
      raised exactly when a frame's last byte went out. */
  lemma SendCounts(s: Sock, t: Streams.Stream, where: int -> int, io1: Io, io2: Io, k: Kernel)
    requires Streams.Shaped(t) && Counts(s, t)
    requires t.snd.busy || t.snd.queue != [] ==> k.sent == SentIn(t, io1, io2)
    ensures Counts(SendArm(s, k), Streams.Do(t, where, Streams.FdOut(io1, io2)))
    ensures t.snd.busy || t.snd.queue != [] ==>
              (Queued(SendArm(s, k).events, SentEvent) <==>
               Queued(s.events, SentEvent) || SentIn(t, io1, io2) == Complete)
  {
    hide SendRaw, Encode, Overwrite;
    if s.busy || s.queued > 0 {
      var d := if s.busy then s else s.(queued := s.queued - 1, busy := true);
      RaiseQueues(d.(busy := false), SentEvent, EV_SENT);
    }
  }

  /** The outcome of the RecvRaw call in an IN event. */
  function ReceivedIn(t: Streams.Stream, where: int -> int, io1: Io, io2: Io): Outcome
    requires Streams.Shaped(t)
  {
    RecvRaw(t.rcv.buf, t.rcv.off, t.rcv.mem, where, t.wire, io1, io2).outcome
  }

  /** One IN event of an active socket raises Received exactly when it makes the
      messages completed on the stream one more. */
  lemma ReceiveCounts(s: Sock, t: Streams.Stream, where: int -> int, io1: Io, io2: Io, k: Kernel)
    requires Streams.Shaped(t) && s.st == ACTIVE && k.received == ReceivedIn(t, where, io1, io2)
    ensures Alone(Dispatch(s.st, SRC_FD, FD_IN)) && !Internal(SRC_FD)
    ensures var u, more := Handle(s, SRC_FD, FD_IN, k), Streams.Do(t, where, Streams.FdIn(io1, io2)).got;
            var news := if |more| > |t.got| then [Raised(ReceivedEvent, EV_RECEIVED)] else [];
            && |more| == |t.got| + |news| && t.got <= more && u.log.raised == s.log.raised + news
            && (!Queued(s.events, ReceivedEvent) ==> u.events == s.events + news)
  {
    HandlerTable(s, SRC_FD, FD_IN, k);
    hide RecvRaw, Region, Queued, Handle, Dispatch;
  }

  lemma RaiseQueues(s: Sock, id: EventId, typ: int)
    ensures var u := Raise(s, id, typ); Queued(u.events, id) && u == s.(events := u.events, log := u.log)
    ensures forall other :: other != id ==> (Queued(Raise(s, id, typ).events, other) <==> Queued(s.events, other))
  {
    var e := Raised(id, typ);
    forall other ensures Queued(Raise(s, id, typ).events, other) <==> other == id || Queued(s.events, other) {
      if Queued(s.events, id) {
        OverwriteIs(s.events, e);
        SameIds(s.events, Overwrite(s.events, e), other);
      } else {
        QueuedAppend(s.events, e, other);
      }
    }
  }

  lemma SameIds(a: seq<Raised>, b: seq<Raised>, id: EventId)
    requires |a| == |b| && forall i :: 0 <= i < |a| ==> a[i].id == b[i].id
    ensures Queued(a, id) <==> Queued(b, id)
  {
    if Queued(a, id) {
      var i :| 0 <= i < |a| && a[i].id == id;
      assert b[i].id == id;
    }
    if Queued(b, id) {
      var i :| 0 <= i < |b| && b[i].id == id;
      assert a[i].id == id;
    }
  }

  // ---- Events ----

  function Ids(events: seq<Raised>): seq<EventId> {
    seq(|events|, i requires 0 <= i < |events| => events[i].id)
  }

  /** The queued events are the context's, each with the type its fields hold. */
  predicate Shows(events: seq<Raised>, c: Contexts.Ctx<EventId>) {
    && c.events == Ids(events) && c.eventsto == []
    && forall i :: 0 <= i < |events| ==> Contexts.FieldsOf(c, events[i].id).typ == events[i].typ
  }

  lemma QueuedShown(events: seq<Raised>, c: Contexts.Ctx<EventId>, id: EventId)
    requires Shows(events, c)
    ensures Queued(events, id) <==> Contexts.Queued(c, id)
  {
    if id in c.events {
      var i :| 0 <= i < |c.events| && c.events[i] == id;
      assert events[i].id == id;
    }
    if Queued(events, id) {
      var i :| 0 <= i < |events| && events[i].id == id;
      assert c.events[i] == id;
    }
  }

  lemma OverwriteShown(events: seq<Raised>, c: Contexts.Ctx<EventId>, e: Raised, fields: Contexts.Fields)
    requires Shows(events, c) && fields.typ == e.typ
    ensures Shows(Overwrite(events, e), c.(fields := c.fields[e.id := fields]))
  {
    OverwriteIs(events, e);
    assert Ids(Overwrite(events, e)) == Ids(events);
    hide Overwrite;
  }

  lemma AppendShown(events: seq<Raised>, c: Contexts.Ctx<EventId>, e: Raised, fields: Contexts.Fields)
    requires Shows(events, c) && fields.typ == e.typ && !Queued(events, e.id)
    ensures Shows(events + [e], c.(fields := c.fields[e.id := fields], events := c.events + [e.id]))
  {
    assert forall i :: 0 <= i < |events| ==> events[i].id != e.id;
    assert Ids(events + [e]) == Ids(events) + [e.id];
  }

  lemma EnqueueShown(events: seq<Raised>, c: Contexts.Ctx<EventId>, id: EventId, fields: Contexts.Fields)
    requires Shows(events, c)
    ensures Shows(Enqueued(events, Raised(id, fields.typ)), Contexts.DoRaise(c, Contexts.Raise(id, fields, false)))
  {
    QueuedShown(events, c, id);
    var e := Raised(id, fields.typ);
    if Queued(events, id) {
      OverwriteShown(events, c, e, fields);
    } else {
      AppendShown(events, c, e, fields);
    }
    hide Shows, Queued, Contexts.Queued;
  }

  /** A socket's Raise is its context's, and the engine's clash history is what
      Contexts.NoClash excludes. */
  lemma RaiseShown(s: Sock, c: Contexts.Ctx<EventId>, id: EventId, fields: Contexts.Fields)
    requires Shows(s.events, c)
    ensures Shows(Raise(s, id, fields.typ).events, Contexts.DoRaise(c, Contexts.Raise(id, fields, false)))
    ensures Raise(s, id, fields.typ).log.clash ==
            (s.log.clash || Contexts.Clashes(c, [Contexts.Raise(id, fields, false)]) > 0)
  {
    EnqueueShown(s.events, c, id, fields);
    QueuedShown(s.events, c, id);
    hide Shows, Queued, Contexts.Queued, Contexts.DoRaise, Enqueued;
  }

  lemma {:induction false} OverwriteIs(events: seq<Raised>, e: Raised)
    ensures var t := Overwrite(events, e);
            |t| == |events| && forall i :: 0 <= i < |t| ==> t[i] == if events[i].id == e.id then e else events[i]
  {
    if events != [] {
      OverwriteIs(events[1..], e);
    }
  }

  /** And the event the device takes is the one the context delivers, with its type. */
  lemma TakenShown(s: Sock, c: Contexts.Ctx<EventId>)
    requires Shows(s.events, c) && s.events != [] && EventsOk(s.events)
    ensures Shows(Taken(s).events, Contexts.Popped(c))
    ensures c.events[0] == s.events[0].id && Contexts.FieldsOf(c, c.events[0]).typ == s.events[0].typ
  {
    assert Ids(s.events[1..]) == Ids(s.events)[1..];
  }
}
