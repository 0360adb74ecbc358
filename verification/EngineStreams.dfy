/** The events of a connection's two sockets against the byte stream between them: over
    whole runs the device is told of as many sent and received messages as the stream
    has written and completed frames. */
module EngineStreams {
  import opened SocketFsm
  import opened Sockets
  import opened SocketInv
  import opened Engine
  import opened EngineInv
  import opened EngineRuns
  import opened EngineSockets
  import opened EngineLedger
  import opened EngineLinks
  import opened Framing
  import S = Streams

  /** A stream that follows a run: its state before and after each step of the engine,
      and the moves it makes in between. */
  datatype Shadow = Shadow(states: seq<S.Stream>, moves: seq<seq<S.Step>>, where: int -> int)

  // ---- The receiving end ----

  predicate Reads(y: Sys, step: Step, id: int) {
    step.Enter? && step.id == id && id in y.socks && y.socks[id].work == RunIo(FD_IN)
  }

  /** At an IN event of socket id the stream makes one FdIn step, with the outcome the
      handler gets; at other times it makes none. */
  ghost predicate Hears(y: Sys, step: Step, id: int, t: S.Stream, where: int -> int, moves: seq<S.Step>)
    requires S.Shaped(t)
  {
    if Reads(y, step, id) then
      && |moves| == 1 && moves[0].FdIn?
      && step.k.received == ReceivedIn(t, where, moves[0].io1, moves[0].io2)
    else forall i :: 0 <= i < |moves| ==> !moves[i].FdIn?
  }

  // ---- The sending end ----

  predicate Pushes(y: Sys, step: Step, id: int) {
    || step == SenderPush(id)
    || (step == CallerStep(id) && id in y.socks && y.socks[id].caller == CPush)
  }

  predicate Writes(y: Sys, step: Step, id: int) {
    step.Enter? && step.id == id && id in y.socks && y.socks[id].work == RunIo(FD_OUT) && y.socks[id].st == ACTIVE
  }

  /** Every message sent on socket id is one Enqueue step of the stream, and every OUT
      event of the active socket one FdOut step with the outcome the handler gets. */
  ghost predicate Speaks(y: Sys, step: Step, id: int, t: S.Stream, moves: seq<S.Step>)
    requires S.Shaped(t)
  {
    if Pushes(y, step, id) then |moves| == 1 && moves[0].Enqueue?
    else if Writes(y, step, id) then
      && |moves| == 1 && moves[0].FdOut?
      && (t.snd.busy || t.snd.queue != [] ==> step.k.sent == SentIn(t, moves[0].io1, moves[0].io2))
    else forall i :: 0 <= i < |moves| ==> !moves[i].Enqueue? && !moves[i].FdOut?
  }

  ghost predicate MovesOn(sh: Shadow, i: int) {
    && 0 <= i < |sh.moves| && i + 1 < |sh.states|
    && S.Valid(sh.states[i], sh.where, sh.moves[i])
    && sh.states[i + 1] == S.Final(sh.states[i], sh.where, sh.moves[i])
  }

  ghost predicate Along(r: Trace, sh: Shadow)
    requires IsRun(r)
  {
    && |sh.moves| == |r.steps| && |sh.states| == |r.states| && S.Initial(sh.states[0])
    && forall i :: 0 <= i < |sh.moves| ==> MovesOn(sh, i)
  }

  ghost predicate HearsAt(r: Trace, id: int, sh: Shadow, i: int) {
    && 0 <= i < |r.steps| && i < |r.states| && MovesOn(sh, i)
    && Hears(r.states[i], r.steps[i], id, sh.states[i], sh.where, sh.moves[i])
  }

  ghost predicate SpeaksAt(r: Trace, id: int, sh: Shadow, i: int) {
    && 0 <= i < |r.steps| && i < |r.states| && MovesOn(sh, i)
    && Speaks(r.states[i], r.steps[i], id, sh.states[i], sh.moves[i])
  }

  // ---- Steps ----

  function Left(t: S.Stream): nat {
    |t.snd.queue| + if t.snd.busy then 1 else 0
  }

  lemma {:induction false} QuietEnd(t: S.Stream, where: int -> int, moves: seq<S.Step>)
    requires S.Valid(t, where, moves)
    ensures (forall i :: 0 <= i < |moves| ==> !moves[i].FdIn?) ==> S.Final(t, where, moves).got == t.got
    ensures (forall i :: 0 <= i < |moves| ==> !moves[i].Enqueue? && !moves[i].FdOut?) ==>
              var u := S.Final(t, where, moves); Left(u) == Left(t) && u.sent == t.sent
    decreases |moves|
  {
    hide SendRaw, RecvRaw, Region, Store;
    if moves != [] {
      QuietEnd(S.Do(t, where, moves[0]), where, moves[1..]);
      assert moves == [moves[0]] + moves[1..];
    }
  }

  lemma OneMove(t: S.Stream, where: int -> int, move: S.Step)
    requires S.Valid(t, where, [move])
    ensures S.Shaped(t) && S.Final(t, where, [move]) == S.Do(t, where, move)
  {
    hide S.Do;
    assert [move][1..] == [];
  }

  /** One descriptor event adds at most one event, of its own kind. */
  lemma AnswerCounts(a: Account, event: int, k: Kernel)
    ensures var b := Answered(a, event, k);
            && Tally(b.raised, ReceivedEvent) == Tally(a.raised, ReceivedEvent)
               + (if event == FD_IN && a.st != CONNECTING && k.received == Complete then 1 else 0)
            && Tally(b.raised, SentEvent) == Tally(a.raised, SentEvent)
               + (if event != FD_ERR && event != FD_IN && a.st != CONNECTING
                     && a.given > Tally(a.raised, SentEvent) && k.sent == Complete then 1 else 0)
            && b.given == a.given
  {
    var b := Answered(a, event, k);
    if |b.raised| > |a.raised| {
      var e := b.raised[|a.raised|];
      assert b.raised == a.raised + [e];
      TallyAppend(a.raised, e, ReceivedEvent);
      TallyAppend(a.raised, e, SentEvent);
    }
    hide Tally;
  }

  lemma CallerCounts(a: Account, caller: Caller, work: Work, step: Step)
    requires !step.Enter?
    ensures var b := Booked(a, caller, work, step);
            && Tally(b.raised, ReceivedEvent) == Tally(a.raised, ReceivedEvent)
            && Tally(b.raised, SentEvent) == Tally(a.raised, SentEvent)
            && b.given == a.given + (if step.SenderPush? || (step.CallerStep? && caller == CPush) then 1 else 0)
  {
    if step.CallerStep? {
      TallyAppend(a.raised, Raised(Established, EV_CONNECTED), ReceivedEvent);
      TallyAppend(a.raised, Raised(Established, EV_CONNECTED), SentEvent);
      TallyAppend(a.raised, Raised(ErrorEvent, EV_ERROR), ReceivedEvent);
      TallyAppend(a.raised, Raised(ErrorEvent, EV_ERROR), SentEvent);
    }
    hide Tally, Answered;
  }

  /** What the books say of a socket whose worker has an event of its descriptor in hand. */
  lemma EventBooked(y: Sys, id: int, k: Kernel, a: Account)
    requires Inv(y) && Enabled(y, Enter(id, k)) && id in y.socks && id != 0 && Books(y.socks[id], a)
    requires y.socks[id].work.RunIo?
    ensures var s := y.socks[id];
            && (s.work.event == FD_IN || s.work.event == FD_OUT || s.work.event == FD_ERR)
            && (s.work.event == FD_IN ==> a.st != CONNECTING)
            && (s.work.event == FD_OUT ==> a.st == s.st && (s.st == ACTIVE || s.st == CONNECTING))
  {
    SockAt(y, id);
    EnterCan(y, id, k);
    hide Inv, Enabled, SockOk, Tally;
    IoExpected(y.socks[id]);
  }

  /** What a step of the engine adds to the tallies of one socket. */
  lemma StepTallies(y: Sys, step: Step, id: int, a: Account)
    requires Inv(y) && Enabled(y, step) && id != 0
    requires if id in y.socks then Books(y.socks[id], a) else a == NO_ACCOUNT
    ensures var b := WithStep(a, y, step, id);
            && Tally(b.raised, ReceivedEvent) == Tally(a.raised, ReceivedEvent)
               + (if Reads(y, step, id) && step.k.received == Complete then 1 else 0)
            && Tally(b.raised, SentEvent) == Tally(a.raised, SentEvent)
               + (if Writes(y, step, id) && a.given > Tally(a.raised, SentEvent) && step.k.sent == Complete
                  then 1 else 0)
            && b.given == a.given + (if Pushes(y, step, id) then 1 else 0)
  {
    hide Inv, Enabled, Books, Tally, Answered, Booked, Reads, Writes, Pushes;
    if Own(step) && step.id == id {
      Present(y, step);
      OwnAccount(y, step, a);
      if step.Enter? {
        EnterTallies(y, id, step.k, a);
      } else {
        CallerCounts(a, y.socks[id].caller, y.socks[id].work, step);
        OnlyPushes(y, step);
      }
    } else {
      Elsewhere(y, step, id, a);
      hide WithStep;
    }
  }

  lemma OwnAccount(y: Sys, step: Step, a: Account)
    requires Own(step) && step.id in y.socks
    ensures WithStep(a, y, step, step.id) == Booked(a, y.socks[step.id].caller, y.socks[step.id].work, step)
  {
    hide Booked;
  }

  lemma OnlyPushes(y: Sys, step: Step)
    requires Own(step) && !step.Enter? && step.id in y.socks
    ensures !Reads(y, step, step.id) && !Writes(y, step, step.id)
    ensures Pushes(y, step, step.id) <==>
            step.SenderPush? || (step.CallerStep? && y.socks[step.id].caller == CPush)
  {
  }

  lemma Elsewhere(y: Sys, step: Step, id: int, a: Account)
    requires Enabled(y, step) && !(Own(step) && step.id == id) && (id !in y.socks ==> a == NO_ACCOUNT)
    ensures !Reads(y, step, id) && !Writes(y, step, id) && !Pushes(y, step, id)
    ensures WithStep(a, y, step, id).raised == a.raised && WithStep(a, y, step, id).given == a.given
  {
    CreatesNew(y, step);
    hide Enabled, Booked;
  }

  lemma EnterTallies(y: Sys, id: int, k: Kernel, a: Account)
    requires Inv(y) && Enabled(y, Enter(id, k)) && id in y.socks && id != 0 && Books(y.socks[id], a)
    ensures !Pushes(y, Enter(id, k), id)
    ensures var s, step := y.socks[id], Enter(id, k);
            var b := Booked(a, s.caller, s.work, step);
            && Tally(b.raised, ReceivedEvent) == Tally(a.raised, ReceivedEvent)
               + (if Reads(y, step, id) && k.received == Complete then 1 else 0)
            && Tally(b.raised, SentEvent) == Tally(a.raised, SentEvent)
               + (if Writes(y, step, id) && a.given > Tally(a.raised, SentEvent) && k.sent == Complete then 1 else 0)
            && b.given == a.given
  {
    hide OutboundOk, SockOk, Dispatch;
    var s := y.socks[id];
    hide Inv, Enabled, Books, Tally, Answered, Booked;
    EnterBooked(a, s.caller, s.work, id, k);
    if s.work.RunIo? {
      EventBooked(y, id, k, a);
      AnswerCounts(a, s.work.event, k);
      EventKinds(y, id, k);
      hide Reads, Writes;
    }
  }

  lemma EnterBooked(a: Account, caller: Caller, work: Work, id: int, k: Kernel)
    ensures Booked(a, caller, work, Enter(id, k)) == if work.RunIo? then Answered(a, work.event, k) else a
  {
    hide Answered;
  }

  lemma EventKinds(y: Sys, id: int, k: Kernel)
    requires id in y.socks && y.socks[id].work.RunIo?
    ensures Reads(y, Enter(id, k), id) <==> y.socks[id].work.event == FD_IN
    ensures Writes(y, Enter(id, k), id) <==> y.socks[id].work.event == FD_OUT && y.socks[id].st == ACTIVE
  {
  }

  lemma Present(y: Sys, step: Step)
    requires Enabled(y, step)
    ensures Own(step) ==> step.id in y.socks
  {
    hide WorkerFree, Accepting;
  }

  // ---- The stream's steps ----

  lemma HearsMoves(y: Sys, step: Step, id: int, t: S.Stream, where: int -> int, moves: seq<S.Step>)
    requires S.Valid(t, where, moves) && Hears(y, step, id, t, where, moves)
    ensures |S.Final(t, where, moves).got| ==
            |t.got| + if Reads(y, step, id) && step.k.received == Complete then 1 else 0
  {
    if Reads(y, step, id) {
      assert moves == [moves[0]];
      OneMove(t, where, moves[0]);
    } else {
      QuietEnd(t, where, moves);
    }
    hide RecvRaw, Region, S.Valid, S.Final;
  }

  lemma PushMoves(t: S.Stream, where: int -> int, m: NetMsg)
    requires S.Shaped(t)
    ensures var u := S.Do(t, where, S.Enqueue(m)); Left(u) == Left(t) + 1 && |u.sent| == |t.sent| + 1
  {
    hide Region;
  }

  lemma WriteMoves(t: S.Stream, where: int -> int, io1: Io, io2: Io)
    requires S.Shaped(t)
    ensures Left(t) > 0 <==> t.snd.busy || t.snd.queue != []
    ensures var u := S.Do(t, where, S.FdOut(io1, io2));
            && u.sent == t.sent
            && Left(u) == Left(t) - (if Left(t) > 0 && SentIn(t, io1, io2) == Complete then 1 else 0)
  {
    hide SendRaw, Encode;
  }

  lemma SpeaksMoves(y: Sys, step: Step, id: int, t: S.Stream, where: int -> int, moves: seq<S.Step>)
    requires S.Valid(t, where, moves) && Speaks(y, step, id, t, moves)
    ensures var u := S.Final(t, where, moves);
            && |u.sent| == |t.sent| + (if Pushes(y, step, id) then 1 else 0)
            && Left(u) == Left(t) + (if Pushes(y, step, id) then 1 else 0)
               - (if Writes(y, step, id) && Left(t) > 0 && step.k.sent == Complete then 1 else 0)
  {
    if Pushes(y, step, id) {
      assert moves == [moves[0]];
      OneMove(t, where, moves[0]);
      PushMoves(t, where, moves[0].msg);
    } else if Writes(y, step, id) {
      assert moves == [moves[0]];
      OneMove(t, where, moves[0]);
      WriteMoves(t, where, moves[0].io1, moves[0].io2);
    } else {
      QuietEnd(t, where, moves);
    }
    hide S.Valid, S.Final, S.Do, Left, SentIn;
  }

  // ---- Runs ----

  /** The books and the stream agree: it has taken what was sent on the speaking socket
      and holds what that one has not reported, and what it has completed the hearing
      socket has reported. */
  predicate Heard(a: Account, t: S.Stream) {
    |t.got| == Tally(a.raised, ReceivedEvent)
  }

  predicate Spoken(a: Account, t: S.Stream) {
    |t.sent| == a.given && Left(t) + Tally(a.raised, SentEvent) == a.given
  }

  lemma StartsQuiet(t: S.Stream)
    requires S.Initial(t)
    ensures Heard(NO_ACCOUNT, t) && Spoken(NO_ACCOUNT, t)
  {
  }

  lemma HeardStep(y: Sys, step: Step, id: int, a: Account, t: S.Stream, where: int -> int, moves: seq<S.Step>)
    requires Inv(y) && Enabled(y, step) && id != 0
    requires if id in y.socks then Books(y.socks[id], a) else a == NO_ACCOUNT
    requires S.Valid(t, where, moves) && Hears(y, step, id, t, where, moves) && Heard(a, t)
    ensures Heard(WithStep(a, y, step, id), S.Final(t, where, moves))
  {
    HearsMoves(y, step, id, t, where, moves);
    StepTallies(y, step, id, a);
    hide Inv, Enabled, Tally, Hears, WithStep, S.Valid, S.Final, Books, Reads, Writes, Pushes;
  }

  lemma SpokenStep(y: Sys, step: Step, id: int, a: Account, t: S.Stream, where: int -> int, moves: seq<S.Step>)
    requires Inv(y) && Enabled(y, step) && id != 0
    requires if id in y.socks then Books(y.socks[id], a) else a == NO_ACCOUNT
    requires S.Valid(t, where, moves) && Speaks(y, step, id, t, moves) && Spoken(a, t)
    ensures Spoken(WithStep(a, y, step, id), S.Final(t, where, moves))
  {
    hide OutboundOk, SockOk;
    assert Left(t) > 0 <==> a.given > Tally(a.raised, SentEvent);
    SpeaksMoves(y, step, id, t, where, moves);
    StepTallies(y, step, id, a);
    hide Inv, Enabled, Tally, Speaks, WithStep, S.Valid, S.Final, S.Shaped, Books, Reads, Writes, Pushes, Left;
  }

  /** The stream follows the run, and socket id is its receiving end, */
  ghost predicate HearsAlong(r: Trace, id: int, sh: Shadow)
    requires IsRun(r)
  {
    Along(r, sh) && forall i :: 0 <= i < |r.steps| ==> HearsAt(r, id, sh, i)
  }

  /** or its sending end. */
  ghost predicate SpeaksAlong(r: Trace, id: int, sh: Shadow)
    requires IsRun(r)
  {
    Along(r, sh) && forall i :: 0 <= i < |r.steps| ==> SpeaksAt(r, id, sh, i)
  }

  lemma HearsThen(r: Trace, id: int, sh: Shadow, i: int)
    requires IsRun(r) && HearsAlong(r, id, sh) && 0 <= i < |r.steps|
    ensures |sh.states| == |r.states| && |sh.moves| == |r.steps| && S.Initial(sh.states[0])
    ensures S.Valid(sh.states[i], sh.where, sh.moves[i])
    ensures sh.states[i + 1] == S.Final(sh.states[i], sh.where, sh.moves[i])
    ensures Hears(r.states[i], r.steps[i], id, sh.states[i], sh.where, sh.moves[i])
  {
    hide Do, Enabled;
    assert HearsAt(r, id, sh, i);
    hide Hears, Linked, S.Valid, S.Final, S.Initial;
  }

  lemma SpeaksThen(r: Trace, id: int, sh: Shadow, i: int)
    requires IsRun(r) && SpeaksAlong(r, id, sh) && 0 <= i < |r.steps|
    ensures |sh.states| == |r.states| && |sh.moves| == |r.steps| && S.Initial(sh.states[0])
    ensures S.Valid(sh.states[i], sh.where, sh.moves[i])
    ensures sh.states[i + 1] == S.Final(sh.states[i], sh.where, sh.moves[i])
    ensures Speaks(r.states[i], r.steps[i], id, sh.states[i], sh.moves[i])
  {
    hide Do, Enabled;
    assert SpeaksAt(r, id, sh, i);
    hide Speaks, Linked, S.Valid, S.Final, S.Initial;
  }

  lemma AlongStarts(r: Trace, id: int, sh: Shadow)
    requires IsRun(r) && (HearsAlong(r, id, sh) || SpeaksAlong(r, id, sh))
    ensures |sh.states| == |r.states| && AccountOf(r, id, 0) == NO_ACCOUNT
    ensures Heard(NO_ACCOUNT, sh.states[0]) && Spoken(NO_ACCOUNT, sh.states[0])
  {
    hide Do, Enabled;
    StartsQuiet(sh.states[0]);
    hide Linked, Heard, Spoken, HearsAt, SpeaksAt;
  }

  lemma BeforeStep(r: Trace, id: int, n: nat)
    requires FromStart(r) && !Provoked(r) && 0 < n <= |r.steps| && id != 0
    ensures var y, a := r.states[n - 1], AccountOf(r, id, n - 1);
            && Inv(y) && Enabled(y, r.steps[n - 1])
            && (if id in y.socks then Books(y.socks[id], a) else a == NO_ACCOUNT)
            && AccountOf(r, id, n) == WithStep(a, y, r.steps[n - 1], id)
  {
    hide Inv, Enabled, Books, WithStep, Do;
    InitOk(r.states[0]);
    BooksAt(r, id, n - 1);
    assert forall i :: 0 <= i < |r.steps| ==> !ProvokedAt(r, i);
    StateOk(r, n - 1);
    assert Linked(r, n - 1);
  }

  lemma {:induction false} HeardAt(r: Trace, id: int, sh: Shadow, n: nat)
    requires FromStart(r) && !Provoked(r) && n <= |r.steps| && id != 0 && HearsAlong(r, id, sh)
    ensures |sh.states| == |r.states| && Heard(AccountOf(r, id, n), sh.states[n])
  {
    hide Inv, Enabled, Heard, Hears, WithStep, S.Valid, S.Final, Provoked, Books, AccountOf, Built, Linked, HearsAlong;
    AlongStarts(r, id, sh);
    if n > 0 {
      HeardAt(r, id, sh, n - 1);
      HearsThen(r, id, sh, n - 1);
      BeforeStep(r, id, n);
      HeardStep(r.states[n - 1], r.steps[n - 1], id, AccountOf(r, id, n - 1), sh.states[n - 1], sh.where,
                sh.moves[n - 1]);
    }
  }

  lemma {:induction false} SpokenAt(r: Trace, id: int, sh: Shadow, n: nat)
    requires FromStart(r) && !Provoked(r) && n <= |r.steps| && id != 0 && SpeaksAlong(r, id, sh)
    ensures |sh.states| == |r.states| && Spoken(AccountOf(r, id, n), sh.states[n])
  {
    hide Inv, Enabled, Spoken, Speaks, WithStep, S.Valid, S.Final, Provoked, Books, AccountOf, Built, Linked,
        SpeaksAlong;
    AlongStarts(r, id, sh);
    if n > 0 {
      SpokenAt(r, id, sh, n - 1);
      SpeaksThen(r, id, sh, n - 1);
      BeforeStep(r, id, n);
      SpokenStep(r.states[n - 1], r.steps[n - 1], id, AccountOf(r, id, n - 1), sh.states[n - 1], sh.where,
                 sh.moves[n - 1]);
    }
  }

  /** Over every run and whatever the reads and writes return: a socket raises Received
      once per message that the stream completes at it, */
  lemma ReceivedPerMessage(r: Trace, id: int, sh: Shadow)
    requires FromStart(r) && !Provoked(r) && id in Last(r).socks && id != 0 && HearsAlong(r, id, sh)
    ensures Tally(Last(r).socks[id].log.raised, ReceivedEvent) == |sh.states[|r.steps|].got|
  {
    hide Do, Enabled;
    HeardAt(r, id, sh, |r.steps|);
    Ledger(r, id);
    hide Linked, Provoked, Built, Tally, AccountOf, Along;
  }

  /** and Sent once per frame whose last byte the stream has taken from it. */
  lemma SentPerFrame(r: Trace, id: int, sh: Shadow)
    requires FromStart(r) && !Provoked(r) && id in Last(r).socks && id != 0 && SpeaksAlong(r, id, sh)
    ensures Tally(Last(r).socks[id].log.raised, SentEvent) == S.Written(sh.states[|r.steps|])
  {
    hide Do, Enabled;
    SpokenAt(r, id, sh, |r.steps|);
    Ledger(r, id);
    hide Linked, Provoked, Built, Tally, AccountOf, Along;
  }

  lemma {:induction false} StreamOk(r: Trace, sh: Shadow, n: nat)
    requires IsRun(r) && Along(r, sh) && n <= |r.steps|
    ensures S.Inv(sh.states[n], sh.where)
  {
    hide S.Inv, S.Valid, S.Final, S.Initial, Linked;
    if n == 0 {
      S.InitialOk(sh.states[0], sh.where);
    } else {
      StreamOk(r, sh, n - 1);
      assert MovesOn(sh, n - 1);
      S.RunKeeps(sh.states[n - 1], sh.where, sh.moves[n - 1]);
    }
  }

  /** Both ends of a connection in one run: the receiving device is told of at most as
      many messages as the sending one, which is told of at most as many as were sent;
      of as many once the wire is empty, and of all once nothing is left to send. */
  lemma Conversation(r: Trace, a: int, b: int, sh: Shadow)
    requires FromStart(r) && !Provoked(r) && a in Last(r).socks && b in Last(r).socks && a != 0 && b != 0
    requires SpeaksAlong(r, a, sh) && HearsAlong(r, b, sh)
    ensures var sent, received := Tally(Last(r).socks[a].log.raised, SentEvent),
                                  Tally(Last(r).socks[b].log.raised, ReceivedEvent);
            var t, given := sh.states[|r.steps|], AccountOf(r, a, |r.steps|).given;
            && received <= sent <= given && |t.sent| == given
            && (t.wire == [] && t.rcv.off == 0 ==> received == sent)
            && (Last(r).socks[a].queued == 0 && !Last(r).socks[a].busy ==> sent == given)
  {
    hide Do, Enabled;
    ReceivedPerMessage(r, b, sh);
    SentPerFrame(r, a, sh);
    StreamOk(r, sh, |r.steps|);
    S.GotIsWritten(sh.states[|r.steps|], sh.where);
    SpokenAt(r, a, sh, |r.steps|);
    Ledger(r, a);
    hide Linked, Provoked, Built, Tally, AccountOf, S.Inv, HearsAt, SpeaksAt, MovesOn;
  }
}
