/** The callback table and the completion queue of device.cpp: ReadData leaves a
    callback under a token, an arriving data message for that token moves it to the
    queue, and another thread polls the queue and runs it. */
module Callbacks {
  import opened Framing
  import opened Channels
  import opened Sequences

  // ---- The table and the queue over a whole history ----

  datatype Step<C> =
    | Register(token: int, callback: C)   // ReadData, up to its emplace
    | Arrive(token: int)                  // ParseNetMsg with a data message
    | Run                                 // one turn of PollCompletionQueue's loop
    | CloseSend | CloseReceive

  datatype Table<C> = Table(waiting: map<int, C>, cq: seq<C>, sendClosed: bool, receiveClosed: bool, ran: seq<C>)

  function Empty<C>(): Table<C> {
    Table(map[], [], false, false, [])
  }

  predicate Enabled<C>(s: Table<C>, step: Step<C>) {
    step.Run? ==> s.cq != [] && !s.receiveClosed
  }

  /** emplace keeps what is there; erase happens even if Send refuses. */
  function After<C>(s: Table<C>, step: Step<C>): Table<C>
    requires Enabled(s, step)
  {
    match step
    case Register(t, c) => if t in s.waiting then s else s.(waiting := s.waiting[t := c])
    case Arrive(t) =>
      if t !in s.waiting then s
      else s.(waiting := s.waiting - {t}, cq := if s.sendClosed then s.cq else s.cq + [s.waiting[t]])
    case Run => s.(cq := s.cq[1..], ran := s.ran + [s.cq[0]])
    case CloseSend => s.(sendClosed := true)
    case CloseReceive => s.(receiveClosed := true)
  }

  predicate Valid<C>(s: Table<C>, h: seq<Step<C>>)
    decreases |h|
  {
    h == [] || (Enabled(s, h[0]) && Valid(After(s, h[0]), h[1..]))
  }

  function Final<C>(s: Table<C>, h: seq<Step<C>>): Table<C>
    requires Valid(s, h)
    decreases |h|
  {
    if h == [] then s else Final(After(s, h[0]), h[1..])
  }

  // ---- The same told by looking back over the history ----

  /** The callback that waits for token t: the first one registered since the last arrival. */
  ghost function Open<C>(h: seq<Step<C>>, t: int): Option<C> {
    if h == [] then None
    else
      var last, before := h[|h| - 1], Open(h[..|h| - 1], t);
      if last == Arrive(t) then None
      else if last.Register? && last.token == t && before == None then Some(last.callback)
      else before
  }

  ghost predicate SendOpen<C>(h: seq<Step<C>>) {
    forall i :: 0 <= i < |h| ==> !h[i].CloseSend?
  }

  /** The callbacks that are due, in the order their messages arrived. */
  ghost function Due<C>(h: seq<Step<C>>): seq<C> {
    if h == [] then []
    else
      var last, before := h[|h| - 1], h[..|h| - 1];
      Due(before) + if last.Arrive? && Open(before, last.token).Some?
          && SendOpen(before) then [Open(before, last.token).value] else []
  }

  ghost predicate Agrees<C>(s: Table<C>, h: seq<Step<C>>) {
    && (forall t :: t in s.waiting <==> Open(h, t).Some?)
    && (forall t :: t in s.waiting ==> Open(h, t) == Some(s.waiting[t]))
    && (s.sendClosed <==> !SendOpen(h))
    && s.ran + s.cq == Due(h)
  }

  lemma SendOpenStep<C>(h: seq<Step<C>>, step: Step<C>)
    ensures SendOpen(h + [step]) <==> SendOpen(h) && !step.CloseSend?
  {
    var all := h + [step];
    if SendOpen(all) {
      assert all[|h|] == step && forall i :: 0 <= i < |h| ==> all[i] == h[i];
    }
  }

  lemma StepAgrees<C>(s: Table<C>, h: seq<Step<C>>, step: Step<C>)
    requires Agrees(s, h) && Enabled(s, step)
    ensures Agrees(After(s, step), h + [step])
  {
    assert (h + [step])[..|h|] == h;
    SendOpenStep(h, step);
    hide SendOpen;
    var d := After(s, step);
    match step
    case Run => assert (s.ran + [s.cq[0]]) + s.cq[1..] == s.ran + s.cq;
    case Arrive(t) =>
      if t in s.waiting && !s.sendClosed {
        assert s.ran + (s.cq + [s.waiting[t]]) == (s.ran + s.cq) + [s.waiting[t]];
      }
    case _ =>
  }

  lemma {:induction false} RunAgrees<C>(s: Table<C>, before: seq<Step<C>>, h: seq<Step<C>>)
    requires Agrees(s, before) && Valid(s, h)
    ensures Agrees(Final(s, h), before + h)
    decreases |h|
  {
    hide Agrees, After;
    if h == [] {
      assert before + h == before;
    } else {
      StepAgrees(s, before, h[0]);
      RunAgrees(After(s, h[0]), before + [h[0]], h[1..]);
      assert before + [h[0]] + h[1..] == before + h;
    }
  }

  /** Over every history: what ran and what is still queued are exactly the due
      callbacks, in order of arrival, and the table holds exactly the open ones. */
  lemma CallbackAccounting<C>(h: seq<Step<C>>)
    requires Valid(Empty(), h)
    ensures var s := Final(Empty(), h);
            && s.ran + s.cq == Due(h)
            && forall t :: (if t in s.waiting then Some(s.waiting[t]) else None) == Open(h, t)
  {
    RunAgrees(Empty(), [], h);
    assert [] + h == h;
  }

  // ---- Each registration at most once, for its own token ----

  /** Registration i for token t takes effect and is answered by arrival j. */
  ghost predicate Answers<C>(h: seq<Step<C>>, i: int, j: int)
  {
    && 0 <= i < j < |h| && h[i].Register? && h[j] == Arrive(h[i].token)
    && Open(h[..i], h[i].token) == None
    && forall k :: i < k < j ==> h[k] != Arrive(h[i].token)
  }

  /** An open callback was registered, effectively, with no arrival since. */
  lemma {:induction false} OpenSince<C>(h: seq<Step<C>>, t: int) returns (i: nat)
    requires Open(h, t).Some?
    ensures i < |h| && h[i].Register? && h[i].token == t && Some(h[i].callback) == Open(h, t)
    ensures Open(h[..i], t) == None && forall k :: i < k < |h| ==> h[k] != Arrive(t)
  {
    var n := |h| - 1;
    if Open(h[..n], t) == None {
      i := n;
    } else {
      i := OpenSince(h[..n], t);
      assert h[..n][..i] == h[..i];
      forall k | i < k < |h| ensures h[k] != Arrive(t) {
        if k < n {
          assert h[..n][k] == h[k];
        }
      }
    }
  }

  /** After an effective registration and until its token's message, exactly that callback is open. */
  lemma {:induction false} StaysOpen<C>(h: seq<Step<C>>, i: nat, j: nat)
    requires i < j <= |h| && h[i].Register? && Open(h[..i], h[i].token) == None
    requires forall k :: i < k < j ==> h[k] != Arrive(h[i].token)
    ensures Open(h[..j], h[i].token) == Some(h[i].callback)
  {
    assert h[..j][..j - 1] == h[..j - 1];
    if j > i + 1 {
      StaysOpen(h, i, j - 1);
    }
  }

  /** The position in Due that arrival j fills. */
  lemma {:induction false} DuePrefix<C>(h: seq<Step<C>>, j: nat)
    requires j <= |h|
    ensures Due(h[..j]) <= Due(h)
  {
    if j == |h| {
      assert h[..j] == h;
    } else {
      DuePrefix(h[..|h| - 1], j);
      assert h[..|h| - 1][..j] == h[..j];
    }
  }

  /** A registration that takes effect is due at the first message for its token,
      next after everything that was due before, if the queue still accepts it. */
  lemma AnsweredOnce<C>(h: seq<Step<C>>, i: nat, j: nat)
    requires Answers(h, i, j) && SendOpen(h[..j])
    ensures Due(h[..j]) + [h[i].callback] == Due(h[..j + 1]) <= Due(h)
  {
    StaysOpen(h, i, j);
    assert h[..j + 1][..j] == h[..j];
    DuePrefix(h, j + 1);
  }

  /** And nothing else is ever due. */
  lemma {:induction false} DueIsAnswered<C>(h: seq<Step<C>>, n: nat) returns (i: nat, j: nat)
    requires n < |Due(h)|
    ensures Answers(h, i, j) && h[i].callback == Due(h)[n] && |Due(h[..j])| == n
  {
    var before := h[..|h| - 1];
    if n < |Due(before)| {
      i, j := DueIsAnswered(before, n);
      assert before[..i] == h[..i] && before[..j] == h[..j];
      assert forall k :: i <= k <= j ==> before[k] == h[k];
    } else {
      j := |h| - 1;
      i := OpenSince(before, h[j].token);
      assert before[..i] == h[..i];
      assert forall k :: i <= k < j ==> before[k] == h[k];
    }
  }

  /** No callback is queued, and so none runs, for two arrivals or two registrations. */
  lemma AtMostOnce<C>(h: seq<Step<C>>, i: nat, j: nat, i': nat, j': nat)
    requires Answers(h, i, j) && Answers(h, i', j')
    ensures i == i' <==> j == j'
  {
    if j == j' {
      StaysOpenUnique(h, i, i', j);
    }
  }

  lemma StaysOpenUnique<C>(h: seq<Step<C>>, i: nat, k: nat, j: nat)
    requires Answers(h, i, j) && Answers(h, k, j)
    ensures i == k
  {
    if i < k {
      StaysOpen(h, i, k);
    } else if k < i {
      StaysOpen(h, k, i);
    }
  }

  // ---- Polling ----

  /** What a callback may do with the device while it runs. */
  datatype Act<C> = Read(src: int, dst: int, callback: C) | Close

  function Acted<C>(s: Table<C>, acts: seq<Act<C>>): Table<C>
    decreases |acts|
  {
    if acts == [] then s
    else if acts[0].Close? then Acted(After(After(s, CloseSend), CloseReceive), acts[1..])
    else Acted(After(s, Register(acts[0].src, acts[0].callback)), acts[1..])
  }

  lemma {:induction false} ActedKeeps<C>(s: Table<C>, acts: seq<Act<C>>)
    ensures var d := Acted(s, acts);
            d.cq == s.cq && d.ran == s.ran && (d.receiveClosed <==> s.receiveClosed || Act.Close in acts)
    decreases |acts|
  {
    if acts != [] {
      var next := if acts[0].Close? then After(After(s, CloseSend), CloseReceive)
                  else After(s, Register(acts[0].src, acts[0].callback));
      ActedKeeps(next, acts[1..]);
      assert acts == [acts[0]] + acts[1..];
    }
  }

  /** The polling loop with nobody else about; the n-th callback it runs does acts[n]. */
  function Polled<C>(s: Table<C>, acts: seq<seq<Act<C>>>): Table<C>
    decreases |s.cq|
  {
    if s.cq == [] || s.receiveClosed then s
    else
      var next := After(s, Step<C>.Run);
      ActedKeeps(next, First(acts));
      Polled(Acted(next, First(acts)), Others(acts))
  }

  function First<C>(acts: seq<seq<Act<C>>>): seq<Act<C>> {
    if acts == [] then [] else acts[0]
  }

  function Others<C>(acts: seq<seq<Act<C>>>): seq<seq<Act<C>>> {
    if acts == [] then [] else acts[1..]
  }

  lemma PolledUnfolds<C>(s: Table<C>, acts: seq<seq<Act<C>>>)
    requires s.cq != [] && !s.receiveClosed
    ensures Polled(s, acts) == Polled(Acted(After(s, Step<C>.Run), First(acts)), Others(acts))
  {
  }

  /** How many of n queued callbacks run: up to the first one that closes the queue. */
  function Turns<C(==)>(n: nat, acts: seq<seq<Act<C>>>): (k: nat)
    ensures k <= n
  {
    if n == 0 then 0
    else if acts == [] then n
    else if Act.Close in acts[0] then 1
    else 1 + Turns(n - 1, acts[1..])
  }

  /** What callbacks that run do to the table's history: their reads are registrations. */
  function Doings<C>(acts: seq<Act<C>>): seq<Step<C>> {
    if acts == [] then []
    else
      (match acts[0]
       case Read(src, _, callback) => [Register(src, callback)]
       case Close => [CloseSend, CloseReceive]) + Doings(acts[1..])
  }

  /** The history of k turns of the polling loop: a callback runs, and then does what it does. */
  function History<C>(k: nat, acts: seq<seq<Act<C>>>): seq<Step<C>> {
    if k == 0 then [] else [Step<C>.Run] + (Doings(First(acts)) + History(k - 1, Others(acts)))
  }

  function TurnsFrom<C(==)>(s: Table<C>, acts: seq<seq<Act<C>>>): nat {
    if s.receiveClosed then 0 else Turns(|s.cq|, acts)
  }

  /** Polling runs the queued callbacks in order, all of them unless one closes the
      queue, however many further reads they register; and with those registrations in
      between it is a run of the table, so that what holds of every history holds of it. */
  lemma {:induction false} PolledRuns<C>(s: Table<C>, acts: seq<seq<Act<C>>>)
    ensures var k := TurnsFrom(s, acts);
            && Valid(s, History(k, acts)) && Final(s, History(k, acts)) == Polled(s, acts)
            && k <= |s.cq| && Polled(s, acts).ran == s.ran + s.cq[..k] && Polled(s, acts).cq == s.cq[k..]
    decreases |s.cq|
  {
    if s.cq != [] && !s.receiveClosed {
      var next := After(s, Step<C>.Run);
      ActedKeeps(next, First(acts));
      ActedIsRun(next, First(acts));
      var left := Acted(next, First(acts));
      PolledRuns(left, Others(acts));
      TurnsOf(|s.cq|, acts);
      hide After, Acted, Polled, Turns, First, Others, Doings;
      var mine, rest := Doings(First(acts)), History(TurnsFrom(left, Others(acts)), Others(acts));
      RunJoins(next, mine, rest);
      var h := [Step<C>.Run] + (mine + rest);
      assert h[1..] == mine + rest;
      assert h == History(TurnsFrom(s, acts), acts);
      PolledTurn(s, acts);
    }
  }

  /** After any history and a polling of what it has queued, the table holds the callbacks
      that are open, among them those of the reads that were registered while polling. */
  lemma PolledTable<C>(g: seq<Step<C>>, acts: seq<seq<Act<C>>>)
    requires Valid(Empty(), g)
    ensures var s := Final(Empty(), g);
            var p, all := Polled(s, acts), g + History(TurnsFrom(s, acts), acts);
            && p.ran + p.cq == Due(all)
            && forall t :: (if t in p.waiting then Some(p.waiting[t]) else None) == Open(all, t)
  {
    var s := Final(Empty(), g);
    PolledRuns(s, acts);
    hide After, Polled, History, TurnsFrom;
    RunJoins(Empty(), g, History(TurnsFrom(s, acts), acts));
    CallbackAccounting(g + History(TurnsFrom(s, acts), acts));
  }

  lemma PolledTurn<C>(s: Table<C>, acts: seq<seq<Act<C>>>)
    requires s.cq != [] && !s.receiveClosed
    requires var t := Acted(After(s, Step<C>.Run), First(acts)); var p := Polled(t, Others(acts));
             var k := if t.receiveClosed then 0 else Turns(|t.cq|, Others(acts));
             p.ran == t.ran + t.cq[..k] && p.cq == t.cq[k..]
    ensures Polled(s, acts) == Polled(Acted(After(s, Step<C>.Run), First(acts)), Others(acts))
    ensures var k := Turns(|s.cq|, acts);
            Polled(s, acts).ran == s.ran + s.cq[..k] && Polled(s, acts).cq == s.cq[k..]
  {
    var next := After(s, Step<C>.Run);
    assert next.ran == s.ran + [s.cq[0]] && next.cq == s.cq[1..] && !next.receiveClosed;
    PolledUnfolds(s, acts);
    ActedKeeps(next, First(acts));
    hide After, Acted, Polled, Turns, First, Others;
    var t := Acted(next, First(acts));
    var j := if t.receiveClosed then 0 else Turns(|t.cq|, Others(acts));
    TurnsOf(|s.cq|, acts);
    Shifted(s.ran, s.cq, j);
  }

  lemma Shifted<T>(done: seq<T>, queue: seq<T>, j: nat)
    requires j < |queue|
    ensures done + queue[..j + 1] == (done + [queue[0]]) + queue[1..][..j]
    ensures queue[j + 1..] == queue[1..][j..]
  {
    assert queue[..j + 1] == [queue[0]] + queue[1..][..j];
    Associates(done, [queue[0]], queue[1..][..j]);
  }

  lemma TurnsOf<C>(n: nat, acts: seq<seq<Act<C>>>)
    requires n > 0
    ensures Turns(n, acts) == 1 + if Act<C>.Close in First(acts) then 0 else Turns(n - 1, Others(acts))
  {
  }

  lemma {:induction false} ActedIsRun<C>(s: Table<C>, acts: seq<Act<C>>)
    ensures Valid(s, Doings(acts)) && Final(s, Doings(acts)) == Acted(s, acts)
    decreases |acts|
  {
    if acts != [] {
      var h, rest := Doings(acts), Doings(acts[1..]);
      if acts[0].Close? {
        ActedIsRun(After(After(s, CloseSend), CloseReceive), acts[1..]);
        assert h == [Step<C>.CloseSend] + ([Step<C>.CloseReceive] + rest);
        assert h[1..] == [Step<C>.CloseReceive] + rest && h[1..][1..] == rest;
      } else {
        ActedIsRun(After(s, Register(acts[0].src, acts[0].callback)), acts[1..]);
        assert h[1..] == rest;
      }
    }
  }

  lemma {:induction false} RunJoins<C>(s: Table<C>, g: seq<Step<C>>, h: seq<Step<C>>)
    requires Valid(s, g) && Valid(Final(s, g), h)
    ensures Valid(s, g + h) && Final(s, g + h) == Final(Final(s, g), h)
    decreases |g|
  {
    hide After, Enabled;
    if g == [] {
      assert g + h == h;
    } else {
      RunJoins(After(s, g[0]), g[1..], h);
      assert (g + h)[1..] == g[1..] + h;
    }
  }

  // ---- Messages between two devices ----

  const CMD_READ: int := 1

  /** What ParseNetMsg does with a message. */
  datatype Parsed = Reply(msg: NetMsg) | Data(token: int) | Fatal

  /** Token2Dptr and Token2DptrSize belong to the machine that parses. */
  function Parse(m: NetMsg, dptr: int -> int, size: int -> int): Parsed {
    if m.msgType == 0 then
      if m.extra == CMD_READ && size(m.src) != -1 then Reply(NetMsg(DATA_MSG, dptr(m.src), m.dst, size(m.src)))
      else Fatal
    else if m.msgType == DATA_MSG then Data(m.dst)
    else Fatal
  }

  /** The message of ReadData(src, dst, ...), whose callback waits under token src. */
  function Request(src: int, dst: int): NetMsg {
    NetMsg(0, dst, src, CMD_READ)
  }

  /** A read request comes back as the data message its callback waits for: what is
      sent travels as bytes, the peer answers with the region it keeps under dst, and
      the answer is parsed as an arrival for src.  Only a peer that has nothing under
      dst ends its process instead. */
  lemma ReadRoundTrip(src: int, dst: int, dptr: int -> int, size: int -> int, dptr': int -> int, size': int -> int)
    requires IsInt64(src) && IsInt64(dst) && IsInt64(dptr(dst)) && IsInt64(size(dst))
    ensures var arrived := Parse(Decode(Encode(Request(src, dst))), dptr, size);
            && (arrived.Fatal? <==> size(dst) == -1)
            && (size(dst) != -1 ==>
                  && arrived.Reply? && Representable(arrived.msg)
                  && arrived.msg.src == dptr(dst) && Payload(arrived.msg) == size(dst)
                  && Parse(Decode(Encode(arrived.msg)), dptr', size') == Data(src))
  {
    hide Encode, Decode;
    DecodeEncode(Request(src, dst));
    if size(dst) != -1 {
      DecodeEncode(NetMsg(DATA_MSG, dptr(dst), src, size(dst)));
    }
  }

  // ---- The table and the queue in place ----

  class Completions<C> {
    var token2callback: map<int, C>
    const cq: Channel<C>
    var ran: seq<C>

    ghost function View(): Table<C>
      reads this, cq
    {
      Table(token2callback, cq.val, cq.isSendClosed, cq.isReceiveClosed, ran)
    }

    constructor ()
      ensures View() == Empty() && fresh(cq)
    {
      token2callback, ran := map[], [];
      cq := new Channel();
    }

    method ReadData(src: int, dst: int, callback: C) returns (msg: NetMsg)
      modifies this`token2callback
      ensures msg == Request(src, dst) && View() == After(old(View()), Register(src, callback))
    {
      msg := NetMsg(0, dst, src, CMD_READ);
      if msg.dst !in token2callback {
        token2callback := token2callback[msg.dst := callback];
      }
    }

    method ParseNetMsg(m: NetMsg, dptr: int -> int, size: int -> int) returns (r: Parsed)
      modifies this`token2callback, cq
      ensures r == Parse(m, dptr, size)
      ensures r.Data? <==> m.msgType == DATA_MSG
      ensures r.Fatal? <==> (m.msgType != 0 && m.msgType != DATA_MSG)
                            || (m.msgType == 0 && (m.extra != CMD_READ || size(m.src) == -1))
      ensures View() == if r.Data? then After(old(View()), Step<C>.Arrive(r.token)) else old(View())
    {
      if m.msgType == 0 {
        if m.extra != CMD_READ {
          return Fatal;
        }
        var out := NetMsg(DATA_MSG, dptr(m.src), m.dst, size(m.src));
        return if out.extra == -1 then Fatal else Reply(out);
      }
      if m.msgType != DATA_MSG {
        return Fatal;
      }
      if m.dst in token2callback {
        var woken := Someone();
        var rc := cq.Send(token2callback[m.dst], woken);
        token2callback := token2callback - {m.dst};
      }
      return Data(m.dst);
    }

    /** Whoever notify_one wakes. */
    method Someone() returns (woken: Option<int>)
      ensures if cq.isSendClosed || cq.asleep == {} then woken == None else woken.Some? && woken.value in cq.asleep
    {
      if cq.isSendClosed || cq.asleep == {} {
        return None;
      }
      var sleepers := cq.asleep;
      assert (forall x :: x !in sleepers) ==> sleepers == {};
      var t :| t in sleepers;
      return Some(t);
    }

    /** What a running callback does. */
    method Perform(acts: seq<Act<C>>)
      modifies this`token2callback, cq
      ensures View() == Acted(old(View()), acts)
      ensures cq.val == old(cq.val) && cq.asleep <= old(cq.asleep) && cq.notified <= old(cq.notified) + old(cq.asleep)
    {
      ghost var start := View();
      var i := 0;
      while i < |acts|
        invariant 0 <= i <= |acts| && Acted(start, acts) == Acted(View(), acts[i..])
        invariant cq.val == old(cq.val) && cq.asleep <= old(cq.asleep)
        invariant cq.notified <= old(cq.notified) + old(cq.asleep)
        decreases |acts| - i
      {
        assert acts[i..][1..] == acts[i + 1..];
        match acts[i] {
          case Close => CloseCompletionQueue();
          case Read(src, dst, callback) => var msg := ReadData(src, dst, callback);
        }
        i := i + 1;
      }
    }

    /** One callback, already taken from the channel, runs. */
    method RunOne(item: C, acts: seq<Act<C>>)
      requires !cq.isReceiveClosed
      modifies this, cq
      ensures View() == Acted(After(old(View()).(cq := [item] + old(cq.val)), Step<C>.Run), acts)
      ensures cq.val == old(cq.val) && cq.asleep <= old(cq.asleep) && cq.notified <= old(cq.notified) + old(cq.asleep)
    {
      ran := ran + [item];
      assert View() == After(old(View()).(cq := [item] + old(cq.val)), Step<C>.Run);
      Perform(acts);
    }

    /** The loop of the polling thread t, until the channel makes it wait or is closed;
        the n-th callback it runs does acts[n]. */
    method PollCompletionQueue(t: int, acts: seq<seq<Act<C>>>) returns (r: Attempt<C>)
      requires t !in cq.asleep && t !in cq.notified
      modifies this, cq
      ensures !r.Got?
      ensures View() == Polled(old(View()), acts)
    {
      ghost var start := View();
      var left := acts;
      hide Polled, Acted, After;
      r := TakeOne(t, left);
      while r.Got?
        invariant t !in cq.notified && (r.Got? ==> t !in cq.asleep)
        invariant if r.Got? then
                    !cq.isReceiveClosed && Polled(start, acts) == Polled(View().(cq := [r.item] + cq.val), left)
                  else View() == Polled(start, acts)
        decreases r.Got?, |cq.val|
      {
        PolledUnfolds(View().(cq := [r.item] + cq.val), left);
        RunOne(r.item, First(left));
        left := Others(left);
        r := TakeOne(t, left);
      }
    }

    /** Receive, seen from the loop. */
    method TakeOne(t: int, ghost left: seq<seq<Act<C>>>) returns (r: Attempt<C>)
      requires t !in cq.asleep && t !in cq.notified
      modifies cq
      ensures t !in cq.notified && (r.Got? ==> t !in cq.asleep && |cq.val| < |old(cq.val)|)
      ensures if r.Got? then !cq.isReceiveClosed && old(View()) == View().(cq := [r.item] + cq.val)
              else View() == old(View()) == Polled(old(View()), left)
    {
      r := cq.Receive(t);
    }

    method CloseCompletionQueue()
      modifies cq
      ensures cq.asleep == {} && cq.notified == old(cq.notified) + old(cq.asleep)
      ensures View() == After(After(old(View()), Step<C>.CloseSend), Step<C>.CloseReceive)
    {
      cq.CloseSendEnd();
      cq.CloseReceiveEnd();
    }
  }
}
