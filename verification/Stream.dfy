/** One connection end to end: enqueued messages, the sender's resumable writes,
    a FIFO of bytes, the receiver's resumable reads.

    Theorem: whatever the interleaving and however short the reads and writes,
    the messages the receiver completes are a prefix of the messages enqueued,
    headers and payloads byte for byte. */
module Streams {
  import opened Framing

  /** A message together with what its source region held when it was enqueued. */
  datatype Frame = Frame(msg: NetMsg, payload: seq<Byte>)

  predicate Good(f: Frame) {
    Sound(f.msg) && |f.payload| == Payload(f.msg)
  }

  function Bytes(f: Frame): (s: seq<Byte>)
    requires Good(f)
    ensures |s| == Total(f.msg)
  {
    Encode(f.msg) + f.payload
  }

  datatype Sender = Sender(queue: seq<NetMsg>, buf: seq<Byte>, off: int, busy: bool, mem: Memory)
  datatype Receiver = Receiver(buf: seq<Byte>, off: int, mem: Memory)

  /** `sent` and `got` are histories: what was enqueued, what was completed. */
  datatype Stream = Stream(snd: Sender, wire: seq<Byte>, rcv: Receiver, sent: seq<Frame>, got: seq<Frame>)

  datatype Step =
    | Enqueue(msg: NetMsg)            // AsyncSendMsg
    | FdOut(io1: Io, io2: Io)         // one OUT event of the sending socket
    | FdIn(io1: Io, io2: Io)          // one IN event of the receiving socket
    | SenderWrites(at: int, b: Byte)  // the user changes source memory
    | ReceiverWrites(at: int, b: Byte)

  predicate Inside(at: int, base: int, n: int) {
    base <= at < base + n
  }

  ghost predicate Enabled(s: Stream, where: int -> int, step: Step)
    requires |s.snd.buf| == BUFFER_SIZE && |s.rcv.buf| == BUFFER_SIZE
  {
    match step
    case Enqueue(m) => Sound(m)
    case SenderWrites(at, _) =>
      // the source of a queued message is stable
      && (forall m :: m in s.snd.queue ==> !Inside(at, m.src, Payload(m)))
      && (s.snd.busy ==> var m := Decode(s.snd.buf); !Inside(at, m.src, Payload(m)))
    case ReceiverWrites(at, _) =>
      // nobody overwrites the part of a payload that has just arrived
      s.rcv.off > HEADER ==> !Inside(at, where(Decode(s.rcv.buf).dst), s.rcv.off - HEADER)
    case _ => true
  }

  /** DequeueNetMsgToBuf, when out_buf is free and the queue is not empty. */
  function Dequeue(p: Sender): Sender
    requires p.queue != [] && Representable(p.queue[0]) && |p.buf| == BUFFER_SIZE
  {
    p.(queue := p.queue[1..], buf := Put(p.buf, 0, Encode(p.queue[0])), off := 0, busy := true)
  }

  predicate Shaped(s: Stream) {
    && |s.snd.buf| == BUFFER_SIZE && |s.rcv.buf| == BUFFER_SIZE && IsInt(s.snd.off) && IsInt(s.rcv.off)
    && forall i :: 0 <= i < |s.snd.queue| ==> Representable(s.snd.queue[i])
  }

  function Do(s: Stream, where: int -> int, step: Step): (t: Stream)
    requires Shaped(s)
  {
    match step
    case Enqueue(m) =>
      s.(snd := s.snd.(queue := s.snd.queue + [m]), sent := s.sent + [Frame(m, Region(s.snd.mem, m.src, Payload(m)))])
    case FdOut(io1, io2) =>
      if !s.snd.busy && s.snd.queue == [] then s
      else
        var p := if s.snd.busy then s.snd else Dequeue(s.snd);
        var r := SendRaw(p.buf, p.off, p.mem, io1, io2);
        s.(snd := p.(off := r.offset, busy := r.outcome != Complete), wire := s.wire + r.bytes)
    case FdIn(io1, io2) =>
      var r := RecvRaw(s.rcv.buf, s.rcv.off, s.rcv.mem, where, s.wire, io1, io2);
      var m := Decode(r.buf);
      s.(rcv := Receiver(r.buf, r.offset, r.mem), wire := s.wire[r.taken..],
         got := if r.outcome == Complete then s.got + [Frame(m, Region(r.mem, where(m.dst), Payload(m)))] else s.got)
    case SenderWrites(at, b) => s.(snd := s.snd.(mem := Store(s.snd.mem, at, [b])))
    case ReceiverWrites(at, b) => s.(rcv := s.rcv.(mem := Store(s.rcv.mem, at, [b])))
  }

  predicate Initial(s: Stream) {
    && Shaped(s) && s.snd.queue == [] && !s.snd.busy && s.wire == [] && s.rcv.off == 0 && s.sent == [] && s.got == []
  }

  // ---- The invariant ----

  function Flat(fs: seq<Frame>): (s: seq<Byte>)
    requires forall i :: 0 <= i < |fs| ==> Good(fs[i])
  {
    if fs == [] then [] else Flat(fs[..|fs| - 1]) + Bytes(fs[|fs| - 1])
  }

  /** The frames whose last byte is on the wire. */
  function Written(s: Stream): int {
    |s.sent| - |s.snd.queue| - if s.snd.busy then 1 else 0
  }

  predicate AllGood(fs: seq<Frame>) {
    forall i :: 0 <= i < |fs| ==> Good(fs[i])
  }

  /** The first n frames, and `off` bytes of the next one. */
  function Upto(fs: seq<Frame>, n: nat, off: int): seq<Byte>
    requires AllGood(fs) && n <= |fs| && 0 <= off && (off > 0 ==> n < |fs| && off <= Total(fs[n].msg))
  {
    Flat(fs[..n]) + if off > 0 then Bytes(fs[n])[..off] else []
  }

  predicate SenderInv(s: Stream)
    requires Shaped(s)
  {
    var k := Written(s);
    && AllGood(s.sent) && 0 <= k
    && (forall i :: 0 <= i < |s.snd.queue| ==> s.snd.queue[i] == s.sent[|s.sent| - |s.snd.queue| + i].msg)
    && (s.snd.busy ==> s.snd.buf[..HEADER] == Encode(s.sent[k].msg) && 0 <= s.snd.off < Total(s.sent[k].msg))
    && (forall i :: k <= i < |s.sent| ==>
          Region(s.snd.mem, s.sent[i].msg.src, Payload(s.sent[i].msg)) == s.sent[i].payload)
  }

  predicate ReceiverInv(s: Stream, where: int -> int)
    requires Shaped(s) && AllGood(s.sent)
  {
    var j := |s.got|;
    && j <= |s.sent| && s.got == s.sent[..j] && 0 <= s.rcv.off
    && (s.rcv.off > 0 ==> j < |s.sent| && s.rcv.off < Total(s.sent[j].msg)
                          && Arrived(s.sent[j].msg, s.sent[j].payload, s.rcv.buf, s.rcv.mem, where, s.rcv.off))
  }

  /** Bytes consumed, then bytes in flight, are the bytes written: all complete
      frames and the first out_offset bytes of the current one. */
  predicate Inv(s: Stream, where: int -> int) {
    && Shaped(s) && SenderInv(s) && ReceiverInv(s, where)
    && Upto(s.sent, |s.got|, s.rcv.off) + s.wire == Upto(s.sent, Written(s), if s.snd.busy then s.snd.off else 0)
  }

  lemma {:induction false} FlatPrefix(fs: seq<Frame>, n: nat)
    requires AllGood(fs) && n <= |fs|
    ensures Flat(fs[..n]) <= Flat(fs)
    ensures n < |fs| ==> Flat(fs[..n]) + Bytes(fs[n]) <= Flat(fs)
    ensures |Flat(fs)| >= |Flat(fs[..n])| + HEADER * (|fs| - n)
  {
    if n == |fs| {
      assert fs[..n] == fs;
    } else {
      var init := fs[..|fs| - 1];
      FlatPrefix(init, n);
      assert init[..n] == fs[..n];
      if n == |fs| - 1 {
        assert fs[..n] == init;
      }
    }
  }

  lemma UptoPrefix(fs: seq<Frame>, n: nat, off: int)
    requires AllGood(fs) && n <= |fs| && 0 <= off && (off > 0 ==> n < |fs| && off <= Total(fs[n].msg))
    ensures Upto(fs, n, off) <= Flat(fs)
  {
    FlatPrefix(fs, n);
    if off > 0 {
      hide Flat, Bytes;
      PrefixOfPrefix(Flat(fs[..n]), Bytes(fs[n]), off, Flat(fs));
    }
  }

  lemma PrefixOfPrefix(a: seq<Byte>, b: seq<Byte>, n: nat, all: seq<Byte>)
    requires n <= |b| && a + b <= all
    ensures a + b[..n] <= all
  {
    assert a + b == (a + b[..n]) + b[n..];
  }

  lemma UptoWhole(fs: seq<Frame>, n: nat)
    requires AllGood(fs) && n < |fs|
    ensures Upto(fs, n, Total(fs[n].msg)) == Upto(fs, n + 1, 0)
  {
    assert fs[..n + 1][..n] == fs[..n];
    assert Bytes(fs[n])[..Total(fs[n].msg)] == Bytes(fs[n]);
  }

  lemma UptoExtends(fs: seq<Frame>, n: nat, off: int, next: int)
    requires AllGood(fs) && n < |fs| && 0 <= off <= next <= Total(fs[n].msg)
    ensures Upto(fs, n, next) == Upto(fs, n, off) + Bytes(fs[n])[off..next]
  {
    var b := Bytes(fs[n]);
    assert b[..next] == b[..off] + b[off..next];
  }

  lemma UptoAppend(fs: seq<Frame>, f: Frame, n: nat, off: int)
    requires AllGood(fs) && Good(f) && n <= |fs| && 0 <= off && (off > 0 ==> n < |fs| && off <= Total(fs[n].msg))
    ensures AllGood(fs + [f]) && Upto(fs + [f], n, off) == Upto(fs, n, off)
  {
    assert (fs + [f])[..n] == fs[..n];
  }

  /** Two prefixes of the same bytes: one continues the other. */
  lemma Comparable(all: seq<Byte>, base: seq<Byte>, x: seq<Byte>, y: seq<Byte>)
    requires base + x <= all && base + y <= all
    ensures x <= y || y <= x
  {
    assert x == all[|base|..|base| + |x|] by { assert x == (base + x)[|base|..]; }
    assert y == all[|base|..|base| + |y|] by { assert y == (base + y)[|base|..]; }
  }

  // ---- Steps ----

  lemma EnqueueKeeps(s: Stream, where: int -> int, m: NetMsg)
    requires Inv(s, where) && Sound(m)
    ensures Inv(Do(s, where, Enqueue(m)), where)
  {
    hide Flat, Encode;
    var f := Frame(m, Region(s.snd.mem, m.src, Payload(m)));
    UptoAppend(s.sent, f, |s.got|, s.rcv.off);
    UptoAppend(s.sent, f, Written(s), if s.snd.busy then s.snd.off else 0);
    assert (s.sent + [f])[..|s.got|] == s.sent[..|s.got|];
  }

  lemma DequeueKeeps(s: Stream, where: int -> int)
    requires Inv(s, where) && !s.snd.busy && s.snd.queue != []
    ensures Inv(s.(snd := Dequeue(s.snd)), where)
  {
    var p := Dequeue(s.snd);
    assert p.buf[..HEADER] == Encode(s.snd.queue[0]);
  }

  lemma SendRawHeaderOnly(m: NetMsg, buf: seq<Byte>, off: int, mem: Memory, io1: Io, io2: Io)
    requires Representable(m) && |buf| >= HEADER && buf[..HEADER] == Encode(m) && IsInt(off)
    ensures SendRaw(buf, off, mem, io1, io2) == SendRaw(Encode(m), off, mem, io1, io2)
  {
    HeaderKnown(m, buf);
    DecodeEncode(m);
    assert forall i :: 0 <= i < HEADER ==> buf[i] == buf[..HEADER][i] == Encode(m)[i];
    if 0 <= off < HEADER {
      var n := Moved(io1, HEADER - off);
      assert buf[off..off + n] == Encode(m)[off..off + n];
    }
  }

  lemma SendKeeps(s: Stream, where: int -> int, io1: Io, io2: Io)
    requires Inv(s, where) && s.snd.busy
    ensures Inv(Do(s, where, FdOut(io1, io2)), where)
  {
    hide Encode, SendRaw, Region, Flat;
    var k := Written(s);
    var f := s.sent[k];
    var t := Do(s, where, FdOut(io1, io2));
    SendRawHeaderOnly(f.msg, s.snd.buf, s.snd.off, s.snd.mem, io1, io2);
    SendRawStep(f.msg, s.snd.off, s.snd.mem, io1, io2);
    var r := SendRaw(s.snd.buf, s.snd.off, s.snd.mem, io1, io2);
    assert FrameBytes(f.msg, s.snd.mem) == Bytes(f);
    UptoExtends(s.sent, k, s.snd.off, r.offset);
    if r.outcome == Complete {
      UptoWhole(s.sent, k);
    }
    var c := Upto(s.sent, |s.got|, s.rcv.off);
    assert c + t.wire == c + s.wire + r.bytes;
  }

  /** While bytes are in flight, they start with the rest of the frame the receiver is in. */
  lemma WireFollows(s: Stream, where: int -> int)
    requires Inv(s, where)
    ensures |s.got| == |s.sent| ==> s.wire == [] && s.rcv.off == 0
    ensures |s.got| < |s.sent| ==>
              var rest := Bytes(s.sent[|s.got|])[s.rcv.off..];
              s.wire <= rest || rest <= s.wire
  {
    var j, off := |s.got|, s.rcv.off;
    var all := Flat(s.sent);
    UptoPrefix(s.sent, Written(s), if s.snd.busy then s.snd.off else 0);
    if j == |s.sent| {
      assert s.sent[..j] == s.sent;
    } else {
      var b := Bytes(s.sent[j]);
      FlatPrefix(s.sent, j);
      UptoExtends(s.sent, j, off, |b|);
      UptoWhole(s.sent, j);
      UptoPrefix(s.sent, j + 1, 0);
      assert b[off..|b|] == b[off..];
      Comparable(all, Upto(s.sent, j, off), s.wire, b[off..]);
    }
  }

  lemma RecvNothing(buf: seq<Byte>, mem: Memory, where: int -> int, io1: Io, io2: Io)
    requires |buf| >= HEADER
    ensures var r := RecvRaw(buf, 0, mem, where, [], io1, io2);
            r.outcome != Complete && r.offset == 0 && r.taken == 0 && r.buf == buf
  {
    assert Put(buf, 0, []) == buf;
  }

  lemma RecvKeeps(s: Stream, where: int -> int, io1: Io, io2: Io)
    requires Inv(s, where)
    ensures Inv(Do(s, where, FdIn(io1, io2)), where)
  {
    var j, off := |s.got|, s.rcv.off;
    WireFollows(s, where);
    if j == |s.sent| {
      RecvNothing(s.rcv.buf, s.rcv.mem, where, io1, io2);
      assert s.wire[0..] == s.wire;
    } else {
      RecvFrame(s, where, io1, io2);
    }
  }

  lemma RecvFrame(s: Stream, where: int -> int, io1: Io, io2: Io)
    requires Inv(s, where) && |s.got| < |s.sent|
    requires var rest := Bytes(s.sent[|s.got|])[s.rcv.off..]; s.wire <= rest || rest <= s.wire
    ensures Inv(Do(s, where, FdIn(io1, io2)), where)
  {
    hide Encode, RecvRaw, Region, Upto, Arrived, Decode;
    var j, off := |s.got|, s.rcv.off;
    var f := s.sent[j];
    assert Arrived(f.msg, f.payload, s.rcv.buf, s.rcv.mem, where, off) by {
      if off == 0 {
        ArrivedNothing(f, s.rcv, where);
      }
    }
    RecvRawStep(f.msg, f.payload, s.rcv.buf, off, s.rcv.mem, where, s.wire, io1, io2);
    var r := RecvRaw(s.rcv.buf, off, s.rcv.mem, where, s.wire, io1, io2);
    Consume(s.sent, j, off, s.wire, r.taken);
    if r.outcome == Complete {
      CompletedFrame(f, r, where);
      assert s.sent[..j + 1] == s.sent[..j] + [f];
    }
  }

  lemma ArrivedNothing(f: Frame, r: Receiver, where: int -> int)
    requires Good(f) && |r.buf| >= HEADER
    ensures Arrived(f.msg, f.payload, r.buf, r.mem, where, 0)
  {
  }

  lemma Consume(fs: seq<Frame>, j: nat, off: int, wire: seq<Byte>, n: nat)
    requires AllGood(fs) && j < |fs| && 0 <= off && off + n <= Total(fs[j].msg) && n <= |wire|
    requires var rest := Bytes(fs[j])[off..]; wire <= rest || rest <= wire
    ensures Upto(fs, j, off) + wire == Upto(fs, j, off + n) + wire[n..]
    ensures off + n == Total(fs[j].msg) ==> Upto(fs, j, off) + wire == Upto(fs, j + 1, 0) + wire[n..]
  {
    hide Encode, Flat, Upto;
    UptoExtends(fs, j, off, off + n);
    UptoWhole(fs, j);
    assert wire[..n] == Bytes(fs[j])[off..off + n];
    assert wire == wire[..n] + wire[n..];
  }

  /** What ExtractNetMsg and the destination region then show is the frame that was sent. */
  lemma CompletedFrame(f: Frame, r: Received, where: int -> int)
    requires Good(f) && |r.buf| >= HEADER
    requires Arrived(f.msg, f.payload, r.buf, r.mem, where, Total(f.msg))
    ensures var m := Decode(r.buf); Frame(m, Region(r.mem, where(m.dst), Payload(m))) == f
  {
    assert r.buf[..HEADER] == Encode(f.msg);
    HeaderKnown(f.msg, r.buf);
    assert Total(f.msg) == HEADER ==> f.payload == [];
    assert f.payload[..|f.payload|] == f.payload;
  }

  lemma StoreOutside(mem: Memory, at: int, b: Byte, base: int, n: int)
    requires !Inside(at, base, n)
    ensures Region(Store(mem, at, [b]), base, n) == Region(mem, base, n)
  {
  }

  lemma SenderWriteKeeps(s: Stream, where: int -> int, at: int, b: Byte)
    requires Inv(s, where) && Enabled(s, where, SenderWrites(at, b))
    ensures Inv(Do(s, where, SenderWrites(at, b)), where)
  {
    hide Encode, Upto, Store, Region;
    var k := Written(s);
    forall i | k <= i < |s.sent|
      ensures Region(Store(s.snd.mem, at, [b]), s.sent[i].msg.src, Payload(s.sent[i].msg)) == s.sent[i].payload
    {
      var m := s.sent[i].msg;
      if s.snd.busy && i == k {
        HeaderKnown(m, s.snd.buf);
      } else {
        assert s.snd.queue[i - (|s.sent| - |s.snd.queue|)] == m;
      }
      StoreOutside(s.snd.mem, at, b, m.src, Payload(m));
    }
  }

  lemma ReceiverWriteKeeps(s: Stream, where: int -> int, at: int, b: Byte)
    requires Inv(s, where) && Enabled(s, where, ReceiverWrites(at, b))
    ensures Inv(Do(s, where, ReceiverWrites(at, b)), where)
  {
    hide Encode, Upto, Store, Region;
    if s.rcv.off > HEADER {
      var m := s.sent[|s.got|].msg;
      HeaderKnown(m, s.rcv.buf);
      StoreOutside(s.rcv.mem, at, b, where(m.dst), s.rcv.off - HEADER);
    }
  }

  lemma StepKeeps(s: Stream, where: int -> int, step: Step)
    requires Inv(s, where) && Enabled(s, where, step)
    ensures Inv(Do(s, where, step), where)
  {
    match step
    case Enqueue(m) => EnqueueKeeps(s, where, m);
    case FdOut(io1, io2) =>
      if s.snd.busy {
        SendKeeps(s, where, io1, io2);
      } else if s.snd.queue != [] {
        DequeueKeeps(s, where);
        var d := s.(snd := Dequeue(s.snd));
        SendKeeps(d, where, io1, io2);
      }
    case FdIn(io1, io2) => RecvKeeps(s, where, io1, io2);
    case SenderWrites(at, b) => SenderWriteKeeps(s, where, at, b);
    case ReceiverWrites(at, b) => ReceiverWriteKeeps(s, where, at, b);
  }

  // ---- Runs ----

  ghost predicate Valid(s: Stream, where: int -> int, steps: seq<Step>)
    decreases |steps|
  {
    Shaped(s) && (steps == [] || (Enabled(s, where, steps[0]) && Valid(Do(s, where, steps[0]), where, steps[1..])))
  }

  ghost function Final(s: Stream, where: int -> int, steps: seq<Step>): Stream
    requires Valid(s, where, steps)
    decreases |steps|
  {
    if steps == [] then s else Final(Do(s, where, steps[0]), where, steps[1..])
  }

  lemma {:induction false} RunKeeps(s: Stream, where: int -> int, steps: seq<Step>)
    requires Inv(s, where) && Valid(s, where, steps)
    ensures Inv(Final(s, where, steps), where)
    decreases |steps|
  {
    hide Inv, Do;
    if steps != [] {
      StepKeeps(s, where, steps[0]);
      RunKeeps(Do(s, where, steps[0]), where, steps[1..]);
    }
  }

  /** What was put into the stream, told from the steps alone: each message that was
      queued, with what its source region held at that moment. */
  ghost function PutIn(mem: Memory, steps: seq<Step>): seq<Frame> {
    if steps == [] then []
    else
      match steps[0]
      case Enqueue(m) => [Frame(m, Region(mem, m.src, Payload(m)))] + PutIn(mem, steps[1..])
      case SenderWrites(at, b) => PutIn(Store(mem, at, [b]), steps[1..])
      case _ => PutIn(mem, steps[1..])
  }

  lemma StepPuts(s: Stream, where: int -> int, step: Step)
    requires Shaped(s)
    ensures Do(s, where, step).sent == s.sent + PutIn(s.snd.mem, [step])
    ensures Do(s, where, step).snd.mem == if step.SenderWrites? then Store(s.snd.mem, step.at, [step.b]) else s.snd.mem
  {
    hide SendRaw, RecvRaw, Region, Store;
  }

  lemma {:induction false} RunPuts(s: Stream, where: int -> int, steps: seq<Step>)
    requires Valid(s, where, steps)
    ensures Final(s, where, steps).sent == s.sent + PutIn(s.snd.mem, steps)
    decreases |steps|
  {
    hide Do, Region, Store;
    if steps != [] {
      var t := Do(s, where, steps[0]);
      StepPuts(s, where, steps[0]);
      RunPuts(t, where, steps[1..]);
      assert s.sent + PutIn(s.snd.mem, steps) == (s.sent + PutIn(s.snd.mem, [steps[0]])) + PutIn(t.snd.mem, steps[1..]);
    }
  }

  /** In order, whole, and nothing invented: over every schedule the completed
      (header, payload) pairs are a prefix of the messages queued; and once nothing
      is queued, in out_buf, on the wire or half received, they are all of them. */
  lemma EndToEnd(s: Stream, where: int -> int, steps: seq<Step>)
    requires Initial(s) && Valid(s, where, steps)
    ensures var t, all := Final(s, where, steps), PutIn(s.snd.mem, steps);
            && t.got <= all
            && (t.snd.queue == [] && !t.snd.busy && t.wire == [] && t.rcv.off == 0 ==> t.got == all)
  {
    hide Valid, Final, Encode, Do;
    InitialOk(s, where);
    RunPuts(s, where, steps);
    RunKeeps(s, where, steps);
    var t := Final(s, where, steps);
    FlatPrefix(t.sent, |t.got|);
    assert t.sent[..|t.sent|] == t.sent;
  }

  lemma {:induction false} FlatGrows(fs: seq<Frame>, n: nat, m: nat)
    requires AllGood(fs) && n < m <= |fs|
    ensures |Flat(fs[..m])| >= |Flat(fs[..n])| + Total(fs[n].msg)
  {
    FlatPrefix(fs[..m], n);
    assert fs[..m][..n] == fs[..n];
    hide Flat, Bytes;
  }

  /** What has been completed has been written, and is all of it when nothing is on the way. */
  lemma GotIsWritten(s: Stream, where: int -> int)
    requires Inv(s, where)
    ensures |s.got| <= Written(s)
    ensures s.wire == [] && s.rcv.off == 0 ==> |s.got| == Written(s)
  {
    var j, k := |s.got|, Written(s);
    var n := if s.snd.busy then s.snd.off else 0;
    assert |Upto(s.sent, j, s.rcv.off)| + |s.wire| == |Upto(s.sent, k, n)|;
    if j > k {
      FlatGrows(s.sent, k, j);
    } else if j < k {
      FlatGrows(s.sent, j, k);
    }
    hide Flat, Bytes, Encode, Region;
  }

  lemma InitialOk(s: Stream, where: int -> int)
    requires Initial(s)
    ensures Inv(s, where)
  {
    assert s.sent[..0] == [];
  }

  // ---- Progress ----

  /** The call takes or brings everything it is asked for. */
  predicate Whole(io: Io) {
    io.Count? && io.n >= MAX_INT
  }

  /** An OUT event whose writes are whole puts the rest of a frame on the wire, that of
      the frame in out_buf or else all of the next one. */
  lemma OutCompletes(s: Stream, where: int -> int, io1: Io, io2: Io)
    requires Inv(s, where) && (s.snd.busy || s.snd.queue != []) && Whole(io1) && Whole(io2)
    ensures var t, k := Do(s, where, FdOut(io1, io2)), Written(s);
            && Inv(t, where) && !t.snd.busy && Written(t) == k + 1 && t.sent == s.sent && t.got == s.got
            && t.rcv == s.rcv && t.snd.mem == s.snd.mem
            && t.wire == s.wire + Bytes(s.sent[k])[if s.snd.busy then s.snd.off else 0..]
  {
    StepKeeps(s, where, FdOut(io1, io2));
    if s.snd.busy {
      BusyCompletes(s, where, io1, io2);
    } else {
      DequeueKeeps(s, where);
      BusyCompletes(s.(snd := Dequeue(s.snd)), where, io1, io2);
    }
    hide Inv, SendRaw;
  }

  lemma BusyCompletes(s: Stream, where: int -> int, io1: Io, io2: Io)
    requires Inv(s, where) && s.snd.busy && Whole(io1) && Whole(io2)
    ensures var t, k := Do(s, where, FdOut(io1, io2)), Written(s);
            && !t.snd.busy && t.snd.queue == s.snd.queue
            && t.wire == s.wire + Bytes(s.sent[k])[s.snd.off..]
  {
    hide Encode, SendRaw, Region, Flat;
    var f := s.sent[Written(s)];
    SendRawHeaderOnly(f.msg, s.snd.buf, s.snd.off, s.snd.mem, io1, io2);
    SendRawStep(f.msg, s.snd.off, s.snd.mem, io1, io2);
    SendRawCount(f.msg, s.snd.off, s.snd.mem, io1, io2);
    assert FrameBytes(f.msg, s.snd.mem) == Bytes(f);
    assert Bytes(f)[s.snd.off..Total(f.msg)] == Bytes(f)[s.snd.off..];
  }

  /** An IN event whose reads are whole, with the rest of the frame at hand, completes
      the frame and leaves the wire to the next one. */
  lemma InCompletes(s: Stream, where: int -> int, io1: Io, io2: Io)
    requires Inv(s, where) && |s.got| < |s.sent| && Whole(io1) && Whole(io2)
    requires Bytes(s.sent[|s.got|])[s.rcv.off..] <= s.wire
    ensures var t, rest := Do(s, where, FdIn(io1, io2)), Bytes(s.sent[|s.got|])[s.rcv.off..];
            && Inv(t, where) && t.got == s.got + [s.sent[|s.got|]] && t.rcv.off == 0 && t.wire == s.wire[|rest|..]
            && t.snd == s.snd && t.sent == s.sent
  {
    StepKeeps(s, where, FdIn(io1, io2));
    InTakes(s, where, io1, io2);
    var t, j := Do(s, where, FdIn(io1, io2)), |s.got|;
    hide RecvRaw, SenderInv, Bytes, Upto, Decode, Region;
    assert t.got == t.sent[..j + 1] && s.got == s.sent[..j] && t.sent == s.sent;
  }

  lemma InTakes(s: Stream, where: int -> int, io1: Io, io2: Io)
    requires Inv(s, where) && |s.got| < |s.sent| && Whole(io1) && Whole(io2)
    requires Bytes(s.sent[|s.got|])[s.rcv.off..] <= s.wire
    ensures var r := RecvRaw(s.rcv.buf, s.rcv.off, s.rcv.mem, where, s.wire, io1, io2);
            && r.outcome == Complete && r.offset == 0 && r.taken == Total(s.sent[|s.got|].msg) - s.rcv.off
  {
    hide Encode, RecvRaw, Region, Upto, Arrived, Decode, Flat;
    var f := s.sent[|s.got|];
    assert Arrived(f.msg, f.payload, s.rcv.buf, s.rcv.mem, where, s.rcv.off) by {
      if s.rcv.off == 0 {
        ArrivedNothing(f, s.rcv, where);
      }
    }
    RecvRawStep(f.msg, f.payload, s.rcv.buf, s.rcv.off, s.rcv.mem, where, s.wire, io1, io2);
    RecvRawCount(f.msg, f.payload, s.rcv.buf, s.rcv.off, s.rcv.mem, where, s.wire, io1, io2);
  }

  /** Once everything is written, the wire holds the rest of the frame the receiver is in. */
  lemma WireHoldsRest(s: Stream, where: int -> int)
    requires Inv(s, where) && !s.snd.busy && s.snd.queue == [] && |s.got| < |s.sent|
    ensures Bytes(s.sent[|s.got|])[s.rcv.off..] <= s.wire
  {
    var j, off := |s.got|, s.rcv.off;
    var b := Bytes(s.sent[j]);
    WireFollows(s, where);
    assert s.sent[..|s.sent|] == s.sent;
    assert Upto(s.sent, j, off) + s.wire == Flat(s.sent);
    UptoExtends(s.sent, j, off, |b|);
    UptoWhole(s.sent, j);
    UptoPrefix(s.sent, j + 1, 0);
    assert b[off..|b|] == b[off..];
    hide Inv, Flat, Upto, Bytes;
    assert |Upto(s.sent, j, off) + b[off..]| <= |Upto(s.sent, j, off) + s.wire|;
  }

  predicate Moves(steps: seq<Step>) {
    forall i :: 0 <= i < |steps| ==> steps[i].FdOut? || steps[i].FdIn?
  }

  const EVERYTHING: Io := Count(MAX_INT)

  lemma Precede(s: Stream, where: int -> int, step: Step, rest: seq<Step>)
    requires Shaped(s) && Enabled(s, where, step) && Valid(Do(s, where, step), where, rest) && Moves(rest)
    requires step.FdOut? || step.FdIn?
    ensures var steps := [step] + rest;
            Valid(s, where, steps) && Final(s, where, steps) == Final(Do(s, where, step), where, rest) && Moves(steps)
  {
    hide Do;
    assert ([step] + rest)[1..] == rest;
  }

  /** Nothing gets stuck: whatever has happened to a stream, one OUT event per frame
      that is not out yet and then one IN event per frame that is not complete yet
      deliver everything, if their system calls move all they are asked for. */
  lemma {:induction false} CanDeliver(s: Stream, where: int -> int) returns (steps: seq<Step>)
    requires Inv(s, where)
    ensures Valid(s, where, steps) && Moves(steps)
    ensures |steps| == (|s.sent| - Written(s)) + (|s.sent| - |s.got|)
    ensures Final(s, where, steps).got == s.sent && Final(s, where, steps).wire == []
    decreases |s.sent| - Written(s), |s.sent| - |s.got|
  {
    Bounds(s, where);
    if s.snd.busy || s.snd.queue != [] {
      OutCompletes(s, where, EVERYTHING, EVERYTHING);
      hide Inv, Do, Written, Valid, Final;
      steps := CanDeliver(Do(s, where, FdOut(EVERYTHING, EVERYTHING)), where);
      Precede(s, where, FdOut(EVERYTHING, EVERYTHING), steps);
      steps := [FdOut(EVERYTHING, EVERYTHING)] + steps;
    } else if |s.got| < |s.sent| {
      WireHoldsRest(s, where);
      InCompletes(s, where, EVERYTHING, EVERYTHING);
      hide Inv, Do, Valid, Final;
      steps := CanDeliver(Do(s, where, FdIn(EVERYTHING, EVERYTHING)), where);
      Precede(s, where, FdIn(EVERYTHING, EVERYTHING), steps);
      steps := [FdIn(EVERYTHING, EVERYTHING)] + steps;
    } else {
      steps := [];
      WireFollows(s, where);
    }
  }

  lemma Bounds(s: Stream, where: int -> int)
    requires Inv(s, where)
    ensures Shaped(s) && Written(s) <= |s.sent| && |s.got| <= |s.sent|
    ensures |s.got| == |s.sent| ==> s.got == s.sent
    ensures s.snd.busy || s.snd.queue != [] ==> Written(s) < |s.sent|
  {
    hide Upto, Bytes;
  }
}
