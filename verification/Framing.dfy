/** Messages as bytes, and the resumable transfer of one frame (socket.cpp).

    A frame is the 32 bytes of a NetMsg followed, for a data message, by
    `data_len` bytes that stay where they are in the sender's memory.  SendRaw and
    RecvRaw move as many bytes as the kernel takes and remember an offset. */
module Framing {

  type Byte = x: int | 0 <= x < 256
  type Memory = int -> Byte

  const HEADER: int := 32
  const BUFFER_SIZE: int := 128
  const MAX_INT: int := 0x7fff_ffff
  const TWO_32: int := 0x1_0000_0000
  const TWO_64: int := 0x1_0000_0000_0000_0000
  const DATA_MSG: int := 1

  // ---- NetMsg ----

  /** The three unions are read as 64-bit integers: token or address, token or
      address, length or command. */
  datatype NetMsg = NetMsg(msgType: int, src: int, dst: int, extra: int)

  predicate IsInt64(x: int) {
    -(TWO_64 / 2) <= x < TWO_64 / 2
  }

  /** msg_type is a signed two-bit field. */
  predicate Representable(m: NetMsg) {
    -2 <= m.msgType < 2 && IsInt64(m.src) && IsInt64(m.dst) && IsInt64(m.extra)
  }

  function Payload(m: NetMsg): int {
    if m.msgType == DATA_MSG then m.extra else 0
  }

  /** total_msg_sz: an unsigned 64-bit sum stored in a signed integer. */
  function Total(m: NetMsg): int {
    var sum := HEADER + Payload(m);
    if sum < TWO_64 / 2 then sum else sum - TWO_64
  }

  function Digits(n: nat, k: nat): (s: seq<Byte>)
    ensures |s| == k
  {
    if k == 0 then [] else [n % 256] + Digits(n / 256, k - 1)
  }

  function Value(s: seq<Byte>): (n: nat) {
    if s == [] then 0 else s[0] + 256 * Value(s[1..])
  }

  function Power(k: nat): (p: nat)
    ensures p > 0
  {
    if k == 0 then 1 else 256 * Power(k - 1)
  }

  lemma {:induction false} ValueOfDigits(n: nat, k: nat)
    requires n < Power(k)
    ensures Value(Digits(n, k)) == n
  {
    if k > 0 {
      ValueOfDigits(n / 256, k - 1);
      assert Digits(n, k)[1..] == Digits(n / 256, k - 1);
    }
  }

  function Word(x: int): (s: seq<Byte>)
    requires IsInt64(x)
    ensures |s| == 8
  {
    Digits(if x < 0 then x + TWO_64 else x, 8)
  }

  function Int64(s: seq<Byte>): int {
    var n := Value(s);
    if n < TWO_64 / 2 then n else n - TWO_64
  }

  lemma WordRoundTrip(x: int)
    requires IsInt64(x)
    ensures Int64(Word(x)) == x
  {
    assert Power(2) == 0x1_0000;
    assert Power(4) == TWO_32;
    assert Power(6) == 0x1_0000_0000_0000;
    assert Power(8) == TWO_64;
    ValueOfDigits(if x < 0 then x + TWO_64 else x, 8);
  }

  /** The bytes of the struct: the two-bit field in the lowest bits, padding, three words. */
  function Encode(m: NetMsg): (s: seq<Byte>)
    requires Representable(m)
    ensures |s| == HEADER
  {
    [if m.msgType < 0 then m.msgType + 4 else m.msgType] + [0, 0, 0, 0, 0, 0, 0] + Word(m.src) + Word(m.dst)
        + Word(m.extra)
  }

  function Decode(s: seq<Byte>): (m: NetMsg)
    requires |s| >= HEADER
  {
    var t: int := s[0] % 4;
    NetMsg(if t < 2 then t else t - 4, Int64(s[8..16]), Int64(s[16..24]), Int64(s[24..32]))
  }

  /** Copying the struct out and back loses nothing. */
  lemma DecodeEncode(m: NetMsg)
    requires Representable(m)
    ensures Decode(Encode(m)) == m
  {
    var s := Encode(m);
    assert s[8..16] == Word(m.src) && s[16..24] == Word(m.dst) && s[24..32] == Word(m.extra);
    WordRoundTrip(m.src);
    WordRoundTrip(m.dst);
    WordRoundTrip(m.extra);
  }

  /** Where the struct keeps what, little-endian and in two's complement. */
  lemma Layout(m: NetMsg)
    requires Representable(m)
    ensures var s := Encode(m);
            && s[0] == m.msgType % 4 && Value(s[1..8]) == 0
            && Value(s[8..16]) == m.src % TWO_64 && Value(s[16..24]) == m.dst % TWO_64
            && Value(s[24..32]) == m.extra % TWO_64
  {
    var s := Encode(m);
    assert s[1..8] == [0, 0, 0, 0, 0, 0, 0];
    assert s[8..16] == Word(m.src) && s[16..24] == Word(m.dst) && s[24..32] == Word(m.extra);
    WordValue(m.src);
    WordValue(m.dst);
    WordValue(m.extra);
    Zeros();
  }

  lemma Zeros()
    ensures Value([0, 0, 0, 0, 0, 0, 0]) == 0
  {
    assert [0, 0, 0, 0, 0, 0, 0][1..] == [0, 0, 0, 0, 0, 0];
    assert [0, 0, 0, 0, 0, 0][1..] == [0, 0, 0, 0, 0];
    assert [0, 0, 0, 0, 0][1..] == [0, 0, 0, 0];
    assert [0, 0, 0, 0][1..] == [0, 0, 0];
    assert [0, 0, 0][1..] == [0, 0];
    assert [0, 0][1..] == [0];
    assert [0][1..] == [];
  }

  lemma WordValue(x: int)
    requires IsInt64(x)
    ensures Value(Word(x)) == x % TWO_64
  {
    assert Power(2) == 0x1_0000;
    assert Power(4) == TWO_32;
    assert Power(6) == 0x1_0000_0000_0000;
    assert Power(8) == TWO_64;
    ValueOfDigits(if x < 0 then x + TWO_64 else x, 8);
  }

  lemma RegionPrefix(mem: Memory, address: int, n: nat, k: nat)
    requires k <= n
    ensures Region(mem, address, n)[..k] == Region(mem, address, k)
  {
  }

  function Region(mem: Memory, address: int, n: int): (s: seq<Byte>)
    ensures |s| == if n < 0 then 0 else n
  {
    seq(if n < 0 then 0 else n, i => mem(address + i))
  }

  /** What the wire should carry for message m while the sender's memory is mem. */
  function FrameBytes(m: NetMsg, mem: Memory): (s: seq<Byte>)
    requires Representable(m)
    ensures |s| == HEADER + if Payload(m) < 0 then 0 else Payload(m)
  {
    Encode(m) + Region(mem, m.src, Payload(m))
  }

  // ---- One system call ----

  /** The kernel's reaction to a read or write: it takes some of the bytes, or
      reports that it would block, or reports any other error. */
  datatype Io = Count(n: nat) | Again | Reset

  function Moved(io: Io, asked: nat): (n: nat)
    ensures n <= asked
  {
    if io.Count? then (if io.n <= asked then io.n else asked) else 0
  }

  datatype Outcome = Complete | WouldBlock | ConnReset

  predicate IsInt(x: int) {
    -MAX_INT - 1 <= x <= MAX_INT
  }

  /** An int comparison against a size_t. */
  function AsSize(x: int): int {
    if x < 0 then x + TWO_64 else x
  }

  /** Storing a 64-bit sum in an int. */
  function Wrap(x: int): (w: int)
    ensures IsInt(w) && (IsInt(x) ==> w == x)
  {
    var r := x % TWO_32;
    if r <= MAX_INT then r else r - TWO_32
  }

  // ---- SendRaw ----

  datatype Sent = Sent(outcome: Outcome, offset: int, bytes: seq<Byte>)

  /** SendRaw from out_offset `off` with `buf` in out_buf: first the rest of the
      header, then the rest of the payload, one write each. */
  function SendRaw(buf: seq<Byte>, off: int, mem: Memory, io1: Io, io2: Io): (r: Sent)
    requires |buf| >= HEADER && IsInt(off)
    ensures IsInt(r.offset)
  {
    if AsSize(off) < HEADER then
      if io1 == Reset then Sent(ConnReset, off, [])
      else
        var n := Moved(io1, HEADER - off);
        SendPayload(Decode(buf), Wrap(off + n), mem, io2, buf[off..off + n])
    else
      SendPayload(Decode(buf), off, mem, io2, [])
  }

  function SendPayload(m: NetMsg, off: int, mem: Memory, io: Io, before: seq<Byte>): (r: Sent)
    requires IsInt(off)
    ensures IsInt(r.offset)
  {
    if AsSize(off) >= HEADER && off < Total(m) then
      if io == Reset then Sent(ConnReset, off, before)
      else
        var n := Moved(io, Total(m) - off);
        SendEnd(m, Wrap(off + n), before + Region(mem, m.src + off - HEADER, n))
    else SendEnd(m, off, before)
  }

  function SendEnd(m: NetMsg, off: int, bytes: seq<Byte>): Sent {
    Sent(if off < Total(m) then WouldBlock else Complete, off, bytes)
  }

  /** The lengths for which the offsets work: not negative, and the frame fits an int. */
  predicate Sound(m: NetMsg) {
    Representable(m) && 0 <= Payload(m) && HEADER + Payload(m) <= MAX_INT
  }

  /** One call of SendRaw on a sound message: it writes exactly the bytes of the
      frame between the old offset and the new one, never leaves the frame, and
      reports completion exactly at the end. */
  lemma SendRawStep(m: NetMsg, off: int, mem: Memory, io1: Io, io2: Io)
    requires Sound(m) && 0 <= off < Total(m)
    ensures var r := SendRaw(Encode(m), off, mem, io1, io2);
            && off <= r.offset <= Total(m)
            && r.bytes == FrameBytes(m, mem)[off..r.offset]
            && (r.outcome == Complete <==> r.offset == Total(m))
  {
    DecodeEncode(m);
    var f := FrameBytes(m, mem);
    if off >= HEADER {
      SendPayloadStep(m, off, off, mem, io2, []);
    } else if io1 != Reset {
      var mid := off + Moved(io1, HEADER - off);
      assert Encode(m)[off..mid] == f[off..mid];
      SendPayloadStep(m, off, mid, mem, io2, Encode(m)[off..mid]);
    }
  }

  lemma SendPayloadStep(m: NetMsg, start: int, off: int, mem: Memory, io: Io, before: seq<Byte>)
    requires Sound(m) && 0 <= start <= off <= Total(m)
    requires before == FrameBytes(m, mem)[start..off]
    ensures var r := SendPayload(m, off, mem, io, before);
            && off <= r.offset <= Total(m)
            && r.bytes == FrameBytes(m, mem)[start..r.offset]
            && (r.outcome == Complete <==> r.offset == Total(m))
  {
    var f, r := FrameBytes(m, mem), SendPayload(m, off, mem, io, before);
    if off >= HEADER && off < Total(m) && io != Reset {
      assert f[off..r.offset] == Region(mem, m.src + off - HEADER, r.offset - off);
      assert f[start..r.offset] == f[start..off] + f[off..r.offset];
    }
  }

  /** How many of the missing bytes, of which so many are at hand, one call moves. */
  function Least(io: Io, missing: nat, available: nat): nat {
    var n := Moved(io, missing);
    if n <= available then n else available
  }

  function HeaderLeft(off: nat): nat {
    if off < HEADER then HEADER - off else 0
  }

  /** How far one call of SendRaw gets: as many bytes of the header as the first write
      takes and, once the header is out, in the same call as many bytes of the payload
      as the second one takes; a reset of a write that is made is reported. */
  lemma SendRawCount(m: NetMsg, off: int, mem: Memory, io1: Io, io2: Io)
    requires Sound(m) && 0 <= off < Total(m)
    ensures var r, head := SendRaw(Encode(m), off, mem, io1, io2), HeaderLeft(off);
            var n := Moved(io1, head);
            && r.offset == off + n + (if n == head then Moved(io2, Total(m) - off - n) else 0)
            && (r.outcome == ConnReset <==>
                (head > 0 && io1 == Reset) || (n == head && off + n < Total(m) && io2 == Reset))
  {
    DecodeEncode(m);
    hide Encode, Decode, Region;
  }

  /** Repeated calls from out_offset 0, until the frame completes, the
      connection is reset or the schedule ends. */
  function SendAll(m: NetMsg, off: int, mem: Memory, ios: seq<(Io, Io)>): Sent
    requires Representable(m) && IsInt(off)
    decreases |ios|
  {
    if ios == [] then Sent(WouldBlock, off, [])
    else
      var r := SendRaw(Encode(m), off, mem, ios[0].0, ios[0].1);
      if r.outcome != WouldBlock then r
      else
        var rest := SendAll(m, r.offset, mem, ios[1..]);
        rest.(bytes := r.bytes + rest.bytes)
  }

  /** Under this schedule the wire gets a prefix of the frame, and SendRaw says
      "complete" exactly when it got all of it. */
  predicate Exact(m: NetMsg, mem: Memory, ios: seq<(Io, Io)>)
    requires Representable(m)
  {
    var r := SendAll(m, 0, mem, ios);
    r.bytes <= FrameBytes(m, mem) && (r.outcome == Complete <==> r.bytes == FrameBytes(m, mem))
  }

  lemma {:induction false} SendAllExact(m: NetMsg, off: int, mem: Memory, ios: seq<(Io, Io)>)
    requires Sound(m) && 0 <= off < Total(m)
    ensures var r := SendAll(m, off, mem, ios);
            && off <= r.offset <= Total(m)
            && r.bytes == FrameBytes(m, mem)[off..r.offset]
            && (r.outcome == Complete <==> r.offset == Total(m))
    decreases |ios|
  {
    hide SendRaw, Encode, FrameBytes;
    if ios != [] {
      SendRawStep(m, off, mem, ios[0].0, ios[0].1);
      var r := SendRaw(Encode(m), off, mem, ios[0].0, ios[0].1);
      if r.outcome == WouldBlock {
        SendAllExact(m, r.offset, mem, ios[1..]);
        var f, last := FrameBytes(m, mem), SendAll(m, r.offset, mem, ios[1..]).offset;
        assert f[off..last] == f[off..r.offset] + f[r.offset..last];
      }
    }
  }

  /** Every schedule of short writes frames the message exactly if and only if
      its length is not negative and the frame fits an int. */
  lemma ExactIffSound(m: NetMsg, mem: Memory)
    requires Representable(m)
    ensures (forall ios :: Exact(m, mem, ios)) <==> Sound(m)
  {
    if Sound(m) {
      forall ios ensures Exact(m, mem, ios) {
        SendAllExact(m, 0, mem, ios);
        var r := SendAll(m, 0, mem, ios);
        assert FrameBytes(m, mem)[0..r.offset] == FrameBytes(m, mem)[..r.offset];
      }
    } else if Total(m) < HEADER {
      TruncatedHeader(m, mem);
    } else {
      NeverComplete(m, mem);
    }
  }

  /** A negative length, or one so large that the total wraps, ends the frame inside its header. */
  lemma TruncatedHeader(m: NetMsg, mem: Memory)
    requires Representable(m) && Total(m) < HEADER
    ensures exists ios :: !Exact(m, mem, ios)
  {
    DecodeEncode(m);
    var n: nat := if Total(m) < 0 then 0 else Total(m);
    var ios := [(Count(n), Again)];
    var r := SendRaw(Encode(m), 0, mem, Count(n), Again);
    assert r.outcome == Complete && |r.bytes| == n < HEADER;
    assert SendAll(m, 0, mem, ios) == r;
    assert !Exact(m, mem, ios);
  }

  /** One byte per call, from offset `off` on. */
  function Dribble(off: int, n: nat): (ios: seq<(Io, Io)>)
    ensures |ios| == n
    decreases n
  {
    if n == 0 then []
    else [if 0 <= off < HEADER then (Count(1), Again) else (Again, Count(1))] + Dribble(Wrap(off + 1), n - 1)
  }

  lemma DribbleStep(m: NetMsg, off: int, mem: Memory)
    requires Representable(m) && Total(m) > MAX_INT && IsInt(off)
    ensures var io := if 0 <= off < HEADER then (Count(1), Again) else (Again, Count(1));
            var r := SendRaw(Encode(m), off, mem, io.0, io.1);
            r.outcome == WouldBlock && r.offset == Wrap(off + 1) && |r.bytes| == 1
  {
    DecodeEncode(m);
    hide Encode, Decode;
  }

  /** The offset is an int and the frame is longer, so that no call completes, while
      every one of n small writes puts a byte on the wire. */
  lemma {:induction false} Dribbles(m: NetMsg, off: int, mem: Memory, n: nat)
    requires Representable(m) && Total(m) > MAX_INT && IsInt(off)
    ensures var r := SendAll(m, off, mem, Dribble(off, n)); r.outcome == WouldBlock && |r.bytes| == n
    decreases n
  {
    hide SendRaw, Encode, Wrap;
    if n > 0 {
      DribbleStep(m, off, mem);
      Dribbles(m, Wrap(off + 1), mem, n - 1);
      assert Dribble(off, n)[1..] == Dribble(Wrap(off + 1), n - 1);
    }
  }

  /** A frame beyond the range of int is never reported complete: after as many bytes
      as it has, written one by one, the wire carries it unreported or something else. */
  lemma NeverComplete(m: NetMsg, mem: Memory)
    requires Representable(m) && Payload(m) >= 0 && Total(m) > MAX_INT
    ensures exists ios :: !Exact(m, mem, ios)
  {
    var ios := Dribble(0, Total(m));
    Dribbles(m, 0, mem, Total(m));
    assert !Exact(m, mem, ios);
  }

  // ---- RecvRaw ----

  /** `taken` bytes left the wire; `buf` and `mem` are in_buf and the receiver's memory after the call. */
  datatype Received = Received(outcome: Outcome, offset: int, buf: seq<Byte>, mem: Memory, taken: nat)

  /** The bytes a read of at most `asked` bytes returns. */
  function Read(wire: seq<Byte>, io: Io, asked: nat): (s: seq<Byte>)
    ensures |s| <= asked && s <= wire
  {
    var n := Moved(io, asked);
    wire[..if n <= |wire| then n else |wire|]
  }

  function Put(buf: seq<Byte>, at: nat, s: seq<Byte>): (r: seq<Byte>)
    requires at + |s| <= |buf|
    ensures |r| == |buf|
  {
    buf[..at] + s + buf[at + |s|..]
  }

  function Store(mem: Memory, at: int, s: seq<Byte>): Memory {
    a => if at <= a < at + |s| then s[a - at] else mem(a)
  }

  /** RecvRaw from in_offset `off`; `where` is Token2Dptr. */
  function RecvRaw(buf: seq<Byte>, off: int, mem: Memory, where: int -> int, wire: seq<Byte>, io1: Io,
      io2: Io): (r: Received)
    requires |buf| >= HEADER && IsInt(off)
    ensures IsInt(r.offset) && |r.buf| == |buf| && r.taken <= |wire|
  {
    if AsSize(off) < HEADER then
      if io1 == Reset then Received(ConnReset, off, buf, mem, 0)
      else
        var s := Read(wire, io1, HEADER - off);
        RecvPayload(Put(buf, off, s), off + |s|, mem, where, wire[|s|..], io2, |s|)
    else
      RecvPayload(buf, off, mem, where, wire, io2, 0)
  }

  /** The length given to the second read, in size_t arithmetic. */
  function Asked(m: NetMsg, off: int): int {
    (m.extra + (HEADER - off) % TWO_64) % TWO_64
  }

  function RecvPayload(buf: seq<Byte>, off: int, mem: Memory, where: int -> int, wire: seq<Byte>, io: Io,
      taken: nat): (r: Received)
    requires |buf| >= HEADER && IsInt(off)
    ensures IsInt(r.offset) && r.buf == buf && taken <= r.taken <= taken + |wire|
  {
    if AsSize(off) < HEADER then Received(WouldBlock, off, buf, mem, taken)
    else
      var m := Decode(buf);
      if off < Total(m) then
        if io == Reset then Received(ConnReset, off, buf, mem, taken)
        else
          var s := Read(wire, io, Asked(m, off));
          RecvEnd(m, Received(Complete, Wrap(off + |s|), buf, Store(mem, where(m.dst) + off - HEADER, s), taken + |s|))
      else RecvEnd(m, Received(Complete, off, buf, mem, taken))
  }

  /** On completion the offset is reset for the next frame. */
  function RecvEnd(m: NetMsg, r: Received): Received {
    if r.offset < Total(m) then r.(outcome := WouldBlock) else r.(outcome := Complete, offset := 0)
  }

  /** The unsigned sum is the number of bytes still missing, also when in_offset
      has passed the header and the inner difference has wrapped. */
  lemma AskedIsMissing(m: NetMsg, off: int)
    requires Sound(m) && m.msgType == DATA_MSG && HEADER <= off <= Total(m)
    ensures Asked(m, off) == Total(m) - off
  {
    if off > HEADER {
      assert (HEADER - off) % TWO_64 == HEADER - off + TWO_64;
    }
  }

  /** The first `off` bytes of the frame (m, payload) have arrived: header bytes
      in the buffer, payload bytes in place at their destination. */
  predicate Arrived(m: NetMsg, payload: seq<Byte>, buf: seq<Byte>, mem: Memory, where: int -> int, off: int)
    requires Representable(m) && |buf| >= HEADER
  {
    && 0 <= off <= HEADER + |payload|
    && (off <= HEADER ==> buf[..off] == Encode(m)[..off])
    && (off > HEADER ==>
          buf[..HEADER] == Encode(m) && Region(mem, where(m.dst), off - HEADER) == payload[..off - HEADER])
  }

  /** One call of RecvRaw in front of the rest of a sound frame: it consumes only
      bytes of this frame, puts each where it belongs, and completes exactly at the frame's end. */
  lemma RecvRawStep(m: NetMsg, payload: seq<Byte>, buf: seq<Byte>, off: int, mem: Memory, where: int -> int,
                    wire: seq<Byte>, io1: Io, io2: Io)
    requires Sound(m) && |payload| == Payload(m) && |buf| >= HEADER
    requires 0 <= off < Total(m) && Arrived(m, payload, buf, mem, where, off)
    requires wire <= (Encode(m) + payload)[off..] || (Encode(m) + payload)[off..] <= wire
    ensures var r := RecvRaw(buf, off, mem, where, wire, io1, io2);
            && off + r.taken <= Total(m)
            && Arrived(m, payload, r.buf, r.mem, where, off + r.taken)
            && (r.outcome == Complete <==> off + r.taken == Total(m))
            && r.offset == if r.outcome == Complete then 0 else off + r.taken
  {
    if off >= HEADER {
      HeaderKnown(m, buf);
      assert (Encode(m) + payload)[off..] == payload[off - HEADER..];
      RecvPayloadStep(m, payload, buf, off, mem, where, wire, io2, 0);
    } else if io1 != Reset {
      RecvBoth(m, payload, buf, off, mem, where, wire, io1, io2);
    }
  }

  /** How far one call of RecvRaw gets: as many bytes of the header as the first read
      returns and, once the header is complete, in the same call as many bytes of the
      payload as the second one returns; a reset of a read that is made is reported. */
  lemma RecvRawCount(m: NetMsg, payload: seq<Byte>, buf: seq<Byte>, off: int, mem: Memory, where: int -> int,
                     wire: seq<Byte>, io1: Io, io2: Io)
    requires Sound(m) && |payload| == Payload(m) && |buf| >= HEADER
    requires 0 <= off < Total(m) && Arrived(m, payload, buf, mem, where, off)
    requires wire <= (Encode(m) + payload)[off..] || (Encode(m) + payload)[off..] <= wire
    ensures var r, head := RecvRaw(buf, off, mem, where, wire, io1, io2), HeaderLeft(off);
            var n := Least(io1, head, |wire|);
            && r.taken == n + (if n == head then Least(io2, Total(m) - off - n, |wire| - n) else 0)
            && (r.outcome == ConnReset <==>
                (head > 0 && io1 == Reset) || (n == head && off + n < Total(m) && io2 == Reset))
  {
    hide Decode, Encode, Region, Put, Store;
    if off >= HEADER {
      HeaderKnown(m, buf);
      RecvPayloadCount(m, buf, off, mem, where, wire, io2, 0);
    } else if io1 != Reset {
      var s := Read(wire, io1, HEADER - off);
      RecvHeaderStep(m, payload, buf, off, wire, s);
      var next := Put(buf, off, s);
      if off + |s| == HEADER {
        HeaderKnown(m, next);
        RecvPayloadCount(m, next, HEADER, mem, where, wire[|s|..], io2, |s|);
      }
    }
  }

  lemma RecvPayloadCount(m: NetMsg, buf: seq<Byte>, off: int, mem: Memory, where: int -> int, wire: seq<Byte>, io: Io,
                         before: nat)
    requires Sound(m) && |buf| >= HEADER && Decode(buf) == m && HEADER <= off <= Total(m)
    ensures var r := RecvPayload(buf, off, mem, where, wire, io, before);
            && r.taken == before + Least(io, Total(m) - off, |wire|)
            && (r.outcome == ConnReset <==> off < Total(m) && io == Reset)
  {
    hide Decode, Asked, Store;
    if off < Total(m) && io != Reset {
      AskedIsMissing(m, off);
    }
  }

  lemma RecvBoth(m: NetMsg, payload: seq<Byte>, buf: seq<Byte>, off: int, mem: Memory, where: int -> int,
                 wire: seq<Byte>, io1: Io, io2: Io)
    requires Sound(m) && |payload| == Payload(m) && |buf| >= HEADER && io1 != Reset
    requires 0 <= off < HEADER && buf[..off] == Encode(m)[..off]
    requires wire <= (Encode(m) + payload)[off..] || (Encode(m) + payload)[off..] <= wire
    ensures var r := RecvRaw(buf, off, mem, where, wire, io1, io2);
            && off + r.taken <= Total(m)
            && Arrived(m, payload, r.buf, r.mem, where, off + r.taken)
            && (r.outcome == Complete <==> off + r.taken == Total(m))
            && r.offset == if r.outcome == Complete then 0 else off + r.taken
  {
    hide Decode, RecvEnd, Asked, Store, Encode, Region, Put;
    var s := Read(wire, io1, HEADER - off);
    var buf' := Put(buf, off, s);
    RecvHeaderStep(m, payload, buf, off, wire, s);
    if off + |s| == HEADER {
      HeaderKnown(m, buf');
      assert Arrived(m, payload, buf', mem, where, HEADER);
      assert wire[|s|..] <= payload[0..] || payload[0..] <= wire[|s|..] by {
        assert payload[0..] == payload;
      }
      RecvPayloadStep(m, payload, buf', HEADER, mem, where, wire[|s|..], io2, |s|);
    }
  }

  lemma RecvHeaderStep(m: NetMsg, payload: seq<Byte>, buf: seq<Byte>, off: int, wire: seq<Byte>, s: seq<Byte>)
    requires Representable(m) && |buf| >= HEADER && 0 <= off && off + |s| <= HEADER && s <= wire
    requires buf[..off] == Encode(m)[..off]
    requires wire <= (Encode(m) + payload)[off..] || (Encode(m) + payload)[off..] <= wire
    ensures Put(buf, off, s)[..off + |s|] == Encode(m)[..off + |s|]
    ensures off + |s| == HEADER ==>
              Put(buf, off, s)[..HEADER] == Encode(m) && (wire[|s|..] <= payload || payload <= wire[|s|..])
  {
    var f := Encode(m) + payload;
    assert s == f[off..off + |s|] == Encode(m)[off..off + |s|];
    assert Put(buf, off, s)[..off + |s|] == buf[..off] + s;
    if off + |s| == HEADER {
      assert f[off..][|s|..] == payload;
    }
  }

  lemma HeaderKnown(m: NetMsg, buf: seq<Byte>)
    requires Representable(m) && |buf| >= HEADER && buf[..HEADER] == Encode(m)
    ensures Decode(buf) == m
  {
    DecodeEncode(m);
    assert forall i :: 0 <= i < HEADER ==> buf[i] == Encode(m)[i];
    assert forall a, b :: 0 <= a <= b <= HEADER ==> buf[a..b] == Encode(m)[a..b];
  }

  lemma RecvPayloadStep(m: NetMsg, payload: seq<Byte>, buf: seq<Byte>, off: int, mem: Memory, where: int -> int,
                        wire: seq<Byte>, io: Io, before: nat)
    requires Sound(m) && |payload| == Payload(m) && |buf| >= HEADER && Decode(buf) == m && buf[..HEADER] == Encode(m)
    requires HEADER <= off <= Total(m) && Arrived(m, payload, buf, mem, where, off)
    requires wire <= payload[off - HEADER..] || payload[off - HEADER..] <= wire
    ensures var r := RecvPayload(buf, off, mem, where, wire, io, before);
            var n := r.taken - before;
            && r.buf == buf && 0 <= n <= |wire| && off + n <= Total(m)
            && Arrived(m, payload, buf, r.mem, where, off + n)
            && (r.outcome == Complete <==> off + n == Total(m))
            && r.offset == if r.outcome == Complete then 0 else off + n
  {
    hide Store, Region, Encode, Decode, Asked;
    if off == HEADER {
      assert Region(mem, where(m.dst), 0) == payload[..0];
    }
    if off < Total(m) && io != Reset {
      AskedIsMissing(m, off);
      var s := Read(wire, io, Asked(m, off));
      assert s == payload[off - HEADER..][..|s|];
      StoreExtends(mem, where(m.dst), off - HEADER, s);
      assert payload[..off - HEADER + |s|] == payload[..off - HEADER] + s;
    }
  }

  lemma StoreExtends(mem: Memory, base: int, done: nat, s: seq<Byte>)
    ensures Region(Store(mem, base + done, s), base, done + |s|) == Region(mem, base, done) + s
  {
  }

  /** One call of RecvRaw changes nothing but what is still missing: the rest of the
      header in the buffer, and the rest of the payload at its destination. */
  lemma RecvTouchesMissing(m: NetMsg, payload: seq<Byte>, buf: seq<Byte>, off: int, mem: Memory, where: int -> int,
                           wire: seq<Byte>, io1: Io, io2: Io, address: int)
    requires Sound(m) && |payload| == Payload(m) && |buf| >= HEADER
    requires 0 <= off < Total(m) && Arrived(m, payload, buf, mem, where, off)
    requires wire <= (Encode(m) + payload)[off..] || (Encode(m) + payload)[off..] <= wire
    ensures var r := RecvRaw(buf, off, mem, where, wire, io1, io2);
            && r.buf[HEADER..] == buf[HEADER..]
            && (off < HEADER ==> r.buf[..off] == buf[..off]) && (off >= HEADER ==> r.buf == buf)
            && (r.mem(address) != mem(address) ==>
                  where(m.dst) + (if off < HEADER then 0 else off - HEADER) <= address < where(m.dst) + Payload(m))
  {
    hide Decode, Encode, Region;
    var r := RecvRaw(buf, off, mem, where, wire, io1, io2);
    if off >= HEADER {
      HeaderKnown(m, buf);
      PayloadTouches(m, buf, off, mem, where, wire, io2, 0, address);
    } else if io1 != Reset {
      var s := Read(wire, io1, HEADER - off);
      var next := Put(buf, off, s);
      RecvHeaderStep(m, payload, buf, off, wire, s);
      assert r.buf == next && next[..off] == buf[..off] && next[HEADER..] == buf[HEADER..];
      if off + |s| == HEADER {
        HeaderKnown(m, next);
        PayloadTouches(m, next, HEADER, mem, where, wire[|s|..], io2, |s|, address);
      }
    }
  }

  lemma PayloadTouches(m: NetMsg, buf: seq<Byte>, off: int, mem: Memory, where: int -> int, wire: seq<Byte>, io: Io,
                       before: nat, address: int)
    requires Sound(m) && |buf| >= HEADER && Decode(buf) == m && HEADER <= off <= Total(m)
    ensures var r := RecvPayload(buf, off, mem, where, wire, io, before);
            r.mem(address) != mem(address) ==> where(m.dst) + off - HEADER <= address < where(m.dst) + Payload(m)
  {
    hide Decode, Asked;
    if off < Total(m) && io != Reset {
      AskedIsMissing(m, off);
    }
  }
}
