/** The buffers and offsets of a NetSocket, and the methods that move bytes
    through them (socket.cpp), in place over arrays. */
module SocketIo {
  import opened Framing
  import Streams

  /** A direction of a TCP connection. */
  class Wire {
    var bytes: seq<Byte>

    constructor ()
      ensures bytes == []
    {
      bytes := [];
    }

    /** write(2): some prefix of the data is accepted. */
    method Write(data: seq<Byte>, io: Io) returns (n: nat)
      modifies this
      ensures n == Moved(io, |data|) && bytes == old(bytes) + data[..n]
    {
      n := Moved(io, |data|);
      bytes := bytes + data[..n];
    }

    /** read(2): at most `asked` bytes, none at the end of the stream. */
    method Receive(asked: nat, io: Io) returns (data: seq<Byte>)
      modifies this
      ensures data == Read(old(bytes), io, asked) && bytes == old(bytes)[|data|..]
    {
      data := Read(bytes, io, asked);
      bytes := bytes[|data|..];
    }
  }

  /** The process's memory, where payloads live. */
  class UserMemory {
    var cells: Memory

    constructor (cells: Memory)
      ensures this.cells == cells
    {
      this.cells := cells;
    }

    method StoreAt(at: int, s: seq<Byte>)
      modifies this
      ensures cells == Store(old(cells), at, s)
    {
      cells := Store(cells, at, s);
    }
  }

  class NetSocketIo {
    const inBuf: array<Byte>
    const outBuf: array<Byte>
    var inOffset: int
    var outOffset: int
    var isOutBufBusy: bool
    var msgQueue: seq<NetMsg>

    predicate Valid()
      reads this, inBuf, outBuf
    {
      && inBuf != outBuf && inBuf.Length == BUFFER_SIZE && outBuf.Length == BUFFER_SIZE
      && IsInt(outOffset) && IsInt(inOffset)
      && forall i :: 0 <= i < |msgQueue| ==> Representable(msgQueue[i])
    }

    ghost function Sending(mem: Memory): Streams.Sender
      reads this, outBuf
    {
      Streams.Sender(msgQueue, outBuf[..], outOffset, isOutBufBusy, mem)
    }

    ghost function Receiving(mem: Memory): Streams.Receiver
      reads this, inBuf
    {
      Streams.Receiver(inBuf[..], inOffset, mem)
    }

    constructor ()
      ensures Valid() && inOffset == 0 && outOffset == 0 && !isOutBufBusy && msgQueue == []
    {
      inBuf := new Byte[BUFFER_SIZE](_ => 0);
      outBuf := new Byte[BUFFER_SIZE](_ => 0);
      inOffset, outOffset, isOutBufBusy, msgQueue := 0, 0, false, [];
    }

    /** AsyncSendMsg up to the unlock of the queue: one Enqueue step of the stream. */
    method PushMsg(m: NetMsg, ghost where: int -> int, ghost s: Streams.Stream)
      requires Valid() && Representable(m) && Streams.Shaped(s) && s.snd == Sending(s.snd.mem)
      modifies this`msgQueue
      ensures Valid() && Streams.Do(s, where, Streams.Enqueue(m)).snd == Sending(s.snd.mem)
      ensures msgQueue == old(msgQueue) + [m]
    {
      msgQueue := msgQueue + [m];
    }

    method DequeueNetMsgToBuf() returns (ok: bool)
      requires Valid() && !isOutBufBusy
      modifies this`msgQueue, this`outOffset, outBuf
      ensures Valid() && (ok <==> old(msgQueue) != [])
      ensures !ok ==> outBuf[..] == old(outBuf[..]) && outOffset == old(outOffset) && msgQueue == []
      ensures ok ==> forall mem: Memory :: Sending(mem).(busy := true) == Streams.Dequeue(old(Sending(mem)))
    {
      if msgQueue == [] {
        return false;
      }
      var bytes := Encode(msgQueue[0]);
      forall i | 0 <= i < HEADER {
        outBuf[i] := bytes[i];
      }
      assert outBuf[..] == Put(old(outBuf[..]), 0, bytes);
      msgQueue := msgQueue[1..];
      outOffset := 0;
      return true;
    }

    method SendRaw(io1: Io, io2: Io, wire: Wire, mem: UserMemory) returns (rc: Outcome)
      requires Valid()
      modifies this`outOffset, wire
      ensures Valid()
      ensures var r := Framing.SendRaw(outBuf[..], old(outOffset), mem.cells, io1, io2);
              rc == r.outcome && outOffset == r.offset && wire.bytes == old(wire.bytes) + r.bytes
    {
      hide Decode, Region;
      var m := Decode(outBuf[..]);
      ghost var before := [];
      if AsSize(outOffset) < HEADER {
        if io1 == Reset {
          return ConnReset;
        }
        var rest := outBuf[outOffset..HEADER];
        var n := wire.Write(rest, io1);
        before := outBuf[..][outOffset..outOffset + n];
        assert |rest| == HEADER - outOffset && forall i :: 0 <= i < n ==> rest[i] == before[i];
        assert rest[..n] == before;
        outOffset := Wrap(outOffset + n);
      }
      rc := SendRest(m, io2, wire, mem, old(wire.bytes), before);
    }

    /** The second half of SendRaw: the payload, from the address in the header. */
    method SendRest(m: NetMsg, io: Io, wire: Wire, mem: UserMemory, ghost base: seq<Byte>, ghost before: seq<Byte>)
      returns (rc: Outcome)
      requires Valid() && wire.bytes == base + before
      modifies this`outOffset, wire
      ensures Valid()
      ensures var r := SendPayload(m, old(outOffset), mem.cells, io, before);
              && rc == r.outcome && outOffset == r.offset
              && wire.bytes == base + r.bytes
    {
      if AsSize(outOffset) >= HEADER && outOffset < Total(m) {
        if io == Reset {
          return ConnReset;
        }
        var rest := Region(mem.cells, m.src + outOffset - HEADER, Total(m) - outOffset);
        var n := wire.Write(rest, io);
        RegionPrefix(mem.cells, m.src + outOffset - HEADER, |rest|, n);
        outOffset := Wrap(outOffset + n);
      }
      rc := if outOffset < Total(m) then WouldBlock else Complete;
    }

    method RecvRaw(where: int -> int, io1: Io, io2: Io, wire: Wire, mem: UserMemory) returns (rc: Outcome)
      requires Valid()
      modifies this`inOffset, inBuf, wire, mem
      ensures Valid()
      ensures var r := Framing.RecvRaw(old(inBuf[..]), old(inOffset), old(mem.cells), where, old(wire.bytes), io1, io2);
              && rc == r.outcome && inOffset == r.offset && inBuf[..] == r.buf && mem.cells == r.mem
              && wire.bytes == old(wire.bytes)[r.taken..]
    {
      hide Decode;
      ghost var taken := 0;
      if AsSize(inOffset) < HEADER {
        if io1 == Reset {
          return ConnReset;
        }
        taken := RecvHeader(io1, wire);
      }
      rc := RecvRest(where, io2, wire, mem, old(wire.bytes), taken);
    }

    /** The first half of RecvRaw: the rest of the header. */
    method RecvHeader(io: Io, wire: Wire) returns (ghost taken: nat)
      requires Valid() && 0 <= inOffset < HEADER
      modifies this`inOffset, inBuf, wire
      ensures Valid()
      ensures var s := Read(old(wire.bytes), io, HEADER - old(inOffset));
              && inBuf[..] == Put(old(inBuf[..]), old(inOffset), s) && inOffset == old(inOffset) + |s|
              && taken == |s| && wire.bytes == old(wire.bytes)[taken..]
    {
      var s := wire.Receive(HEADER - inOffset, io);
      forall i | 0 <= i < |s| {
        inBuf[inOffset + i] := s[i];
      }
      inOffset := inOffset + |s|;
      taken := |s|;
    }

    /** The second half of RecvRaw: the payload, to the address of the destination token. */
    method RecvRest(where: int -> int, io: Io, wire: Wire, mem: UserMemory, ghost all: seq<Byte>, ghost taken: nat)
      returns (rc: Outcome)
      requires Valid() && taken <= |all| && wire.bytes == all[taken..]
      modifies this`inOffset, wire, mem
      ensures Valid()
      ensures var r := RecvPayload(inBuf[..], old(inOffset), old(mem.cells), where, all[taken..], io, taken);
              && rc == r.outcome && inOffset == r.offset && mem.cells == r.mem
              && r.taken <= |all| && wire.bytes == all[r.taken..]
    {
      hide Decode;
      if AsSize(inOffset) < HEADER {
        return WouldBlock;
      }
      var m := Decode(inBuf[..]);
      if inOffset < Total(m) {
        if io == Reset {
          return ConnReset;
        }
        var s := wire.Receive(Asked(m, inOffset), io);
        mem.StoreAt(where(m.dst) + inOffset - HEADER, s);
        assert all[taken..][|s|..] == all[taken + |s|..];
        inOffset := Wrap(inOffset + |s|);
      }
      if inOffset < Total(m) {
        return WouldBlock;
      }
      inOffset := 0;
      rc := Complete;
    }

    /** The OUT event in the Active state. */
    method OnFdOut(io1: Io, io2: Io, wire: Wire, mem: UserMemory, ghost s: Streams.Stream, ghost where: int -> int)
      returns (sent: bool)
      requires Valid() && Streams.Shaped(s) && s.snd == Sending(mem.cells) && s.wire == wire.bytes
      modifies this, outBuf, wire
      ensures Valid()
      ensures var t := Streams.Do(s, where, Streams.FdOut(io1, io2));
              t.snd == Sending(mem.cells) && t.wire == wire.bytes
      ensures sent ==> !isOutBufBusy
    {
      hide Framing.SendRaw;
      if !isOutBufBusy {
        var ok := DequeueNetMsgToBuf();
        if !ok {
          return false;
        }
        assert Sending(mem.cells).(busy := true) == Streams.Dequeue(s.snd);
        isOutBufBusy := true;
      }
      var rc := SendRaw(io1, io2, wire, mem);
      if rc == Complete {
        isOutBufBusy := false;
        return true;
      }
      return false;
    }

    /** The IN event in the Active state, with the message it hands on, if any. */
    method OnFdIn(where: int -> int, io1: Io, io2: Io, wire: Wire, mem: UserMemory, ghost s: Streams.Stream)
      returns (done: bool, msg: NetMsg)
      requires Valid() && Streams.Shaped(s) && s.rcv == Receiving(mem.cells) && s.wire == wire.bytes
      modifies this`inOffset, inBuf, wire, mem
      ensures Valid()
      ensures var t := Streams.Do(s, where, Streams.FdIn(io1, io2));
              && t.rcv == Receiving(mem.cells) && t.wire == wire.bytes
              && t.got == if done then s.got + [Streams.Frame(msg, Region(mem.cells, where(msg.dst), Payload(msg)))]
                  else s.got
    {
      hide Framing.RecvRaw;
      var rc := RecvRaw(where, io1, io2, wire, mem);
      done, msg := rc == Complete, Decode(inBuf[..]);
    }
  }
}
