/** One socket's share of its worker's poller.  The engine keeps, per socket, whether
    the descriptor is registered, the two masks and the bits not returned yet; here
    that record is shown to follow the real poller, operation by operation, as long
    as epoll reports each handle at most once per wait. */
module PollerSockets {
  import opened Sequences
  import opened Sockets
  import P = Pollers
  import Engine

  function Or(a: Bits, b: Bits): Bits {
    Bits(a.rd || b.rd, a.wr || b.wr, a.er || b.er)
  }

  /** The bits not yet returned for handle h. */
  function Left<H(==)>(b: seq<P.Entry<H>>, h: H): Bits {
    if b == [] then NO_BITS
    else if b[0].owner == h then Or(b[0].events, Left(b[1..], h))
    else Left(b[1..], h)
  }

  predicate OneEach<H(==)>(b: seq<P.Entry<H>>) {
    forall i, j :: 0 <= i < j < |b| ==> b[i].owner != b[j].owner
  }

  predicate Shows<H(==)>(p: P.Poll<H>, h: H, s: Sock) {
    && h in p.handles && (P.Registered(p, h) <==> s.reg)
    && p.handles[h] == P.Handle(s.hfd, s.cache) && Left(p.buffer, h) == s.buf
    && (s.reg ==> p.kernel[s.hfd].mask == s.kernel)
  }

  lemma {:induction false} NothingLeft<H>(b: seq<P.Entry<H>>, h: H)
    requires forall i :: 0 <= i < |b| ==> b[i].owner != h || b[i].events == NO_BITS
    ensures Left(b, h) == NO_BITS
  {
    if b != [] {
      NothingLeft(b[1..], h);
    }
  }

  lemma {:induction false} InvalidateLeft<H>(b: seq<P.Entry<H>>, g: H, what: Bits, h: H)
    ensures Left(P.Invalidate(b, g, what), h) == if g == h then P.Clear(Left(b, h), what) else Left(b, h)
  {
    if b != [] {
      InvalidateLeft(b[1..], g, what, h);
      assert P.Invalidate(b, g, what)[1..] == P.Invalidate(b[1..], g, what);
    }
  }

  /** The operation a socket performs on its own handle. */
  function Same<H(==)>(step: P.Step<H>, s: Sock): Sock
    requires !step.Wait? && !step.Event? && !step.ResetIn?
  {
    match step
    case Add(_, _) => AddFd(s)
    case Rm(_) => RmFd(s)
    case SetIn(_) => SetIn(s)
    case SetOut(_) => SetOut(s)
    case ResetOut(_) => ResetOut(s)
  }

  lemma OwnAdd<H>(p: P.Poll<H>, fd: int, h: H, s: Sock)
    requires P.Inv(p) && P.Legal(p, P.Add(fd, h)) && Shows(p, h, s) && fd == s.fd && fd >= 0
    ensures Shows(P.Do(p, P.Add(fd, h)), h, AddFd(s))
  {
    hide Left;
  }

  lemma OwnReset<H>(p: P.Poll<H>, h: H, s: Sock)
    requires P.Legal(p, P.ResetOut(h)) && Shows(p, h, s)
    ensures Shows(P.Do(p, P.ResetOut(h)), h, ResetOut(s))
  {
    hide Left, P.Invalidate, P.Clear;
    var e := p.handles[h].events;
    if e.wr {
      InvalidateLeft(p.buffer, h, P.OUT_BIT, h);
      ClearOut(s.buf);
    }
  }

  lemma ClearOut(b: Bits)
    ensures P.Clear(b, P.OUT_BIT) == b.(wr := false)
  {
  }

  lemma OwnStep<H>(p: P.Poll<H>, step: P.Step<H>, s: Sock)
    requires P.Inv(p) && P.Legal(p, step) && !step.Wait? && !step.Event? && !step.ResetIn?
    requires Shows(p, step.h, s) && (step.Add? ==> step.fd == s.fd && s.fd >= 0)
    ensures Shows(P.Do(p, step), step.h, Same(step, s))
  {
    hide Left, P.Invalidate, AddFd, ResetOut;
    match step
    case Add(fd, h) =>
      OwnAdd(p, fd, h, s);
      hide P.Do, Shows;
    case ResetOut(h) =>
      OwnReset(p, h, s);
      hide P.Do, Shows;
    case Rm(h) => InvalidateLeft(p.buffer, h, P.ALL_BITS, h);
    case _ =>
  }

  lemma OtherStep<H>(p: P.Poll<H>, step: P.Step<H>, h: H, s: Sock)
    requires P.Inv(p) && P.Legal(p, step) && !step.Wait? && !step.Event? && step.h != h && Shows(p, h, s)
    ensures Shows(P.Do(p, step), h, s)
  {
    InvalidateLeft(p.buffer, step.h, P.Cleared(step), h);
    hide Left, P.Invalidate;
  }

  /** The engine's Mods and Hits say of one socket and its worker's handles what Legal
      says of the poller: the call a task makes through an unregistered handle is
      illegal exactly if the descriptor that handle names is watched for another. */
  lemma HitsAreIllegal<H>(p: P.Poll<H>, h: H, s: Sock, step: P.Step<H>, task: Task)
    requires Shows(p, h, s) && Mods(s, TaskSource(task)) && (task == TSend || task == TRecv)
    requires step == if task == TSend then P.SetOut(h) else P.SetIn(h)
    ensures P.Calls(p, step) && (P.Legal(p, step) <==> s.hfd !in p.kernel)
  {
    hide Left;
  }

  lemma {:induction false} NextLeft<H>(b: seq<P.Entry<H>>, h: H)
    requires OneEach(b)
    ensures var r := P.Next(b);
            && OneEach(r.1)
            && if r.0.Some? && r.0.value.owner == h
               then Left(b, h) != NO_BITS && (r.0.value.event, Left(r.1, h)) == Engine.NextIo(Left(b, h))
               else Left(r.1, h) == Left(b, h)
  {
    if b != [] {
      var rest := b[1..];
      assert OneEach(rest);
      if b[0].owner == h {
        NothingLeft(rest, h);
      }
      if b[0].events == NO_BITS {
        NextLeft(rest, h);
      } else {
        var r := P.Next(b);
        if b[0].events.rd || b[0].events.wr {
          assert r.1[1..] == rest;
        }
      }
    }
  }

  /** Event takes from the socket it returns exactly the bit the engine's Fetch
      takes, and leaves every other socket alone. */
  lemma EventStep<H>(p: P.Poll<H>, h: H, s: Sock)
    requires P.Inv(p) && OneEach(p.buffer) && Shows(p, h, s)
    ensures var q, x := P.Do(p, P.Step<H>.Event), P.Next(p.buffer).0;
            && OneEach(q.buffer)
            && if x.Some? && x.value.owner == h
               then s.buf != NO_BITS && Engine.NextIo(s.buf).0 == x.value.event
                   && Shows(q, h, s.(buf := Engine.NextIo(s.buf).1))
               else Shows(q, h, s)
  {
    NextLeft(p.buffer, h);
  }

  lemma {:induction false} LeftReported<H>(p: P.Poll<H>, b: seq<P.Entry<H>>, h: H)
    requires h in p.handles
    requires forall i :: 0 <= i < |b| ==>
               P.Registered(p, b[i].owner) && P.Within(b[i].events, p.kernel[p.handles[b[i].owner].fd].mask)
    ensures Left(b, h) != NO_BITS ==> P.Registered(p, h) && P.Within(Left(b, h), p.kernel[p.handles[h].fd].mask)
  {
    if b != [] {
      LeftReported(p, b[1..], h);
    }
  }

  lemma {:induction false} NothingFlat<H>(b: seq<P.Entry<H>>, h: H)
    requires P.Flat(b) == []
    ensures Left(b, h) == NO_BITS
  {
    if b != [] {
      NothingFlat(b[1..], h);
    }
  }

  /** A wait, which the worker enters with nothing left to return, gives each socket the
      bits reported for it: bits that its mask wants and a registered descriptor has, as
      the engine's Wait step requires.  A socket that is not reported gets none. */
  lemma WaitStep<H>(p: P.Poll<H>, reported: seq<P.Entry<H>>, h: H, s: Sock)
    requires P.Inv(p) && P.Legal(p, P.Wait(reported)) && P.Flat(p.buffer) == [] && OneEach(reported) && Shows(p, h, s)
    ensures var q, bits := P.Do(p, P.Wait(reported)), Left(reported, h);
            && OneEach(q.buffer) && Shows(q, h, s.(buf := bits)) && s.buf == NO_BITS
            && (bits != NO_BITS ==> s.reg) && (bits.rd ==> s.kernel.rd) && (bits.wr ==> s.kernel.wr)
            && (forall i :: 0 <= i < |reported| && reported[i].owner == h ==> bits == reported[i].events)
            && ((forall i :: 0 <= i < |reported| ==> reported[i].owner != h) ==> bits == NO_BITS)
  {
    NothingFlat(p.buffer, h);
    LeftReported(p, reported, h);
    forall i | 0 <= i < |reported| && reported[i].owner == h ensures Left(reported, h) == reported[i].events {
      LeftIs(reported, h, i);
    }
    if forall i :: 0 <= i < |reported| ==> reported[i].owner != h {
      NothingLeft(reported, h);
    }
    hide Left, P.Flat;
  }

  lemma {:induction false} LeftIs<H>(b: seq<P.Entry<H>>, h: H, i: nat)
    requires OneEach(b) && i < |b| && b[i].owner == h
    ensures Left(b, h) == b[i].events
  {
    var rest := b[1..];
    assert OneEach(rest);
    if i == 0 {
      NothingLeft(rest, h);
    } else {
      LeftIs(rest, h, i - 1);
    }
  }
}
