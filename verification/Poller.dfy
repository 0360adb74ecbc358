/** The poller of poller.cpp: a cache of each handle's interest mask, and a buffer
    of reported events that is drained one bit at a time while the handlers, in
    between, remove handles and disarm bits.

    `Poll` is the specification, with the epoll instance as part of the state;
    `NetPoller` does the same in place, over an array and an index.  An event mask
    is read as IN, OUT and whether any other bit is set, which is all the source
    ever asks of it. */
module Pollers {
  import opened Sequences
  import opened Sockets

  const IN: int := 1
  const OUT: int := 2
  const ERR: int := 3

  const MAX_EVENTS: int := 32

  /** One element of events_. */
  datatype Entry<H> = Entry(owner: H, events: Bits)

  /** What the kernel was asked to poll a descriptor for, and for whom. */
  datatype Interest<H> = Interest(owner: H, mask: Bits)

  datatype Handle = Handle(fd: int, events: Bits)

  datatype Poll<H(==)> = Poll(
    handles: map<H, Handle>,
    kernel: map<int, Interest<H>>,
    buffer: seq<Entry<H>>            // events_ from index_ to nevents_
  )

  /** One bit of one entry, as Event returns it. */
  datatype Item<H> = Item(owner: H, event: int)

  datatype Step<H> =
    | Add(fd: int, h: H) | Rm(h: H)
    | SetIn(h: H) | ResetIn(h: H) | SetOut(h: H) | ResetOut(h: H)
    | Wait(reported: seq<Entry<H>>) | Event

  // ---- The buffer ----

  /** What is left to return for one entry: In, then Out, then one Err for everything else. */
  function Items<H>(e: Entry<H>): (s: seq<Item<H>>)
    ensures |s| <= 3
  {
    One(e.events.rd, Item(e.owner, IN)) + One(e.events.wr, Item(e.owner, OUT)) + One(e.events.er, Item(e.owner, ERR))
  }

  function One<T>(present: bool, x: T): (s: seq<T>)
    ensures |s| <= 1
  {
    if present then [x] else []
  }

  function Flat<H>(b: seq<Entry<H>>): (s: seq<Item<H>>)
    ensures |s| <= 3 * |b|
  {
    if b == [] then [] else Items(b[0]) + Flat(b[1..])
  }

  /** NetPoller::Event: skip spent entries, then take one bit off the first live
      one; the branch for errors steps over the entry and leaves its bits alone. */
  function Next<H>(b: seq<Entry<H>>): (Option<Item<H>>, seq<Entry<H>>) {
    if b == [] then (None, [])
    else if b[0].events == NO_BITS then Next(b[1..])
    else if b[0].events.rd then (Some(Item(b[0].owner, IN)), [b[0].(events := b[0].events.(rd := false))] + b[1..])
    else if b[0].events.wr then (Some(Item(b[0].owner, OUT)), [b[0].(events := b[0].events.(wr := false))] + b[1..])
    else (Some(Item(b[0].owner, ERR)), b[1..])
  }

  function Clear(events: Bits, what: Bits): Bits {
    Bits(events.rd && !what.rd, events.wr && !what.wr, events.er && !what.er)
  }

  const ALL_BITS := Bits(true, true, true)
  const IN_BIT := Bits(true, false, false)
  const OUT_BIT := Bits(false, true, false)

  function ClearFor<H(==)>(e: Entry<H>, h: H, what: Bits): Entry<H> {
    if e.owner == h then e.(events := Clear(e.events, what)) else e
  }

  /** The invalidation loop of Rm, ResetIn and ResetOut. */
  function Invalidate<H(==)>(b: seq<Entry<H>>, h: H, what: Bits): (r: seq<Entry<H>>)
    ensures |r| == |b| && forall i :: 0 <= i < |b| ==> r[i] == ClearFor(b[i], h, what)
  {
    if b == [] then [] else [ClearFor(b[0], h, what)] + Invalidate(b[1..], h, what)
  }

  // ---- The operations ----

  predicate Registered<H(==)>(p: Poll<H>, h: H) {
    h in p.handles && p.handles[h].fd in p.kernel && p.kernel[p.handles[h].fd].owner == h
  }

  /** epoll_ctl(MOD) with a new cached mask; the kernel ignores an unknown descriptor. */
  function Modify<H(==)>(p: Poll<H>, h: H, mask: Bits): Poll<H>
    requires h in p.handles
  {
    var fd := p.handles[h].fd;
    p.(handles := p.handles[h := Handle(fd, mask)],
       kernel := if fd in p.kernel then p.kernel[fd := Interest(h, mask)] else p.kernel)
  }

  function Do<H(==)>(p: Poll<H>, step: Step<H>): Poll<H>
    requires step.Wait? || step.Event? || step.h in p.handles
  {
    match step
    case Add(fd, h) =>
      p.(handles := p.handles[h := Handle(fd, NO_BITS)],
         kernel := if fd in p.kernel then p.kernel else p.kernel[fd := Interest(h, NO_BITS)])
    case Rm(h) => p.(kernel := p.kernel - {p.handles[h].fd}, buffer := Invalidate(p.buffer, h, ALL_BITS))
    case SetIn(h) =>
      var e := p.handles[h].events;
      if e.rd then p else Modify(p, h, e.(rd := true))
    case ResetIn(h) =>
      var e := p.handles[h].events;
      if !e.rd then p else Modify(p, h, e.(rd := false)).(buffer := Invalidate(p.buffer, h, IN_BIT))
    case SetOut(h) =>
      var e := p.handles[h].events;
      if e.wr then p else Modify(p, h, e.(wr := true))
    case ResetOut(h) =>
      var e := p.handles[h].events;
      if !e.wr then p else Modify(p, h, e.(wr := false)).(buffer := Invalidate(p.buffer, h, OUT_BIT))
    case Wait(reported) => p.(buffer := reported)
    case Event => p.(buffer := Next(p.buffer).1)
  }

  /** IN and OUT are reported only where they are polled for. */
  predicate Within(events: Bits, mask: Bits) {
    (events.rd ==> mask.rd) && (events.wr ==> mask.wr)
  }

  /** Handles are not registered twice, and one that is not registered does not name a
      descriptor that is; the kernel reports what it was asked for, plus errors. */
  predicate Legal<H(==)>(p: Poll<H>, step: Step<H>) {
    match step
    case Add(fd, h) => h in p.handles && fd !in p.kernel && !Registered(p, h)
    case Wait(reported) =>
      |reported| <= MAX_EVENTS
      && forall i :: 0 <= i < |reported| ==>
           var e := reported[i]; Registered(p, e.owner) && Within(e.events, p.kernel[p.handles[e.owner].fd].mask)
    case Event => true
    case _ => step.h in p.handles && (p.handles[step.h].fd in p.kernel ==> Registered(p, step.h))
  }

  // ---- The cached masks agree with the kernel's ----

  predicate Agrees<H(==)>(p: Poll<H>) {
    forall fd :: fd in p.kernel ==>
      var i := p.kernel[fd];
      i.owner in p.handles && p.handles[i.owner] == Handle(fd, i.mask)
  }

  predicate Wanted<H(==)>(p: Poll<H>, e: Entry<H>) {
    e.events != NO_BITS ==> Registered(p, e.owner) && Within(e.events, p.handles[e.owner].events)
  }

  predicate Inv<H(==)>(p: Poll<H>) {
    Agrees(p) && forall i :: 0 <= i < |p.buffer| ==> Wanted(p, p.buffer[i])
  }

  lemma AgreementKept<H>(p: Poll<H>, step: Step<H>)
    requires Agrees(p) && Legal(p, step)
    ensures Agrees(Do(p, step))
  {
    hide Within, Next, Invalidate;
  }

  /** A handle other than the one operated on keeps its registration and its mask. */
  lemma OthersKept<H>(p: Poll<H>, step: Step<H>, h: H)
    requires Agrees(p) && Legal(p, step) && Registered(p, h)
    requires step.Wait? || step.Event? || step.h != h
    ensures Registered(Do(p, step), h) && Do(p, step).handles[h] == p.handles[h]
  {
    hide Within, Next, Invalidate;
  }

  lemma {:induction false} NextWanted<H>(p: Poll<H>, b: seq<Entry<H>>)
    requires forall i :: 0 <= i < |b| ==> Wanted(p, b[i])
    ensures var r := Next(b);
            && (forall i :: 0 <= i < |r.1| ==> Wanted(p, r.1[i]))
            && (r.0.Some? ==>
                  && Registered(p, r.0.value.owner)
                  && (r.0.value.event == IN ==> p.handles[r.0.value.owner].events.rd)
                  && (r.0.value.event == OUT ==> p.handles[r.0.value.owner].events.wr))
  {
    if b != [] && b[0].events == NO_BITS {
      NextWanted(p, b[1..]);
    }
  }

  lemma StepKeeps<H>(p: Poll<H>, step: Step<H>)
    requires Inv(p) && Legal(p, step)
    ensures Inv(Do(p, step))
  {
    hide Within, Next, Invalidate, Agrees;
    AgreementKept(p, step);
    var q := Do(p, step);
    forall i | 0 <= i < |q.buffer| ensures Wanted(q, q.buffer[i]) {
      BufferKept(p, step, i);
    }
  }

  lemma BufferKept<H>(p: Poll<H>, step: Step<H>, i: nat)
    requires Inv(p) && Legal(p, step) && i < |Do(p, step).buffer|
    ensures Wanted(Do(p, step), Do(p, step).buffer[i])
  {
    match step
    case Event => NextWanted(p, p.buffer);
    case Wait(reported) =>
    case _ =>
      var was := p.buffer[i];
      if was.owner != step.h && was.events != NO_BITS {
        OthersKept(p, step, was.owner);
      }
  }

  /** The step asks epoll_ctl for something. */
  predicate Calls<H(==)>(p: Poll<H>, step: Step<H>)
    requires !step.Add? && !step.Wait? && !step.Event? && step.h in p.handles
  {
    var e := p.handles[step.h].events;
    match step
    case SetIn(_) => !e.rd
    case ResetIn(_) => e.rd
    case SetOut(_) => !e.wr
    case ResetOut(_) => e.wr
    case Rm(_) => true
  }

  /** Such a call takes the registration of another handle away if and only if it is
      made through a handle that is not registered and names that one's descriptor. */
  lemma TakesAwayIff<H(!new)>(p: Poll<H>, step: Step<H>)
    requires Agrees(p) && !step.Add? && !step.Wait? && !step.Event? && step.h in p.handles && Calls(p, step)
    ensures !Legal(p, step) <==> exists g :: g != step.h && Registered(p, g) && !Registered(Do(p, step), g)
  {
    if !Legal(p, step) {
      var g := p.kernel[p.handles[step.h].fd].owner;
      assert Registered(p, g) && !Registered(Do(p, step), g);
    } else {
      forall g | g != step.h && Registered(p, g) ensures Registered(Do(p, step), g) {
        OthersKept(p, step, g);
      }
    }
  }

  // ---- Draining, one event at a time ----

  predicate Kills<H(==)>(step: Step<H>, x: Item<H>) {
    match step
    case Rm(h) => x.owner == h
    case ResetIn(h) => x == Item(h, IN)
    case ResetOut(h) => x == Item(h, OUT)
    case _ => false
  }

  function Drop<H(==)>(items: seq<Item<H>>, step: Step<H>): (r: seq<Item<H>>)
  {
    if items == [] then []
    else One(!Kills(step, items[0]), items[0]) + Drop(items[1..], step)
  }

  lemma {:induction false} DropKeeps<H>(items: seq<Item<H>>, step: Step<H>)
    ensures |Drop(items, step)| <= |items|
    ensures forall x :: x in Drop(items, step) ==> x in items && !Kills(step, x)
    ensures forall x :: x in items && !Kills(step, x) ==> x in Drop(items, step)
  {
    if items != [] {
      DropKeeps(items[1..], step);
    }
  }

  lemma DropOf<H>(x: Item<H>, rest: seq<Item<H>>, step: Step<H>)
    ensures Drop([x] + rest, step) == One(!Kills(step, x), x) + Drop(rest, step)
  {
    hide Kills;
    assert ([x] + rest)[1..] == rest;
  }

  lemma {:induction false} DropJoin<H>(a: seq<Item<H>>, b: seq<Item<H>>, step: Step<H>)
    ensures Drop(a + b, step) == Drop(a, step) + Drop(b, step)
  {
    if a == [] {
      assert a + b == b && Drop(a, step) == [];
    } else {
      var x, rest := a[0], a[1..];
      assert a == [x] + rest;
      hide Drop, One;
      DropJoin(rest, b, step);
      DropOf(x, rest, step);
      DropOf(x, rest + b, step);
      Associates([x], rest, b);
      Associates(One(!Kills(step, x), x), Drop(rest, step), Drop(b, step));
    }
  }

  lemma OneDrops<H>(present: bool, x: Item<H>, step: Step<H>)
    ensures Drop(One(present, x), step) == One(present && !Kills(step, x), x)
  {
    DropOf(x, [], step);
    assert [x] + [] == [x] && Drop<H>([], step) == [];
  }

  lemma {:induction false} DropNothing<H>(items: seq<Item<H>>, step: Step<H>)
    requires forall x :: x in items ==> !Kills(step, x)
    ensures Drop(items, step) == items
  {
    if items != [] {
      DropNothing(items[1..], step);
    }
  }

  /** Taking one bit off a live entry takes the first of its items. */
  lemma EntryNext<H>(e: Entry<H>)
    requires e.events != NO_BITS
    ensures e.events.rd ==> Items(e) == [Item(e.owner, IN)] + Items(e.(events := e.events.(rd := false)))
    ensures !e.events.rd && e.events.wr ==>
              Items(e) == [Item(e.owner, OUT)] + Items(e.(events := e.events.(wr := false)))
    ensures !e.events.rd && !e.events.wr ==> Items(e) == [Item(e.owner, ERR)]
  {
  }

  lemma FlatOf<H>(e: Entry<H>, rest: seq<Entry<H>>)
    ensures Flat([e] + rest) == Items(e) + Flat(rest)
  {
    hide Items;
    assert ([e] + rest)[1..] == rest;
  }

  lemma LiveNext<H>(e: Entry<H>, rest: seq<Entry<H>>)
    requires e.events != NO_BITS
    ensures var items, r := Flat([e] + rest), Next([e] + rest);
            r.0.Some? && items == [r.0.value] + Flat(r.1)
  {
    assert ([e] + rest)[1..] == rest;
    var r := Next([e] + rest);
    EntryNext(e);
    FlatOf(e, rest);
    hide Items, Flat;
    if e.events.rd || e.events.wr {
      var less := if e.events.rd then e.(events := e.events.(rd := false)) else e.(events := e.events.(wr := false));
      FlatOf(less, rest);
      Associates([r.0.value], Items(less), Flat(rest));
    }
  }

  /** Event returns the head of what is left, and nothing exactly when nothing is left. */
  lemma {:induction false} NextIsHead<H>(b: seq<Entry<H>>)
    ensures var items, r := Flat(b), Next(b);
            if items == [] then r.0 == None && Flat(r.1) == []
            else r.0 == Some(items[0]) && Flat(r.1) == items[1..]
  {
    if b != [] {
      assert b == [b[0]] + b[1..];
      if b[0].events == NO_BITS {
        NextIsHead(b[1..]);
        NoItems(b[0]);
      } else {
        LiveNext(b[0], b[1..]);
      }
    }
  }

  lemma NoItems<H>(e: Entry<H>)
    ensures e.events == NO_BITS ==> Items(e) == []
  {
  }

  /** The bits a step invalidates. */
  function Cleared<H(==)>(step: Step<H>): Bits {
    match step
    case Rm(_) => ALL_BITS
    case ResetIn(_) => IN_BIT
    case ResetOut(_) => OUT_BIT
    case _ => NO_BITS
  }

  lemma {:induction false} InvalidateDrops<H>(b: seq<Entry<H>>, step: Step<H>)
    requires step.Rm? || step.ResetIn? || step.ResetOut?
    ensures Flat(Invalidate(b, step.h, Cleared(step))) == Drop(Flat(b), step)
  {
    if b != [] {
      InvalidateDrops(b[1..], step);
      DropJoin(Items(b[0]), Flat(b[1..]), step);
      EntryDrops(b[0], step);
    }
  }

  lemma EntryDrops<H>(e: Entry<H>, step: Step<H>)
    requires step.Rm? || step.ResetIn? || step.ResetOut?
    ensures Items(ClearFor(e, step.h, Cleared(step))) == Drop(Items(e), step)
  {
    hide Drop, One;
    var i, o, x := Item(e.owner, IN), Item(e.owner, OUT), Item(e.owner, ERR);
    DropJoin(One(e.events.rd, i) + One(e.events.wr, o), One(e.events.er, x), step);
    DropJoin(One(e.events.rd, i), One(e.events.wr, o), step);
    OneDrops(e.events.rd, i, step);
    OneDrops(e.events.wr, o, step);
    OneDrops(e.events.er, x, step);
  }

  /** Whatever is left to return is armed in its owner's cached mask. */
  lemma {:induction false} LeftIsWanted<H>(p: Poll<H>, b: seq<Entry<H>>, x: Item<H>)
    requires (forall i :: 0 <= i < |b| ==> Wanted(p, b[i])) && x in Flat(b)
    ensures Registered(p, x.owner)
    ensures x.event == IN ==> p.handles[x.owner].events.rd
    ensures x.event == OUT ==> p.handles[x.owner].events.wr
  {
    if x !in Items(b[0]) {
      LeftIsWanted(p, b[1..], x);
    } else {
      assert Wanted(p, b[0]);
    }
  }

  /** One operation on the array of multi-bit entries is one operation on the list of single events. */
  lemma StepDrops<H>(p: Poll<H>, step: Step<H>)
    requires Inv(p) && Legal(p, step) && !step.Wait?
    ensures var left, left' := Flat(p.buffer), Flat(Do(p, step).buffer);
            left' == if step.Event? then (if left == [] then [] else left[1..]) else Drop(left, step)
  {
    match step
    case Event => NextIsHead(p.buffer);
    case Rm(h) => InvalidateDrops(p.buffer, step);
    case ResetIn(h) => ResetDrops(p, step);
    case ResetOut(h) => ResetDrops(p, step);
    case _ => DropNothing(Flat(p.buffer), step);
  }

  lemma ResetDrops<H>(p: Poll<H>, step: Step<H>)
    requires Inv(p) && Legal(p, step) && (step.ResetIn? || step.ResetOut?)
    ensures Flat(Do(p, step).buffer) == Drop(Flat(p.buffer), step)
  {
    InvalidateDrops(p.buffer, step);
    if Do(p, step) == p {
      forall x | x in Flat(p.buffer) ensures !Kills(step, x) {
        LeftIsWanted(p, p.buffer, x);
      }
      DropNothing(Flat(p.buffer), step);
    }
  }

  // ---- Runs ----

  predicate LegalRun<H(==)>(p: Poll<H>, steps: seq<Step<H>>)
    decreases |steps|
  {
    steps == [] || (Legal(p, steps[0]) && LegalRun(Do(p, steps[0]), steps[1..]))
  }

  function Final<H(==)>(p: Poll<H>, steps: seq<Step<H>>): Poll<H>
    requires LegalRun(p, steps)
    decreases |steps|
  {
    if steps == [] then p else Final(Do(p, steps[0]), steps[1..])
  }

  /** The events returned along the run. */
  function Returned<H(==)>(p: Poll<H>, steps: seq<Step<H>>): seq<Item<H>>
    requires LegalRun(p, steps)
    decreases |steps|
  {
    if steps == [] then []
    else
      (if steps[0].Event? && Next(p.buffer).0.Some? then [Next(p.buffer).0.value] else [])
      + Returned(Do(p, steps[0]), steps[1..])
  }

  function Fresh<H(==)>(known: set<H>, garbage: Handle): Poll<H> {
    Poll(map h | h in known :: garbage, map[], [])
  }

  lemma {:induction false} RunKeeps<H>(p: Poll<H>, steps: seq<Step<H>>)
    requires Inv(p) && LegalRun(p, steps)
    ensures Inv(Final(p, steps))
    decreases |steps|
  {
    hide Inv, Do;
    if steps != [] {
      StepKeeps(p, steps[0]);
      RunKeeps(Do(p, steps[0]), steps[1..]);
    }
  }

  /** What a handle's own operations ask for, whatever is done to others. */
  datatype Asked = Asked(registered: bool, events: Bits)

  function Asks<H(==)>(asked: Asked, step: Step<H>, h: H): Asked {
    if step.Wait? || step.Event? || step.h != h then asked
    else
      match step
      case Add(_, _) => Asked(true, NO_BITS)
      case Rm(_) => asked.(registered := false)
      case SetIn(_) => asked.(events := asked.events.(rd := true))
      case ResetIn(_) => asked.(events := asked.events.(rd := false))
      case SetOut(_) => asked.(events := asked.events.(wr := true))
      case ResetOut(_) => asked.(events := asked.events.(wr := false))
  }

  function AskedFor<H(==)>(asked: Asked, steps: seq<Step<H>>, h: H): Asked
    decreases |steps|
  {
    if steps == [] then asked else AskedFor(Asks(asked, steps[0], h), steps[1..], h)
  }

  lemma AskedStep<H>(p: Poll<H>, step: Step<H>, h: H)
    requires Agrees(p) && Legal(p, step) && h in p.handles
    ensures var q := Do(p, step);
            && h in q.handles
            && Asked(Registered(q, h), q.handles[h].events) ==
               Asks(Asked(Registered(p, h), p.handles[h].events), step, h)
  {
    hide Within, Next, Invalidate;
  }

  lemma {:induction false} AskedRun<H>(p: Poll<H>, steps: seq<Step<H>>, h: H)
    requires Inv(p) && LegalRun(p, steps) && h in p.handles
    ensures var q := Final(p, steps);
            && h in q.handles
            && Asked(Registered(q, h), q.handles[h].events) ==
               AskedFor(Asked(Registered(p, h), p.handles[h].events), steps, h)
    decreases |steps|
  {
    if steps != [] {
      InvAgrees(p);
      hide Inv, Do, Registered, Asks;
      StepKeeps(p, steps[0]);
      AskedStep(p, steps[0], h);
      AskedRun(Do(p, steps[0]), steps[1..], h);
    }
  }

  lemma InvAgrees<H>(p: Poll<H>)
    requires Inv(p)
    ensures Agrees(p)
  {
  }

  /** After every legal sequence of registrations, waits and events, whatever was
      in the uninitialised handles: a handle is registered, with a certain mask, exactly
      as its own operations asked for, the kernel polls with that mask, and the next IN
      or OUT to be returned for it is armed in it. */
  lemma InterestAgrees<H>(known: set<H>, garbage: Handle, steps: seq<Step<H>>, h: H)
    requires LegalRun(Fresh(known, garbage), steps) && h in known
    ensures var p, asked := Final(Fresh(known, garbage), steps), AskedFor(Asked(false, garbage.events), steps, h);
            && h in p.handles && asked == Asked(Registered(p, h), p.handles[h].events)
            && (asked.registered ==> p.kernel[p.handles[h].fd].mask == asked.events)
            && (forall x :: x in Flat(p.buffer) && x.owner == h ==>
                  && asked.registered
                  && (x.event == IN ==> asked.events.rd) && (x.event == OUT ==> asked.events.wr))
  {
    hide LegalRun, Final, Do, Legal, AskedFor;
    RunKeeps(Fresh(known, garbage), steps);
    AskedRun(Fresh(known, garbage), steps, h);
    var p := Final(Fresh(known, garbage), steps);
    forall x | x in Flat(p.buffer) && x.owner == h
      ensures Registered(p, h)
      ensures x.event == IN ==> p.handles[h].events.rd
      ensures x.event == OUT ==> p.handles[h].events.wr
    {
      LeftIsWanted(p, p.buffer, x);
    }
  }

  predicate NoWait<H>(steps: seq<Step<H>>) {
    forall i :: 0 <= i < |steps| ==> !steps[i].Wait?
  }

  /** The steps without the first Event, and how many steps come before it. */
  function UntilEvent<H>(steps: seq<Step<H>>): (k: nat)
    ensures k <= |steps| && (k < |steps| ==> steps[k].Event?)
    ensures forall i :: 0 <= i < k ==> !steps[i].Event?
  {
    if steps == [] || steps[0].Event? then 0 else 1 + UntilEvent(steps[1..])
  }

  predicate KilledBy<H(==)>(x: Item<H>, steps: seq<Step<H>>) {
    exists i :: 0 <= i < |steps| && Kills(steps[i], x)
  }

  /** The same drain told item by item, without any buffer: an item is skipped if it
      is invalidated before the call of Event that would reach it, and otherwise
      takes that call. */
  function Survivors<H(==)>(items: seq<Item<H>>, steps: seq<Step<H>>): seq<Item<H>> {
    if items == [] then []
    else
      var k := UntilEvent(steps);
      if KilledBy(items[0], steps[..k]) then Survivors(items[1..], steps)
      else if k == |steps| then []
      else [items[0]] + Survivors(items[1..], steps[..k] + steps[k + 1..])
  }

  /** The drain told step by step on a list of items. */
  function Play<H(==)>(items: seq<Item<H>>, steps: seq<Step<H>>): seq<Item<H>>
    decreases |steps|
  {
    if steps == [] then []
    else if steps[0].Event? then
      if items == [] then Play([], steps[1..]) else [items[0]] + Play(items[1..], steps[1..])
    else Play(Drop(items, steps[0]), steps[1..])
  }

  lemma {:induction false} ReturnedIsPlay<H>(p: Poll<H>, steps: seq<Step<H>>)
    requires Inv(p) && LegalRun(p, steps) && NoWait(steps)
    ensures Returned(p, steps) == Play(Flat(p.buffer), steps)
    decreases |steps|
  {
    if steps != [] {
      assert !steps[0].Wait? && NoWait(steps[1..]);
      hide Inv, Do, Legal, NoWait, Flat, Play, Returned;
      StepKeeps(p, steps[0]);
      ReturnedIsPlay(Do(p, steps[0]), steps[1..]);
      PlayStep(p, steps);
    }
  }

  lemma PlayStep<H>(p: Poll<H>, steps: seq<Step<H>>)
    requires Inv(p) && LegalRun(p, steps) && steps != [] && !steps[0].Wait?
    requires Returned(Do(p, steps[0]), steps[1..]) == Play(Flat(Do(p, steps[0]).buffer), steps[1..])
    ensures Returned(p, steps) == Play(Flat(p.buffer), steps)
  {
    hide Inv, Do, Drop, Flat, Next, Legal;
    StepDrops(p, steps[0]);
    NextIsHead(p.buffer);
  }

  lemma {:induction false} PlayNothing<H>(steps: seq<Step<H>>)
    ensures Play<H>([], steps) == []
    decreases |steps|
  {
    if steps != [] {
      PlayNothing(steps[1..]);
    }
  }

  /** The first item of the list either dies before the first Event or is what that Event returns. */
  lemma {:induction false} PlayFirst<H>(items: seq<Item<H>>, steps: seq<Step<H>>)
    requires items != []
    ensures var k := UntilEvent(steps);
            Play(items, steps) ==
              if KilledBy(items[0], steps[..k]) then Play(items[1..], steps)
              else if k == |steps| then []
              else [items[0]] + Play(items[1..], steps[..k] + steps[k + 1..])
    decreases |steps|
  {
    var k := UntilEvent(steps);
    if steps != [] {
      var rest := steps[1..];
      if steps[0].Event? {
        assert steps[..0] + steps[1..] == rest;
      } else if Kills(steps[0], items[0]) {
        assert steps[..k][0] == steps[0];
        assert Drop(items, steps[0]) == Drop(items[1..], steps[0]);
      } else {
        PlayFirst(Drop(items, steps[0]), rest);
        PlayLater(items, steps);
      }
    }
  }

  lemma PlayLater<H>(items: seq<Item<H>>, steps: seq<Step<H>>)
    requires items != [] && steps != [] && !steps[0].Event? && !Kills(steps[0], items[0])
    requires var left, rest := Drop(items, steps[0]), steps[1..];
             var k := UntilEvent(rest);
             left != [] &&
             Play(left, rest) ==
               if KilledBy(left[0], rest[..k]) then Play(left[1..], rest)
               else if k == |rest| then []
               else [left[0]] + Play(left[1..], rest[..k] + rest[k + 1..])
    ensures var k := UntilEvent(steps);
            Play(items, steps) ==
              if KilledBy(items[0], steps[..k]) then Play(items[1..], steps)
              else if k == |steps| then []
              else [items[0]] + Play(items[1..], steps[..k] + steps[k + 1..])
  {
    hide Kills, KilledBy, Drop, Play, UntilEvent;
    var rest := steps[1..];
    var k := UntilEvent(steps);
    UntilLater(steps);
    DropFirst(items, steps[0]);
    KilledLater(items[0], steps, k);
    PlayDrops(items, steps);
    PlayDrops(items[1..], steps);
    if k < |steps| {
      var fewer := steps[..k] + steps[k + 1..];
      assert fewer[0] == steps[0] && fewer[1..] == rest[..k - 1] + rest[k..];
      PlayDrops(items[1..], fewer);
    }
  }

  lemma UntilLater<H>(steps: seq<Step<H>>)
    requires steps != [] && !steps[0].Event?
    ensures UntilEvent(steps) == 1 + UntilEvent(steps[1..])
  {
  }

  lemma DropFirst<H>(items: seq<Item<H>>, step: Step<H>)
    requires items != [] && !Kills(step, items[0])
    ensures var left := Drop(items, step); left != [] && left[0] == items[0] && left[1..] == Drop(items[1..], step)
  {
    assert Drop(items, step) == [items[0]] + Drop(items[1..], step);
  }

  lemma PlayDrops<H>(items: seq<Item<H>>, steps: seq<Step<H>>)
    requires steps != [] && !steps[0].Event?
    ensures Play(items, steps) == Play(Drop(items, steps[0]), steps[1..])
  {
  }

  lemma KilledLater<H>(x: Item<H>, steps: seq<Step<H>>, k: nat)
    requires 0 < k <= |steps| && !Kills(steps[0], x)
    ensures KilledBy(x, steps[..k]) <==> KilledBy(x, steps[1..][..k - 1])
  {
    assert steps[1..][..k - 1] == steps[..k][1..];
    if KilledBy(x, steps[..k]) {
      var i :| 0 <= i < k && Kills(steps[..k][i], x);
      assert Kills(steps[..k][1..][i - 1], x);
    }
  }

  lemma {:induction false} PlayIsSurvivors<H>(items: seq<Item<H>>, steps: seq<Step<H>>)
    ensures Play(items, steps) == Survivors(items, steps)
    decreases |items|
  {
    if items == [] {
      PlayNothing(steps);
    } else {
      PlayFirst(items, steps);
      var k := UntilEvent(steps);
      PlayIsSurvivors(items[1..], steps);
      if k < |steps| {
        PlayIsSurvivors(items[1..], steps[..k] + steps[k + 1..]);
      }
    }
  }

  /** Over any mix of Event with registrations, removals and mask changes between
      two Waits, Event returns exactly the reported bits, entry by entry and in the
      order In, Out, Err, without those invalidated before they were reached. */
  lemma DrainRefinement<H>(p: Poll<H>, steps: seq<Step<H>>)
    requires Inv(p) && LegalRun(p, steps) && NoWait(steps)
    ensures Returned(p, steps) == Survivors(Flat(p.buffer), steps)
  {
    ReturnedIsPlay(p, steps);
    PlayIsSurvivors(Flat(p.buffer), steps);
  }

  lemma {:induction false} PlayOnlyItems<H>(items: seq<Item<H>>, steps: seq<Step<H>>)
    ensures |Play(items, steps)| <= |items|
    ensures forall x :: x in Play(items, steps) ==> x in items
    decreases |steps|
  {
    hide Drop;
    if items == [] {
      PlayNothing<H>(steps);
    } else if steps != [] {
      if steps[0].Event? {
        PlayOnlyItems(items[1..], steps[1..]);
        assert Play(items, steps) == [items[0]] + Play(items[1..], steps[1..]);
        assert items == [items[0]] + items[1..];
      } else {
        DropKeeps(items, steps[0]);
        PlayOnlyItems(Drop(items, steps[0]), steps[1..]);
      }
    }
  }

  /** Once a handle is removed, or a bit disarmed, the next Wait is the earliest to
      bring such an event back; and a drain returns at most three events per entry. */
  lemma Silenced<H>(p: Poll<H>, step: Step<H>, rest: seq<Step<H>>, x: Item<H>)
    requires Inv(p) && LegalRun(p, [step] + rest) && NoWait(rest) && Kills(step, x)
    ensures LegalRun(Do(p, step), rest) && x !in Returned(Do(p, step), rest)
    ensures |Returned(Do(p, step), rest)| <= 3 * |p.buffer|
  {
    assert ([step] + rest)[1..] == rest;
    hide Inv, Do, Drop, Play, Returned, Flat;
    StepKeeps(p, step);
    StepDrops(p, step);
    DropKeeps(Flat(p.buffer), step);
    ReturnedIsPlay(Do(p, step), rest);
    PlayOnlyItems(Flat(Do(p, step).buffer), rest);
  }

  lemma {:induction false} RunAppend<H>(p: Poll<H>, steps: seq<Step<H>>, step: Step<H>)
    requires LegalRun(p, steps) && Legal(Final(p, steps), step)
    ensures LegalRun(p, steps + [step]) && Final(p, steps + [step]) == Do(Final(p, steps), step)
    ensures Returned(p, steps + [step]) == Returned(p, steps) + Returned(Final(p, steps), [step])
    decreases |steps|
  {
    var all := steps + [step];
    if steps == [] {
      assert all == [step];
    } else {
      RunAppend(Do(p, steps[0]), steps[1..], step);
      assert all[1..] == steps[1..] + [step] && all[0] == steps[0];
    }
  }

  // ---- Whole runs ----

  lemma RunJoins<H>(p: Poll<H>, step: Step<H>, a: seq<Step<H>>, b: seq<Step<H>>)
    requires Legal(p, step)
    requires var q := Do(p, step);
             && LegalRun(q, a) && LegalRun(Final(q, a), b) && LegalRun(q, a + b)
             && Returned(q, a + b) == Returned(q, a) + Returned(Final(q, a), b)
    ensures var c := [step] + a; var all := [step] + (a + b);
            && LegalRun(p, c) && Final(p, c) == Final(Do(p, step), a) && LegalRun(p, all)
            && Returned(p, all) == Returned(p, c) + Returned(Final(p, c), b)
  {
    var q := Do(p, step);
    hide Do, Legal, LegalRun, Returned, Final;
    RunOf(p, step, a);
    RunOf(p, step, a + b);
    Associates(Returned(p, [step]), Returned(q, a), Returned(Final(q, a), b));
  }

  lemma RunOf<H>(p: Poll<H>, step: Step<H>, rest: seq<Step<H>>)
    requires Legal(p, step) && LegalRun(Do(p, step), rest)
    ensures var all := [step] + rest;
            && LegalRun(p, all) && LegalRun(p, [step]) && Final(p, all) == Final(Do(p, step), rest)
            && Returned(p, all) == Returned(p, [step]) + Returned(Do(p, step), rest)
  {
    hide Do, Legal, Next;
    assert ([step] + rest)[1..] == rest;
  }

  lemma {:induction false} RunSplits<H>(p: Poll<H>, a: seq<Step<H>>, b: seq<Step<H>>)
    requires LegalRun(p, a + b)
    ensures LegalRun(p, a) && LegalRun(Final(p, a), b)
    ensures Returned(p, a + b) == Returned(p, a) + Returned(Final(p, a), b)
    decreases |a|
  {
    if a == [] {
      assert a + b == b;
    } else {
      var rest := a[1..];
      assert a == [a[0]] + rest && a + b == [a[0]] + (rest + b);
      assert (a + b)[1..] == rest + b;
      hide Do, Legal, Returned, Final;
      RunSplits(Do(p, a[0]), rest, b);
      RunJoins(p, a[0], rest, b);
    }
  }

  function UntilWait<H>(steps: seq<Step<H>>): (k: nat)
    ensures k <= |steps| && NoWait(steps[..k]) && (k < |steps| ==> steps[k].Wait?)
  {
    if steps == [] || steps[0].Wait? then 0
    else
      var k := UntilWait(steps[1..]);
      assert steps[..k + 1] == [steps[0]] + steps[1..][..k];
      1 + k
  }

  /** The events of a whole run told from its steps alone: after what was left at the
      start, each wait brings the bits it reports, and what is not taken before the
      next one is gone. */
  function Rounds<H(==)>(left: seq<Item<H>>, steps: seq<Step<H>>): seq<Item<H>>
    decreases |steps|
  {
    var k := UntilWait(steps);
    Survivors(left, steps[..k]) + if k == |steps| then [] else Rounds(Flat(steps[k].reported), steps[k + 1..])
  }

  lemma {:induction false} ReturnedIsRounds<H>(p: Poll<H>, steps: seq<Step<H>>)
    requires Inv(p) && LegalRun(p, steps)
    ensures Returned(p, steps) == Rounds(Flat(p.buffer), steps)
    decreases |steps|
  {
    var k := UntilWait(steps);
    var first := steps[..k];
    assert steps == first + steps[k..];
    RunSplits(p, first, steps[k..]);
    var q := Final(p, first);
    DrainRefinement(p, first);
    if k < |steps| {
      RunKeeps(p, first);
      assert steps[k..][0] == steps[k] && steps[k..][1..] == steps[k + 1..];
      WaitReturns(q, steps[k..]);
      ReturnedIsRounds(Do(q, steps[k]), steps[k + 1..]);
    } else {
      assert steps[k..] == [];
    }
  }

  /** After a wait the buffer holds what was reported, nothing else and nothing less. */
  lemma WaitReturns<H>(p: Poll<H>, steps: seq<Step<H>>)
    requires Inv(p) && LegalRun(p, steps) && steps != [] && steps[0].Wait?
    ensures Inv(Do(p, steps[0])) && LegalRun(Do(p, steps[0]), steps[1..])
    ensures Flat(Do(p, steps[0]).buffer) == Flat(steps[0].reported)
    ensures Returned(p, steps) == Returned(Do(p, steps[0]), steps[1..])
  {
    StepKeeps(p, steps[0]);
    hide Inv;
  }

  /** A wait and the drain of its batch. */
  lemma BatchReturned<H>(p: Poll<H>, reported: seq<Entry<H>>, steps: seq<Step<H>>)
    requires Inv(p) && LegalRun(p, [Wait(reported)] + steps) && NoWait(steps)
    ensures Returned(p, [Wait(reported)] + steps) == Survivors(Flat(reported), steps)
  {
    var all := [Wait(reported)] + steps;
    assert all[1..] == steps;
    WaitReturns(p, all);
    DrainRefinement(Do(p, all[0]), steps);
  }

  // ---- The poller in place ----

  class NetPollerHandle {
    var fd: int
    var events: Bits

    constructor (garbage: Handle)
      ensures fd == garbage.fd && events == garbage.events
    {
      fd, events := garbage.fd, garbage.events;
    }
  }

  class NetPoller {
    const events: array<Entry<NetPollerHandle>>
    var nevents: nat
    var index: nat
    var kernel: map<int, Interest<NetPollerHandle>>   // the epoll instance
    ghost const known: set<NetPollerHandle>

    ghost predicate Valid()
      reads this
    {
      events.Length == MAX_EVENTS && index <= nevents <= MAX_EVENTS
    }

    ghost function View(): (p: Poll<NetPollerHandle>)
      requires Valid()
      reads this, events, known
      ensures p.handles.Keys == known
    {
      Poll(map h | h in known :: Handle(h.fd, h.events), kernel, events[index..nevents])
    }

    constructor (first: NetPollerHandle, ghost known: set<NetPollerHandle>)
      ensures Valid() && this.known == known && fresh(events)
      ensures View().kernel == map[] && View().buffer == []
    {
      events := new Entry<NetPollerHandle>[MAX_EVENTS](_ => Entry(first, NO_BITS));
      nevents, index, kernel := 0, 0, map[];
      this.known := known;
    }

    method Add(fd: int, h: NetPollerHandle)
      requires Valid() && h in known
      modifies this`kernel, h
      ensures Valid() && View() == Do(old(View()), Step<NetPollerHandle>.Add(fd, h))
    {
      h.fd := fd;
      h.events := NO_BITS;
      if fd !in kernel {
        kernel := kernel[fd := Interest(h, NO_BITS)];
      }
    }

    /** epoll_ctl(MOD) with the handle's cached mask. */
    method Mod(h: NetPollerHandle)
      modifies this`kernel
      ensures kernel == if h.fd in old(kernel) then old(kernel)[h.fd := Interest(h, h.events)] else old(kernel)
    {
      if h.fd in kernel {
        kernel := kernel[h.fd := Interest(h, h.events)];
      }
    }

    /** The loop that ends Rm, ResetIn and ResetOut. */
    method Forget(h: NetPollerHandle, what: Bits)
      requires Valid()
      modifies events
      ensures events[index..nevents] == Invalidate(old(events[index..nevents]), h, what)
    {
      var i := index;
      while i < nevents
        invariant index <= i <= nevents
        invariant forall j :: index <= j < nevents ==> events[j] == if j < i then ClearFor(old(events[j]), h, what)
            else old(events[j])
      {
        if events[i].owner == h {
          events[i] := events[i].(events := Clear(events[i].events, what));
        }
        i := i + 1;
      }
      ghost var was := old(events[index..nevents]);
      assert forall k :: 0 <= k < |was| ==> was[k] == old(events[index + k]);
    }

    method Rm(h: NetPollerHandle)
      requires Valid() && h in known
      modifies this`kernel, events
      ensures Valid() && View() == Do(old(View()), Step<NetPollerHandle>.Rm(h))
    {
      kernel := kernel - {h.fd};
      Forget(h, ALL_BITS);
    }

    method SetIn(h: NetPollerHandle)
      requires Valid() && h in known
      modifies this`kernel, h`events
      ensures Valid() && View() == Do(old(View()), Step<NetPollerHandle>.SetIn(h))
    {
      if h.events.rd {
        return;
      }
      h.events := h.events.(rd := true);
      Mod(h);
    }

    method ResetIn(h: NetPollerHandle)
      requires Valid() && h in known
      modifies this`kernel, h`events, events
      ensures Valid() && View() == Do(old(View()), Step<NetPollerHandle>.ResetIn(h))
    {
      if !h.events.rd {
        return;
      }
      h.events := h.events.(rd := false);
      Mod(h);
      Forget(h, IN_BIT);
    }

    method SetOut(h: NetPollerHandle)
      requires Valid() && h in known
      modifies this`kernel, h`events
      ensures Valid() && View() == Do(old(View()), Step<NetPollerHandle>.SetOut(h))
    {
      if h.events.wr {
        return;
      }
      h.events := h.events.(wr := true);
      Mod(h);
    }

    method ResetOut(h: NetPollerHandle)
      requires Valid() && h in known
      modifies this`kernel, h`events, events
      ensures Valid() && View() == Do(old(View()), Step<NetPollerHandle>.ResetOut(h))
    {
      if !h.events.wr {
        return;
      }
      h.events := h.events.(wr := false);
      Mod(h);
      Forget(h, OUT_BIT);
    }

    /** epoll_wait fills the array with what the kernel reports. */
    method Wait(reported: seq<Entry<NetPollerHandle>>)
      requires Valid() && |reported| <= MAX_EVENTS
      modifies this`nevents, this`index, events
      ensures Valid() && View() == Do(old(View()), Step.Wait(reported))
      ensures index == 0 && events[..nevents] == reported && Flat(View().buffer) == Flat(reported)
    {
      nevents := 0;
      index := 0;
      forall i | 0 <= i < |reported| {
        events[i] := reported[i];
      }
      nevents := |reported|;
      assert events[..nevents] == reported;
    }

    /** The loop at the head of Event: step over spent entries. */
    method Skip()
      requires Valid()
      modifies this`index
      ensures Valid() && Next(View().buffer) == Next(old(View()).buffer)
      ensures index < nevents ==> events[index].events != NO_BITS
    {
      ghost var buffer := View().buffer;
      while index < nevents && events[index].events == NO_BITS
        invariant Valid() && Next(buffer) == Next(events[index..nevents])
        decreases nevents - index
      {
        assert events[index..nevents][1..] == events[index + 1..nevents];
        index := index + 1;
      }
    }

    method Event() returns (r: Option<Item<NetPollerHandle>>)
      requires Valid()
      modifies this`index, events
      ensures Valid() && View() == Do(old(View()), Step<NetPollerHandle>.Event)
      ensures r == Next(old(View()).buffer).0
    {
      Skip();
      if index >= nevents {
        return None;
      }
      hide Next;
      r := Take();
    }

    /** The rest of Event: one bit of the entry at index_. */
    method Take() returns (r: Option<Item<NetPollerHandle>>)
      requires Valid() && index < nevents && events[index].events != NO_BITS
      modifies this`index, events
      ensures Valid() && (r, events[index..nevents]) == Next(old(events[index..nevents]))
    {
      ghost var rest := events[index + 1..nevents];
      var e := events[index];
      assert events[index..nevents] == [e] + rest;
      LiveIs(e, rest);
      hide Next;
      if e.events.rd {
        r := Some(Item(e.owner, IN));
        events[index] := e.(events := e.events.(rd := false));
        assert events[index..nevents] == [events[index]] + rest;
      } else if e.events.wr {
        r := Some(Item(e.owner, OUT));
        events[index] := e.(events := e.events.(wr := false));
        assert events[index..nevents] == [events[index]] + rest;
      } else {
        r := Some(Item(e.owner, ERR));
        index := index + 1;
      }
    }

    lemma LiveIs(e: Entry<NetPollerHandle>, rest: seq<Entry<NetPollerHandle>>)
      requires e.events != NO_BITS
      ensures Next([e] + rest) ==
              if e.events.rd then (Some(Item(e.owner, IN)), [e.(events := e.events.(rd := false))] + rest)
              else if e.events.wr then (Some(Item(e.owner, OUT)), [e.(events := e.events.(wr := false))] + rest)
              else (Some(Item(e.owner, ERR)), rest)
    {
      assert ([e] + rest)[1..] == rest;
    }

    /** Whether the operation is one that Legal allows. */
    predicate Admits(step: Step<NetPollerHandle>)
      requires !step.Wait? && !step.Event?
      reads this, step.h
    {
      var mine := step.h.fd in kernel && kernel[step.h.fd].owner == step.h;
      if step.Add? then step.fd !in kernel && !mine else step.h.fd in kernel ==> mine
    }

    method Perform(step: Step<NetPollerHandle>)
      requires Valid() && !step.Wait? && !step.Event? && step.h in known
      modifies this`kernel, step.h, events
      ensures Valid() && View() == Do(old(View()), step)
    {
      match step
      case Add(fd, h) => Add(fd, h);
      case Rm(h) => Rm(h);
      case SetIn(h) => SetIn(h);
      case ResetIn(h) => ResetIn(h);
      case SetOut(h) => SetOut(h);
      case ResetOut(h) => ResetOut(h);
    }

    /** The worker's inner loop over the buffered events, where the n-th handler run
        performs the operations handlers[n], on any handles, as far as they are legal:
        it ends with nothing left, and what it handed out are the surviving events of
        the batch. */
    method Drain(handlers: seq<seq<Step<NetPollerHandle>>>)
      returns (got: seq<Item<NetPollerHandle>>, ghost steps: seq<Step<NetPollerHandle>>)
      requires Valid() && Inv(View()) && forall i :: 0 <= i < |handlers| ==> Performable(handlers[i])
      modifies this`kernel, this`index, events, known
      ensures Valid() && Inv(View()) && Flat(View().buffer) == []
      ensures LegalRun(old(View()), steps) && NoWait(steps) && View() == Final(old(View()), steps)
      ensures got == Survivors(Flat(old(View()).buffer), steps) && |got| <= 3 * old(nevents - index)
    {
      ghost var start := View();
      assert |start.buffer| == nevents - index;
      hide Inv, Do, Legal, LegalRun, Final, Returned, Next, NetPoller.View, Flat, Survivors, NoWait;
      got, steps := [], [];
      StartsEmpty(start);
      var done := false;
      while !done
        invariant Valid() && Inv(View())
        invariant LegalRun(start, steps) && NoWait(steps) && View() == Final(start, steps)
            && got == Returned(start, steps)
        invariant done ==> Flat(View().buffer) == []
        decreases !done, |Flat(View().buffer)|
      {
        EventAppends(start, steps, View());
        var more := Event();
        steps := steps + [Step<NetPollerHandle>.Event];
        match more
        case None => done := true;
        case Some(x) =>
          if |got| < |handlers| {
            steps := RunHandler(handlers[|got|], start, steps);
          }
          got := got + [x];
      }
      DrainRefinement(start, steps);
      AtMostThree(start, steps);
    }

    /** One handler run. */
    method RunHandler(todo: seq<Step<NetPollerHandle>>, ghost start: Poll<NetPollerHandle>,
        ghost before: seq<Step<NetPollerHandle>>) returns (ghost steps: seq<Step<NetPollerHandle>>)
      requires Valid() && Inv(View()) && LegalRun(start, before) && NoWait(before) && View() == Final(start, before)
      requires Performable(todo)
      modifies this`kernel, events, known
      ensures Valid() && Inv(View()) && LegalRun(start, steps) && NoWait(steps) && View() == Final(start, steps)
      ensures Returned(start, steps) == Returned(start, before)
      ensures |Flat(View().buffer)| <= |Flat(old(View()).buffer)|
    {
      hide Inv, Do, Legal, LegalRun, Final, Returned, NetPoller.View, Flat, NoWait;
      steps := before;
      var i := 0;
      while i < |todo|
        invariant 0 <= i <= |todo| && Valid() && Inv(View())
        invariant LegalRun(start, steps) && NoWait(steps) && View() == Final(start, steps)
        invariant Returned(start, steps) == Returned(start, before)
        invariant |Flat(View().buffer)| <= |Flat(old(View()).buffer)|
      {
        if Admits(todo[i]) {
          AdmitsLegal(todo[i]);
          OperationAppends(start, steps, View(), todo[i]);
          Perform(todo[i]);
          steps := steps + [todo[i]];
        }
        i := i + 1;
      }
    }

    ghost predicate Performable(todo: seq<Step<NetPollerHandle>>) {
      forall i :: 0 <= i < |todo| ==> !todo[i].Wait? && !todo[i].Event? && todo[i].h in known
    }

    lemma AdmitsLegal(step: Step<NetPollerHandle>)
      requires Valid() && !step.Wait? && !step.Event? && step.h in known
      ensures Admits(step) <==> Legal(View(), step)
    {
    }
  }

  lemma StartsEmpty<H>(p: Poll<H>)
    ensures LegalRun(p, []) && NoWait<H>([]) && Final(p, []) == p && Returned(p, []) == []
  {
  }

  lemma AtMostThree<H>(p: Poll<H>, steps: seq<Step<H>>)
    requires Inv(p) && LegalRun(p, steps) && NoWait(steps)
    ensures |Returned(p, steps)| <= 3 * |p.buffer|
  {
    hide Inv, LegalRun, NoWait, Returned, Play;
    ReturnedIsPlay(p, steps);
    PlayOnlyItems(Flat(p.buffer), steps);
  }

  lemma BufferWanted<H>(p: Poll<H>)
    requires Inv(p)
    ensures forall i :: 0 <= i < |p.buffer| ==> Wanted(p, p.buffer[i])
  {
  }

  lemma EventAppends<H>(start: Poll<H>, before: seq<Step<H>>, p: Poll<H>)
    requires Inv(p) && LegalRun(start, before) && NoWait(before) && p == Final(start, before)
    ensures var steps, q, x := before + [Step<H>.Event], Do(p, Step<H>.Event), Next(p.buffer).0;
            && Inv(q) && LegalRun(start, steps) && NoWait(steps) && q == Final(start, steps)
            && Returned(start, steps) == Returned(start, before) + (if x == None then [] else [x.value])
            && (if x == None then Flat(q.buffer) == []
                else Registered(q, x.value.owner) && |Flat(q.buffer)| < |Flat(p.buffer)|)
  {
    hide Inv, Flat, Next, LegalRun, Final, Returned;
    var step := Step<H>.Event;
    BufferWanted(p);
    NextWanted(p, p.buffer);
    NextIsHead(p.buffer);
    StepKeeps(p, step);
    RunAppend(start, before, step);
    EventReturns(p);
  }

  lemma EventReturns<H>(p: Poll<H>)
    ensures Returned(p, [Step<H>.Event]) == (if Next(p.buffer).0 == None then [] else [Next(p.buffer).0.value])
  {
    hide Next;
  }

  lemma OperationAppends<H>(start: Poll<H>, before: seq<Step<H>>, p: Poll<H>, step: Step<H>)
    requires Inv(p) && LegalRun(start, before) && NoWait(before) && p == Final(start, before)
    requires !step.Wait? && !step.Event? && Legal(p, step)
    ensures var steps, q := before + [step], Do(p, step);
            && Inv(q) && LegalRun(start, steps) && NoWait(steps) && q == Final(start, steps)
            && Returned(start, steps) == Returned(start, before)
            && |Flat(q.buffer)| <= |Flat(p.buffer)|
  {
    hide Inv, Do, Legal, LegalRun, Final, Returned, Flat, Drop;
    StepKeeps(p, step);
    StepDrops(p, step);
    DropKeeps(Flat(p.buffer), step);
    RunAppend(start, before, step);
    OperationReturns(p, step);
  }

  lemma OperationReturns<H>(p: Poll<H>, step: Step<H>)
    requires Legal(p, step) && !step.Event?
    ensures LegalRun(p, [step]) && Returned(p, [step]) == []
  {
  }
}
