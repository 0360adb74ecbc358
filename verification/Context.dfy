/** The critical section of ctx.cpp with the events of fsm.cpp: run something, drain
    the context's own events before unlocking, hand the external ones over after it.

    An event is an object that is queued intrusively.  Raising it overwrites its
    fields and then pushes it, and a push of a queued item does nothing: an event
    raised while it is queued is delivered once, with the later fields. */
module Contexts {
  import opened Sequences

  /** What a handler is called with; `ptr` stands for srcptr. */
  datatype Fields = Fields(src: int, typ: int, ptr: int)

  const RESET := Fields(-1, -1, 0)

  /** Raise, or RaiseTo when `ext`. */
  datatype Raise<E> = Raise(ev: E, fields: Fields, ext: bool)

  datatype Ctx<E(==)> = Ctx(events: seq<E>, eventsto: seq<E>, fields: map<E, Fields>)

  datatype Delivered<E> = Delivered(ev: E, fields: Fields)

  predicate Queued<E(==)>(c: Ctx<E>, ev: E) {
    ev in c.events || ev in c.eventsto
  }

  function DoRaise<E(==)>(c: Ctx<E>, r: Raise<E>): Ctx<E> {
    var d := c.(fields := c.fields[r.ev := r.fields]);
    if Queued(c, r.ev) then d
    else if r.ext then d.(eventsto := c.eventsto + [r.ev])
    else d.(events := c.events + [r.ev])
  }

  function RaiseAll<E(==)>(c: Ctx<E>, rs: seq<Raise<E>>): Ctx<E>
    decreases |rs|
  {
    if rs == [] then c else RaiseAll(DoRaise(c, rs[0]), rs[1..])
  }

  /** NetFsmEvent::Process takes the fields of the event and resets them. */
  function Popped<E(==)>(c: Ctx<E>): Ctx<E>
    requires c.events != []
  {
    c.(events := c.events[1..], fields := c.fields[c.events[0] := RESET])
  }

  function FieldsOf<E(==)>(c: Ctx<E>, ev: E): Fields {
    if ev in c.fields then c.fields[ev] else RESET
  }

  /** The drain loop; `reactions[n]` is what the handler raises at the n-th event, and later ones raise nothing. */
  function Drain<E(==)>(c: Ctx<E>, reactions: seq<seq<Raise<E>>>): (seq<Delivered<E>>, Ctx<E>)
    decreases |reactions|, |c.events|
  {
    if c.events == [] then ([], c)
    else
      var first := Delivered(c.events[0], FieldsOf(c, c.events[0]));
      var rest := if reactions == [] then Drain(Popped(c), [])
          else Drain(RaiseAll(Popped(c), reactions[0]), reactions[1..]);
      ([first] + rest.0, rest.1)
  }

  // ---- What the drain promises ----

  /** Everything raised while the context drains, in order. */
  function RaisedIn<E(==)>(c: Ctx<E>, reactions: seq<seq<Raise<E>>>): seq<Raise<E>>
    decreases |reactions|, |c.events|
  {
    if c.events == [] || reactions == [] then []
    else reactions[0] + RaisedIn(RaiseAll(Popped(c), reactions[0]), reactions[1..])
  }

  /** How often an event was raised that was still queued. */
  function Clashes<E(==)>(c: Ctx<E>, rs: seq<Raise<E>>): nat
    decreases |rs|
  {
    if rs == [] then 0
    else (if Queued(c, rs[0].ev) then 1 else 0) + Clashes(DoRaise(c, rs[0]), rs[1..])
  }

  function DrainClashes<E(==)>(c: Ctx<E>, reactions: seq<seq<Raise<E>>>): nat
    decreases |reactions|, |c.events|
  {
    if c.events == [] || reactions == [] then 0
    else
      Clashes(Popped(c), reactions[0]) + DrainClashes(RaiseAll(Popped(c), reactions[0]), reactions[1..])
  }

  /** The raises of one kind, as deliveries. */
  function Of<E>(rs: seq<Raise<E>>, ext: bool): seq<Delivered<E>> {
    if rs == [] then []
    else (if rs[0].ext == ext then [Delivered(rs[0].ev, rs[0].fields)] else []) + Of(rs[1..], ext)
  }

  /** The events of a queue with the fields they have now. */
  function Waiting<E(==)>(c: Ctx<E>, q: seq<E>): (s: seq<Delivered<E>>)
    ensures |s| == |q|
  {
    if q == [] then [] else [Delivered(q[0], FieldsOf(c, q[0]))] + Waiting(c, q[1..])
  }

  ghost predicate Ok<E>(c: Ctx<E>) {
    && Distinct(c.events) && Distinct(c.eventsto)
    && (forall i, j :: 0 <= i < |c.events| && 0 <= j < |c.eventsto| ==> c.events[i] != c.eventsto[j])
  }

  lemma {:induction false} OfJoin<E>(a: seq<Raise<E>>, b: seq<Raise<E>>, ext: bool)
    ensures Of(a + b, ext) == Of(a, ext) + Of(b, ext)
  {
    if a == [] {
      assert a + b == b;
    } else {
      OfJoin(a[1..], b, ext);
      assert (a + b)[1..] == a[1..] + b;
      Associates(if a[0].ext == ext then [Delivered(a[0].ev, a[0].fields)] else [], Of(a[1..], ext), Of(b, ext));
    }
  }

  lemma {:induction false} WaitingSame<E>(c: Ctx<E>, d: Ctx<E>, q: seq<E>)
    requires forall i :: 0 <= i < |q| ==> FieldsOf(c, q[i]) == FieldsOf(d, q[i])
    ensures Waiting(c, q) == Waiting(d, q)
  {
    if q != [] {
      WaitingSame(c, d, q[1..]);
    }
  }

  lemma {:induction false} WaitingJoin<E>(c: Ctx<E>, q: seq<E>, ev: E)
    ensures Waiting(c, q + [ev]) == Waiting(c, q) + [Delivered(ev, FieldsOf(c, ev))]
  {
    if q != [] {
      WaitingJoin(c, q[1..], ev);
      assert (q + [ev])[1..] == q[1..] + [ev];
    }
  }

  lemma RaiseOk<E>(c: Ctx<E>, r: Raise<E>)
    requires Ok(c)
    ensures Ok(DoRaise(c, r))
  {
  }

  lemma PopOk<E>(c: Ctx<E>)
    requires Ok(c) && c.events != []
    ensures Ok(Popped(c))
    ensures Waiting(c, c.events) == [Delivered(c.events[0], FieldsOf(c, c.events[0]))]
        + Waiting(Popped(c), Popped(c).events)
    ensures Waiting(Popped(c), c.eventsto) == Waiting(c, c.eventsto)
  {
    WaitingSame(c, Popped(c), c.events[1..]);
    WaitingSame(c, Popped(c), c.eventsto);
  }

  /** Raising an event that is not queued appends one delivery to its queue and disturbs no other. */
  lemma RaiseAppends<E>(c: Ctx<E>, r: Raise<E>)
    requires Ok(c) && !Queued(c, r.ev)
    ensures var d := DoRaise(c, r);
            && Waiting(d, d.events) == Waiting(c, c.events) + Of([r], false)
            && Waiting(d, d.eventsto) == Waiting(c, c.eventsto) + Of([r], true)
  {
    var d := DoRaise(c, r);
    WaitingSame(c, d, c.events);
    WaitingSame(c, d, c.eventsto);
    if r.ext {
      WaitingJoin(d, c.eventsto, r.ev);
    } else {
      WaitingJoin(d, c.events, r.ev);
    }
  }

  lemma {:induction false} RaiseAllOk<E>(c: Ctx<E>, rs: seq<Raise<E>>)
    requires Ok(c)
    ensures Ok(RaiseAll(c, rs))
    ensures var d := RaiseAll(c, rs);
            && |d.events| + |d.eventsto| + Clashes(c, rs) == |c.events| + |c.eventsto| + |rs|
            && (Clashes(c, rs) == 0 ==>
                  && Waiting(d, d.events) == Waiting(c, c.events) + Of(rs, false)
                  && Waiting(d, d.eventsto) == Waiting(c, c.eventsto) + Of(rs, true))
    decreases |rs|
  {
    if rs != [] {
      var r, rest := rs[0], rs[1..];
      RaiseOk(c, r);
      RaiseAllOk(DoRaise(c, r), rest);
      if !Queued(c, r.ev) {
        RaiseAppends(c, r);
        assert rs == [r] + rest;
        OfJoin([r], rest, false);
        OfJoin([r], rest, true);
        Associates(Waiting(c, c.events), Of([r], false), Of(rest, false));
        Associates(Waiting(c, c.eventsto), Of([r], true), Of(rest, true));
      }
    }
  }

  /** Nothing is lost and nothing invented by a drain from c to d that delivers
      `done` while `rs` are raised, `clashes` of them onto queued events. */
  predicate Exact<E(==)>(c: Ctx<E>, rs: seq<Raise<E>>, clashes: nat, done: seq<Delivered<E>>, d: Ctx<E>) {
    && |done| + |d.eventsto| + clashes == |c.events| + |c.eventsto| + |rs|
    && (clashes == 0 ==>
          && done == Waiting(c, c.events) + Of(rs, false)
          && Waiting(d, d.eventsto) == Waiting(c, c.eventsto) + Of(rs, true))
  }

  lemma {:induction false} DrainExact<E>(c: Ctx<E>, reactions: seq<seq<Raise<E>>>)
    requires Ok(c)
    ensures var r := Drain(c, reactions);
            Ok(r.1) && r.1.events == [] && Exact(c, RaisedIn(c, reactions), DrainClashes(c, reactions), r.0, r.1)
    decreases |reactions|, |c.events|
  {
    hide Ok, Exact, Waiting;
    if c.events == [] {
      NothingToDrain(c);
    } else {
      PopOk(c);
      if reactions == [] {
        DrainExact(Popped(c), []);
        QuietPop(c);
      } else {
        RaiseAllOk(Popped(c), reactions[0]);
        DrainExact(RaiseAll(Popped(c), reactions[0]), reactions[1..]);
        ReactingPop(c, reactions);
      }
    }
  }

  lemma NothingToDrain<E>(c: Ctx<E>)
    requires c.events == []
    ensures Exact(c, [], 0, [], c)
  {
  }

  lemma QuietPop<E>(c: Ctx<E>)
    requires Ok(c) && c.events != []
    requires var p := Popped(c); var r := Drain(p, []); Exact(p, [], 0, r.0, r.1)
    ensures var r := Drain(c, []); Exact(c, [], 0, r.0, r.1)
  {
    PopOk(c);
    hide Waiting, Ok;
    var first := Delivered(c.events[0], FieldsOf(c, c.events[0]));
    Associates([first], Waiting(Popped(c), Popped(c).events), Of<E>([], false));
  }

  lemma ReactingPop<E>(c: Ctx<E>, reactions: seq<seq<Raise<E>>>)
    requires Ok(c) && c.events != [] && reactions != []
    requires var q := RaiseAll(Popped(c), reactions[0]); var r := Drain(q, reactions[1..]);
             Exact(q, RaisedIn(q, reactions[1..]), DrainClashes(q, reactions[1..]), r.0, r.1)
    ensures var r := Drain(c, reactions); Exact(c, RaisedIn(c, reactions), DrainClashes(c, reactions), r.0, r.1)
  {
    PopOk(c);
    var p, now, later := Popped(c), reactions[0], reactions[1..];
    var q := RaiseAll(p, now);
    RaiseAllOk(p, now);
    hide Waiting, Ok, Of, RaiseAll, Clashes;
    var first := Delivered(c.events[0], FieldsOf(c, c.events[0]));
    var more := RaisedIn(q, later);
    OfJoin(now, more, false);
    OfJoin(now, more, true);
    Associates(Waiting(p, p.events), Of(now, false), Of(more, false));
    Associates([first], Waiting(p, p.events), Of(now, false) + Of(more, false));
    Associates(Waiting(p, p.eventsto), Of(now, true), Of(more, true));
  }

  /** The whole critical section, entered with whatever has been raised outside it:
      what func raises, then the drain. */
  function Section<E(==)>(c: Ctx<E>, func: seq<Raise<E>>, reactions: seq<seq<Raise<E>>>): (seq<Delivered<E>>, Ctx<E>) {
    Drain(RaiseAll(c, func), reactions)
  }

  function AllRaised<E(==)>(c: Ctx<E>, func: seq<Raise<E>>, reactions: seq<seq<Raise<E>>>): seq<Raise<E>> {
    func + RaisedIn(RaiseAll(c, func), reactions)
  }

  /** No event is raised, by func or by a handler, while it is still queued. */
  predicate NoClash<E(==)>(c: Ctx<E>, func: seq<Raise<E>>, reactions: seq<seq<Raise<E>>>) {
    Clashes(c, func) == 0 && DrainClashes(RaiseAll(c, func), reactions) == 0
  }

  /** A critical section delivers the events that were waiting and then those raised in
      it, exactly as they were raised (each once, in order, with its own fields; the
      external ones left for after the unlock) if and only if none was raised while it
      was queued. */
  lemma DeliveredIffNoClash<E>(c: Ctx<E>, func: seq<Raise<E>>, reactions: seq<seq<Raise<E>>>)
    requires Ok(c)
    ensures var r, rs := Section(c, func, reactions), AllRaised(c, func, reactions);
            && r.1.events == []
            && (r.0 == Waiting(c, c.events) + Of(rs, false)
                && Waiting(r.1, r.1.eventsto) == Waiting(c, c.eventsto) + Of(rs, true) <==>
                NoClash(c, func, reactions))
  {
    hide RaiseAll, Drain, RaisedIn, Clashes, DrainClashes, Of, Waiting, Ok;
    var d := RaiseAll(c, func);
    RaiseAllOk(c, func);
    DrainExact(d, reactions);
    var later := RaisedIn(d, reactions);
    OfJoin(func, later, false);
    OfJoin(func, later, true);
    Kinds(func + later);
    Associates(Waiting(c, c.events), Of(func, false), Of(later, false));
    Associates(Waiting(c, c.eventsto), Of(func, true), Of(later, true));
  }

  lemma {:induction false} Kinds<E>(rs: seq<Raise<E>>)
    ensures |Of(rs, false)| + |Of(rs, true)| == |rs|
  {
    if rs != [] {
      Kinds(rs[1..]);
    }
  }

  /** An event that is not queued is blank. */
  ghost predicate Blank<E(!new)>(c: Ctx<E>) {
    forall ev :: !Queued(c, ev) ==> FieldsOf(c, ev) == RESET
  }

  lemma {:induction false} RaisesBlank<E(!new)>(c: Ctx<E>, rs: seq<Raise<E>>)
    requires Blank(c)
    ensures Blank(RaiseAll(c, rs))
    decreases |rs|
  {
    if rs != [] {
      var d := DoRaise(c, rs[0]);
      forall ev | !Queued(d, ev) ensures FieldsOf(d, ev) == RESET {
        assert rs[0].ev in d.events || rs[0].ev in d.eventsto;
        assert !Queued(c, ev);
      }
      RaisesBlank(d, rs[1..]);
    }
  }

  /** A drain leaves no fields behind: whatever it delivered and did not raise again is
      blank when the next raise comes. */
  lemma {:induction false} DrainBlank<E(!new)>(c: Ctx<E>, reactions: seq<seq<Raise<E>>>)
    requires Blank(c)
    ensures Blank(Drain(c, reactions).1)
    decreases |reactions|, |c.events|
  {
    if c.events != [] {
      var p := Popped(c);
      forall ev | !Queued(p, ev) ensures FieldsOf(p, ev) == RESET {
        assert ev != c.events[0] ==> !Queued(c, ev);
      }
      if reactions == [] {
        DrainBlank(p, []);
      } else {
        RaisesBlank(p, reactions[0]);
        DrainBlank(RaiseAll(p, reactions[0]), reactions[1..]);
      }
    }
  }

  // ---- The context in place ----

  class NetCtx<E(==)> {
    var locked: bool
    var events: seq<E>
    var eventsto: seq<E>
    var fields: map<E, Fields>   // the events' own fields

    ghost function View(): Ctx<E>
      reads this
    {
      Ctx(events, eventsto, fields)
    }

    constructor ()
      ensures !locked && View() == Ctx([], [], map[])
    {
      locked, events, eventsto, fields := false, [], [], map[];
    }

    /** NetFsm::Raise and RaiseTo, with the push of NetQueue. */
    method Raise(r: Raise<E>)
      modifies this`events, this`eventsto, this`fields
      ensures View() == DoRaise(old(View()), r)
    {
      fields := fields[r.ev := r.fields];
      if r.ev in events || r.ev in eventsto {
        return;
      }
      if r.ext {
        eventsto := eventsto + [r.ev];
      } else {
        events := events + [r.ev];
      }
    }

    /** A handler call, as far as it raises events. */
    method Run(rs: seq<Raise<E>>)
      modifies this`events, this`eventsto, this`fields
      ensures View() == RaiseAll(old(View()), rs)
    {
      ghost var start := View();
      var i := 0;
      while i < |rs|
        invariant 0 <= i <= |rs| && RaiseAll(start, rs) == RaiseAll(View(), rs[i..])
      {
        Raise(rs[i]);
        assert rs[i..][1..] == rs[i + 1..];
        i := i + 1;
      }
    }

    /** Pop, and NetFsmEvent::Process up to the call of the handler. */
    method Take() returns (d: Delivered<E>)
      requires events != []
      modifies this`events, this`fields
      ensures d == Delivered(old(events[0]), FieldsOf(old(View()), old(events[0]))) && View() == Popped(old(View()))
    {
      d := Delivered(events[0], if events[0] in fields then fields[events[0]] else RESET);
      fields := fields[events[0] := RESET];
      events := events[1..];
    }

    /** Enter, run func, drain, unlock, and only then hand over the external events
        in the order they were raised; the context is left empty and unlocked. */
    method ExecuteCriticalSection(func: seq<Raise<E>>, reactions: seq<seq<Raise<E>>>)
      returns (processed: seq<Delivered<E>>, handed: seq<Delivered<E>>)
      requires !locked && Ok(View())
      modifies this
      ensures !locked && events == [] && eventsto == []
      ensures var r := Section(old(View()), func, reactions);
              processed == r.0 && handed == Waiting(r.1, r.1.eventsto)
    {
      hide Waiting, Ok, Drain, RaiseAll;
      ghost var start := View();
      locked := true;
      Run(func);
      processed := DrainEvents(reactions);
      assert Distinct(eventsto) && events == [] by {
        SectionOk(start, func, reactions);
      }
      ghost var end := View();
      var batch := eventsto;
      eventsto := [];
      locked := false;
      handed := HandOver(batch, end);
    }

    /** The loop after the unlock; each event is processed in its target's context. */
    method HandOver(batch: seq<E>, ghost end: Ctx<E>) returns (handed: seq<Delivered<E>>)
      requires !locked && Distinct(batch) && fields == end.fields
      modifies this`fields
      ensures handed == Waiting(end, batch)
    {
      handed := [];
      var rest := batch;
      assert View().fields == end.fields;
      WaitingSame(View(), end, batch);
      while rest != []
        invariant Distinct(rest) && handed + Waiting(View(), rest) == Waiting(end, batch)
        decreases |rest|
      {
        var ev := rest[0];
        ghost var was := View();
        handed := handed + [Delivered(ev, if ev in fields then fields[ev] else RESET)];
        fields := fields[ev := RESET];
        rest := rest[1..];
        WaitingSame(was, View(), rest);
      }
    }

    static lemma SectionOk(c: Ctx<E>, func: seq<Raise<E>>, reactions: seq<seq<Raise<E>>>)
      requires Ok(c)
      ensures var d := Section(c, func, reactions).1; d.events == [] && Distinct(d.eventsto)
    {
      RaiseAllOk(c, func);
      DrainExact(RaiseAll(c, func), reactions);
    }

    /** The loop before the unlock. */
    method DrainEvents(reactions: seq<seq<Raise<E>>>) returns (processed: seq<Delivered<E>>)
      requires locked
      modifies this`events, this`eventsto, this`fields
      ensures var r := Drain(old(View()), reactions); processed == r.0 && View() == r.1
    {
      ghost var start := View();
      processed := [];
      var n := 0;
      while events != []
        invariant 0 <= n <= |reactions|
        invariant var r, rest := Drain(start, reactions), Drain(View(), reactions[n..]);
                  r.0 == processed + rest.0 && r.1 == rest.1
        decreases |reactions| - n, |events|
      {
        var d := Take();
        processed := processed + [d];
        if n < |reactions| {
          assert reactions[n..][1..] == reactions[n + 1..];
          Run(reactions[n]);
          n := n + 1;
        }
      }
    }
  }
}
