/** What becomes of a queue: an active socket that is not doomed can always empty it. */
module EngineDelivery {
  import opened SocketFsm
  import opened Sequences
  import opened Sockets
  import opened SocketInv
  import opened Engine
  import opened EngineInv
  import opened EngineRuns
  import opened EngineSockets
  import opened EngineTheorems
  import opened EngineRaces
  import opened Framing

  /** The kernel has not reported an error, and an unregistered handle names no open descriptor. */
  predicate Unharmed(s: Sock, open: map<int, int>) {
    !s.buf.er && s.work != RunIo(FD_ERR) && (s.reg || s.cache.wr || s.hfd !in open)
  }

  predicate Hopeful(s: Sock, open: map<int, int>) {
    OutboundOk(s) && s.st == ACTIVE && !Doomed(s) && Unharmed(s, open)
  }

  predicate Emptied(s: Sock) {
    AtRest(s) && s.queued == 0 && !s.busy
  }

  const SENT: Kernel := Kernel(0, Complete, WouldBlock)

  /** A schedule: finish the critical section, serve what is in hand, fetch, pop, let
      the creator and then the senders go on, and when all are at rest report OUT. */
  function Advice(s: Sock, id: int): Step {
    if s.locked then if s.events != [] then Drain(id) else Leave(id)
    else if s.work != NoWork then Enter(id, SENT)
    else if s.buf != NO_BITS then Fetch(id)
    else if s.pend != [] then Pop(id)
    else if s.caller != CNone then CallerStep(id)
    else if s.senders > 0 then SenderPost(id)
    else Wait(id, Bits(false, true, false))
  }

  // ---- What decreases ----

  /** Steps left to threads inside SendMsg. */
  function Callers(s: Sock): nat {
    s.senders + match s.caller
                case CNone => 0
                case CExecSend => 1
                case CPush => 2
                case CRaiseConnected => 3
                case CExecConnected => 4
                case _ => 5
  }

  function Messages(s: Sock): nat {
    s.queued + if s.busy then 1 else 0
  }

  predicate Calm(s: Sock) {
    s.caller == CNone && s.senders == 0 && s.pend == [] && !s.locked && s.events == []
  }

  /** Steps left to the worker before the next message goes out, or before it comes to rest. */
  function Chores(s: Sock): nat {
    if Calm(s) && Messages(s) > 0 && s.work == NoWork && s.buf == NO_BITS then 3
    else if Calm(s) && Messages(s) > 0 && s.work == NoWork then 2
    else if Calm(s) && Messages(s) > 0 && s.work == RunIo(FD_OUT) && s.buf == NO_BITS then 1
    else
      4 + 3 * |s.pend| + (if s.work != NoWork then 2 else 0) + (if s.locked then 1 else 0)
      + (if s.buf != NO_BITS then 3 else 0) + |s.events| + if Queued(s.events, Established) then 3 else 0
  }

  predicate Less(t: Sock, s: Sock) {
    || Callers(t) < Callers(s)
    || (Callers(t) == Callers(s) && Messages(t) < Messages(s))
    || (Callers(t) == Callers(s) && Messages(t) == Messages(s) && Chores(t) < Chores(s))
  }

  // ---- One step ----

  /** The advised step can be taken, and brings the socket nearer to an empty queue. */
  predicate Nearer(s: Sock, step: Step, open: map<int, int>) {
    && OutboundOk(s) && Ready(s, step) && Plain(s, open, step) && Next(s, step).fd == s.fd
    && Hopeful(Next(s, step), open) && Less(Next(s, step), s)
  }

  lemma LeavesNearer(s: Sock, id: int, open: map<int, int>)
    requires Hopeful(s, open) && s.locked && s.events == []
    ensures Nearer(s, Leave(id), open)
  {
    NextOk(s, Leave(id));
  }

  lemma DrainsNearer(s: Sock, id: int, open: map<int, int>)
    requires Hopeful(s, open) && s.locked && s.events != []
    ensures Nearer(s, Drain(id), open)
  {
    NextOk(s, Drain(id));
    TakenEvents(s);
  }

  /** A task arms or registers the descriptor and nothing else. */
  lemma TaskServed(s: Sock)
    requires OutboundOk(s) && !s.locked && s.work.RunTask? && s.st == ACTIVE
    ensures var t := Entering(s, SENT);
            && t == s.(locked := true, work := NoWork, reg := t.reg, kernel := t.kernel, cache := t.cache, hfd := t.hfd,
                       log := t.log)
            && t.log.missed == s.log.missed && (s.reg ==> t.reg) && (s.cache.wr ==> t.reg || t.cache.wr)
            && (!t.reg ==> t.hfd == s.hfd)
  {
    OutboundTasks(s);
    if s.work.task != TSend {
      TaskRegisters(s);
    }
    hide OutboundOk, Perform, Dispatch;
  }

  /** An OUT event takes one message further, or disarms OUT when there is none. */
  lemma OutServed(s: Sock)
    requires OutboundOk(s) && !s.locked && s.work == RunIo(FD_OUT) && s.st == ACTIVE
    ensures var t := Entering(s, SENT);
            && t.st == ACTIVE && t.fd == s.fd && t.pend == s.pend && t.caller == s.caller && t.senders == s.senders
            && t.work == NoWork && t.locked && t.reg && t.buf.er == s.buf.er && (t.buf.wr ==> s.buf.wr)
            && t.log.missed == s.log.missed
            && (if Messages(s) > 0 then Messages(t) == Messages(s) - 1
                else Messages(t) == 0 && t.events == s.events && t.buf.rd == s.buf.rd)
            && (Queued(t.events, Established) <==> Queued(s.events, Established))
  {
    InsideOutbound(s);
    OutboundIo(s);
    SendIs(Inside(s), SENT);
    hide OutboundOk, Perform, Dispatch, OutboundCore, MissedOk;
    var t := Inside(s);
    if Messages(s) > 0 {
      var d := if t.busy then t else t.(queued := t.queued - 1, busy := true);
      RaiseAdds(d.(busy := false), SentEvent, EV_SENT);
      hide Raise;
    }
  }

  lemma TaskNearer(s: Sock, id: int, open: map<int, int>)
    requires Hopeful(s, open) && !s.locked && s.work.RunTask?
    ensures Nearer(s, Enter(id, SENT), open)
  {
    NextOk(s, Enter(id, SENT));
    TaskServed(s);
    hide OutboundOk, Entering, Dispatch, Queued;
  }

  lemma OutNearer(s: Sock, id: int, open: map<int, int>)
    requires Hopeful(s, open) && !s.locked && s.work == RunIo(FD_OUT)
    ensures Nearer(s, Enter(id, SENT), open)
  {
    NextOk(s, Enter(id, SENT));
    OutServed(s);
    hide OutboundOk, Entering, Dispatch, Queued;
  }

  lemma EntersNearer(s: Sock, id: int, open: map<int, int>)
    requires Hopeful(s, open) && !s.locked && s.work != NoWork
    ensures Nearer(s, Enter(id, SENT), open)
  {
    if s.work.RunTask? {
      TaskNearer(s, id, open);
    } else {
      InsideOutbound(s);
      OutNearer(s, id, open);
    }
  }

  lemma FetchesNearer(s: Sock, id: int, open: map<int, int>)
    requires Hopeful(s, open) && !s.locked && s.work == NoWork && s.buf != NO_BITS
    ensures Nearer(s, Fetch(id), open)
  {
    NextOk(s, Fetch(id));
  }

  lemma PopsNearer(s: Sock, id: int, open: map<int, int>)
    requires Hopeful(s, open) && !s.locked && s.work == NoWork && s.buf == NO_BITS && s.pend != []
    ensures Nearer(s, Pop(id), open)
  {
    NextOk(s, Pop(id));
  }

  lemma CallsNearer(s: Sock, id: int, open: map<int, int>)
    requires Hopeful(s, open) && !s.locked && s.work == NoWork && s.pend == [] && s.caller != CNone
    ensures Nearer(s, CallerStep(id), open)
  {
    NextOk(s, CallerStep(id));
  }

  lemma PostsNearer(s: Sock, id: int, open: map<int, int>)
    requires Hopeful(s, open) && !s.locked && s.work == NoWork && s.pend == [] && s.senders > 0
    ensures Nearer(s, SenderPost(id), open)
  {
    NextOk(s, SenderPost(id));
  }

  lemma WaitsNearer(s: Sock, id: int, open: map<int, int>)
    requires Hopeful(s, open) && AtRest(s) && Messages(s) > 0
    ensures Nearer(s, Wait(id, Bits(false, true, false)), open)
  {
    NextOk(s, Wait(id, Bits(false, true, false)));
  }

  lemma AdviceIsGood(s: Sock, id: int, open: map<int, int>)
    requires Hopeful(s, open) && !Emptied(s)
    ensures Nearer(s, Advice(s, id), open)
  {
    if s.locked {
      if s.events == [] {
        LeavesNearer(s, id, open);
      } else {
        DrainsNearer(s, id, open);
      }
    } else if s.work != NoWork {
      EntersNearer(s, id, open);
    } else if s.buf != NO_BITS {
      FetchesNearer(s, id, open);
    } else if s.pend != [] {
      PopsNearer(s, id, open);
    } else if s.caller != CNone {
      CallsNearer(s, id, open);
    } else if s.senders > 0 {
      PostsNearer(s, id, open);
    } else {
      WaitsNearer(s, id, open);
    }
  }

  // ---- The continuation ----

  /** Steps of socket id itself, none of them a new send. */
  predicate Settling(steps: seq<Step>, id: int) {
    forall i :: 0 <= i < |steps| ==> Own(steps[i]) && steps[i].id == id && !steps[i].SenderPush?
  }

  lemma Prepended(y: Sys, step: Step, r: Trace, id: int)
    requires IsRun(r) && Enabled(y, step) && r.states[0] == Do(y, step)
    requires Own(step) && step.id == id && !step.SenderPush? && Settling(r.steps, id)
    ensures var t := Trace([y] + r.states, [step] + r.steps);
            IsRun(t) && t.states[0] == y && Last(t) == Last(r) && Settling(t.steps, id)
  {
    hide Enabled, Do;
    var t := Trace([y] + r.states, [step] + r.steps);
    forall i | 0 <= i < |t.steps| ensures Linked(t, i) {
      assert i > 0 ==> Linked(r, i - 1);
    }
  }

  lemma AdviceIsOwn(s: Sock, id: int)
    ensures var step := Advice(s, id); Own(step) && step.id == id && !step.SenderPush?
  {
  }

  lemma {:induction false} Empties(y: Sys, id: int, s: Sock, open: map<int, int>) returns (r: Trace, t: Sock)
    requires Holds(y, id, s, open) && Hopeful(s, open)
    ensures IsRun(r) && r.states[0] == y && Settling(r.steps, id)
    ensures Holds(Last(r), id, t, open) && Emptied(t) && t.st == ACTIVE
    decreases Callers(s), Messages(s), Chores(s)
  {
    if Emptied(s) {
      r, t := Stay(y), s;
    } else {
      var step := Advice(s, id);
      AdviceIsGood(s, id, open);
      AdviceIsOwn(s, id);
      hide OutboundOk, Ready, Plain, Next, Holds, Enabled, Do, Advice, Callers, Messages, Chores, IsRun, Last;
      Advances(y, id, s, Next(s, step), open, step);
      var rest;
      rest, t := Empties(Do(y, step), id, Next(s, step), open);
      Prepended(y, step, rest, id);
      r := Trace([y] + rest.states, [step] + rest.steps);
    }
  }

  /** In every reachable state, an active socket that is not doomed, whose connection
      the kernel has not reported broken and whose handle is registered or names no open
      descriptor, has a continuation of its own steps alone, without any new send, that
      ends with all its messages sent and all its threads at rest. */
  lemma CanEmpty(r: Trace, id: int) returns (more: Trace)
    requires FromStart(r) && !Provoked(r) && Alive(Last(r)) && IsOut(Last(r), id)
    requires var s := Last(r).socks[id]; s.st == ACTIVE && !Doomed(s) && Unharmed(s, Last(r).open)
    ensures IsRun(more) && more.states[0] == Last(r) && Settling(more.steps, id)
    ensures IsOut(Last(more), id) && Emptied(Last(more).socks[id]) && Last(more).socks[id].st == ACTIVE
  {
    hide Linked, Provoked, Built, Doomed, Unharmed, Inv, OutboundOk;
    EndOk(r);
    var y := Last(r);
    HoldsNow(y, id);
    var t;
    more, t := Empties(y, id, y.socks[id], y.open);
    HoldsMeans(Last(more), id, t, y.open);
  }

  /** A continuation from y in which nobody sends anew on socket id. */
  predicate Continues(more: Trace, y: Sys, id: int) {
    && IsRun(more) && !Provoked(more) && more.states[0] == y
    && forall i :: 0 <= i < |more.steps| ==> more.steps[i] != SenderPush(id)
  }

  predicate EndsEmpty(more: Trace, id: int) {
    IsRun(more) && IsOut(Last(more), id) && Messages(Last(more).socks[id]) == 0
  }

  lemma SettlingContinues(more: Trace, y: Sys, id: int)
    requires IsRun(more) && more.states[0] == y && Settling(more.steps, id)
    ensures Continues(more, y, id)
  {
    forall i | 0 <= i < |more.steps| ensures !ProvokedAt(more, i) && more.steps[i] != SenderPush(id) {
      assert Own(more.steps[i]);
    }
  }

  lemma DoomedContinues(more: Trace, y: Sys, id: int)
    requires Inv(y) && IsOut(y, id) && Doomed(y.socks[id]) && Continues(more, y, id)
    ensures !EndsEmpty(more, id)
  {
    hide Inv, Doomed, Provoked, Linked;
    LostForGood(more, id, |more.steps|);
  }

  /** Being doomed is exactly being lost: of such a socket with messages left, no
      continuation without a new send gets rid of them if and only if it is doomed. */
  lemma DoomedIffLost(r: Trace, id: int)
    requires FromStart(r) && !Provoked(r) && Alive(Last(r)) && IsOut(Last(r), id)
    requires var s := Last(r).socks[id]; s.st == ACTIVE && Messages(s) > 0 && Unharmed(s, Last(r).open)
    ensures Doomed(Last(r).socks[id]) <==> !exists more :: Continues(more, Last(r), id) && EndsEmpty(more, id)
  {
    hide Linked, Provoked, Built, Doomed, Unharmed, Inv, Settling, Continues;
    EndOk(r);
    var y := Last(r);
    if Doomed(y.socks[id]) {
      forall more | Continues(more, y, id) ensures !EndsEmpty(more, id) {
        DoomedContinues(more, y, id);
      }
    } else {
      var more := CanEmpty(r, id);
      SettlingContinues(more, y, id);
      assert EndsEmpty(more, id);
    }
  }
}
