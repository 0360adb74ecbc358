/** The completion queue of channel.h: a queue under a mutex with one condition
    variable, `notify_one` on a send and `notify_all` on a close.

    `Chan` has one step per stretch of code between taking the mutex and giving it
    up, by returning or by waiting.  Which sleeper a notification wakes is up to the
    library, a woken thread has to compete for the mutex with newcomers, and it may
    wake up for no reason. */
module Channels {
  import opened Sequences

  datatype Chan<T> = Chan(
    val: seq<T>,
    sendClosed: bool,
    receiveClosed: bool,
    asleep: set<int>,      // threads in wait(), not notified
    notified: set<int>     // threads in wait(), woken and waiting for the mutex
  )

  datatype Step<T> =
    | Send(item: T, woken: Option<int>)
    | Receive(t: int)      // enters Receive and looks at the predicate
    | Wake(t: int)         // got the mutex back inside wait() and looks again
    | Spurious(t: int)
    | CloseSendEnd | CloseReceiveEnd

  /** How one look at the predicate ends. */
  datatype Attempt<T> = Slept | Failed | Got(item: T)

  predicate Ready<T>(c: Chan<T>) {
    c.val != [] || c.receiveClosed || c.sendClosed
  }

  predicate Enabled<T>(c: Chan<T>, step: Step<T>) {
    match step
    case Send(_, woken) =>
      // notify_one is reached, and there is somebody to wake
      if c.sendClosed || c.asleep == {} then woken == None else woken.Some? && woken.value in c.asleep
    case Receive(t) => t !in c.asleep && t !in c.notified
    case Wake(t) => t in c.notified
    case Spurious(t) => t in c.asleep
    case _ => true
  }

  function Look<T>(c: Chan<T>, t: int): (Chan<T>, Attempt<T>) {
    if !Ready(c) then (c.(asleep := c.asleep + {t}), Slept)
    else if c.val == [] || c.receiveClosed then (c, Failed)
    else (c.(val := c.val[1..]), Got(c.val[0]))
  }

  function Do<T>(c: Chan<T>, step: Step<T>): Chan<T>
    requires Enabled(c, step)
  {
    match step
    case Send(item, woken) =>
      if c.sendClosed then c
      else
        var d := c.(val := c.val + [item]);
        if woken == None then d else d.(asleep := c.asleep - {woken.value}, notified := c.notified + {woken.value})
    case Receive(t) => Look(c, t).0
    case Wake(t) => Look(c.(notified := c.notified - {t}), t).0
    case Spurious(t) => c.(asleep := c.asleep - {t}, notified := c.notified + {t})
    case CloseSendEnd => c.(sendClosed := true, asleep := {}, notified := c.notified + c.asleep)
    case CloseReceiveEnd => c.(receiveClosed := true, asleep := {}, notified := c.notified + c.asleep)
  }

  function New<T>(): Chan<T> {
    Chan([], false, false, {}, {})
  }

  // ---- What every run keeps ----

  /** While somebody sleeps the channel is open, and every item has a woken thread of
      its own. */
  ghost predicate Inv<T>(c: Chan<T>) {
    && c.asleep !! c.notified
    && (c.asleep != {} ==> !c.sendClosed && !c.receiveClosed && |c.notified| >= |c.val|)
  }

  /** A woken thread that looks uses up one notification, and takes an item if there is one. */
  lemma StepKeeps<T>(c: Chan<T>, step: Step<T>)
    requires Inv(c) && Enabled(c, step)
    ensures Inv(Do(c, step))
  {
    if step.Wake? {
      assert |c.notified - {step.t}| == |c.notified| - 1;
    }
  }

  predicate Valid<T>(c: Chan<T>, steps: seq<Step<T>>)
    decreases |steps|
  {
    steps == [] || (Enabled(c, steps[0]) && Valid(Do(c, steps[0]), steps[1..]))
  }

  function Final<T>(c: Chan<T>, steps: seq<Step<T>>): Chan<T>
    requires Valid(c, steps)
    decreases |steps|
  {
    if steps == [] then c else Final(Do(c, steps[0]), steps[1..])
  }

  lemma {:induction false} RunKeeps<T>(c: Chan<T>, steps: seq<Step<T>>)
    requires Inv(c) && Valid(c, steps)
    ensures Inv(Final(c, steps))
    decreases |steps|
  {
    if steps != [] {
      StepKeeps(c, steps[0]);
      RunKeeps(Do(c, steps[0]), steps[1..]);
    }
  }

  // ---- What the callers see ----

  /** What the calling thread is answered, if the step is one of its attempts. */
  function Answer<T>(c: Chan<T>, step: Step<T>): Option<Attempt<T>>
    requires Enabled(c, step)
  {
    match step
    case Receive(t) => Some(Look(c, t).1)
    case Wake(t) => Some(Look(c.(notified := c.notified - {t}), t).1)
    case _ => None
  }

  /** The threads whose last attempt ended in wait(), w being those from before. */
  function Waiting<T>(c: Chan<T>, steps: seq<Step<T>>, w: set<int>): set<int>
    requires Valid(c, steps)
    decreases |steps|
  {
    if steps == [] then w else Waiting(Do(c, steps[0]), steps[1..], StillWaiting(c, steps[0], w))
  }

  function StillWaiting<T>(c: Chan<T>, step: Step<T>, w: set<int>): set<int>
    requires Enabled(c, step)
  {
    var answer := Answer(c, step);
    if answer == None then w else if answer.value.Slept? then w + {step.t} else w - {step.t}
  }

  /** The items that Receive handed out, in order. */
  function Answered<T>(c: Chan<T>, steps: seq<Step<T>>): seq<T>
    requires Valid(c, steps)
    decreases |steps|
  {
    if steps == [] then [] else Items(Answer(c, steps[0])) + Answered(Do(c, steps[0]), steps[1..])
  }

  function Items<T>(answer: Option<Attempt<T>>): seq<T> {
    if answer.Some? && answer.value.Got? then [answer.value.item] else []
  }

  /** The items given to Send before the first CloseSendEnd. */
  ghost function Offered<T>(steps: seq<Step<T>>): seq<T> {
    if steps == [] || steps[0].CloseSendEnd? then [] else Given(steps[0]) + Offered(steps[1..])
  }

  function Given<T>(step: Step<T>): seq<T> {
    if step.Send? then [step.item] else []
  }

  /** One look at the predicate: the thread is in wait() afterwards exactly if it is told
      so, which is when there is nothing to take and no end is closed; and nothing but
      the item it is handed leaves the queue. */
  lemma LookSeen<T>(c: Chan<T>, t: int)
    requires t !in c.asleep && t !in c.notified
    ensures var d, a := Look(c, t).0, Look(c, t).1;
            && (t in d.asleep <==> a.Slept?) && d.asleep - {t} == c.asleep && d.notified == c.notified
            && (a.Slept? <==> c.val == [] && !c.sendClosed && !c.receiveClosed)
            && (a.Failed? <==> c.receiveClosed || (c.val == [] && c.sendClosed))
            && Items(Some(a)) + d.val == c.val
            && d.sendClosed == c.sendClosed && d.receiveClosed == c.receiveClosed
  {
  }

  /** One step: the waiters are those in wait(), */
  lemma StepWaits<T>(c: Chan<T>, step: Step<T>)
    requires Inv(c) && Enabled(c, step)
    ensures StillWaiting(c, step, c.asleep + c.notified) == Do(c, step).asleep + Do(c, step).notified
  {
    if step.Receive? || step.Wake? {
      AttemptWaits(c, step);
    } else {
      OtherWaits(c, step);
      hide Do, Look, Inv;
    }
  }

  lemma AttemptWaits<T>(c: Chan<T>, step: Step<T>)
    requires Inv(c) && Enabled(c, step) && (step.Receive? || step.Wake?)
    ensures StillWaiting(c, step, c.asleep + c.notified) == Do(c, step).asleep + Do(c, step).notified
  {
    var t := step.t;
    if step.Receive? {
      LookWaits(c, t);
    } else {
      LookWaits(c.(notified := c.notified - {t}), t);
      Rejoins(c.asleep, c.notified, t);
    }
    hide Look, Inv;
  }

  lemma OtherWaits<T>(c: Chan<T>, step: Step<T>)
    requires Enabled(c, step) && !step.Receive? && !step.Wake?
    ensures Do(c, step).asleep + Do(c, step).notified == c.asleep + c.notified
  {
    match step
    case Send(_, woken) => if woken.Some? { Notified(c.asleep, c.notified, {woken.value}); }
    case Spurious(t) => Notified(c.asleep, c.notified, {t});
    case _ => Notified(c.asleep, c.notified, c.asleep);
  }

  lemma Notified(asleep: set<int>, notified: set<int>, woken: set<int>)
    requires woken <= asleep
    ensures (asleep - woken) + (notified + woken) == asleep + notified
    ensures asleep - asleep == {}
  {
  }

  lemma Rejoins(asleep: set<int>, notified: set<int>, t: int)
    requires t in notified && t !in asleep
    ensures asleep + notified + {t} == asleep + (notified - {t}) + {t}
    ensures asleep + notified - {t} == asleep + (notified - {t})
  {
  }

  lemma LookWaits<T>(c: Chan<T>, t: int)
    requires t !in c.asleep && t !in c.notified
    ensures var d, w := Look(c, t).0, c.asleep + c.notified;
            d.asleep + d.notified == if Look(c, t).1.Slept? then w + {t} else w - {t}
  {
  }

  /** and items move from end to end. */
  lemma StepMoves<T>(c: Chan<T>, step: Step<T>)
    requires Inv(c) && Enabled(c, step)
    ensures Items(Answer(c, step)) + Do(c, step).val == c.val + (if c.sendClosed then [] else Given(step))
    ensures Do(c, step).sendClosed <==> c.sendClosed || step.CloseSendEnd?
    ensures Do(c, step).receiveClosed <==> c.receiveClosed || step.CloseReceiveEnd?
  {
    if step.Receive? {
      LookSeen(c, step.t);
    } else if step.Wake? {
      LookSeen(c.(notified := c.notified - {step.t}), step.t);
    }
    hide Look;
  }

  lemma {:induction false} RunSeen<T>(c: Chan<T>, steps: seq<Step<T>>)
    requires Inv(c) && Valid(c, steps)
    ensures var d := Final(c, steps);
            && Waiting(c, steps, c.asleep + c.notified) == d.asleep + d.notified
            && Answered(c, steps) + d.val == c.val + (if c.sendClosed then [] else Offered(steps))
            && (d.sendClosed <==> c.sendClosed || Step<T>.CloseSendEnd in steps)
            && (d.receiveClosed <==> c.receiveClosed || Step<T>.CloseReceiveEnd in steps)
    decreases |steps|
  {
    if steps != [] {
      var step, rest := steps[0], steps[1..];
      var next := Do(c, step);
      assert steps == [step] + rest;
      StepWaits(c, step);
      StepMoves(c, step);
      StepKeeps(c, step);
      RunSeen(next, rest);
      hide Inv, Enabled, Do, Answer, StillWaiting;
      Flows(c, step, next, rest);
    }
  }

  /** The books of a run are those of its first step and of the rest. */
  lemma Flows<T>(c: Chan<T>, step: Step<T>, next: Chan<T>, rest: seq<Step<T>>)
    requires Enabled(c, step) && next == Do(c, step) && Valid(next, rest)
    requires Items(Answer(c, step)) + next.val == c.val + (if c.sendClosed then [] else Given(step))
    requires next.sendClosed <==> c.sendClosed || step.CloseSendEnd?
    requires var d := Final(next, rest);
             Answered(next, rest) + d.val == next.val + (if next.sendClosed then [] else Offered(rest))
    ensures var steps := [step] + rest; var d := Final(next, rest);
            && Valid(c, steps) && Final(c, steps) == d
            && Answered(c, steps) + d.val == c.val + (if c.sendClosed then [] else Offered(steps))
  {
    var steps := [step] + rest;
    assert steps[1..] == rest;
    var d, later := Final(next, rest), if next.sendClosed then [] else Offered(rest);
    Associates(Items(Answer(c, step)), Answered(next, rest), d.val);
    Associates(Items(Answer(c, step)), next.val, later);
    Associates(c.val, if c.sendClosed then [] else Given(step), later);
  }

  /** However senders, receivers, closes and stray wake-ups interleave: the threads
      that were told to wait, and have not come back since, are asleep or woken.  Of
      them at least one per queued item is woken, or all are; and all are once an
      end has been closed. */
  lemma NeverAllAsleep<T>(steps: seq<Step<T>>)
    requires Valid(New(), steps)
    ensures var c, w := Final(New(), steps), Waiting(New(), steps, {});
            && c.notified <= w == c.asleep + c.notified
            && (c.notified == w || |c.notified| >= |c.val|)
            && (Step<T>.CloseSendEnd in steps || Step<T>.CloseReceiveEnd in steps ==> c.notified == w)
  {
    RunKeeps(New(), steps);
    RunSeen(New<T>(), steps);
  }

  /** What Receive has handed out, and then what is queued, is what Send was given while
      its end was open, in order. */
  lemma Fifo<T>(steps: seq<Step<T>>)
    requires Valid(New(), steps)
    ensures Answered(New(), steps) + Final(New(), steps).val == Offered(steps)
  {
    RunSeen(New<T>(), steps);
  }

  lemma AnswerSeen<T>(c: Chan<T>, step: Step<T>)
    requires Enabled(c, step) && c.receiveClosed
    ensures Items(Answer(c, step)) == []
  {
  }

  /** Nothing is handed out once the receiving end is closed. */
  lemma {:induction false} NoneAfterClose<T>(c: Chan<T>, steps: seq<Step<T>>)
    requires Inv(c) && Valid(c, steps) && c.receiveClosed
    ensures Answered(c, steps) == []
    decreases |steps|
  {
    if steps != [] {
      StepMoves(c, steps[0]);
      AnswerSeen(c, steps[0]);
      StepKeeps(c, steps[0]);
      NoneAfterClose(Do(c, steps[0]), steps[1..]);
    }
  }

  predicate AllWakes<T>(steps: seq<Step<T>>) {
    forall i :: 0 <= i < |steps| ==> steps[i].Wake?
  }

  lemma Member(s: set<int>) returns (t: int)
    requires |s| > 0
    ensures t in s
  {
    assert (forall x :: x !in s) ==> s == {};
    t :| t in s;
  }

  /** If every woken thread and no other runs on, an open channel with sleepers
      empties: the woken threads alone can take all the items. */
  lemma {:induction false} WokenDrain<T>(c: Chan<T>)
    requires Inv(c) && c.asleep != {} && c.val != []
    ensures exists steps: seq<Step<T>> ::
              Valid(c, steps) && Final(c, steps).val == [] && |steps| == |c.val| && AllWakes(steps)
    decreases |c.val|
  {
    var t := Member(c.notified);
    var step: Step<T> := Wake(t);
    StepKeeps(c, step);
    var d := Do(c, step);
    if d.val == [] {
      assert [step][1..] == [];
      assert Valid(d, []) && Valid(c, [step]);
      assert Final(c, [step]).val == [];
    } else {
      WokenDrain(d);
      var rest :| Valid(d, rest) && Final(d, rest).val == [] && |rest| == |d.val| && AllWakes(rest);
      assert ([step] + rest)[1..] == rest;
      assert Valid(c, [step] + rest);
    }
  }

  // ---- The channel in place ----

  class Channel<T> {
    var val: seq<T>
    var isSendClosed: bool
    var isReceiveClosed: bool
    var asleep: set<int>       // the condition variable's waiters
    var notified: set<int>

    ghost function View(): Chan<T>
      reads this
    {
      Chan(val, isSendClosed, isReceiveClosed, asleep, notified)
    }

    constructor ()
      ensures View() == New()
    {
      val, isSendClosed, isReceiveClosed, asleep, notified := [], false, false, {}, {};
    }

    method Send(item: T, woken: Option<int>) returns (rc: int)
      requires Enabled(View(), Step.Send(item, woken))
      modifies this
      ensures View() == Do(old(View()), Step.Send(item, woken))
      ensures rc == 0 <==> !old(isSendClosed)
      ensures rc == 0 ==> val == old(val) + [item]
    {
      if isSendClosed {
        return -1;
      }
      val := val + [item];
      if woken.Some? {
        asleep, notified := asleep - {woken.value}, notified + {woken.value};
      }
      return 0;
    }

    /** Receive up to its first wait or its return. */
    method Receive(t: int) returns (r: Attempt<T>)
      requires Enabled(View(), Step<T>.Receive(t))
      modifies this
      ensures View() == Do(old(View()), Step<T>.Receive(t)) && Some(r) == Answer(old(View()), Step<T>.Receive(t))
      ensures r == Slept <==> old(val) == [] && !isReceiveClosed && !isSendClosed
      ensures r == Slept <==> t in asleep
      ensures r.Failed? <==> isReceiveClosed || (old(val) == [] && isSendClosed)
    {
      r := Attempted(t);
    }

    /** From a wake-up inside wait() to the next wait or the return. */
    method Resume(t: int) returns (r: Attempt<T>)
      requires Enabled(View(), Step<T>.Wake(t))
      modifies this
      ensures View() == Do(old(View()), Step<T>.Wake(t)) && Some(r) == Answer(old(View()), Step<T>.Wake(t))
      ensures t !in old(asleep) ==> (r == Slept <==> t in asleep)
      ensures r.Failed? <==> isReceiveClosed || (old(val) == [] && isSendClosed)
    {
      notified := notified - {t};
      r := Attempted(t);
    }

    method Attempted(t: int) returns (r: Attempt<T>)
      modifies this`asleep, this`val
      ensures View() == Look(old(View()), t).0 && r == Look(old(View()), t).1
    {
      if val == [] && !isReceiveClosed && !isSendClosed {
        asleep := asleep + {t};
        return Slept;
      }
      if |val| == 0 || isReceiveClosed {
        return Failed;
      }
      r := Got(val[0]);
      val := val[1..];
    }

    method CloseSendEnd()
      modifies this
      ensures View() == Do(old(View()), Step<T>.CloseSendEnd)
    {
      isSendClosed := true;
      asleep, notified := {}, notified + asleep;
    }

    method CloseReceiveEnd()
      modifies this
      ensures View() == Do(old(View()), Step<T>.CloseReceiveEnd)
    {
      isReceiveClosed := true;
      asleep, notified := {}, notified + asleep;
    }
  }
}
