/** The worker's task hand-off of worker.cpp: any thread posts intrusive tasks
    under the worker's lock and signals an eventfd; the worker thread unsignals,
    steals the whole queue and runs the batch without the lock.

    The machine below is the specification; its steps are the atomic pieces that
    can interleave.  `NetWorker` is the same thing over real intrusive queues. */
module Workers {
  import opened NetQueues
  import opened Sequences

  datatype WorkerState<T> = WorkerState(
    stop: T,            // the item that Terminate pushes
    shared: seq<T>,     // tasks_
    batch: seq<T>,      // what is left of the stolen batch
    counter: nat,       // eventfd counter
    reported: bool,     // an IN event of the eventfd is buffered and not yet dispatched
    stopped: bool       // the routine has returned
  )
  {
    ghost function Pending(): seq<T> {
      batch + shared
    }
  }

  datatype Step<T> =
    | Execute(task: T)
    | Cancel(task: T)
    | Report          // poller_.Wait returns the eventfd
    | Steal           // Unsignal, copy tasks_, Init
    | RunNext         // Pop one item of the batch and run it

  ghost function Start<T>(stop: T): WorkerState<T> {
    WorkerState(stop, [], [], 0, false, false)
  }

  ghost predicate Enabled<T>(s: WorkerState<T>, step: Step<T>) {
    match step
    case Execute(_) => true
    case Cancel(_) => true
    case Report => !s.stopped && s.batch == [] && !s.reported && s.counter > 0
    case Steal => !s.stopped && s.reported
    case RunNext => !s.stopped && s.batch != []
  }

  ghost function Do<T>(s: WorkerState<T>, step: Step<T>): WorkerState<T>
    requires Enabled(s, step)
  {
    match step
    case Execute(t) =>
      s.(shared := if t in s.Pending() then s.shared else s.shared + [t], counter := s.counter + 1)
    case Cancel(t) => s.(shared := if t in s.batch then s.shared else Without(s.shared, t))
    case Report => s.(reported := true)
    case Steal => s.(batch := s.shared, shared := [], counter := 0, reported := false)
    case RunNext =>
      if s.batch[0] == s.stop then s.(batch := [], stopped := true) else s.(batch := s.batch[1..])
  }

  ghost predicate Inv<T>(s: WorkerState<T>) {
    && Distinct(s.Pending())
    && (s.shared != [] ==> s.counter > 0)
    && (s.reported ==> s.counter > 0 && s.batch == [])
  }

  ghost predicate Valid<T>(s: WorkerState<T>, steps: seq<Step<T>>)
    decreases |steps|
  {
    steps == [] || (Enabled(s, steps[0]) && Valid(Do(s, steps[0]), steps[1..]))
  }

  ghost function Final<T>(s: WorkerState<T>, steps: seq<Step<T>>): WorkerState<T>
    requires Valid(s, steps)
    decreases |steps|
  {
    if steps == [] then s else Final(Do(s, steps[0]), steps[1..])
  }

  /** The tasks run, in the order they run. */
  ghost function Ran<T>(s: WorkerState<T>, steps: seq<Step<T>>): seq<T>
    requires Valid(s, steps)
    decreases |steps|
  {
    if steps == [] then []
    else RanBy(s, steps[0]) + Ran(Do(s, steps[0]), steps[1..])
  }

  ghost function RanBy<T>(s: WorkerState<T>, step: Step<T>): seq<T>
    requires Enabled(s, step)
  {
    if step.RunNext? && s.batch[0] != s.stop then [s.batch[0]] else []
  }

  ghost function Requests<T>(steps: seq<Step<T>>, t: T): nat {
    if steps == [] then 0 else (if steps[0] == Execute(t) then 1 else 0) + Requests(steps[1..], t)
  }

  // ---- What every run keeps ----

  lemma StepKeepsInv<T>(s: WorkerState<T>, step: Step<T>)
    requires Inv(s) && Enabled(s, step)
    ensures Inv(Do(s, step))
  {
    var p, q := s.Pending(), Do(s, step).Pending();
    match step
    case Execute(t) =>
      if t !in p {
        DistinctJoin(p, [t]);
        assert q == p + [t];
      }
    case Cancel(t) =>
      WithoutKeeps(s.shared, t);
      DistinctParts(s.batch, s.shared);
      DistinctJoin(s.batch, Without(s.shared, t));
    case Report =>
    case Steal =>
      assert q == s.shared;
      DistinctParts(s.batch, s.shared);
    case RunNext =>
      DistinctParts(s.batch, s.shared);
      if s.batch[0] == s.stop {
        assert q == s.shared;
      } else {
        assert q == p[1..];
      }
  }

  lemma DistinctParts<T>(a: seq<T>, b: seq<T>)
    requires Distinct(a + b)
    ensures Distinct(a) && Distinct(b)
    ensures forall x :: x in a ==> x !in b
  {
    assert forall i :: 0 <= i < |b| ==> b[i] == (a + b)[|a| + i];
    assert forall i :: 0 <= i < |a| ==> a[i] == (a + b)[i];
  }

  lemma {:induction false} RunKeepsInv<T>(s: WorkerState<T>, steps: seq<Step<T>>)
    requires Inv(s) && Valid(s, steps)
    ensures Inv(Final(s, steps))
    decreases |steps|
  {
    if steps != [] {
      StepKeepsInv(s, steps[0]);
      RunKeepsInv(Do(s, steps[0]), steps[1..]);
    }
  }

  /** No request is stranded: whenever a task is pending, the counter is
      positive or a batch is in hand, so one of the worker's own steps is
      enabled; and a dispatched eventfd never reads a zero counter. */
  lemma WorkerNeverStuck<T>(stop: T, steps: seq<Step<T>>)
    requires Valid(Start(stop), steps)
    ensures var s := Final(Start(stop), steps);
            && (Enabled(s, Steal) ==> s.counter > 0)
            && (!s.stopped && s.Pending() != [] ==> Enabled(s, RunNext) || Enabled(s, Steal) || Enabled(s, Report))
  {
    RunKeepsInv(Start(stop), steps);
  }

  // ---- Delivery ----

  lemma {:induction false} StoppedStays<T>(s: WorkerState<T>, steps: seq<Step<T>>)
    requires Valid(s, steps) && s.stopped
    ensures Final(s, steps).stopped
    decreases |steps|
  {
    if steps != [] {
      StoppedStays(Do(s, steps[0]), steps[1..]);
    }
  }

  /** A task at position k of the pending order runs, and at most k others run
      before it, whatever is posted, coalesced or cancelled meanwhile.  The run
      starts after the request, because the request put the task in the queue. */
  lemma {:induction false} Delivery<T>(s: WorkerState<T>, steps: seq<Step<T>>, k: nat)
    requires Inv(s) && Valid(s, steps) && !Final(s, steps).stopped
    requires k < |s.Pending()| && s.Pending()[k] != s.stop && Cancel(s.Pending()[k]) !in steps
    ensures var t, done := s.Pending()[k], Ran(s, steps);
            || t in done
            || (|done| <= k
                && exists j ::
                     0 <= j <= k - |done| && j < |Final(s, steps).Pending()| && Final(s, steps).Pending()[j] == t)
    decreases |steps|
  {
    if steps == [] {
      return;
    }
    var s' := Do(s, steps[0]);
    StepKeepsInv(s, steps[0]);
    if s'.stopped {
      StoppedStays(s', steps[1..]);
    } else if steps[0].RunNext? && k == 0 {
    } else {
      var j := StepShifts(s, steps[0], k);
      Delivery(s', steps[1..], j);
    }
  }

  /** One step moves a pending task at most towards the front, and past nothing but what it runs. */
  lemma StepShifts<T>(s: WorkerState<T>, step: Step<T>, k: nat) returns (j: nat)
    requires Inv(s) && Enabled(s, step) && !Do(s, step).stopped
    requires k < |s.Pending()| && step != Cancel(s.Pending()[k])
    requires step.RunNext? ==> k > 0
    ensures j + |RanBy(s, step)| <= k
    ensures j < |Do(s, step).Pending()| && Do(s, step).Pending()[j] == s.Pending()[k]
  {
    j := k;
    match step {
      case Execute(u) =>
        assert Do(s, step).Pending()[..|s.Pending()|] == s.Pending();
      case Cancel(u) =>
        j := CancelShifts(s.batch, s.shared, u, k);
      case Report =>
      case Steal =>
        assert Do(s, step).Pending() == s.Pending();
      case RunNext =>
        assert Do(s, step).Pending() == s.Pending()[1..];
        j := k - 1;
    }
  }

  lemma CancelShifts<T>(batch: seq<T>, shared: seq<T>, u: T, k: nat) returns (j: nat)
    requires Distinct(batch + shared) && k < |batch + shared| && (batch + shared)[k] != u
    ensures var q := batch + (if u in batch then shared else Without(shared, u));
            j <= k && j < |q| && q[j] == (batch + shared)[k]
  {
    j := k;
    if u !in batch && k >= |batch| {
      var m := WithoutAt(shared, u, k - |batch|);
      j := |batch| + m;
    }
  }

  lemma WithoutAt<T>(s: seq<T>, x: T, k: nat) returns (j: nat)
    requires k < |s| && s[k] != x
    ensures j <= k && j < |Without(s, x)| && Without(s, x)[j] == s[k]
  {
    if k == 0 {
      j := 0;
    } else {
      j := WithoutAt(s[1..], x, k - 1);
      if s[0] != x {
        j := j + 1;
      }
    }
  }

  ghost function Has<T>(q: seq<T>, t: T): nat {
    if t in q then 1 else 0
  }

  /** No task runs more often than it was requested. */
  lemma {:induction false} RunsBounded<T>(s: WorkerState<T>, steps: seq<Step<T>>, t: T)
    requires Inv(s) && Valid(s, steps)
    ensures multiset(Ran(s, steps))[t] + Has(Final(s, steps).Pending(), t) <= Requests(steps, t) + Has(s.Pending(), t)
    decreases |steps|
  {
    if steps != [] {
      StepKeepsInv(s, steps[0]);
      RunsBounded(Do(s, steps[0]), steps[1..], t);
      StepRunsBounded(s, steps[0], t);
    }
  }

  lemma StepRunsBounded<T>(s: WorkerState<T>, step: Step<T>, t: T)
    requires Inv(s) && Enabled(s, step)
    ensures Has(RanBy(s, step), t) + Has(Do(s, step).Pending(), t)
            <= (if step == Execute(t) then 1 else 0) + Has(s.Pending(), t)
  {
    DistinctParts(s.batch, s.shared);
    match step
    case Cancel(u) => WithoutKeeps(s.shared, u);
    case RunNext =>
      assert s.batch == [s.batch[0]] + s.batch[1..];
      DistinctParts([s.batch[0]], s.batch[1..]);
    case _ =>
  }

  /** Cancel takes a pending task away exactly when the task has not been stolen yet. */
  lemma CancelEffective<T>(s: WorkerState<T>, t: T)
    requires Inv(s) && t in s.Pending()
    ensures t !in Do(s, Cancel(t)).Pending() <==> t !in s.batch
  {
    WithoutKeeps(s.shared, t);
  }

  // ---- Progress ----

  predicate WorkersOwn<T>(steps: seq<Step<T>>) {
    forall i :: 0 <= i < |steps| ==> steps[i].Report? || steps[i].Steal? || steps[i].RunNext?
  }

  lemma Precede<T>(s: WorkerState<T>, step: Step<T>, rest: seq<Step<T>>)
    requires Enabled(s, step) && Valid(Do(s, step), rest) && WorkersOwn(rest)
    requires step.Report? || step.Steal? || step.RunNext?
    ensures var steps := [step] + rest;
            && Valid(s, steps) && WorkersOwn(steps) && Final(s, steps) == Final(Do(s, step), rest)
            && Ran(s, steps) == RanBy(s, step) + Ran(Do(s, step), rest)
  {
    hide Do, Enabled, RanBy;
    assert ([step] + rest)[1..] == rest;
  }

  /** Left alone, the worker wakes, steals and runs what is pending, in order, to the end
      or up to the stop item. */
  lemma {:induction false} RunsDry<T>(s: WorkerState<T>) returns (steps: seq<Step<T>>)
    requires Inv(s) && !s.stopped
    ensures Valid(s, steps) && WorkersOwn(steps)
    ensures Ran(s, steps) == Before(s.Pending(), s.stop)
    ensures if s.stop in s.Pending() then Final(s, steps).stopped else Final(s, steps).Pending() == []
    decreases |s.Pending()|, |s.shared|, !s.reported
  {
    if s.Pending() == [] {
      steps := [];
    } else if s.batch == [] && !s.reported {
      steps := RunsDryAfter(s, Report);
    } else if s.batch == [] {
      assert Do(s, Step<T>.Steal).Pending() == s.Pending();
      steps := RunsDryAfter(s, Steal);
    } else if s.batch[0] == s.stop {
      steps := [RunNext];
      assert [Step<T>.RunNext][1..] == [];
    } else {
      assert s.Pending() == [s.batch[0]] + Do(s, Step<T>.RunNext).Pending();
      steps := RunsDryAfter(s, RunNext);
    }
  }

  lemma RunsDryAfter<T>(s: WorkerState<T>, step: Step<T>) returns (steps: seq<Step<T>>)
    requires Inv(s) && !s.stopped && Enabled(s, step) && !Do(s, step).stopped && Do(s, step).stop == s.stop
    requires step.Report? || step.Steal? || step.RunNext?
    requires s.Pending() == RanBy(s, step) + Do(s, step).Pending() && s.stop !in RanBy(s, step)
    requires |RanBy(s, step)| <= 1
    requires var t := Do(s, step);
             |t.Pending()| < |s.Pending()| || (|t.Pending()| == |s.Pending()|
                 && (|t.shared| < |s.shared| || (|t.shared| == |s.shared| && t.reported && !s.reported)))
    ensures Valid(s, steps) && WorkersOwn(steps)
    ensures Ran(s, steps) == Before(s.Pending(), s.stop)
    ensures if s.stop in s.Pending() then Final(s, steps).stopped else Final(s, steps).Pending() == []
    decreases |s.Pending()|, |s.shared|, !s.reported, 0
  {
    var t := Do(s, step);
    StepKeepsInv(s, step);
    var rest := RunsDry(t);
    Precede(s, step, rest);
    steps := [step] + rest;
    var now := RanBy(s, step);
    assert now != [] ==> s.Pending()[0] == now[0] && s.Pending()[1..] == t.Pending();
    assert now == [] ==> s.Pending() == t.Pending();
    hide Do, Inv, Enabled, RanBy, Valid, Final, Ran;
  }

  // ---- The eventfd ----

  ghost function Executes<T>(steps: seq<Step<T>>): nat {
    if steps == [] then 0 else (if steps[0].Execute? then 1 else 0) + Executes(steps[1..])
  }

  ghost function Steals<T>(steps: seq<Step<T>>): nat {
    if steps == [] then 0 else (if steps[0].Steal? then 1 else 0) + Steals(steps[1..])
  }

  /** The requests that no steal follows. */
  ghost function SinceSteal<T>(steps: seq<Step<T>>): nat {
    if steps == [] then 0
    else if Steals(steps) > 0 then SinceSteal(steps[1..])
    else Executes(steps)
  }

  /** The eventfd counts the requests since the last steal. */
  lemma {:induction false} CounterIs<T>(s: WorkerState<T>, steps: seq<Step<T>>)
    requires Valid(s, steps)
    ensures Final(s, steps).counter == (if Steals(steps) > 0 then 0 else s.counter) + SinceSteal(steps)
    decreases |steps|
  {
    if steps != [] {
      CounterIs(Do(s, steps[0]), steps[1..]);
      if Steals(steps[1..]) == 0 {
        assert SinceSteal(steps[1..]) == Executes(steps[1..]);
      }
    }
  }

  /** The worker is woken for requests it has not stolen yet and for nothing else: the
      level-triggered eventfd is reported only while there is such a request, and there
      are at most as many batches as requests. */
  lemma WokenForRequests<T>(stop: T, steps: seq<Step<T>>)
    requires Valid(Start(stop), steps)
    ensures Final(Start(stop), steps).counter == SinceSteal(steps)
    ensures Enabled(Final(Start(stop), steps), Report) ==> SinceSteal(steps) > 0
    ensures Steals(steps) <= Executes(steps)
  {
    CounterIs(Start(stop), steps);
    StealsBounded(Start(stop), steps);
  }

  lemma {:induction false} StealsBounded<T>(s: WorkerState<T>, steps: seq<Step<T>>)
    requires Inv(s) && Valid(s, steps)
    ensures Steals(steps) <= Executes(steps) + s.counter
    decreases |steps|
  {
    if steps != [] {
      StepKeepsInv(s, steps[0]);
      StealsBounded(Do(s, steps[0]), steps[1..]);
    }
  }

  // ---- One owner's view of the queue ----

  ghost function Mine<T>(q: seq<T>, mine: T -> bool): seq<T> {
    if q == [] then [] else (if mine(q[0]) then [q[0]] else []) + Mine(q[1..], mine)
  }

  lemma {:induction false} MineJoin<T>(a: seq<T>, b: seq<T>, mine: T -> bool)
    ensures Mine(a + b, mine) == Mine(a, mine) + Mine(b, mine)
  {
    if a == [] {
      assert a + b == b;
    } else {
      MineJoin(a[1..], b, mine);
      var h := if mine(a[0]) then [a[0]] else [];
      assert Mine(a + b, mine) == h + Mine(a[1..] + b, mine) by {
        assert (a + b)[1..] == a[1..] + b;
      }
      assert h + (Mine(a[1..], mine) + Mine(b, mine)) == (h + Mine(a[1..], mine)) + Mine(b, mine);
    }
  }

  lemma MineHas<T>(q: seq<T>, mine: T -> bool, t: T)
    ensures t in Mine(q, mine) <==> t in q && mine(t)
  {
    if q != [] {
      MineHas(q[1..], mine, t);
    }
  }

  /** What one socket sees of its worker: the tasks it owns form a queue of their
      own, to which Execute appends unless the task is already there, from whose
      front RunNext takes, and which stealing and other sockets' tasks leave alone. */
  lemma Projection<T>(s: WorkerState<T>, step: Step<T>, mine: T -> bool)
    requires Inv(s) && Enabled(s, step)
    requires !step.Cancel? && !(step.RunNext? && s.batch[0] == s.stop)
    ensures var q, q' := Mine(s.Pending(), mine), Mine(Do(s, step).Pending(), mine);
            match step
            case Execute(t) => q' == if !mine(t) || t in q then q else q + [t]
            case RunNext => if mine(s.batch[0]) then q == [s.batch[0]] + q' else q' == q
            case _ => q' == q
  {
    match step
    case Execute(t) =>
      MineHas(s.Pending(), mine, t);
      if t !in s.Pending() {
        assert Do(s, step).Pending() == s.Pending() + [t];
        MineJoin(s.Pending(), [t], mine);
      }
    case RunNext =>
      assert s.Pending() == [s.batch[0]] + Do(s, step).Pending();
    case Steal =>
      assert Do(s, step).Pending() == s.Pending();
    case _ =>
  }

  // ---- The worker over real queues ----

  class NetEventFd {
    var counter: nat

    constructor ()
      ensures counter == 0
    {
      counter := 0;
    }

    method Signal()
      modifies this
      ensures counter == old(counter) + 1
    {
      counter := counter + 1;
    }

    /** A read of a zero counter would fail the source's check. */
    method Unsignal() returns (n: nat)
      requires counter > 0
      modifies this
      ensures counter == 0 && n == old(counter)
    {
      n := counter;
      counter := 0;
    }
  }

  // What a batch adds to the shared queue.

  function Nth<T>(posted: seq<seq<T>>, n: nat): seq<T> {
    if n < |posted| then posted[n] else []
  }

  /** One of the first n tasks of the batch posts x, which is not behind it in the batch. */
  ghost predicate Posts<T>(posted: seq<seq<T>>, all: seq<T>, n: nat, x: T)
    requires n <= |all|
  {
    exists i :: 0 <= i < n && x in Nth(posted, i) && x !in all[i + 1..]
  }

  /** From `was` to `now` the queue kept its tasks and got exactly those posted in the
      first n runs, except for those that still were behind their poster in the batch. */
  ghost predicate Grown<T>(was: seq<T>, now: seq<T>, posted: seq<seq<T>>, all: seq<T>, n: nat)
    requires n <= |all|
  {
    && was <= now
    && (forall i :: 0 <= i < |now| ==> now[i] in was || Posts(posted, all, n, now[i]))
    && (forall i, j :: 0 <= i < n && 0 <= j < |Nth(posted, i)| ==>
          Nth(posted, i)[j] in now || Nth(posted, i)[j] in all[i + 1..])
  }

  lemma GrownNone<T>(was: seq<T>, posted: seq<seq<T>>, all: seq<T>)
    ensures Grown(was, was, posted, all, 0)
  {
  }

  class NetWorker {
    const efd: NetEventFd
    const stop: NetQueueItem
    const tasks: NetQueue
    var batch: NetQueue
    var reported: bool
    var stopped: bool
    ghost const universe: set<NetQueueItem>

    ghost predicate Valid()
      reads this, efd, tasks, batch, universe
    {
      && tasks != batch
      && stop in universe
      && Universe({tasks, batch}, universe)
      && Inv(View())
    }

    ghost function View(): WorkerState<NetQueueItem>
      reads this, efd, tasks, batch
    {
      WorkerState(stop, tasks.items, batch.items, efd.counter, reported, stopped)
    }

    constructor (stop: NetQueueItem, ghost universe: set<NetQueueItem>)
      requires stop in universe
      requires forall x :: x in universe ==> x.next == NotInQueue && x.owner == null
      ensures Valid() && View() == Start(stop) && this.universe == universe
    {
      efd := new NetEventFd();
      this.stop := stop;
      tasks := new NetQueue();
      batch := new NetQueue();
      reported, stopped := false, false;
      this.universe := universe;
    }

    lemma PendingIsOwned(task: NetQueueItem)
      requires Valid() && task in universe
      ensures task.owner != null <==> task in View().Pending()
    {
      assert Placed({tasks, batch}, task);
    }

    method Execute(task: NetQueueItem)
      requires Valid() && task in universe
      modifies efd, tasks, universe
      ensures Valid() && View() == Do(old(View()), Step.Execute(task))
    {
      ghost var was := View();
      StepKeepsInv(was, Step.Execute(task));
      PendingIsOwned(task);
      hide Inv, Placed, Universe;
      PushIn(tasks, task, ({tasks, batch}, universe));
      assert batch.items == was.batch;
      hide NetQueue.Valid;
      efd.Signal();
      assert View() == Do(was, Step.Execute(task));
    }

    method Cancel(task: NetQueueItem)
      requires Valid() && task in universe
      modifies tasks, universe
      ensures Valid() && View() == Do(old(View()), Step.Cancel(task))
    {
      ghost var was := View();
      StepKeepsInv(was, Step.Cancel(task));
      if task in batch.items {
        DistinctParts(batch.items, tasks.items);
        WithoutAbsent(tasks.items, task);
      }
      RemoveIn(tasks, task, ({tasks, batch}, universe));
    }

    /** poller_.Wait comes back with the eventfd among its events. */
    method Report()
      requires Valid() && Enabled(View(), Step<NetQueueItem>.Report)
      modifies this`reported
      ensures Valid() && View() == Do(old(View()), Step<NetQueueItem>.Report)
    {
      reported := true;
    }

    /** The eventfd's IN event: unsignal, copy the queue, reset it. */
    method TakeBatch()
      requires Valid() && Enabled(View(), Step<NetQueueItem>.Steal)
      modifies this`reported, this`batch, efd, tasks, universe
      ensures Valid() && View() == Do(old(View()), Step<NetQueueItem>.Steal)
      ensures fresh(batch)
    {
      ghost var was := View();
      StepKeepsInv(was, Step<NetQueueItem>.Steal);
      hide Inv, Placed, Universe;
      ghost var spent := batch;
      var n := efd.Unsignal();
      batch := StealIn(tasks, ({tasks, spent}, universe));
      hide NetQueue.Valid;
      reported := false;
      assert View() == Do(was, Step<NetQueueItem>.Steal);
      assert {tasks, spent} + {batch} == {tasks, batch} + {spent};
      Retire({tasks, batch}, spent);
    }

    /** An emptied queue can leave the universe. */
    lemma Retire(qs: set<NetQueue>, spent: NetQueue)
      requires Universe(qs + {spent}, universe) && spent.items == []
      ensures Universe(qs, universe)
    {
      forall x | x in universe ensures Placed(qs, x) {
        assert Placed(qs + {spent}, x);
      }
    }

    /** Pop one task; the stop item discards the rest of the batch. */
    method Next() returns (task: NetQueueItem?)
      requires Valid() && !stopped
      modifies this`stopped, batch, universe
      ensures Valid()
      ensures old(batch.items) == [] ==> task == null && View() == old(View())
      ensures old(batch.items) != [] ==> View() == Do(old(View()), Step<NetQueueItem>.RunNext)
      ensures task != null <==> RanNow(old(View())) != []
      ensures task != null ==> [task] == RanNow(old(View()))
    {
      ghost var was := View();
      if batch.items != [] {
        StepKeepsInv(was, Step<NetQueueItem>.RunNext);
      }
      hide Inv, Placed, Universe, NetQueue.Valid;
      task := PopIn(batch, ({tasks, batch}, universe));
      assert tasks.items == was.shared;
      if task == stop {
        task := null;
        Discard();
        stopped := true;
        assert View() == Do(was, Step<NetQueueItem>.RunNext);
      } else if task != null {
        assert View() == Do(was, Step<NetQueueItem>.RunNext);
      }
    }

    method Discard()
      requires tasks != batch && Universe({tasks, batch}, universe)
      modifies batch, universe
      ensures Universe({tasks, batch}, universe)
      ensures batch.items == [] && tasks.items == old(tasks.items)
    {
      var item := PopIn(batch, ({tasks, batch}, universe));
      while item != null
        invariant Universe({tasks, batch}, universe)
        invariant tasks.items == old(tasks.items) && (item == null ==> batch.items == [])
        decreases item != null, |batch.items|
      {
        item := PopIn(batch, ({tasks, batch}, universe));
      }
    }

    static ghost function RanNow(s: WorkerState<NetQueueItem>): seq<NetQueueItem> {
      if !s.stopped && s.batch != [] then RanBy(s, Step<NetQueueItem>.RunNext) else []
    }

    /** Every posted task is pending afterwards, behind what was there. */
    method ExecuteAll(posted: seq<NetQueueItem>)
      requires Valid() && forall x :: x in posted ==> x in universe
      modifies efd, tasks, universe
      ensures Valid() && batch.items == old(batch.items) && stopped == old(stopped)
      ensures old(tasks.items) <= tasks.items && efd.counter == old(efd.counter) + |posted|
      ensures forall x :: x in tasks.items <==> x in old(tasks.items) || (x in posted && x !in batch.items)
    {
      for i := 0 to |posted|
        invariant Valid() && batch.items == old(batch.items)
        invariant old(tasks.items) <= tasks.items && efd.counter == old(efd.counter) + i
        invariant forall x :: x in tasks.items <==> x in old(tasks.items) || (x in posted[..i] && x !in batch.items)
      {
        assert posted[..i + 1] == posted[..i] + [posted[i]];
        Execute(posted[i]);
      }
    }

    /** One turn of the inner loop: pop a task and run it; running it posts others. */
    method Turn(posted: seq<NetQueueItem>) returns (task: NetQueueItem?)
      requires Valid() && !stopped && !reported && forall x :: x in posted ==> x in universe
      modifies this`stopped, batch, tasks, efd, universe
      ensures Valid() && !reported
      ensures task == null <==> old(batch.items) == [] || old(batch.items)[0] == stop
      ensures task == null ==> batch.items == [] && (stopped <==> old(batch.items) != [])
      ensures task != null ==> !stopped && task != stop && old(batch.items) == [task] + batch.items
      ensures task == null ==> tasks.items == old(tasks.items)
      ensures old(tasks.items) <= tasks.items
      ensures task != null ==> forall x ::
                x in tasks.items <==> x in old(tasks.items) || (x in posted && x !in batch.items)
    {
      task := Next();
      if task != null {
        ExecuteAll(posted);
      }
    }

    ghost predicate Known(posted: seq<seq<NetQueueItem>>) {
      forall i, x :: 0 <= i < |posted| && x in posted[i] ==> x in universe
    }

    lemma NthKnown(posted: seq<seq<NetQueueItem>>, n: nat)
      requires Known(posted)
      ensures forall x :: x in Nth(posted, n) ==> x in universe
    {
    }

    /** Turn, at the n-th task. */
    lemma TurnGrows(was: seq<NetQueueItem>, now: seq<NetQueueItem>, posted: seq<seq<NetQueueItem>>,
              all: seq<NetQueueItem>, n: nat, task: NetQueueItem?)
      requires n <= |all| && Grown(was, now, posted, all, n)
      requires task == null ==> tasks.items == now
      requires task != null ==> n < |all| && batch.items == all[n + 1..] && now <= tasks.items
      requires task != null ==> forall x :: x in tasks.items <==> x in now || (x in Nth(posted, n) && x !in batch.items)
      ensures n + (if task == null then 0 else 1) <= |all|
      ensures Grown(was, tasks.items, posted, all, n + if task == null then 0 else 1)
    {
      if task != null {
        forall i | 0 <= i < |tasks.items| ensures tasks.items[i] in was || Posts(posted, all, n + 1, tasks.items[i]) {
          assert tasks.items[i] in now ==> exists j :: 0 <= j < |now| && now[j] == tasks.items[i];
        }
      }
    }

    /** The tasks in `ran` have run, and the rest of the batch is in hand. */
    ghost predicate Midway(ran: seq<NetQueueItem>, posted: seq<seq<NetQueueItem>>, all: seq<NetQueueItem>,
                           was: seq<NetQueueItem>)
      reads this, batch, tasks
    {
      !stopped && stop !in ran && all == ran + batch.items && Grown(was, tasks.items, posted, all, |ran|)
    }

    /** They are all the tasks of the batch up to the stop item. */
    ghost predicate Finished(ran: seq<NetQueueItem>, posted: seq<seq<NetQueueItem>>, all: seq<NetQueueItem>,
                             was: seq<NetQueueItem>)
      reads this, batch, tasks
    {
      && batch.items == [] && ran == Before(all, stop) && (stopped <==> stop in all)
      && |ran| <= |all| && Grown(was, tasks.items, posted, all, |ran|)
    }

    /** The turn after the tasks in `ran`. */
    method NextTurn(ran: seq<NetQueueItem>, posted: seq<seq<NetQueueItem>>, ghost all: seq<NetQueueItem>,
                    ghost was: seq<NetQueueItem>) returns (task: NetQueueItem?)
      requires Valid() && !reported && Known(posted) && Midway(ran, posted, all, was)
      modifies this`stopped, batch, tasks, efd, universe
      ensures Valid() && !reported && (task != null ==> |batch.items| < |old(batch.items)|)
      ensures if task == null then Finished(ran, posted, all, was) else Midway(ran + [task], posted, all, was)
    {
      hide Nth, Grown, Posts, Before, Valid, Known;
      ghost var now, left := tasks.items, batch.items;
      NthKnown(posted, |ran|);
      task := Turn(Nth(posted, |ran|));
      if task != null {
        Associates(ran, [task], batch.items);
        assert batch.items == all[|ran| + 1..];
      } else {
        assert left != [] ==> all[|ran|] == left[0];
        assert all[..|ran|] == ran;
        BeforeSplit(all, |ran|, stop);
      }
      TurnGrows(was, now, posted, all, |ran|, task);
    }

    /** The inner loop of the routine.  Each task, while it runs, may post others
        (`posted[i]` while the i-th one runs); they never join the stolen batch, and
        are in the shared queue afterwards unless they were behind the poster in the batch. */
    method RunBatch(posted: seq<seq<NetQueueItem>>) returns (ran: seq<NetQueueItem>)
      requires Valid() && !stopped && !reported && Known(posted)
      modifies this`stopped, batch, tasks, efd, universe
      ensures Valid() && batch.items == []
      ensures ran == Before(old(batch.items), stop) && (stopped <==> stop in old(batch.items))
      ensures |ran| <= |old(batch.items)| && Grown(old(tasks.items), tasks.items, posted, old(batch.items), |ran|)
    {
      hide Valid, Grown, Before, Known;
      ghost var all, was := batch.items, tasks.items;
      ran := [];
      assert Midway(ran, posted, all, was) by {
        GrownNone(was, posted, all);
      }
      hide Midway;
      var task := NextTurn(ran, posted, all, was);
      while task != null
        invariant Valid() && !reported
        invariant if task == null then Finished(ran, posted, all, was) else Midway(ran + [task], posted, all, was)
        decreases task != null, |batch.items|
      {
        ran := ran + [task];
        task := NextTurn(ran, posted, all, was);
      }
    }
  }

  ghost function Before<T>(q: seq<T>, stop: T): seq<T> {
    if q == [] || q[0] == stop then [] else [q[0]] + Before(q[1..], stop)
  }

  lemma {:induction false} BeforeSplit<T>(q: seq<T>, k: nat, stop: T)
    requires k <= |q| && stop !in q[..k] && (k < |q| ==> q[k] == stop)
    ensures Before(q, stop) == q[..k] && (stop in q <==> k < |q|)
  {
    if k > 0 {
      assert q[1..][..k-1] == q[..k][1..];
      BeforeSplit(q[1..], k - 1, stop);
      assert q == [q[0]] + q[1..];
    } else if q != [] {
      assert q[0] in q;
    }
  }
}
