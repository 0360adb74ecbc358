/** Which locks the code takes, in which order, and why no set of threads can wait
    for each other (ctx.cpp, worker.cpp, socket.cpp, channel.h, utils.cpp, device.cpp).

    A thread is the list of its lock and unlock operations, as the code's paths
    generate them; any number of threads interleave.  A mutex is not recursive. */
module Locks {
  import opened Sequences

  datatype Lock =
    | Context(socket: int)    // NetCtx::sync_
    | Tasks(worker: int)      // NetWorker::sync_
    | Messages(socket: int)   // NetSocket::msq_sync_
    | Completion              // Channel::mutex_ of the device's cq_
    | Pool                    // NetPool::mutex_

  datatype Op = Acquire(l: Lock) | Release(l: Lock)

  // ---- The paths of the code ----

  /** Calls that take locks, from handlers and from user threads alike. */
  datatype Call =
    | Execute(worker: int)                                          // also Cancel, Terminate, stealing a batch
    | Dequeue(socket: int)                                          // the OUT event of an active socket
    | Complete                                                      // Channel::Send, Receive and the closes
    | NewSocket                                                     // NetSocket::Init chooses a worker
    | AsyncSendMsg(socket: int, worker: int)
    | SendMsg(socket: int, worker: int, made: bool, posts: bool)    // posts: Connect hands a task to the worker
    | Accepted(worker: int, listenerWorker: int)                    // the device on an Accepted event

  /** The locks a call takes, one after the other: each is released before the next. */
  function Leaves(c: Call): seq<Lock> {
    match c
    case Execute(w) => [Tasks(w)]
    case Dequeue(s) => [Messages(s)]
    case Complete => [Completion]
    case NewSocket => [Pool]
    case AsyncSendMsg(s, w) => [Messages(s), Tasks(w)]
    case SendMsg(s, w, made, posts) => (if made then [Pool] else []) + (if posts then [Tasks(w)] else [])
        + [Messages(s), Tasks(w)]
    case Accepted(w, lw) => [Tasks(w), Pool, Tasks(lw)]
  }

  /** What a thread does: calls outside any context, and critical sections, whose
      handlers make calls and whose external events are, after the unlock, critical
      sections of their own. */
  datatype Code = Outside(call: Call) | Section(socket: int, calls: seq<Call>, external: seq<Code>)

  /** A lock, what is done while it is held, with any further locks, and its unlock. */
  datatype Region = Region(lock: Lock, body: seq<Region>)

  function LeafRegions(leaves: seq<Lock>): seq<Region> {
    if leaves == [] then [] else [Region(leaves[0], [])] + LeafRegions(leaves[1..])
  }

  function CallRegions(calls: seq<Call>): seq<Region> {
    if calls == [] then [] else LeafRegions(Leaves(calls[0])) + CallRegions(calls[1..])
  }

  function Path(code: Code): seq<Region> {
    match code
    case Outside(call) => LeafRegions(Leaves(call))
    case Section(s, calls, external) => [Region(Context(s), CallRegions(calls))] + Paths(external)
  }

  function Paths(codes: seq<Code>): seq<Region> {
    if codes == [] then [] else Path(codes[0]) + Paths(codes[1..])
  }

  function Ops(r: Region): (ops: seq<Op>)
    ensures |ops| > 0 && ops[0] == Acquire(r.lock)
  {
    [Acquire(r.lock)] + AllOps(r.body) + [Release(r.lock)]
  }

  function AllOps(rs: seq<Region>): seq<Op> {
    if rs == [] then [] else Ops(rs[0]) + AllOps(rs[1..])
  }

  /** The code takes the lock somewhere, by a call or for a section of its own. */
  predicate Takes(code: Code, l: Lock) {
    match code
    case Outside(call) => l in Leaves(call)
    case Section(s, calls, external) =>
      || l == Context(s)
      || (exists i :: 0 <= i < |calls| && l in Leaves(calls[i]))
      || (exists i :: 0 <= i < |external| && Takes(external[i], l))
  }

  lemma {:induction false} LeavesTaken(leaves: seq<Lock>, l: Lock)
    ensures Acquire(l) in AllOps(LeafRegions(leaves)) <==> l in leaves
  {
    if leaves != [] {
      LeavesTaken(leaves[1..], l);
      assert leaves == [leaves[0]] + leaves[1..];
      assert AllOps([]) == [];
      assert Ops(Region(leaves[0], [])) == [Acquire(leaves[0]), Release(leaves[0])];
    }
  }

  lemma {:induction false} JoinOps(a: seq<Region>, b: seq<Region>)
    ensures AllOps(a + b) == AllOps(a) + AllOps(b)
  {
    if a == [] {
      assert a + b == b;
    } else {
      JoinOps(a[1..], b);
      assert (a + b)[1..] == a[1..] + b;
      Associates(Ops(a[0]), AllOps(a[1..]), AllOps(b));
    }
  }

  lemma {:induction false} CallsTaken(calls: seq<Call>, l: Lock)
    ensures Acquire(l) in AllOps(CallRegions(calls)) <==> exists i :: 0 <= i < |calls| && l in Leaves(calls[i])
  {
    hide Leaves, LeafRegions;
    if calls != [] {
      var rest := calls[1..];
      CallsTaken(rest, l);
      LeavesTaken(Leaves(calls[0]), l);
      JoinOps(LeafRegions(Leaves(calls[0])), CallRegions(rest));
      hide AllOps;
      if exists i :: 0 <= i < |rest| && l in Leaves(rest[i]) {
        var i :| 0 <= i < |rest| && l in Leaves(rest[i]);
        assert l in Leaves(calls[i + 1]);
      }
      if exists i :: 0 < i < |calls| && l in Leaves(calls[i]) {
        var i :| 0 < i < |calls| && l in Leaves(calls[i]);
        assert l in Leaves(rest[i - 1]);
      }
    }
  }

  /** A path locks what its calls and sections lock, and nothing else. */
  lemma {:induction false} PathTakes(code: Code, l: Lock)
    ensures Acquire(l) in AllOps(Path(code)) <==> Takes(code, l)
    decreases code, 0
  {
    hide Leaves, LeafRegions, CallRegions;
    match code
    case Outside(call) => LeavesTaken(Leaves(call), l);
    case Section(s, calls, external) =>
      var r := Region(Context(s), CallRegions(calls));
      CallsTaken(calls, l);
      PathsTake(external, l);
      JoinOps([r], Paths(external));
      assert AllOps([r]) == Ops(r) + AllOps([]) && AllOps([]) == [];
      assert Acquire(l) in Ops(r) <==> l == Context(s) || Acquire(l) in AllOps(CallRegions(calls));
  }

  lemma {:induction false} PathsTake(codes: seq<Code>, l: Lock)
    ensures Acquire(l) in AllOps(Paths(codes)) <==> exists i :: 0 <= i < |codes| && Takes(codes[i], l)
    decreases codes, 1
  {
    hide Path, AllOps, Takes;
    if codes == [] {
      NothingTaken(l);
    } else {
      var rest := codes[1..];
      PathTakes(codes[0], l);
      PathsTake(rest, l);
      JoinOps(Path(codes[0]), Paths(rest));
      assert codes == [codes[0]] + rest;
      if exists i :: 0 <= i < |rest| && Takes(rest[i], l) {
        var i :| 0 <= i < |rest| && Takes(rest[i], l);
        assert Takes(codes[i + 1], l);
      }
      if exists i :: 0 < i < |codes| && Takes(codes[i], l) {
        var i :| 0 < i < |codes| && Takes(codes[i], l);
        assert Takes(rest[i - 1], l);
      }
    }
  }

  lemma NothingTaken(l: Lock)
    ensures Acquire(l) !in AllOps([])
  {
  }

  // ---- The order ----

  /** A context is locked only by a thread that holds nothing, any other lock only by
      one that holds at most contexts; locks are released by their holder, and all in the end. */
  predicate Disciplined(held: set<Lock>, rest: seq<Op>)
    decreases |rest|
  {
    if rest == [] then held == {}
    else
      match rest[0]
      case Acquire(l) => (if l.Context? then held == {} else OnlyContexts(held))
          && Disciplined(held + {l}, rest[1..])
      case Release(l) => l in held && Disciplined(held - {l}, rest[1..])
  }

  predicate OnlyContexts(held: set<Lock>) {
    forall h :: h in held ==> h.Context?
  }

  /** A lock other than a context's, with nothing locked under it. */
  predicate Leaf(r: Region) {
    !r.lock.Context? && r.body == []
  }

  predicate AllLeaves(rs: seq<Region>) {
    forall i :: 0 <= i < |rs| ==> Leaf(rs[i])
  }

  /** A leaf, or a context with leaves under it. */
  predicate Shallow(r: Region) {
    Leaf(r) || (r.lock.Context? && AllLeaves(r.body))
  }

  predicate AllShallow(rs: seq<Region>) {
    forall i :: 0 <= i < |rs| ==> Shallow(rs[i])
  }

  /** While a context or nothing is held, a region fits exactly if it is a leaf. */
  lemma LeafIff(held: set<Lock>, r: Region, rest: seq<Op>)
    requires OnlyContexts(held) && (held != {} || !r.lock.Context?)
    ensures Disciplined(held, Ops(r) + rest) <==> Leaf(r) && Disciplined(held, rest)
  {
    var l, all := r.lock, Ops(r) + rest;
    var inner := AllOps(r.body) + ([Release(l)] + rest);
    assert all[0] == Acquire(l) && all[1..] == inner;
    if !l.Context? {
      assert !OnlyContexts(held + {l});
      if r.body == [] {
        assert inner == [Release(l)] + rest && inner[1..] == rest;
        assert held + {l} - {l} == held;
      } else {
        assert inner[0] == Acquire(r.body[0].lock) && held + {l} != {};
      }
    }
  }

  lemma {:induction false} LeavesIff(held: set<Lock>, rs: seq<Region>, rest: seq<Op>)
    requires OnlyContexts(held) && held != {}
    ensures Disciplined(held, AllOps(rs) + rest) <==> AllLeaves(rs) && Disciplined(held, rest)
  {
    hide Disciplined, Ops, Leaf;
    if rs == [] {
      assert AllOps(rs) + rest == rest;
    } else {
      LeafIff(held, rs[0], AllOps(rs[1..]) + rest);
      LeavesIff(held, rs[1..], rest);
      Associates(Ops(rs[0]), AllOps(rs[1..]), rest);
      assert AllLeaves(rs) <==> Leaf(rs[0]) && AllLeaves(rs[1..]) by {
        assert rs == [rs[0]] + rs[1..];
      }
    }
  }

  lemma ShallowIff(r: Region, rest: seq<Op>)
    ensures Disciplined({}, Ops(r) + rest) <==> Shallow(r) && Disciplined({}, rest)
  {
    if r.lock.Context? {
      var c, all := r.lock, Ops(r) + rest;
      var leave := [Release(c)] + rest;
      assert all[0] == Acquire(c) && all[1..] == AllOps(r.body) + leave && {} + {c} == {c};
      LeavesIff({c}, r.body, leave);
      assert leave[1..] == rest && {c} - {c} == {};
    } else {
      LeafIff({}, r, rest);
    }
  }

  /** Whatever the nesting, a thread is disciplined if and only if all it locks is leaves
      and contexts with leaves under them. */
  lemma {:induction false} DisciplinedIff(rs: seq<Region>)
    ensures Disciplined({}, AllOps(rs)) <==> AllShallow(rs)
  {
    hide Disciplined, Ops, Shallow;
    if rs == [] {
      NothingDisciplined();
    } else {
      ShallowIff(rs[0], AllOps(rs[1..]));
      DisciplinedIff(rs[1..]);
      assert AllShallow(rs) <==> Shallow(rs[0]) && AllShallow(rs[1..]) by {
        assert rs == [rs[0]] + rs[1..];
      }
    }
  }

  lemma NothingDisciplined()
    ensures Disciplined({}, [])
  {
  }

  // ---- The code keeps it ----

  lemma {:induction false} LeafRegionsAre(leaves: seq<Lock>)
    requires forall i :: 0 <= i < |leaves| ==> !leaves[i].Context?
    ensures AllLeaves(LeafRegions(leaves))
  {
    if leaves != [] {
      LeafRegionsAre(leaves[1..]);
    }
  }

  lemma LeavesAreLeaves(c: Call)
    ensures AllLeaves(LeafRegions(Leaves(c)))
  {
    LeafRegionsAre(Leaves(c));
  }

  lemma {:induction false} CallsAreLeaves(calls: seq<Call>)
    ensures AllLeaves(CallRegions(calls))
  {
    hide Leaves, LeafRegions;
    if calls != [] {
      LeavesAreLeaves(calls[0]);
      CallsAreLeaves(calls[1..]);
    }
  }

  lemma {:induction false} PathShallow(code: Code)
    ensures AllShallow(Path(code))
    decreases code, 0
  {
    hide Leaves, LeafRegions, CallRegions;
    match code
    case Outside(call) => LeavesAreLeaves(call);
    case Section(s, calls, external) =>
      CallsAreLeaves(calls);
      PathsShallow(external);
  }

  lemma {:induction false} PathsShallow(codes: seq<Code>)
    ensures AllShallow(Paths(codes))
    decreases codes, 1
  {
    hide Path;
    if codes != [] {
      PathShallow(codes[0]);
      PathsShallow(codes[1..]);
    }
  }

  /** Every path of the code is disciplined. */
  lemma AllDisciplined(codes: seq<Code>)
    ensures Disciplined({}, AllOps(Paths(codes)))
  {
    PathsShallow(codes);
    DisciplinedIff(Paths(codes));
  }

  // ---- Threads ----

  datatype Thread = Thread(held: set<Lock>, rest: seq<Op>)

  predicate Free(ts: seq<Thread>, l: Lock) {
    forall u :: 0 <= u < |ts| ==> l !in ts[u].held
  }

  predicate Enabled(ts: seq<Thread>, t: int) {
    0 <= t < |ts| && ts[t].rest != [] && (ts[t].rest[0].Acquire? ==> Free(ts, ts[t].rest[0].l))
  }

  function Do(ts: seq<Thread>, t: int): seq<Thread>
    requires Enabled(ts, t)
  {
    var x := ts[t];
    var l := x.rest[0].l;
    ts[t := Thread(if x.rest[0].Acquire? then x.held + {l} else x.held - {l}, x.rest[1..])]
  }

  predicate Inv(ts: seq<Thread>) {
    && (forall t :: 0 <= t < |ts| ==> Disciplined(ts[t].held, ts[t].rest))
    && (forall t, u :: 0 <= t < |ts| && 0 <= u < |ts| && t != u ==> ts[t].held !! ts[u].held)
  }

  function Start(programs: seq<seq<Code>>): seq<Thread> {
    seq(|programs|, t requires 0 <= t < |programs| => Thread({}, AllOps(Paths(programs[t]))))
  }

  lemma StartOk(programs: seq<seq<Code>>)
    ensures Inv(Start(programs))
  {
    forall t | 0 <= t < |programs| ensures Disciplined({}, AllOps(Paths(programs[t]))) {
      AllDisciplined(programs[t]);
    }
  }

  lemma StepKeeps(ts: seq<Thread>, t: int)
    requires Inv(ts) && Enabled(ts, t)
    ensures Inv(Do(ts, t))
  {
    assert Disciplined(ts[t].held, ts[t].rest);
  }

  predicate Valid(ts: seq<Thread>, schedule: seq<int>)
    decreases |schedule|
  {
    schedule == [] || (Enabled(ts, schedule[0]) && Valid(Do(ts, schedule[0]), schedule[1..]))
  }

  function Final(ts: seq<Thread>, schedule: seq<int>): seq<Thread>
    requires Valid(ts, schedule)
    decreases |schedule|
  {
    if schedule == [] then ts else Final(Do(ts, schedule[0]), schedule[1..])
  }

  lemma {:induction false} RunKeeps(ts: seq<Thread>, schedule: seq<int>)
    requires Inv(ts) && Valid(ts, schedule)
    ensures Inv(Final(ts, schedule))
    decreases |schedule|
  {
    hide Inv, Do, Enabled;
    if schedule != [] {
      StepKeeps(ts, schedule[0]);
      RunKeeps(Do(ts, schedule[0]), schedule[1..]);
    }
  }

  // ---- No deadlock ----

  /** Thread t stands before a lock that thread u holds. */
  predicate Waits(ts: seq<Thread>, t: int, u: int) {
    && 0 <= t < |ts| && 0 <= u < |ts|
    && ts[t].rest != [] && ts[t].rest[0].Acquire? && ts[t].rest[0].l in ts[u].held
  }

  /** Whoever is waited for by a thread that is waited for does not wait. */
  lemma ChainsAreShort(ts: seq<Thread>, t: int, u: int, v: int, w: int)
    requires Inv(ts) && Waits(ts, t, u) && Waits(ts, u, v)
    ensures !Waits(ts, v, w)
  {
    assert Disciplined(ts[u].held, ts[u].rest) && Disciplined(ts[v].held, ts[v].rest);
  }

  function After(cycle: seq<int>, i: int): int
    requires 0 <= i < |cycle|
  {
    cycle[(i + 1) % |cycle|]
  }

  /** Whatever the threads run and however they are scheduled, there is never a
      cycle of threads each waiting for a lock the next one holds, not even a cycle of one. */
  lemma NoCycle(programs: seq<seq<Code>>, schedule: seq<int>, cycle: seq<int>)
    requires Valid(Start(programs), schedule) && cycle != []
    ensures var ts := Final(Start(programs), schedule);
            exists i :: 0 <= i < |cycle| && !Waits(ts, cycle[i], After(cycle, i))
  {
    var ts, n := Final(Start(programs), schedule), |cycle|;
    StartOk(programs);
    RunKeeps(Start(programs), schedule);
    var i1 := 1 % n;
    var i2 := (i1 + 1) % n;
    assert After(cycle, 0) == cycle[i1] && After(cycle, i1) == cycle[i2];
    var next := After(cycle, i2);
    if Waits(ts, cycle[0], cycle[i1]) && Waits(ts, cycle[i1], cycle[i2]) {
      ChainsAreShort(ts, cycle[0], cycle[i1], cycle[i2], next);
    }
  }

  function Nested(outer: Lock, inner: Lock): seq<Op> {
    [Acquire(outer), Acquire(inner), Release(inner), Release(outer)]
  }

  /** What the discipline is for: any two locks, contexts or not, that are nested one
      way by one thread and the other way by another can stop both; and at least one of
      the two nestings is undisciplined. */
  lemma NestingCycles(a: Lock, b: Lock)
    requires a != b
    ensures var left, right := Nested(a, b), Nested(b, a);
            var ts := [Thread({}, left), Thread({}, right)];
            && Valid(ts, [0, 1]) && Waits(Final(ts, [0, 1]), 0, 1) && Waits(Final(ts, [0, 1]), 1, 0)
            && !(Disciplined({}, left) && Disciplined({}, right))
  {
    var left, right := Nested(a, b), Nested(b, a);
    var ts := [Thread({}, left), Thread({}, right)];
    var us := [Thread({a}, left[1..]), ts[1]];
    var vs := [us[0], Thread({b}, right[1..])];
    assert {} + {a} == {a} && {} + {b} == {b};
    assert Enabled(ts, 0) && Do(ts, 0)[0] == us[0] && Do(ts, 0) == us;
    assert Enabled(us, 1) && Do(us, 1)[1] == vs[1] && Do(us, 1) == vs;
    assert [0, 1][1..] == [1] && [1][1..] == [];
    assert Valid(vs, []) && Final(vs, []) == vs;
    assert Valid(us, [1]) && Final(us, [1]) == vs;
  }

  /** And some thread can always go on, until all have finished. */
  lemma Progress(programs: seq<seq<Code>>, schedule: seq<int>) returns (t: int)
    requires Valid(Start(programs), schedule)
    ensures var ts := Final(Start(programs), schedule);
            Enabled(ts, t) || forall u :: 0 <= u < |ts| ==> ts[u].rest == []
  {
    var ts := Final(Start(programs), schedule);
    StartOk(programs);
    RunKeeps(Start(programs), schedule);
    t := 0;
    if u :| 0 <= u < |ts| && ts[u].rest != [] {
      t := Runner(ts, u);
    }
  }

  /** Follow who is waited for, at most twice. */
  lemma Runner(ts: seq<Thread>, t: int) returns (r: int)
    requires Inv(ts) && 0 <= t < |ts| && ts[t].rest != []
    ensures Enabled(ts, r)
  {
    r := t;
    if !Enabled(ts, r) {
      r := Holder(ts, r);
      if !Enabled(ts, r) {
        var u := r;
        r := Holder(ts, r);
        if !Enabled(ts, r) {
          var w := Holder(ts, r);
          ChainsAreShort(ts, t, u, r, w);
        }
      }
    }
  }

  lemma Holder(ts: seq<Thread>, t: int) returns (u: int)
    requires Inv(ts) && 0 <= t < |ts| && ts[t].rest != [] && !Enabled(ts, t)
    ensures Waits(ts, t, u) && ts[u].rest != []
  {
    u :| 0 <= u < |ts| && ts[t].rest[0].l in ts[u].held;
    assert Disciplined(ts[u].held, ts[u].rest);
  }
}
