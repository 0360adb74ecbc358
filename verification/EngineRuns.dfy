/** Runs of the engine: the states it goes through and the steps in between. */
module EngineRuns {
  import opened SocketFsm
  import opened Sequences
  import opened Sockets
  import opened SocketInv
  import opened Engine
  import opened EngineInv

  datatype Trace = Trace(states: seq<Sys>, steps: seq<Step>)

  predicate Linked(r: Trace, i: int) {
    && 0 <= i < |r.steps| && i + 1 < |r.states|
    && Enabled(r.states[i], r.steps[i]) && r.states[i + 1] == Do(r.states[i], r.steps[i])
  }

  predicate IsRun(r: Trace) {
    |r.states| == |r.steps| + 1 && forall i :: 0 <= i < |r.steps| ==> Linked(r, i)
  }

  predicate ProvokedAt(r: Trace, i: int) {
    0 <= i < |r.steps| && i < |r.states| && Provokes(r.states[i], r.steps[i])
  }

  /** Somewhere in the run a failed socket() or listen() was ignored. */
  predicate Provoked(r: Trace) {
    exists i :: 0 <= i < |r.steps| && ProvokedAt(r, i)
  }

  function Last(r: Trace): Sys
    requires IsRun(r)
  {
    r.states[|r.steps|]
  }

  /** A newly built device: the listener's handle is uninitialised, and only the
      workers' eventfds are open. */
  predicate Built(y: Sys) {
    && 0 in y.socks && (forall fd :: fd in y.open ==> fd >= 0 && y.open[fd] < 0)
    && var l := y.socks[0];
       y == Init(Birth(l.cache, l.hfd, l.worker), y.open)
  }

  /** A run of the device, from its construction on. */
  predicate FromStart(r: Trace) {
    IsRun(r) && Built(r.states[0])
  }

  // ---- Building runs ----

  predicate Leads(y: Sys, r: Trace, z: Sys) {
    IsRun(r) && !Provoked(r) && r.states[0] == y && Last(r) == z
  }

  function Stay(y: Sys): Trace {
    Trace([y], [])
  }

  lemma StayLeads(y: Sys)
    ensures Leads(y, Stay(y), y)
  {
  }

  function Then(r: Trace, step: Step): Trace
    requires IsRun(r) && Enabled(Last(r), step)
  {
    Trace(r.states + [Do(Last(r), step)], r.steps + [step])
  }

  lemma ThenIsRun(r: Trace, step: Step)
    requires IsRun(r) && Enabled(Last(r), step)
    ensures IsRun(Then(r, step)) && Last(Then(r, step)) == Do(Last(r), step)
    ensures Provoked(Then(r, step)) <==> Provoked(r) || Provokes(Last(r), step)
  {
    hide Enabled, Do, Provokes;
    var t := Then(r, step);
    forall i | 0 <= i < |t.steps|
      ensures Linked(t, i)
      ensures ProvokedAt(t, i) <==> if i < |r.steps| then ProvokedAt(r, i) else Provokes(Last(r), step)
    {
      assert i < |r.steps| ==> Linked(r, i);
    }
    if Provokes(Last(r), step) {
      assert ProvokedAt(t, |r.steps|);
    }
    if Provoked(r) {
      var i :| 0 <= i < |r.steps| && ProvokedAt(r, i);
      assert ProvokedAt(t, i);
    }
  }

  lemma ThenLeads(y: Sys, r: Trace, z: Sys, step: Step)
    requires Leads(y, r, z) && Inv(z) && Enabled(z, step) && !Provokes(z, step)
    ensures Leads(y, Then(r, step), Do(z, step)) && Inv(Do(z, step))
  {
    hide Inv, Enabled, Do, Provokes;
    ThenIsRun(r, step);
    StepKeeps(z, step);
  }

  /** One more step. */
  lemma AfterStep(y: Sys, r: Trace, z: Sys, step: Step) returns (r': Trace, z': Sys)
    requires Leads(y, r, z) && Inv(z) && Enabled(z, step) && !Provokes(z, step)
    ensures Leads(y, r', z') && z' == Do(z, step) && Inv(z')
  {
    hide Inv, Do, Enabled, Provokes;
    ThenLeads(y, r, z, step);
    r', z' := Then(r, step), Do(z, step);
  }

  function Joined(a: Trace, b: Trace): Trace
    requires IsRun(a) && IsRun(b) && b.states[0] == Last(a)
  {
    Trace(a.states + b.states[1..], a.steps + b.steps)
  }

  lemma JoinedLeads(x: Sys, a: Trace, y: Sys, b: Trace, z: Sys)
    requires Leads(x, a, y) && Leads(y, b, z)
    ensures Leads(x, Joined(a, b), z)
  {
    hide Enabled, Do, Provokes;
    var j, n := Joined(a, b), |a.steps|;
    forall i | 0 <= i < |j.steps|
      ensures Linked(j, i) && !ProvokedAt(j, i)
    {
      if i < n {
        assert Linked(a, i) && !ProvokedAt(a, i);
      } else {
        assert Linked(b, i - n) && !ProvokedAt(b, i - n);
      }
    }
  }

  lemma Both(x: Sys, a: Trace, y: Sys, b: Trace, z: Sys) returns (r: Trace)
    requires Leads(x, a, y) && Leads(y, b, z)
    ensures Leads(x, r, z)
  {
    JoinedLeads(x, a, y, b, z);
    r := Joined(a, b);
  }

  // ---- What every run keeps ----

  lemma {:induction false} StateOk(r: Trace, n: nat)
    requires IsRun(r) && Inv(r.states[0]) && n <= |r.steps| && forall i :: 0 <= i < n ==> !ProvokedAt(r, i)
    ensures Inv(r.states[n])
  {
    hide Inv, Do, Enabled, Provokes;
    if n > 0 {
      StateOk(r, n - 1);
      assert Linked(r, n - 1) && !ProvokedAt(r, n - 1);
      StepKeeps(r.states[n - 1], r.steps[n - 1]);
    }
  }

  lemma InitOk(y: Sys)
    requires Built(y)
    ensures Inv(y)
  {
  }

  lemma EndOk(r: Trace)
    requires FromStart(r) && !Provoked(r)
    ensures Inv(Last(r))
  {
    hide Inv, Linked, Built;
    InitOk(r.states[0]);
    StateOk(r, |r.steps|);
  }
}
