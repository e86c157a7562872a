/**
 The handlers from call to return (src/scheduler.rs): which registry operations one call makes and in what order, and
 when it makes none; under any interleaving, and with the slots it moves when nothing else happens.
 */
module HandlerRuns {
  import opened Collections
  import opened JobIds
  import opened JobModel
  import opened JobRuns
  import opened Workers
  import opened Slots
  import opened SlotLedger

  // ---------- What one thread does in a run ----------

  predicate MovedBy(step: Step, i: nat) { step.Advance? && step.thread == i }

  /** How many of these steps thread i makes. */
  function OwnSteps(steps: seq<Step>, i: nat): nat {
    if steps == [] then 0 else OwnSteps(steps[..|steps| - 1], i) + Count(MovedBy(steps[|steps| - 1], i))
  }

  /** The registry operations that thread i performs in a run. */
  function OwnEvents(c: Config, s: System, steps: seq<Step>, i: nat): seq<Event> {
    if steps == [] then []
    else
      var front, last := steps[..|steps| - 1], steps[|steps| - 1];
      OwnEvents(c, s, front, i) + if MovedBy(last, i) then StepEvents(c, RunSystem(c, s, front), last) else []
  }

  lemma OneMore(c: Config, s: System, steps: seq<Step>, step: Step, i: nat)
    ensures RunSystem(c, s, steps + [step]) == Next(c, RunSystem(c, s, steps), step)
    ensures OwnSteps(steps + [step], i) == OwnSteps(steps, i) + Count(MovedBy(step, i))
    ensures OwnEvents(c, s, steps + [step], i) ==
            OwnEvents(c, s, steps, i) + if MovedBy(step, i) then StepEvents(c, RunSystem(c, s, steps), step) else []
  {
    assert (steps + [step])[..|steps|] == steps;
  }

  lemma {:induction false} OwnAppends(c: Config, s: System, steps: seq<Step>, more: seq<Step>, i: nat)
    ensures RunSystem(c, s, steps + more) == RunSystem(c, RunSystem(c, s, steps), more)
    ensures OwnEvents(c, s, steps + more, i) ==
            OwnEvents(c, s, steps, i) + OwnEvents(c, RunSystem(c, s, steps), more, i)
  {
    hide StepEvents, Next;
    if more == [] {
      assert steps + more == steps;
    } else {
      var front, last := more[..|more| - 1], more[|more| - 1];
      OwnAppends(c, s, steps, front, i);
      assert steps + more == (steps + front) + [last];
      OneMore(c, s, steps + front, last, i);
    }
  }

  /** Where thread i stands after a run in which it made this many steps and performed these operations. */
  ghost predicate Stands(c: Config, s: System, steps: seq<Step>, i: nat, pc: Pc, es: seq<Event>) {
    var t := RunSystem(c, s, steps);
    i < |t.threads| && t.threads[i] == pc && OwnEvents(c, s, steps, i) == es
  }

  lemma OthersLeaveThread(c: Config, s: System, step: Step, i: nat)
    requires i < |s.threads| && !MovedBy(step, i)
    ensures i < |Next(c, s, step).threads| && Next(c, s, step).threads[i] == s.threads[i]
  {
    hide StepPc, Apply, CallWorkers;
  }

  lemma OwnStep(c: Config, s: System, i: nat, now: nat)
    requires i < |s.threads|
    ensures var t := Next(c, s, Advance(i, now));
      i < |t.threads| && (t.jobs, t.workers, t.threads[i]) == StepPc(c, s, s.threads[i], now)
  {
    hide StepPc;
  }

  lemma {:induction false} Waits(c: Config, s: System, steps: seq<Step>, i: nat, pc: Pc)
    requires i < |s.threads| && s.threads[i] == pc && OwnSteps(steps, i) == 0
    ensures Stands(c, s, steps, i, pc, [])
  {
    hide Next, StepEvents;
    if steps != [] {
      var front, last := steps[..|steps| - 1], steps[|steps| - 1];
      assert steps == front + [last];
      OneMore(c, s, front, last, i);
      Waits(c, s, front, i, pc);
      OthersLeaveThread(c, RunSystem(c, s, front), last, i);
    }
  }

  /** A thread that owes releases makes one with each of its steps, and performs no operation until it is through. */
  lemma {:induction false} Drains(c: Config, s: System, steps: seq<Step>, i: nat, owed: seq<WorkerId>, cmd: Command)
    requires i < |s.threads| && s.threads[i] == Releasing(owed, cmd) && OwnSteps(steps, i) <= |owed| + 1
    ensures var m := OwnSteps(steps, i);
      Stands(c, s, steps, i, if m <= |owed| then Releasing(owed[m..], cmd) else Ready(cmd), [])
  {
    hide Next, Released;
    if steps != [] {
      var front, last := steps[..|steps| - 1], steps[|steps| - 1];
      assert steps == front + [last];
      OneMore(c, s, front, last, i);
      Drains(c, s, front, i, owed, cmd);
      var t := RunSystem(c, s, front);
      if MovedBy(last, i) {
        OwnStep(c, t, i, last.now);
      } else {
        OthersLeaveThread(c, t, last, i);
      }
    }
  }

  /** A call that is over, or has only a release left to make, performs no further operation. */
  lemma {:induction false} Over(c: Config, s: System, steps: seq<Step>, i: nat)
    requires i < |s.threads| && (s.threads[i].Done? || s.threads[i].Owing?)
    ensures var t := RunSystem(c, s, steps); i < |t.threads| && (t.threads[i].Done? || t.threads[i].Owing?)
    ensures OwnEvents(c, s, steps, i) == []
  {
    hide Next, Released;
    if steps != [] {
      var front, last := steps[..|steps| - 1], steps[|steps| - 1];
      assert steps == front + [last];
      OneMore(c, s, front, last, i);
      Over(c, s, front, i);
      var t := RunSystem(c, s, front);
      if MovedBy(last, i) {
        OwnStep(c, t, i, last.now);
      } else {
        OthersLeaveThread(c, t, last, i);
      }
    }
  }

  /**
   What else may happen between any two steps of the handlers: every call on the workers, and every operation on the
   registry that touches no lease, each with its full effect.
   */
  lemma OutsideSteps(c: Config, s: System, call: WorkerCall, e: Event, now: nat)
    ensures Next(c, s, OnWorkers(call, now)) ==
            s.(workers :=
                 match call
                 case CallRegister(q) => Registered(s.workers, q, now).0
                 case CallHeartbeat(id) => WithHeartbeat(s.workers, id, now)
                 case CallDrain(id) => Drained(s.workers, id)
                 case CallReactivate(id) => Reactivated(s.workers, id, now)
                 case CallDeregister(id) => Deregistered(s.workers, id))
    ensures (e.SubmitJob? || e.PruneJobs? || e.BeginCallbackAttempt? || e.RecordCallbackSuccess?
             || e.RecordCallbackFailure?) ==> Next(c, s, OnJobs(e)) == s.(jobs := Apply(s.jobs, e))
  {
    hide Registered, Apply;
  }

  // ---------- Reports: renew, complete, fail ----------

  /** The registry operation behind a report, made at this time. */
  function Report(c: Config, cmd: Command, now: nat): Event
    requires cmd.RenewFor? || cmd.CompleteFor? || cmd.FailFor?
  {
    match cmd
    case RenewFor(w, id) => RenewJob(id, w, now, c.leaseDuration)
    case CompleteFor(w, id, attempt, result) => CompleteJob(id, w, attempt, result, now)
    case FailFor(w, id, attempt, failure) =>
      FailJob(id, w, attempt, Failure(Trim(failure.message), failure.retryable), now)
  }

  /**
   Whose report is heard: that of a registered worker seen less than `staleAfter` ago; a failure must have a message.
   */
  predicate Heard(c: Config, s: System, cmd: Command, now: nat)
    requires cmd.RenewFor? || cmd.CompleteFor? || cmd.FailFor?
  {
    && cmd.worker in s.workers
    && 0 < c.staleAfter && now < s.workers[cmd.worker].observedAt + c.staleAfter
    && (cmd.FailFor? ==> Trim(cmd.failure.message) != "")
  }

  lemma Spawned(c: Config, s: System, cmd: Command)
    ensures Stands(c, s, [Spawn(cmd)], |s.threads|, FirstPc(cmd), [])
    ensures RunSystem(c, s, [Spawn(cmd)]) == s.(threads := s.threads + [FirstPc(cmd)])
  {
    hide FirstPc, StepPc, Apply, CallWorkers, StepEvents, OwnSteps;
    OneMore(c, s, [], Spawn(cmd), |s.threads|);
    assert [] + [Spawn(cmd)] == [Spawn(cmd)];
  }

  lemma ThenWaits(c: Config, s: System, steps: seq<Step>, more: seq<Step>, i: nat, pc: Pc, es: seq<Event>)
    requires Stands(c, s, steps, i, pc, es) && OwnSteps(more, i) == 0
    ensures Stands(c, s, steps + more, i, pc, es)
  {
    OwnAppends(c, s, steps, more, i);
    Waits(c, RunSystem(c, s, steps), more, i, pc);
  }

  lemma ThenDrains(
    c: Config, s: System, steps: seq<Step>, more: seq<Step>, i: nat, owed: seq<WorkerId>, cmd: Command, es: seq<Event>)
    requires Stands(c, s, steps, i, Releasing(owed, cmd), es) && OwnSteps(more, i) == |owed| + 1
    ensures Stands(c, s, steps + more, i, Ready(cmd), es)
  {
    OwnAppends(c, s, steps, more, i);
    Drains(c, RunSystem(c, s, steps), more, i, owed, cmd);
  }

  lemma ThenOver(c: Config, s: System, steps: seq<Step>, more: seq<Step>, i: nat, pc: Pc, es: seq<Event>)
    requires Stands(c, s, steps, i, pc, es) && (pc.Done? || pc.Owing?)
    ensures OwnEvents(c, s, steps + more, i) == es
  {
    OwnAppends(c, s, steps, more, i);
    Over(c, RunSystem(c, s, steps), more, i);
  }

  lemma ThenSteps(c: Config, s: System, steps: seq<Step>, i: nat, now: nat, pc: Pc, es: seq<Event>)
    requires Stands(c, s, steps, i, pc, es)
    ensures var t := RunSystem(c, s, steps);
      Stands(c, s, steps + [Advance(i, now)], i, StepPc(c, t, pc, now).2, es + StepEvents(c, t, Advance(i, now)))
  {
    hide StepPc, StepEvents, Next;
    OneMore(c, s, steps, Advance(i, now), i);
    OwnStep(c, RunSystem(c, s, steps), i, now);
  }

  /** A call in its sweep: the releases due are those of the leases the sweep ended. */
  lemma ThenSweeps(
    c: Config, s: System, steps: seq<Step>, now: nat, more: seq<Step>, i: nat, cmd: Command, es: seq<Event>)
    requires Stands(c, s, steps, i, NeedSweep(cmd), es)
    requires OwnSteps(more, i) == |Sweep(RunSystem(c, s, steps).jobs, now).1.releasedWorkers| + 1
    ensures Stands(c, s, steps + [Advance(i, now)] + more, i, Ready(cmd), es + [SweepLeases(now)])
  {
    hide Sweep;
    var t := RunSystem(c, s, steps);
    ThenSteps(c, s, steps, i, now, NeedSweep(cmd), es);
    var owed := Sweep(t.jobs, now).1.releasedWorkers;
    ThenDrains(c, s, steps + [Advance(i, now)], more, i, owed, cmd, es + [SweepLeases(now)]);
  }

  /** How many releases a sweep of the registry as it then stands leaves to its handler. */
  function ReleasesDue(c: Config, s: System, steps: seq<Step>, now: nat): nat {
    |Sweep(RunSystem(c, s, steps).jobs, now).1.releasedWorkers|
  }

  lemma Entry(c: Config, s: System, cmd: Command, wait: seq<Step>, now: nat)
    requires (cmd.RenewFor? || cmd.CompleteFor? || cmd.FailFor?) && OwnSteps(wait, |s.threads|) == 0
    ensures var i := |s.threads|; var before := [Spawn(cmd)] + wait;
      Stands(c, s, before + [Advance(i, now)], i,
             if Heard(c, RunSystem(c, s, before), cmd, now) then NeedSweep(Trimmed(cmd)) else Done, [])
  {
    hide Trim, RunSystem, OwnEvents, OwnSteps;
    var i, before := |s.threads|, [Spawn(cmd)] + wait;
    Spawned(c, s, cmd);
    ThenWaits(c, s, [Spawn(cmd)], wait, i, CheckWorker(cmd), []);
    ThenSteps(c, s, before, i, now, CheckWorker(cmd), []);
  }

  /**
   A report that is not heard when its worker is looked up performs no operation on the registry, then or later.
   */
  lemma UnheardReport(c: Config, s: System, cmd: Command, wait: seq<Step>, now: nat, rest: seq<Step>)
    requires (cmd.RenewFor? || cmd.CompleteFor? || cmd.FailFor?) && OwnSteps(wait, |s.threads|) == 0
    requires !Heard(c, RunSystem(c, s, [Spawn(cmd)] + wait), cmd, now)
    ensures OwnEvents(c, s, [Spawn(cmd)] + wait + [Advance(|s.threads|, now)] + rest, |s.threads|) == []
  {
    Entry(c, s, cmd, wait, now);
    ThenOver(c, s, [Spawn(cmd)] + wait + [Advance(|s.threads|, now)], rest, |s.threads|, Done, []);
  }

  /**
   A report that is heard sweeps and then makes its one operation on the registry, under its own worker, job, attempt
   and content, whatever the rest of the system does in between; after that it performs none.
   */
  lemma HeardReport(
    c: Config, s: System, cmd: Command, wait: seq<Step>, t0: nat, pause: seq<Step>, t1: nat, releasing: seq<Step>,
    t2: nat, rest: seq<Step>)
    requires cmd.RenewFor? || cmd.CompleteFor? || cmd.FailFor?
    requires OwnSteps(wait, |s.threads|) == 0 && OwnSteps(pause, |s.threads|) == 0
    requires Heard(c, RunSystem(c, s, [Spawn(cmd)] + wait), cmd, t0)
    requires var i := |s.threads|;
      OwnSteps(releasing, i) == ReleasesDue(c, s, [Spawn(cmd)] + wait + [Advance(i, t0)] + pause, t1) + 1
    ensures var i := |s.threads|;
      OwnEvents(c, s, [Spawn(cmd)] + wait + [Advance(i, t0)] + pause + [Advance(i, t1)] + releasing + [Advance(i, t2)]
                      + rest, i) == [SweepLeases(t1), Report(c, cmd, t2)]
  {
    hide Sweep, Heard, OwnSteps, OwnEvents, RunSystem, Stands, CompleteLease, FailLease, RenewLease, Trim;
    var i, ready := |s.threads|, Trimmed(cmd);
    var checked := [Spawn(cmd)] + wait + [Advance(i, t0)];
    Entry(c, s, cmd, wait, t0);
    ThenWaits(c, s, checked, pause, i, NeedSweep(ready), []);
    ThenSweeps(c, s, checked + pause, t1, releasing, i, ready, []);
    assert [] + [SweepLeases(t1)] == [SweepLeases(t1)];
    var steps := checked + pause + [Advance(i, t1)] + releasing;
    ThenReports(c, s, steps, i, t2, cmd, [SweepLeases(t1)]);
    var pc := StepPc(c, RunSystem(c, s, steps), Ready(ready), t2).2;
    assert [SweepLeases(t1)] + [Report(c, cmd, t2)] == [SweepLeases(t1), Report(c, cmd, t2)];
    ThenOver(c, s, steps + [Advance(i, t2)], rest, i, pc, [SweepLeases(t1), Report(c, cmd, t2)]);
  }

  lemma ThenReports(c: Config, s: System, steps: seq<Step>, i: nat, now: nat, cmd: Command, es: seq<Event>)
    requires cmd.RenewFor? || cmd.CompleteFor? || cmd.FailFor?
    requires Stands(c, s, steps, i, Ready(Trimmed(cmd)), es)
    ensures var pc := StepPc(c, RunSystem(c, s, steps), Ready(Trimmed(cmd)), now).2;
      (pc.Done? || pc.Owing?) && Stands(c, s, steps + [Advance(i, now)], i, pc, es + [Report(c, cmd, now)])
  {
    hide CompleteLease, FailLease, RenewLease, Trim;
    ThenSteps(c, s, steps, i, now, Ready(Trimmed(cmd)), es);
  }

  // ---------- Claims, sweeps, cancels ----------

  /** Who is given a slot: a registered worker seen recently, not draining, with fewer in use than its maximum. */
  predicate TakesSlot(c: Config, ws: WorkerMap, w: WorkerId, now: nat) {
    && w in ws
    && 0 < c.staleAfter && now < ws[w].observedAt + c.staleAfter
    && !ws[w].draining
    && (ws[w].maxConcurrentJobs.None? || ws[w].inFlight < ws[w].maxConcurrentJobs.value)
  }

  function WithSlot(ws: WorkerMap, w: WorkerId): WorkerMap
    requires w in ws
  {
    ws[w := ws[w].(inFlight := ws[w].inFlight + 1)]
  }

  /** The claim made for a worker on what was known of it when it was given its slot. */
  function ClaimBy(c: Config, ws: WorkerMap, w: WorkerId, now: nat): Event
    requires w in ws
  {
    ClaimJob(WorkerProfile(ws[w].id, ws[w].jobTypes, ws[w].pool), c.pools, now, c.leaseDuration)
  }

  lemma SlotTaken(c: Config, s: System, w: WorkerId, now: nat)
    ensures var (r, ws, pc) := StepPc(c, s, Ready(ClaimFor(w)), now);
      && r == s.jobs
      && if TakesSlot(c, s.workers, w, now)
         then ws == WithSlot(s.workers, w) && pc == Claiming(ws[w])
         else ws == s.workers && pc == Done
  {
  }

  /**
   A claim sweeps, asks for a slot, and claims exactly if it was given one; then it performs nothing more.
   */
  lemma ClaimRuns(
    c: Config, s: System, w: WorkerId, wait: seq<Step>, t0: nat, releasing: seq<Step>, t1: nat, pause: seq<Step>,
    t2: nat, rest: seq<Step>)
    requires OwnSteps(wait, |s.threads|) == 0 && OwnSteps(pause, |s.threads|) == 0
    requires OwnSteps(releasing, |s.threads|) == ReleasesDue(c, s, [Spawn(ClaimFor(w))] + wait, t0) + 1
    ensures var i := |s.threads|;
      var swept := [Spawn(ClaimFor(w))] + wait + [Advance(i, t0)] + releasing;
      var ws := RunSystem(c, s, swept).workers;
      OwnEvents(c, s, swept + [Advance(i, t1)] + pause + [Advance(i, t2)] + rest, i) ==
      [SweepLeases(t0)] + if TakesSlot(c, ws, w, t1) then [ClaimBy(c, ws, w, t2)] else []
  {
    hide Sweep, Claim, TryAcquire, OwnSteps, OwnEvents, RunSystem;
    var i, cmd := |s.threads|, ClaimFor(w);
    Spawned(c, s, cmd);
    ThenWaits(c, s, [Spawn(cmd)], wait, i, NeedSweep(cmd), []);
    ThenSweeps(c, s, [Spawn(cmd)] + wait, t0, releasing, i, cmd, []);
    var es := [SweepLeases(t0)];
    assert [] + es == es && es + [] == es;
    var swept := [Spawn(cmd)] + wait + [Advance(i, t0)] + releasing;
    var ws := RunSystem(c, s, swept).workers;
    SlotTaken(c, RunSystem(c, s, swept), w, t1);
    ThenSteps(c, s, swept, i, t1, Ready(cmd), es);
    var asked := swept + [Advance(i, t1)];
    if TakesSlot(c, ws, w, t1) {
      var pc := Claiming(WithSlot(ws, w)[w]);
      ThenWaits(c, s, asked, pause, i, pc, es);
      ThenSteps(c, s, asked + pause, i, t2, pc, es);
      var next := StepPc(c, RunSystem(c, s, asked + pause), pc, t2).2;
      ThenOver(c, s, asked + pause + [Advance(i, t2)], rest, i, next, es + [ClaimBy(c, ws, w, t2)]);
    } else {
      ThenOver(c, s, asked, pause + [Advance(i, t2)] + rest, i, Done, es);
      assert asked + (pause + [Advance(i, t2)] + rest) == asked + pause + [Advance(i, t2)] + rest;
    }
  }

  /** A cancel performs its one operation when it first moves, and the sweep of the recovery loop performs one sweep. */
  lemma CancelRuns(c: Config, s: System, id: JobId, wait: seq<Step>, now: nat, rest: seq<Step>)
    requires OwnSteps(wait, |s.threads|) == 0
    ensures var i := |s.threads|;
      OwnEvents(c, s, [Spawn(CancelOf(id))] + wait + [Advance(i, now)] + rest, i) == [CancelJob(id, now)]
  {
    hide Cancel, OwnSteps, OwnEvents, RunSystem, Stands;
    var i, cmd := |s.threads|, CancelOf(id);
    var steps := [Spawn(cmd)] + wait;
    Spawned(c, s, cmd);
    ThenWaits(c, s, [Spawn(cmd)], wait, i, Ready(cmd), []);
    ThenSteps(c, s, steps, i, now, Ready(cmd), []);
    assert [] + [CancelJob(id, now)] == [CancelJob(id, now)];
    ThenOver(c, s, steps + [Advance(i, now)], rest, i, StepPc(c, RunSystem(c, s, steps), Ready(cmd), now).2,
             [CancelJob(id, now)]);
  }

  // ---------- A call with nobody else about ----------

  /** The workers once these slots have been given back. */
  function AllReleased(ws: WorkerMap, ids: seq<WorkerId>): WorkerMap {
    if ids == [] then ws else Released(AllReleased(ws, ids[..|ids| - 1]), ids[|ids| - 1])
  }

  /**
   One call as its handler is written: from lookup to last release, in one piece. clock(k) is the time at its k-th step.
   */
  function Call(c: Config, jobs: Registry, ws: WorkerMap, cmd: Command, clock: nat -> nat): (Registry, WorkerMap) {
    if cmd.CancelOf? then
      var (q, reply) := Cancel(jobs, cmd.id, clock(0));
      var ended := reply.JobCancelled? && reply.job.lease.Some?;
      (q, AllReleased(ws, if ended then [reply.job.lease.value.workerId] else []))
    else if cmd.SweepOnly? || cmd.ClaimFor? then
      var (q, report) := Sweep(jobs, clock(0));
      var n, after := |report.releasedWorkers|, AllReleased(ws, report.releasedWorkers);
      if cmd.SweepOnly? || !TakesSlot(c, after, cmd.worker, clock(n + 2)) then (q, after)
      else
        var worker := after[cmd.worker];
        var profile := WorkerProfile(worker.id, worker.jobTypes, worker.pool);
        var (r, claimed) := Claim(q, profile, c.pools, clock(n + 3), c.leaseDuration);
        (r, AllReleased(WithSlot(after, cmd.worker), if claimed.Some? then [] else [worker.id]))
    else if !Heard(c, System(jobs, ws, []), cmd, clock(0)) then (jobs, ws)
    else
      var (q, report) := Sweep(jobs, clock(1));
      var now := clock(|report.releasedWorkers| + 3);
      var (r, ended) :=
        match cmd
        case RenewFor(w, id) => (RenewLease(q, id, w, now, c.leaseDuration).0, false)
        case CompleteFor(w, id, attempt, result) =>
          var (r, reply) := CompleteLease(q, id, w, attempt, result, now);
          (r, reply.JobCompleted?)
        case FailFor(w, id, attempt, failure) =>
          var (r, reply) := FailLease(q, id, w, attempt, Failure(Trim(failure.message), failure.retryable), now);
          (r, reply.JobRequeued? || reply.JobFailed?);
      (r, AllReleased(AllReleased(ws, report.releasedWorkers), if ended then [cmd.worker] else []))
  }

  /** The first n steps of thread i. */
  function Moves(i: nat, clock: nat -> nat, n: nat): seq<Step> {
    if n == 0 then [] else Moves(i, clock, n - 1) + [Advance(i, clock(n - 1))]
  }

  /** Where a call stands after its first n steps. */
  ghost predicate At(
    c: Config, s: System, cmd: Command, clock: nat -> nat, n: nat, jobs: Registry, ws: WorkerMap, pc: Pc)
  {
    RunSystem(c, s, [Spawn(cmd)] + Moves(|s.threads|, clock, n)) == System(jobs, ws, s.threads + [pc])
  }

  lemma AtStart(c: Config, s: System, cmd: Command, clock: nat -> nat)
    ensures At(c, s, cmd, clock, 0, s.jobs, s.workers, FirstPc(cmd))
  {
    Spawned(c, s, cmd);
    assert [Spawn(cmd)] + [] == [Spawn(cmd)];
  }

  lemma AtNext(c: Config, s: System, cmd: Command, clock: nat -> nat, n: nat, jobs: Registry, ws: WorkerMap, pc: Pc)
    requires At(c, s, cmd, clock, n, jobs, ws, pc)
    ensures var (r, after, next) := StepPc(c, System(jobs, ws, s.threads + [pc]), pc, clock(n));
      At(c, s, cmd, clock, n + 1, r, after, next)
  {
    hide StepPc, RunSystem, OwnEvents, OwnSteps, CallWorkers, Apply;
    var i, steps := |s.threads|, [Spawn(cmd)] + Moves(|s.threads|, clock, n);
    OneMore(c, s, steps, Advance(i, clock(n)), i);
    assert steps + [Advance(i, clock(n))] == [Spawn(cmd)] + Moves(i, clock, n + 1);
    var next := StepPc(c, System(jobs, ws, s.threads + [pc]), pc, clock(n)).2;
    assert (s.threads + [pc])[i := next] == s.threads + [next];
  }

  lemma {:induction false} AtDrained(
    c: Config, s: System, cmd: Command, clock: nat -> nat, n: nat, jobs: Registry, ws: WorkerMap, owed: seq<WorkerId>,
    made: nat, ready: Command)
    requires made <= |owed|
    requires At(c, s, cmd, clock, n, jobs, AllReleased(ws, owed[..made]), Releasing(owed[made..], ready))
    ensures At(c, s, cmd, clock, n + (|owed| - made) + 1, jobs, AllReleased(ws, owed), Ready(ready))
    decreases |owed| - made
  {
    hide At, Released;
    AtNext(c, s, cmd, clock, n, jobs, AllReleased(ws, owed[..made]), Releasing(owed[made..], ready));
    if made < |owed| {
      assert owed[..made + 1][..made] == owed[..made] && owed[made..][1..] == owed[made + 1..];
      AtDrained(c, s, cmd, clock, n + 1, jobs, ws, owed, made + 1, ready);
    } else {
      assert owed[..made] == owed;
    }
  }

  lemma AtSwept(
    c: Config, s: System, cmd: Command, clock: nat -> nat, n: nat, jobs: Registry, ws: WorkerMap, ready: Command)
    requires At(c, s, cmd, clock, n, jobs, ws, NeedSweep(ready))
    ensures var (q, report) := Sweep(jobs, clock(n));
      At(c, s, cmd, clock, n + |report.releasedWorkers| + 2, q, AllReleased(ws, report.releasedWorkers), Ready(ready))
  {
    hide At, Sweep;
    AtNext(c, s, cmd, clock, n, jobs, ws, NeedSweep(ready));
    var owed := Sweep(jobs, clock(n)).1.releasedWorkers;
    assert owed[..0] == [] && owed[0..] == owed;
    AtDrained(c, s, cmd, clock, n + 1, Sweep(jobs, clock(n)).0, ws, owed, 0, ready);
  }

  /** A call about to end: a last release if one is owed, then nothing. */
  lemma AtEnd(
    c: Config, s: System, cmd: Command, clock: nat -> nat, n: nat, jobs: Registry, ws: WorkerMap, owed: seq<WorkerId>,
    pc: Pc, m: nat)
    requires n < m && At(c, s, cmd, clock, n, jobs, ws, pc)
    requires (owed == [] && pc.Done?) || (|owed| == 1 && pc == Owing(owed[0]))
    ensures At(c, s, cmd, clock, m, jobs, AllReleased(ws, owed), Done)
  {
    hide At, Released;
    AtNext(c, s, cmd, clock, n, jobs, ws, pc);
    assert |owed| == 1 ==> owed[..|owed| - 1] == [] && AllReleased(ws, owed) == Released(ws, owed[0]);
    AtRest(c, s, cmd, clock, n + 1, jobs, AllReleased(ws, owed), m);
  }

  lemma {:induction false} AtRest(
    c: Config, s: System, cmd: Command, clock: nat -> nat, n: nat, jobs: Registry, ws: WorkerMap, m: nat)
    requires n <= m && At(c, s, cmd, clock, n, jobs, ws, Done)
    ensures At(c, s, cmd, clock, m, jobs, ws, Done)
    decreases m - n
  {
    hide At;
    if n < m {
      AtNext(c, s, cmd, clock, n, jobs, ws, Done);
      AtRest(c, s, cmd, clock, n + 1, jobs, ws, m);
    }
  }

  lemma ReportAlone(c: Config, s: System, cmd: Command, clock: nat -> nat, m: nat)
    requires cmd.RenewFor? || cmd.CompleteFor? || cmd.FailFor?
    requires |Sweep(s.jobs, clock(1)).1.releasedWorkers| + 5 <= m
    ensures var (jobs, ws) := Call(c, s.jobs, s.workers, cmd, clock); At(c, s, cmd, clock, m, jobs, ws, Done)
  {
    hide At, Sweep, RenewLease, CompleteLease, FailLease, Released, Trim;
    AtStart(c, s, cmd, clock);
    AtNext(c, s, cmd, clock, 0, s.jobs, s.workers, CheckWorker(cmd));
    if Heard(c, s, cmd, clock(0)) {
      var ready := Trimmed(cmd);
      AtSwept(c, s, cmd, clock, 1, s.jobs, s.workers, ready);
      var (q, report) := Sweep(s.jobs, clock(1));
      var n, ws := |report.releasedWorkers| + 3, AllReleased(s.workers, report.releasedWorkers);
      AtNext(c, s, cmd, clock, n, q, ws, Ready(ready));
      var (r, _, pc) := StepPc(c, System(q, ws, s.threads + [Ready(ready)]), Ready(ready), clock(n));
      AtEnd(c, s, cmd, clock, n + 1, r, ws, if pc.Owing? then [pc.workerId] else [], pc, m);
    } else {
      AtRest(c, s, cmd, clock, 1, s.jobs, s.workers, m);
    }
  }

  lemma ClaimAlone(c: Config, s: System, w: WorkerId, clock: nat -> nat, m: nat)
    requires |Sweep(s.jobs, clock(0)).1.releasedWorkers| + 5 <= m
    ensures var (jobs, ws) := Call(c, s.jobs, s.workers, ClaimFor(w), clock);
      At(c, s, ClaimFor(w), clock, m, jobs, ws, Done)
  {
    hide At, Sweep, Claim, TryAcquire, Released;
    var cmd := ClaimFor(w);
    AtStart(c, s, cmd, clock);
    AtSwept(c, s, cmd, clock, 0, s.jobs, s.workers, cmd);
    var (q, report) := Sweep(s.jobs, clock(0));
    var n, after := |report.releasedWorkers| + 2, AllReleased(s.workers, report.releasedWorkers);
    AtNext(c, s, cmd, clock, n, q, after, Ready(cmd));
    SlotTaken(c, System(q, after, s.threads + [Ready(cmd)]), w, clock(n));
    if TakesSlot(c, after, w, clock(n)) {
      var ws := WithSlot(after, w);
      AtNext(c, s, cmd, clock, n + 1, q, ws, Claiming(ws[w]));
      var (r, claimed) := Claim(q, ws[w].Profile(), c.pools, clock(n + 1), c.leaseDuration);
      AtEnd(c, s, cmd, clock, n + 2, r, ws, if claimed.Some? then [] else [ws[w].id],
            if claimed.Some? then Done else Owing(ws[w].id), m);
    } else {
      AtRest(c, s, cmd, clock, n + 1, q, after, m);
    }
  }

  /**
   A call that runs with nobody else about leaves the registry, the workers and their slots as its handler, written in
   one piece, leaves them, and is over.
   */
  lemma CallAlone(c: Config, s: System, cmd: Command, clock: nat -> nat, m: nat)
    requires |Sweep(s.jobs, clock(0)).1.releasedWorkers| + 5 <= m
    requires |Sweep(s.jobs, clock(1)).1.releasedWorkers| + 5 <= m
    ensures var (jobs, ws) := Call(c, s.jobs, s.workers, cmd, clock);
      RunSystem(c, s, [Spawn(cmd)] + Moves(|s.threads|, clock, m)) == System(jobs, ws, s.threads + [Done])
  {
    hide Sweep, Cancel, Released;
    match cmd
    case ClaimFor(w) => ClaimAlone(c, s, w, clock, m);
    case SweepOnly =>
      AtStart(c, s, cmd, clock);
      AtSwept(c, s, cmd, clock, 0, s.jobs, s.workers, cmd);
      var (q, report) := Sweep(s.jobs, clock(0));
      var n, after := |report.releasedWorkers| + 2, AllReleased(s.workers, report.releasedWorkers);
      AtNext(c, s, cmd, clock, n, q, after, Ready(cmd));
      AtRest(c, s, cmd, clock, n + 1, q, after, m);
    case CancelOf(id) =>
      AtStart(c, s, cmd, clock);
      AtNext(c, s, cmd, clock, 0, s.jobs, s.workers, Ready(cmd));
      var (q, _, pc) := StepPc(c, s, Ready(cmd), clock(0));
      AtEnd(c, s, cmd, clock, 1, q, s.workers, if pc.Owing? then [pc.workerId] else [], pc, m);
    case _ => ReportAlone(c, s, cmd, clock, m);
  }

  /** With nobody else about, its own operations are all the operations there are. */
  lemma {:induction false} OwnAreAll(c: Config, s: System, steps: seq<Step>, i: nat)
    requires forall step :: step in steps ==> step.Spawn? || MovedBy(step, i)
    ensures SystemEvents(c, s, steps) == OwnEvents(c, s, steps, i)
  {
    hide StepEvents, Next;
    if steps != [] {
      OwnAreAll(c, s, steps[..|steps| - 1], i);
      var last := steps[|steps| - 1];
      assert last in steps;
      if last.Spawn? {
        SpawnIsQuiet(c, RunSystem(c, s, steps[..|steps| - 1]), last);
      }
    }
  }

  lemma SpawnIsQuiet(c: Config, s: System, step: Step)
    requires step.Spawn?
    ensures StepEvents(c, s, step) == []
  {
  }

  /**
   A report made with nobody else about: if heard, the registry sees one sweep and then this report, under this worker,
   job and attempt; if its worker is unknown or stale, the registry sees nothing and is unchanged.
   */
  lemma ReportAloneEvents(
    c: Config, s: System, cmd: Command, t0: nat, t1: nat, releasing: seq<Step>, t2: nat, rest: seq<Step>)
    requires cmd.RenewFor? || cmd.CompleteFor? || cmd.FailFor?
    requires forall step :: step in releasing + rest ==> MovedBy(step, |s.threads|)
    requires |releasing| == |Sweep(s.jobs, t1).1.releasedWorkers| + 1
    ensures var i := |s.threads|;
      var steps := [Spawn(cmd), Advance(i, t0), Advance(i, t1)] + releasing + [Advance(i, t2)] + rest;
      if Heard(c, s, cmd, t0) then SystemEvents(c, s, steps) == [SweepLeases(t1), Report(c, cmd, t2)]
      else SystemEvents(c, s, steps) == [] && RunSystem(c, s, steps).jobs == s.jobs
  {
    hide RunSystem, OwnEvents, SystemEvents, OwnSteps, Sweep, Stands, Report, Next, Apply, FirstPc;
    var i := |s.threads|;
    var spawn, check, sweep, act := [Spawn(cmd)], [Advance(i, t0)], [Advance(i, t1)], [Advance(i, t2)];
    var steps := [Spawn(cmd), Advance(i, t0), Advance(i, t1)] + releasing + act + rest;
    OnlyOwn(i, cmd, t0, t1, releasing, t2, rest);
    OwnAreAll(c, s, steps, i);
    SystemIsRun(c, s, steps);
    Spawned(c, s, cmd);
    AllOwn([], i);
    assert spawn + [] == spawn;
    if Heard(c, s, cmd, t0) {
      AllOwn(releasing, i);
      JobsUntouched(c, s, cmd, t0);
      assert spawn + [] + check + [] == spawn + check;
      HeardReport(c, s, cmd, [], t0, [], t1, releasing, t2, rest);
      assert spawn + [] + check + [] + sweep + releasing + act + rest == steps;
    } else {
      UnheardReport(c, s, cmd, [], t0, sweep + releasing + act + rest);
      assert spawn + [] + check + (sweep + releasing + act + rest) == steps;
    }
  }

  lemma OnlyOwn(i: nat, cmd: Command, t0: nat, t1: nat, releasing: seq<Step>, t2: nat, rest: seq<Step>)
    requires forall step :: step in releasing + rest ==> MovedBy(step, i)
    ensures forall step ::
      step in [Spawn(cmd), Advance(i, t0), Advance(i, t1)] + releasing + [Advance(i, t2)] + rest ==>
        step.Spawn? || MovedBy(step, i)
  {
    forall step | step in releasing || step in rest ensures step in releasing + rest {
    }
  }

  lemma {:induction false} AllOwn(steps: seq<Step>, i: nat)
    requires forall step :: step in steps ==> MovedBy(step, i)
    ensures OwnSteps(steps, i) == |steps|
  {
    if steps != [] {
      assert steps[|steps| - 1] in steps;
      AllOwn(steps[..|steps| - 1], i);
    }
  }

  lemma JobsUntouched(c: Config, s: System, cmd: Command, now: nat)
    requires cmd.RenewFor? || cmd.CompleteFor? || cmd.FailFor?
    ensures RunSystem(c, s, [Spawn(cmd)] + [Advance(|s.threads|, now)]).jobs == s.jobs
  {
    hide RunSystem, OwnEvents, OwnSteps, Trim;
    Spawned(c, s, cmd);
    OneMore(c, s, [Spawn(cmd)], Advance(|s.threads|, now), |s.threads|);
  }
}
