/**
 Handlers as interleaved steps (src/scheduler.rs, `cancel_job` in src/jobs.rs):
 each handler is a thread with a program counter, each step is one operation on
 one of the two registries, and any number of threads, sweeps, submissions,
 prunes and worker calls interleave.
 */
module Slots {
  import opened Collections
  import opened JobIds
  import opened JobModel
  import opened JobInvariant
  import opened JobExactness
  import opened JobRuns
  import opened Workers

  datatype Config = Config(pools: PoolPolicy, leaseDuration: nat, staleAfter: nat)

  datatype Command =
    | ClaimFor(worker: WorkerId)
    | RenewFor(worker: WorkerId, id: JobId)
    | CompleteFor(worker: WorkerId, id: JobId, attempt: Option<nat>, result: Json)
    | FailFor(worker: WorkerId, id: JobId, attempt: Option<nat>, failure: Failure)
    | SweepOnly
    | CancelOf(id: JobId)

  /** Where a handler stands. */
  datatype Pc =
    | CheckWorker(cmd: Command)
    | NeedSweep(cmd: Command)
    | Releasing(owed: seq<WorkerId>, cmd: Command)
    | Ready(cmd: Command)
    | Claiming(worker: Worker)
    | Owing(workerId: WorkerId)
    | Done

  datatype System = System(jobs: Registry, workers: WorkerMap, threads: seq<Pc>)

  datatype WorkerCall =
    | CallRegister(request: RegisterRequest)
    | CallHeartbeat(id: WorkerId)
    | CallDrain(id: WorkerId)
    | CallReactivate(id: WorkerId)
    | CallDeregister(id: WorkerId)

  datatype Step =
    | Spawn(cmd: Command)
    | Advance(thread: nat, now: nat)
    | OnWorkers(call: WorkerCall, now: nat)
    | OnJobs(event: Event)

  function FirstPc(cmd: Command): Pc {
    match cmd
    case ClaimFor(_) => NeedSweep(cmd)
    case SweepOnly => NeedSweep(cmd)
    case CancelOf(_) => Ready(cmd)
    case _ => CheckWorker(cmd)
  }

  /** A failure report whose message is nothing but white space. */
  predicate Nameless(cmd: Command) { cmd.FailFor? && Trim(cmd.failure.message) == "" }

  /** A failure report's message is taken without white space at its ends. */
  function Trimmed(cmd: Command): Command {
    if cmd.FailFor? then cmd.(failure := cmd.failure.(message := Trim(cmd.failure.message))) else cmd
  }

  /** Events of handlers that never touch a lease. */
  predicate Leaseless(e: Event) {
    e.SubmitJob? || e.PruneJobs? || e.BeginCallbackAttempt? || e.RecordCallbackSuccess? || e.RecordCallbackFailure?
  }

  function CallWorkers(ws: WorkerMap, call: WorkerCall, now: nat): WorkerMap {
    match call
    case CallRegister(q) => Registered(ws, q, now).0
    case CallHeartbeat(id) => WithHeartbeat(ws, id, now)
    case CallDrain(id) => Drained(ws, id)
    case CallReactivate(id) => Reactivated(ws, id, now)
    case CallDeregister(id) => Deregistered(ws, id)
  }

  /** One command, once its sweep's releases are done. */
  function RunReady(c: Config, s: System, cmd: Command, now: nat): (Registry, WorkerMap, Pc) {
    match cmd
    case ClaimFor(w) =>
      var (ws, reply) := TryAcquire(s.workers, w, c.staleAfter, now);
      (s.jobs, ws, if reply.Acquired? then Claiming(reply.snapshot.worker) else Done)
    case RenewFor(w, id) => (RenewLease(s.jobs, id, w, now, c.leaseDuration).0, s.workers, Done)
    case CompleteFor(w, id, attempt, result) =>
      var (r, reply) := CompleteLease(s.jobs, id, w, attempt, result, now);
      (r, s.workers, if reply.JobCompleted? then Owing(w) else Done)
    case FailFor(w, id, attempt, failure) =>
      var (r, reply) := FailLease(s.jobs, id, w, attempt, failure, now);
      (r, s.workers, if reply.JobRequeued? || reply.JobFailed? then Owing(w) else Done)
    case SweepOnly => (s.jobs, s.workers, Done)
    case CancelOf(id) =>
      var (r, reply) := Cancel(s.jobs, id, now);
      (r, s.workers,
       if reply.JobCancelled? && reply.job.lease.Some? then Owing(reply.job.lease.value.workerId) else Done)
  }

  /** One atomic step of one thread. */
  function StepPc(c: Config, s: System, pc: Pc, now: nat): (Registry, WorkerMap, Pc) {
    match pc
    case CheckWorker(cmd) =>
      var known := !cmd.SweepOnly? && !cmd.CancelOf? && cmd.worker in s.workers &&
                   !SnapshotOf(s.workers[cmd.worker], c.staleAfter, now).stale;
      (s.jobs, s.workers, if known && !Nameless(cmd) then NeedSweep(Trimmed(cmd)) else Done)
    case NeedSweep(cmd) =>
      var (r, report) := Sweep(s.jobs, now);
      (r, s.workers, Releasing(report.releasedWorkers, cmd))
    case Releasing(owed, cmd) =>
      if owed == [] then (s.jobs, s.workers, Ready(cmd))
      else (s.jobs, Released(s.workers, owed[0]), Releasing(owed[1..], cmd))
    case Ready(cmd) => RunReady(c, s, cmd, now)
    case Claiming(w) =>
      var (r, claimed) := Claim(s.jobs, w.Profile(), c.pools, now, c.leaseDuration);
      (r, s.workers, if claimed.Some? then Done else Owing(w.id))
    case Owing(w) => (s.jobs, Released(s.workers, w), Done)
    case Done => (s.jobs, s.workers, Done)
  }

  function Next(c: Config, s: System, step: Step): System {
    match step
    case Spawn(cmd) => s.(threads := s.threads + [FirstPc(cmd)])
    case Advance(i, now) =>
      if i < |s.threads| then
        var (r, ws, pc) := StepPc(c, s, s.threads[i], now);
        System(r, ws, s.threads[i := pc])
      else s
    case OnWorkers(call, now) => s.(workers := CallWorkers(s.workers, call, now))
    case OnJobs(e) => if Leaseless(e) then s.(jobs := Apply(s.jobs, e)) else s
  }

  function RunSystem(c: Config, s: System, steps: seq<Step>): System {
    if steps == [] then s else Next(c, RunSystem(c, s, steps[..|steps| - 1]), steps[|steps| - 1])
  }

  // ---------- The ledger ----------

  /** Slots of worker w that a thread has taken but not leased, or owes back. */
  function PcDebt(pc: Pc, w: WorkerId): nat {
    match pc
    case Releasing(owed, _) => multiset(owed)[w]
    case Claiming(k) => Count(k.id == w)
    case Owing(k) => Count(k == w)
    case _ => 0
  }

  function Sum(threads: seq<Pc>, of: Pc -> nat): nat {
    if threads == [] then 0 else Sum(threads[..|threads| - 1], of) + of(threads[|threads| - 1])
  }

  function DebtOf(w: WorkerId): Pc -> nat { pc => PcDebt(pc, w) }

  function Debt(threads: seq<Pc>, w: WorkerId): nat { Sum(threads, DebtOf(w)) }

  function InFlight(ws: WorkerMap, w: WorkerId): nat { if w in ws then ws[w].inFlight else 0 }

  ghost predicate Balanced(s: System, w: WorkerId) {
    InFlight(s.workers, w) == Held(s.jobs, w) + Debt(s.threads, w)
  }

  ghost predicate SlotsOk(s: System) {
    WellFormed(s.jobs) && WorkersOk(s.workers) && forall w :: Balanced(s, w)
  }

  lemma {:induction false} SumOfUpdate(threads: seq<Pc>, i: nat, pc: Pc, of: Pc -> nat)
    requires i < |threads|
    ensures Sum(threads[i := pc], of) + of(threads[i]) == Sum(threads, of) + of(pc)
  {
    var front := threads[..|threads| - 1];
    if i == |threads| - 1 {
      assert threads[i := pc][..|threads| - 1] == front;
    } else {
      SumOfUpdate(front, i, pc, of);
      assert threads[i := pc][..|threads| - 1] == front[i := pc];
    }
  }

  lemma SumOfPush(threads: seq<Pc>, pc: Pc, of: Pc -> nat)
    ensures Sum(threads + [pc], of) == Sum(threads, of) + of(pc)
  {
    assert (threads + [pc])[..|threads|] == threads;
  }

  lemma {:induction false} SumOfThread(threads: seq<Pc>, i: nat, of: Pc -> nat)
    requires i < |threads|
    ensures of(threads[i]) <= Sum(threads, of)
  {
    if i < |threads| - 1 {
      SumOfThread(threads[..|threads| - 1], i, of);
    }
  }

  // ---------- Leases held, operation by operation ----------

  lemma HeldPut(r: Registry, r': Registry, id: JobId, w: WorkerId)
    requires OrderOk(r) && id in r.jobs && id in r'.jobs
    requires r'.order == r.order && r'.jobs == r.jobs[id := r'.jobs[id]]
    ensures Held(r', w) + Count(IsHeldBy(r.jobs[id], w)) == Held(r, w) + Count(IsHeldBy(r'.jobs[id], w))
  {
    FilterChangeOne(r.order, HeldTest(r.jobs, w), HeldTest(r'.jobs, w), id);
  }

  lemma HeldAfterClaim(r: Registry, p: WorkerProfile, pools: PoolPolicy, now: nat, duration: nat, w: WorkerId)
    requires WellFormed(r)
    ensures var (q, claimed) := Claim(r, p, pools, now, duration);
      Held(q, w) == Held(r, w) + Count(claimed.Some? && p.id == w)
  {
    assert OrderOk(r);
    hide WellFormed, OrderOk;
    var (q, claimed) := Claim(r, p, pools, now, duration);
    if claimed.Some? {
      var id := FirstClaimable(r, r.queues.InClaimOrder(), p, pools).value;
      HeldPut(r, q, id, w);
    }
  }

  lemma HeldAfterRenew(r: Registry, id: JobId, worker: WorkerId, now: nat, duration: nat, w: WorkerId)
    requires WellFormed(r)
    ensures Held(RenewLease(r, id, worker, now, duration).0, w) == Held(r, w)
  {
    assert OrderOk(r);
    hide WellFormed, OrderOk;
    if id in r.jobs && LiveLease(r.jobs[id], worker, None, now) {
      HeldPut(r, RenewLease(r, id, worker, now, duration).0, id, w);
    }
  }

  lemma HeldAfterComplete(
    r: Registry, id: JobId, worker: WorkerId, attempt: Option<nat>, result: Json, now: nat, w: WorkerId)
    requires WellFormed(r)
    ensures var (q, reply) := CompleteLease(r, id, worker, attempt, result, now);
      Held(q, w) + Count(reply.JobCompleted? && worker == w) == Held(r, w)
  {
    assert OrderOk(r);
    hide WellFormed, OrderOk;
    if id in r.jobs && LiveLease(r.jobs[id], worker, attempt, now) {
      HeldPut(r, CompleteLease(r, id, worker, attempt, result, now).0, id, w);
    }
  }

  lemma HeldAfterFail(
    r: Registry, id: JobId, worker: WorkerId, attempt: Option<nat>, failure: Failure, now: nat, w: WorkerId)
    requires WellFormed(r)
    ensures var (q, reply) := FailLease(r, id, worker, attempt, failure, now);
      Held(q, w) + Count((reply.JobRequeued? || reply.JobFailed?) && worker == w) == Held(r, w)
  {
    hide WellFormed, OrderOk, Held;
    OrderIsOk(r);
    if id in r.jobs && LiveLease(r.jobs[id], worker, attempt, now) {
      HeldPut(r, FailLease(r, id, worker, attempt, failure, now).0, id, w);
    }
  }

  lemma HeldAfterCancel(r: Registry, id: JobId, now: nat, w: WorkerId)
    requires WellFormed(r)
    ensures var (q, reply) := Cancel(r, id, now);
      Held(q, w) + Count(reply.JobCancelled? && reply.job.lease.Some? && reply.job.lease.value.workerId == w) ==
          Held(r, w)
  {
    assert OrderOk(r);
    assert id in r.jobs ==> JobOk(r.jobs[id]);
    hide WellFormed, OrderOk;
    if id in r.jobs && !r.jobs[id].status.Terminal() {
      HeldPut(r, Cancel(r, id, now).0, id, w);
    }
  }

  lemma {:induction false} FilterOfFilter<T(!new)>(s: seq<T>, keep: T -> bool, p: T -> bool, q: T -> bool)
    requires forall x :: x in s ==> (q(x) <==> keep(x) && p(x))
    ensures Filter(Filter(s, keep), p) == Filter(s, q)
  {
    if s != [] {
      var front, last := s[..|s| - 1], s[|s| - 1];
      FilterOfFilter(front, keep, p, q);
      assert last in s;
      if keep(last) {
        assert Filter(s, keep) == Filter(front, keep) + [last];
        FilterPush(Filter(front, keep), last, p);
      } else {
        assert Filter(s, keep) == Filter(front, keep);
      }
    }
  }

  lemma HeldAfterCallback(r: Registry, e: Event, w: WorkerId)
    requires WellFormed(r) && Leaseless(e) && !e.PruneJobs? && !e.SubmitJob?
    ensures Held(Apply(r, e), w) == Held(r, w)
  {
    hide WellFormed, Apply, FirstClaimable;
    ApplyKeys(r, e);
    forall id | id in r.order ensures HeldTest(Apply(r, e).jobs, w)(id) == HeldTest(r.jobs, w)(id) {
      ApplyOnJob(r, e, id);
    }
    FilterAgree(r.order, HeldTest(r.jobs, w), HeldTest(Apply(r, e).jobs, w));
  }

  lemma HeldAfterLeaseless(r: Registry, e: Event, w: WorkerId)
    requires WellFormed(r) && Leaseless(e)
    ensures Held(Apply(r, e), w) == Held(r, w)
  {
    hide WellFormed, Held;
    if e.PruneJobs? {
      HeldAfterPrune(r, e.policy, e.now, w);
    } else if e.SubmitJob? {
      HeldAfterSubmit(r, e.request, e.now, w);
    } else {
      HeldAfterCallback(r, e, w);
    }
  }

  lemma ApplyKeys(r: Registry, e: Event)
    requires WellFormed(r) && Leaseless(e) && !e.PruneJobs? && !e.SubmitJob?
    ensures Apply(r, e).order == r.order
    ensures forall id :: id in r.order ==> id in r.jobs && id in Apply(r, e).jobs
  {
  }

  lemma HeldAfterSubmit(r: Registry, request: SubmitRequest, now: nat, w: WorkerId)
    requires WellFormed(r)
    ensures Held(Submit(r, request, now).0, w) == Held(r, w)
  {
    var q := Submit(r, request, now).0;
    if q.nextId != r.nextId {
      var id := JobIdOf(r.nextId + 1);
      NextIdFresh(r);
      assert q.order == r.order + [id];
      FilterPush(r.order, id, HeldTest(q.jobs, w));
      FilterAgree(r.order, HeldTest(r.jobs, w), HeldTest(q.jobs, w));
    }
  }

  lemma HeldAfterPrune(r: Registry, policy: RetentionPolicy, now: nat, w: WorkerId)
    requires WellFormed(r)
    ensures Held(Prune(r, policy, now).0, w) == Held(r, w)
  {
    var q := Prune(r, policy, now).0;
    VictimsAre(r, policy, now);
    FilterOfFilter(r.order, RetainedTest(q.jobs), HeldTest(q.jobs, w), HeldTest(r.jobs, w));
  }

  // ---------- Conservation ----------

  lemma AcquireBalanced(ws: WorkerMap, id: WorkerId, staleAfter: nat, now: nat, w: WorkerId)
    requires WorkersOk(ws)
    ensures var (after, reply) := TryAcquire(ws, id, staleAfter, now);
      InFlight(after, w) == InFlight(ws, w) + Count(reply.Acquired? && reply.snapshot.worker.id == w)
  {
  }

  lemma ReleaseBalanced(ws: WorkerMap, k: WorkerId, w: WorkerId)
    requires k == w ==> InFlight(ws, w) >= 1
    ensures InFlight(Released(ws, k), w) + Count(k == w) == InFlight(ws, w)
  {
  }

  lemma OwedHead(owed: seq<WorkerId>, w: WorkerId)
    requires owed != []
    ensures multiset(owed)[w] == Count(owed[0] == w) + multiset(owed[1..])[w]
  {
    assert owed == [owed[0]] + owed[1..];
  }

  /** The step of this thread moves slots between w's count, its leases and the thread's debt, and loses none. */
  ghost predicate Conserves(c: Config, s: System, pc: Pc, now: nat, w: WorkerId) {
    var (r, ws, next) := StepPc(c, s, pc, now);
    InFlight(ws, w) + Held(s.jobs, w) + PcDebt(pc, w) == InFlight(s.workers, w) + Held(r, w) + PcDebt(next, w)
  }

  lemma SweepConserves(c: Config, s: System, cmd: Command, now: nat, w: WorkerId)
    requires WellFormed(s.jobs)
    ensures Conserves(c, s, NeedSweep(cmd), now, w)
  {
    SweepReportExact(s.jobs, now, w);
  }

  lemma ReleasingConserves(c: Config, s: System, owed: seq<WorkerId>, cmd: Command, now: nat, w: WorkerId)
    requires multiset(owed)[w] <= InFlight(s.workers, w)
    ensures Conserves(c, s, Releasing(owed, cmd), now, w)
  {
    if owed != [] {
      OwedHead(owed, w);
      ReleaseBalanced(s.workers, owed[0], w);
    }
  }

  lemma ClaimingConserves(c: Config, s: System, k: Worker, now: nat, w: WorkerId)
    requires WellFormed(s.jobs)
    ensures Conserves(c, s, Claiming(k), now, w)
  {
    hide WellFormed, Held, FirstClaimable;
    HeldAfterClaim(s.jobs, k.Profile(), c.pools, now, c.leaseDuration, w);
  }

  lemma ThreadStepConserves(c: Config, s: System, i: nat, now: nat, w: WorkerId)
    requires SlotsOk(s) && i < |s.threads|
    ensures Conserves(c, s, s.threads[i], now, w)
  {
    assert Balanced(s, w);
    SumOfThread(s.threads, i, DebtOf(w));
    match s.threads[i]
    case NeedSweep(cmd) => SweepConserves(c, s, cmd, now, w);
    case Releasing(owed, cmd) => ReleasingConserves(c, s, owed, cmd, now, w);
    case Ready(cmd) => ReadyStepBalanced(c, s, cmd, now, w);
    case Claiming(k) => ClaimingConserves(c, s, k, now, w);
    case Owing(k) => ReleaseBalanced(s.workers, k, w);
    case _ =>
  }

  lemma ReadyStepBalanced(c: Config, s: System, cmd: Command, now: nat, w: WorkerId)
    requires WellFormed(s.jobs) && WorkersOk(s.workers)
    ensures var (r, ws, pc) := RunReady(c, s, cmd, now);
      InFlight(ws, w) + Held(s.jobs, w) == InFlight(s.workers, w) + Held(r, w) + PcDebt(pc, w)
  {
    hide WellFormed, RenewLease, CompleteLease, FailLease, Cancel, Held, TryAcquire, InFlight;
    match cmd
    case ClaimFor(k) => AcquireBalanced(s.workers, k, c.staleAfter, now, w);
    case RenewFor(k, id) => HeldAfterRenew(s.jobs, id, k, now, c.leaseDuration, w);
    case CompleteFor(k, id, attempt, result) => HeldAfterComplete(s.jobs, id, k, attempt, result, now, w);
    case FailFor(k, id, attempt, failure) => HeldAfterFail(s.jobs, id, k, attempt, failure, now, w);
    case SweepOnly =>
    case CancelOf(id) => HeldAfterCancel(s.jobs, id, now, w);
  }

  lemma ThreadStepWellFormed(c: Config, s: System, pc: Pc, now: nat)
    requires WellFormed(s.jobs) && WorkersOk(s.workers)
    ensures var (r, ws, _) := StepPc(c, s, pc, now); WellFormed(r) && WorkersOk(ws)
  {
    match pc
    case NeedSweep(cmd) => SweepKeepsWellFormed(s.jobs, now);
    case Claiming(k) => ClaimKeepsWellFormed(s.jobs, k.Profile(), c.pools, now, c.leaseDuration);
    case Ready(cmd) =>
      match cmd {
        case RenewFor(k, id) => RenewKeepsWellFormed(s.jobs, id, k, now, c.leaseDuration);
        case CompleteFor(k, id, attempt, result) => CompleteKeepsWellFormed(s.jobs, id, k, attempt, result, now);
        case FailFor(k, id, attempt, failure) => FailKeepsWellFormed(s.jobs, id, k, attempt, failure, now);
        case CancelOf(id) => CancelKeepsWellFormed(s.jobs, id, now);
        case _ =>
      }
    case _ =>
  }

  lemma CallKeepsCounts(ws: WorkerMap, call: WorkerCall, now: nat, w: WorkerId)
    requires WorkersOk(ws)
    ensures WorkersOk(CallWorkers(ws, call, now))
    ensures InFlight(CallWorkers(ws, call, now), w) == InFlight(ws, w)
  {
  }

  /** Slots are conserved by every step of every handler and every other call. */
  lemma StepKeepsSlots(c: Config, s: System, step: Step)
    requires SlotsOk(s)
    ensures SlotsOk(Next(c, s, step))
  {
    var t := Next(c, s, step);
    match step
    case Spawn(cmd) =>
      forall w ensures Balanced(t, w) {
        assert Balanced(s, w);
        SumOfPush(s.threads, FirstPc(cmd), DebtOf(w));
      }
    case Advance(i, now) =>
      if i < |s.threads| {
        ThreadStepWellFormed(c, s, s.threads[i], now);
        forall w ensures Balanced(t, w) {
          assert Balanced(s, w);
          ThreadStepConserves(c, s, i, now, w);
          SumOfUpdate(s.threads, i, StepPc(c, s, s.threads[i], now).2, DebtOf(w));
        }
      }
    case OnWorkers(call, now) =>
      CallKeepsCounts(s.workers, call, now, "");
      forall w ensures Balanced(t, w) {
        assert Balanced(s, w);
        CallKeepsCounts(s.workers, call, now, w);
      }
    case OnJobs(e) =>
      if Leaseless(e) {
        ApplyKeepsWellFormed(s.jobs, e);
        forall w ensures Balanced(t, w) {
          assert Balanced(s, w);
          HeldAfterLeaseless(s.jobs, e, w);
        }
      }
  }

  /** A process starts with no worker, no thread, and no running job. */
  ghost predicate Starts(s: System) {
    && WellFormed(s.jobs) && s.workers == map[] && s.threads == []
    && forall id :: id in s.jobs.jobs ==> !s.jobs.jobs[id].status.Running?
  }

  lemma StartBalanced(s: System)
    requires Starts(s)
    ensures SlotsOk(s)
  {
    forall w ensures Balanced(s, w) {
      FilterNone(s.jobs.order, HeldTest(s.jobs.jobs, w));
    }
  }

  /**
   Slot conservation: after any interleaving, every worker's count is its running leases, plus slots
   taken and not yet leased, plus releases owed.
   */
  lemma {:induction false} SlotsConserved(c: Config, s: System, steps: seq<Step>)
    requires Starts(s)
    ensures SlotsOk(RunSystem(c, s, steps))
  {
    if steps == [] {
      StartBalanced(s);
    } else {
      SlotsConserved(c, s, steps[..|steps| - 1]);
      StepKeepsSlots(c, RunSystem(c, s, steps[..|steps| - 1]), steps[|steps| - 1]);
    }
  }

  /** A release is never made of nothing: its worker is registered and counts at least that slot. */
  lemma ReleaseNeverSaturates(c: Config, s: System, steps: seq<Step>, i: nat, w: WorkerId)
    requires Starts(s) && i < |RunSystem(c, s, steps).threads|
    requires var pc := RunSystem(c, s, steps).threads[i];
      pc == Owing(w) || (pc.Releasing? && pc.owed != [] && pc.owed[0] == w)
    ensures var ws := RunSystem(c, s, steps).workers;
      && w in ws && ws[w].inFlight >= 1
      && Released(ws, w)[w].inFlight == ws[w].inFlight - 1
  {
    var t := RunSystem(c, s, steps);
    SlotsConserved(c, s, steps);
    assert Balanced(t, w);
    SumOfThread(t.threads, i, DebtOf(w));
    if t.threads[i].Releasing? {
      assert w in t.threads[i].owed;
    }
  }

  /** A worker that is not registered holds no running job, and nothing is owed to it. */
  lemma UnregisteredHoldsNothing(c: Config, s: System, steps: seq<Step>, w: WorkerId, id: JobId)
    requires Starts(s) && w !in RunSystem(c, s, steps).workers
    ensures var t := RunSystem(c, s, steps);
      && Held(t.jobs, w) == 0 && Debt(t.threads, w) == 0
      && (id in t.jobs.jobs ==> !IsHeldBy(t.jobs.jobs[id], w))
  {
    var t := RunSystem(c, s, steps);
    SlotsConserved(c, s, steps);
    assert Balanced(t, w);
    assert OrderOk(t.jobs);
    assert id in t.jobs.jobs && IsHeldBy(t.jobs.jobs[id], w) ==> id in Filter(t.jobs.order, HeldTest(t.jobs.jobs, w));
  }

  // ---------- Capacity ----------

  predicate Respects(ws: WorkerMap, w: WorkerId) {
    w in ws && ws[w].maxConcurrentJobs.Some? ==> ws[w].inFlight <= ws[w].maxConcurrentJobs.value
  }

  ghost predicate WithinLimit(s: System, w: WorkerId) { Respects(s.workers, w) }

  lemma AcquireRespects(ws: WorkerMap, id: WorkerId, staleAfter: nat, now: nat, w: WorkerId)
    requires Respects(ws, w)
    ensures Respects(TryAcquire(ws, id, staleAfter, now).0, w)
  {
  }

  lemma ReleaseRespects(ws: WorkerMap, id: WorkerId, w: WorkerId)
    requires Respects(ws, w)
    ensures Respects(Released(ws, id), w)
  {
  }

  /** No step of a handler takes a worker above its maximum. */
  lemma ThreadStepRespects(c: Config, s: System, pc: Pc, now: nat, w: WorkerId)
    requires Respects(s.workers, w)
    ensures Respects(StepPc(c, s, pc, now).1, w)
  {
    hide Sweep, Claim, CompleteLease, FailLease, RenewLease, Cancel, TryAcquire, Released, Respects;
    match pc
    case Ready(cmd) =>
      if cmd.ClaimFor? {
        AcquireRespects(s.workers, cmd.worker, c.staleAfter, now, w);
      }
    case Releasing(owed, _) =>
      if owed != [] {
        ReleaseRespects(s.workers, owed[0], w);
      }
    case Owing(k) => ReleaseRespects(s.workers, k, w);
    case _ =>
  }

  /** The step is a valid re-registration of w with a maximum below the slots it has in use. */
  ghost predicate LowersBelowUse(s: System, step: Step, w: WorkerId) {
    && step.OnWorkers? && step.call.CallRegister?
    && Validate(step.call.request, step.now).Ok?
    && Validate(step.call.request, step.now).value.id == w && w in s.workers
    && step.call.request.maxConcurrentJobs.Some?
    && step.call.request.maxConcurrentJobs.value < s.workers[w].inFlight
  }

  /** A worker within its limit leaves it exactly by a re-registration that lowers the maximum below its use. */
  lemma LimitBrokenIffLowered(c: Config, s: System, step: Step, w: WorkerId)
    requires WithinLimit(s, w)
    ensures WithinLimit(Next(c, s, step), w) <==> !LowersBelowUse(s, step, w)
  {
    hide StepPc, Apply, Validate;
    match step
    case Advance(i, now) =>
      if i < |s.threads| {
        ThreadStepRespects(c, s, s.threads[i], now, w);
      }
    case OnWorkers(call, now) =>
      if call.CallRegister? && Validate(call.request, now).Ok? {
        EntryIs(call.request, now);
      }
    case _ =>
  }

  lemma EntryIs(q: RegisterRequest, now: nat)
    requires Validate(q, now).Ok?
    ensures Validate(q, now).value.maxConcurrentJobs == q.maxConcurrentJobs && Validate(q, now).value.inFlight == 0
  {
    hide Trim;
  }

  // A run that breaks the limit: register with a maximum of two, let two claims take a slot each, lower it to one.

  function AskFor(max: nat): RegisterRequest { RegisterRequest("w", "http://w", None, "p", [Cluster], Some(max), None) }

  function TheWorker(max: nat, inFlight: nat): Worker {
    Worker("w", "http://w", None, "p", [Cluster], Some(max), None, inFlight, false, 0, 0, 0)
  }

  /** No jobs, one worker with two slots, and these threads. */
  function Scene(max: nat, inFlight: nat, threads: seq<Pc>): System {
    System(EMPTY, map["w" := TheWorker(max, inFlight)], threads)
  }

  lemma RegisterInScene(c: Config, s: System, max: nat)
    requires max > 0 && (s.workers == map[] || exists m, n :: s.workers == map["w" := TheWorker(m, n)])
    ensures Next(c, s, OnWorkers(CallRegister(AskFor(max)), 0)).jobs == s.jobs
    ensures Next(c, s, OnWorkers(CallRegister(AskFor(max)), 0)).threads == s.threads
    ensures Next(c, s, OnWorkers(CallRegister(AskFor(max)), 0)).workers ==
            map["w" := TheWorker(max, if s.workers == map[] then 0 else s.workers["w"].inFlight)]
  {
    assert Trim("w") == "w" && Trim("http://w") == "http://w" && Trim("p") == "p";
    hide Trim;
  }

  function AcquireSteps(i: nat): seq<Step> {
    [Spawn(ClaimFor("w"))] + [Advance(i, 0)] + [Advance(i, 0)] + [Advance(i, 0)]
  }

  lemma {:induction false} RunAppends(c: Config, s: System, steps: seq<Step>, more: seq<Step>)
    ensures RunSystem(c, s, steps + more) == RunSystem(c, RunSystem(c, s, steps), more)
  {
    if more == [] {
      assert steps + more == steps;
    } else {
      var all := steps + more;
      assert all[..|all| - 1] == steps + more[..|more| - 1];
      RunAppends(c, s, steps, more[..|more| - 1]);
    }
  }

  lemma SweepInScene(c: Config, s: System, n: nat, threads: seq<Pc>, cmd: Command)
    requires s == Scene(2, n, threads + [NeedSweep(cmd)])
    ensures Next(c, s, Advance(|threads|, 0)) == Scene(2, n, threads + [Releasing([], cmd)])
  {
    hide Sweep;
    NothingExpired(EMPTY, 0);
  }

  lemma ReleaseInScene(c: Config, s: System, n: nat, threads: seq<Pc>, cmd: Command)
    requires s == Scene(2, n, threads + [Releasing([], cmd)])
    ensures Next(c, s, Advance(|threads|, 0)) == Scene(2, n, threads + [Ready(cmd)])
  {
  }

  lemma TakeInScene(c: Config, s: System, n: nat, threads: seq<Pc>)
    requires c.staleAfter > 0 && n < 2 && s == Scene(2, n, threads + [Ready(ClaimFor("w"))])
    ensures Next(c, s, Advance(|threads|, 0)) == Scene(2, n + 1, threads + [Claiming(TheWorker(2, n + 1))])
  {
  }

  /** A fresh claim sweeps, finds nothing to release, and takes a slot. */
  lemma AcquireInScene(c: Config, s: System, n: nat)
    requires c.staleAfter > 0 && n < 2 && s == Scene(2, n, s.threads)
    ensures RunSystem(c, s, AcquireSteps(|s.threads|)) == Scene(2, n + 1, s.threads + [Claiming(TheWorker(2, n + 1))])
  {
    var cmd, spawn, go := ClaimFor("w"), Spawn(ClaimFor("w")), Advance(|s.threads|, 0);
    OneMoreStep(c, s, [], spawn);
    OneMoreStep(c, s, [spawn], go);
    OneMoreStep(c, s, [spawn, go], go);
    OneMoreStep(c, s, [spawn, go, go], go);
    var s1 := Next(c, s, spawn);
    assert s1 == Scene(2, n, s.threads + [NeedSweep(cmd)]);
    hide Next, Scene, RunSystem;
    SweepInScene(c, s1, n, s.threads, cmd);
    ReleaseInScene(c, Next(c, s1, go), n, s.threads, cmd);
    TakeInScene(c, Next(c, Next(c, s1, go), go), n, s.threads);
  }

  lemma OneMoreStep(c: Config, s: System, steps: seq<Step>, step: Step)
    ensures RunSystem(c, s, steps + [step]) == Next(c, RunSystem(c, s, steps), step)
    ensures RunSystem(c, s, []) == s
  {
    assert (steps + [step])[..|steps|] == steps;
  }

  function LoweringRun(): seq<Step> {
    ([OnWorkers(CallRegister(AskFor(2)), 0)] + AcquireSteps(0) + AcquireSteps(1))
    + [OnWorkers(CallRegister(AskFor(1)), 0)]
  }

  /** The maximum can be lowered below its use: this run starts from nothing, and ends with two slots in use of one. */
  lemma LoweringBreaksTheLimit(c: Config)
    requires c.staleAfter > 0
    ensures Starts(System(EMPTY, map[], []))
    ensures var t := RunSystem(c, System(EMPTY, map[], []), LoweringRun());
      t.workers == map["w" := TheWorker(1, 2)] && !WithinLimit(t, "w")
  {
    EmptyWellFormed();
    hide WellFormed, Next, AcquireSteps;
    var s := System(EMPTY, map[], []);
    var first, last := OnWorkers(CallRegister(AskFor(2)), 0), OnWorkers(CallRegister(AskFor(1)), 0);
    RegisterInScene(c, s, 2);
    assert [first][..0] == [];
    var s1 := RunSystem(c, s, [first]);
    RunAppends(c, s, [first], AcquireSteps(0));
    AcquireInScene(c, s1, 0);
    var s2 := RunSystem(c, s, [first] + AcquireSteps(0));
    RunAppends(c, s, [first] + AcquireSteps(0), AcquireSteps(1));
    AcquireInScene(c, s2, 1);
    var steps := [first] + AcquireSteps(0) + AcquireSteps(1);
    RegisterInScene(c, RunSystem(c, s, steps), 1);
    assert (steps + [last])[..|steps|] == steps;
  }

  ghost predicate NeverLowers(c: Config, s: System, steps: seq<Step>, w: WorkerId) {
    forall k :: 0 <= k < |steps| ==> !LowersBelowUse(RunSystem(c, s, steps[..k]), steps[k], w)
  }

  /** While its maximum is never lowered below its use, a worker never holds more leases than its maximum. */
  lemma {:induction false} LeasesWithinMaximum(c: Config, s: System, steps: seq<Step>, w: WorkerId)
    requires Starts(s) && NeverLowers(c, s, steps, w)
    ensures var t := RunSystem(c, s, steps);
      && WithinLimit(t, w)
      && (w in t.workers && t.workers[w].maxConcurrentJobs.Some? ==>
          Held(t.jobs, w) <= t.workers[w].maxConcurrentJobs.value)
  {
    SlotsConserved(c, s, steps);
    assert Balanced(RunSystem(c, s, steps), w);
    if steps != [] {
      var front := steps[..|steps| - 1];
      assert forall k :: 0 <= k < |front| ==> front[..k] == steps[..k];
      LeasesWithinMaximum(c, s, front, w);
      SlotsConserved(c, s, front);
      LimitBrokenIffLowered(c, RunSystem(c, s, front), steps[|steps| - 1], w);
    }
  }
}
