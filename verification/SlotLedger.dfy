/**
 The slots of a worker counted over whole runs of the handlers: how many were acquired, how many acquisitions became
 leases and how many found no job, how many leases ended, and how many releases were performed.
 */
module SlotLedger {
  import opened Collections
  import opened JobIds
  import opened JobModel
  import opened JobInvariant
  import opened JobExactness
  import opened JobRuns
  import opened Workers
  import opened Slots

  // ---------- Leases under one registry event ----------

  function HeldSet(r: Registry, w: WorkerId): set<JobId> { set id | id in r.jobs && IsHeldBy(r.jobs[id], w) }

  lemma HeldCounts(r: Registry, w: WorkerId)
    requires OrderOk(r)
    ensures Held(r, w) == |HeldSet(r, w)|
  {
    var held := Filter(r.order, HeldTest(r.jobs, w));
    FilterNoDuplicates(r.order, HeldTest(r.jobs, w));
    CardinalityOfDistinct(held);
    assert HeldSet(r, w) == set id | id in held;
  }

  /** The jobs whose lease to w ends between these two registries. */
  function LeasesEnded(p: Registry, q: Registry, w: WorkerId): set<JobId> { HeldSet(p, w) - HeldSet(q, w) }

  ghost predicate GrantedTo(p: Registry, e: Event, w: WorkerId) {
    NewGrant(p, e) != [] && NewGrant(p, e)[0].worker == w
  }

  lemma GrantTakesEffect(p: Registry, e: Event, g: Grant)
    requires WellFormed(p) && g in NewGrant(p, e)
    ensures NewGrant(p, e) == [g] && HoldsLease(Apply(p, e), g)
    ensures g.id in p.jobs && p.jobs[g.id].status.Queued?
  {
    ApplyOnJob(p, e, g.id);
  }

  lemma LeasesGained(p: Registry, e: Event, w: WorkerId)
    requires WellFormed(p)
    ensures HeldSet(Apply(p, e), w) - HeldSet(p, w) == if GrantedTo(p, e, w) then {NewGrant(p, e)[0].id} else {}
  {
    hide WellFormed, Apply, NewGrant;
    var q := Apply(p, e);
    if NewGrant(p, e) != [] {
      GrantTakesEffect(p, e, NewGrant(p, e)[0]);
    }
    forall id | id in HeldSet(q, w) && id !in HeldSet(p, w) ensures GrantedTo(p, e, w) && id == NewGrant(p, e)[0].id {
      var g := Grant(id, q.jobs[id].lease.value.attempt, w);
      LeaseStep(p, e, g);
      GrantTakesEffect(p, e, g);
    }
  }

  /** Leases held after an event = leases held before, less those it ends, plus the one it grants. */
  lemma LeasesUnderEvent(p: Registry, e: Event, w: WorkerId)
    requires WellFormed(p)
    ensures Held(Apply(p, e), w) + |LeasesEnded(p, Apply(p, e), w)| == Held(p, w) + Count(GrantedTo(p, e, w))
  {
    hide WellFormed, Apply, GrantedTo, Held, HeldSet;
    var q := Apply(p, e);
    OrderIsOk(p);
    ApplyKeepsWellFormed(p, e);
    OrderIsOk(q);
    HeldCounts(p, w);
    HeldCounts(q, w);
    LeasesGained(p, e, w);
    assert HeldSet(p, w) + (HeldSet(q, w) - HeldSet(p, w)) == HeldSet(q, w) + LeasesEnded(p, q, w);
  }

  // ---------- One grant over a run of the registry ----------

  /** How often the lease of this grant ends in a run. */
  ghost function TimesEnded(r: Registry, es: seq<Event>, g: Grant): nat {
    if es == [] then 0
    else
      TimesEnded(r, es[..|es| - 1], g) + Count(HoldsLease(Run(r, es[..|es| - 1]), g) && !HoldsLease(Run(r, es), g))
  }

  ghost function TimesGranted(r: Registry, es: seq<Event>, g: Grant): nat { multiset(Claims(r, es))[g] }

  lemma GrantUnderEvent(p: Registry, e: Event, g: Grant)
    requires WellFormed(p)
    ensures Count(HoldsLease(p, g)) + multiset(NewGrant(p, e))[g] ==
            Count(HoldsLease(p, g) && !HoldsLease(Apply(p, e), g)) + Count(HoldsLease(Apply(p, e), g))
  {
    hide WellFormed, Apply, NewGrant;
    if g in NewGrant(p, e) {
      GrantTakesEffect(p, e, g);
    } else if HoldsLease(Apply(p, e), g) {
      LeaseStep(p, e, g);
    }
  }

  /** What was granted, or held at the start, has either ended or is still held, each time. */
  lemma {:induction false} GrantSettled(r: Registry, es: seq<Event>, g: Grant)
    requires WellFormed(r)
    ensures Count(HoldsLease(r, g)) + TimesGranted(r, es, g) ==
            TimesEnded(r, es, g) + Count(HoldsLease(Run(r, es), g))
  {
    hide WellFormed, HoldsLease, NewGrant, Apply;
    if es != [] {
      var p, e := es[..|es| - 1], es[|es| - 1];
      GrantSettled(r, p, g);
      RunKeepsWellFormed(r, p);
      GrantUnderEvent(Run(r, p), e, g);
      assert multiset(Claims(r, es)) == multiset(Claims(r, p)) + multiset(NewGrant(Run(r, p), e));
    }
  }

  /** No grant is made twice, and none repeats one held at the start. */
  lemma GrantedOnce(r: Registry, es: seq<Event>, g: Grant)
    requires WellFormed(r)
    ensures Count(HoldsLease(r, g)) + TimesGranted(r, es, g) <= 1
  {
    hide WellFormed, HoldsLease;
    AttemptIssuedOnce(r, es);
    MultiplicityOfDistinct(Claims(r, es), g);
  }

  // ---------- The registry events of the handlers ----------

  /** The registry operation that a step of the system performs, if any. */
  function StepEvents(c: Config, s: System, step: Step): seq<Event> {
    match step
    case OnJobs(e) => if Leaseless(e) then [e] else []
    case Advance(i, now) =>
      if i < |s.threads| then
        match s.threads[i]
        case NeedSweep(_) => [SweepLeases(now)]
        case Claiming(k) => [ClaimJob(k.Profile(), c.pools, now, c.leaseDuration)]
        case Ready(RenewFor(w, id)) => [RenewJob(id, w, now, c.leaseDuration)]
        case Ready(CompleteFor(w, id, attempt, result)) => [CompleteJob(id, w, attempt, result, now)]
        case Ready(FailFor(w, id, attempt, failure)) => [FailJob(id, w, attempt, failure, now)]
        case Ready(CancelOf(id)) => [CancelJob(id, now)]
        case _ => []
      else []
    case _ => []
  }

  function SystemEvents(c: Config, s: System, steps: seq<Step>): seq<Event> {
    if steps == [] then []
    else
      var front := steps[..|steps| - 1];
      SystemEvents(c, s, front) + StepEvents(c, RunSystem(c, s, front), steps[|steps| - 1])
  }

  lemma StepIsEvent(c: Config, s: System, step: Step)
    ensures var es := StepEvents(c, s, step);
      |es| <= 1 && Next(c, s, step).jobs == if es == [] then s.jobs else Apply(s.jobs, es[0])
  {
    hide Sweep, Claim, RenewLease, CompleteLease, FailLease, Cancel, Submit, Prune;
  }

  /** The registry of a run of the system is a run of registry operations. */
  lemma {:induction false} SystemIsRun(c: Config, s: System, steps: seq<Step>)
    ensures RunSystem(c, s, steps).jobs == Run(s.jobs, SystemEvents(c, s, steps))
  {
    hide Next, StepEvents, Apply;
    if steps != [] {
      var front, last := steps[..|steps| - 1], steps[|steps| - 1];
      var t := RunSystem(c, s, front);
      SystemIsRun(c, s, front);
      StepIsEvent(c, t, last);
      var es := StepEvents(c, t, last);
      RunAppend(s.jobs, SystemEvents(c, s, front), es);
      if es != [] {
        assert es[..0] == [];
      }
    }
  }

  // ---------- Tallies of one step ----------

  /** A claim handler has just taken a slot of w. */
  predicate Acquires(c: Config, s: System, step: Step, w: WorkerId) {
    && step.Advance? && step.thread < |s.threads|
    && var pc := s.threads[step.thread];
    && pc.Ready? && pc.cmd.ClaimFor? && pc.cmd.worker == w
    && TryAcquire(s.workers, w, c.staleAfter, step.now).1.Acquired?
  }

  predicate AsksForJob(s: System, step: Step, w: WorkerId) {
    && step.Advance? && step.thread < |s.threads|
    && s.threads[step.thread].Claiming? && s.threads[step.thread].worker.id == w
  }

  predicate Finds(c: Config, s: System, step: Step)
    requires step.Advance? && step.thread < |s.threads| && s.threads[step.thread].Claiming?
  {
    Claim(s.jobs, s.threads[step.thread].worker.Profile(), c.pools, step.now, c.leaseDuration).1.Some?
  }

  /** A slot taken becomes a lease of w. */
  predicate Grants(c: Config, s: System, step: Step, w: WorkerId) { AsksForJob(s, step, w) && Finds(c, s, step) }

  /** A slot taken finds no job. */
  predicate ComesEmpty(c: Config, s: System, step: Step, w: WorkerId) { AsksForJob(s, step, w) && !Finds(c, s, step) }

  /** A slot of w is released. */
  predicate Releases(s: System, step: Step, w: WorkerId) {
    && step.Advance? && step.thread < |s.threads|
    && var pc := s.threads[step.thread];
    && (pc == Owing(w) || (pc.Releasing? && pc.owed != [] && pc.owed[0] == w))
  }

  /** How many leases of w this step ends. */
  function Ends(c: Config, s: System, step: Step, w: WorkerId): nat {
    |LeasesEnded(s.jobs, Next(c, s, step).jobs, w)|
  }

  // A thread's debt is a slot waiting for a job, or releases owed.

  function PcWaits(pc: Pc, w: WorkerId): nat { Count(pc.Claiming? && pc.worker.id == w) }

  function PcOwes(pc: Pc, w: WorkerId): nat {
    match pc
    case Releasing(owed, _) => multiset(owed)[w]
    case Owing(k) => Count(k == w)
    case _ => 0
  }

  function WaitsOf(w: WorkerId): Pc -> nat { pc => PcWaits(pc, w) }

  function OwesOf(w: WorkerId): Pc -> nat { pc => PcOwes(pc, w) }

  function Waiting(s: System, w: WorkerId): nat { Sum(s.threads, WaitsOf(w)) }

  function Owed(s: System, w: WorkerId): nat { Sum(s.threads, OwesOf(w)) }

  lemma {:induction false} DebtSplits(threads: seq<Pc>, w: WorkerId)
    ensures Debt(threads, w) == Sum(threads, WaitsOf(w)) + Sum(threads, OwesOf(w))
  {
    if threads != [] {
      DebtSplits(threads[..|threads| - 1], w);
    }
  }

  // ---------- Each step balances ----------

  lemma WaitingStep(c: Config, s: System, step: Step, w: WorkerId)
    requires WorkersOk(s.workers)
    ensures Waiting(Next(c, s, step), w) + Count(Grants(c, s, step, w)) + Count(ComesEmpty(c, s, step, w))
            == Waiting(s, w) + Count(Acquires(c, s, step, w))
  {
    hide Sweep, Claim, RenewLease, CompleteLease, FailLease, Cancel, Released, Apply;
    match step
    case Spawn(cmd) => SumOfPush(s.threads, FirstPc(cmd), WaitsOf(w));
    case Advance(i, now) =>
      if i < |s.threads| {
        SumOfUpdate(s.threads, i, StepPc(c, s, s.threads[i], now).2, WaitsOf(w));
        ThreadWaits(c, s, i, now, w);
      }
    case _ =>
  }

  lemma ThreadWaits(c: Config, s: System, i: nat, now: nat, w: WorkerId)
    requires WorkersOk(s.workers) && i < |s.threads|
    ensures var step := Advance(i, now);
      PcWaits(StepPc(c, s, s.threads[i], now).2, w) + Count(Grants(c, s, step, w)) + Count(ComesEmpty(c, s, step, w))
      == PcWaits(s.threads[i], w) + Count(Acquires(c, s, step, w))
  {
    hide Sweep, Claim, RenewLease, CompleteLease, FailLease, Cancel, Released;
  }

  lemma HeldStep(c: Config, s: System, step: Step, w: WorkerId)
    requires WellFormed(s.jobs)
    ensures Held(Next(c, s, step).jobs, w) + Ends(c, s, step, w) == Held(s.jobs, w) + Count(Grants(c, s, step, w))
  {
    hide WellFormed, Next, Held, Apply, HeldSet;
    StepIsEvent(c, s, step);
    GrantsAreEvents(c, s, step, w);
    var es := StepEvents(c, s, step);
    if es != [] {
      LeasesUnderEvent(s.jobs, es[0], w);
    } else {
      assert LeasesEnded(s.jobs, s.jobs, w) == {};
    }
  }

  lemma GrantsAreEvents(c: Config, s: System, step: Step, w: WorkerId)
    ensures var es := StepEvents(c, s, step); Grants(c, s, step, w) <==> es != [] && GrantedTo(s.jobs, es[0], w)
  {
    hide FirstClaimable;
  }

  lemma InFlightStep(c: Config, s: System, step: Step, w: WorkerId)
    requires SlotsOk(s)
    ensures InFlight(Next(c, s, step).workers, w) + Count(Releases(s, step, w))
            == InFlight(s.workers, w) + Count(Acquires(c, s, step, w))
  {
    hide WellFormed, Sweep, Claim, RenewLease, CompleteLease, FailLease, Cancel, TryAcquire, Released;
    hide Apply, Held, InFlight, CallWorkers;
    match step
    case Advance(i, now) =>
      if i < |s.threads| {
        assert Balanced(s, w);
        SumOfThread(s.threads, i, DebtOf(w));
        match s.threads[i] {
          case Ready(cmd) =>
            if cmd.ClaimFor? {
              AcquireBalanced(s.workers, cmd.worker, c.staleAfter, now, w);
              AcquiredIsAsked(s.workers, cmd.worker, c.staleAfter, now);
            }
          case Releasing(owed, _) =>
            if owed != [] {
              OwedHead(owed, w);
              ReleaseBalanced(s.workers, owed[0], w);
            }
          case Owing(k) => ReleaseBalanced(s.workers, k, w);
          case _ =>
        }
      }
    case OnWorkers(call, now) => CallKeepsCounts(s.workers, call, now, w);
    case _ =>
  }

  lemma AcquiredIsAsked(ws: WorkerMap, id: WorkerId, staleAfter: nat, now: nat)
    requires WorkersOk(ws)
    ensures var reply := TryAcquire(ws, id, staleAfter, now).1; reply.Acquired? ==> reply.snapshot.worker.id == id
  {
  }

  /**
   The releases owed fall by one with each release, and rise by one with each lease that ends and each empty claim.
   */
  lemma OwedStep(c: Config, s: System, step: Step, w: WorkerId)
    requires SlotsOk(s)
    ensures Owed(Next(c, s, step), w) + Count(Releases(s, step, w))
            == Owed(s, w) + Ends(c, s, step, w) + Count(ComesEmpty(c, s, step, w))
  {
    var t := Next(c, s, step);
    StepKeepsSlots(c, s, step);
    hide Next, WellFormed, Held, Ends, Releases, Grants, ComesEmpty, Acquires, Sum, InFlight;
    assert Balanced(s, w) && Balanced(t, w);
    DebtSplits(s.threads, w);
    DebtSplits(t.threads, w);
    WaitingStep(c, s, step, w);
    HeldStep(c, s, step, w);
    InFlightStep(c, s, step, w);
  }

  // ---------- Totals over a run ----------

  /** The sum over a run of what each step counts for. */
  ghost function Total(c: Config, s: System, steps: seq<Step>, of: (System, Step) -> nat): nat {
    if steps == [] then 0
    else
      var front := steps[..|steps| - 1];
      Total(c, s, front, of) + of(RunSystem(c, s, front), steps[|steps| - 1])
  }

  function AcquireTally(c: Config, w: WorkerId): (System, Step) -> nat { (s, step) => Count(Acquires(c, s, step, w)) }

  function GrantTally(c: Config, w: WorkerId): (System, Step) -> nat { (s, step) => Count(Grants(c, s, step, w)) }

  function EmptyTally(c: Config, w: WorkerId): (System, Step) -> nat { (s, step) => Count(ComesEmpty(c, s, step, w)) }

  function ReleaseTally(w: WorkerId): (System, Step) -> nat { (s, step) => Count(Releases(s, step, w)) }

  function EndTally(c: Config, w: WorkerId): (System, Step) -> nat { (s, step) => Ends(c, s, step, w) }

  /**
   Over every run of one process: slots acquired became leases, came back empty or still wait; leases granted ended or
   are held; and each lease that ended and each empty claim has made exactly one release, performed or still owed.
   */
  lemma {:induction false} SlotsAccounted(c: Config, s: System, steps: seq<Step>, w: WorkerId)
    requires Starts(s)
    ensures var t := RunSystem(c, s, steps);
      && Total(c, s, steps, AcquireTally(c, w))
         == Total(c, s, steps, GrantTally(c, w)) + Total(c, s, steps, EmptyTally(c, w)) + Waiting(t, w)
      && Total(c, s, steps, GrantTally(c, w)) == Total(c, s, steps, EndTally(c, w)) + Held(t.jobs, w)
      && Total(c, s, steps, EndTally(c, w)) + Total(c, s, steps, EmptyTally(c, w))
         == Total(c, s, steps, ReleaseTally(w)) + Owed(t, w)
  {
    hide Next, Held, Ends, Releases, Grants, ComesEmpty, Acquires, WellFormed, Sum, SlotsOk;
    if steps == [] {
      StartEmpty(s, w);
    } else {
      var front, last := steps[..|steps| - 1], steps[|steps| - 1];
      var t := RunSystem(c, s, front);
      SlotsAccounted(c, s, front, w);
      SlotsConserved(c, s, front);
      PartsOk(t);
      WaitingStep(c, t, last, w);
      HeldStep(c, t, last, w);
      OwedStep(c, t, last, w);
    }
  }

  lemma PartsOk(s: System)
    requires SlotsOk(s)
    ensures WellFormed(s.jobs) && WorkersOk(s.workers)
  {
  }

  lemma StartEmpty(s: System, w: WorkerId)
    requires Starts(s)
    ensures Held(s.jobs, w) == 0 && Waiting(s, w) == 0 && Owed(s, w) == 0
  {
    FilterNone(s.jobs.order, HeldTest(s.jobs.jobs, w));
  }

  /** Slots acquired = slots released + leases held + slots owed or waiting for a job; the rest is in nobody's count. */
  lemma AcquiredIsReleasedOrHeld(c: Config, s: System, steps: seq<Step>, w: WorkerId)
    requires Starts(s)
    ensures var t := RunSystem(c, s, steps);
      && Total(c, s, steps, AcquireTally(c, w))
         == Total(c, s, steps, ReleaseTally(w)) + Held(t.jobs, w) + Debt(t.threads, w)
      && InFlight(t.workers, w) + Total(c, s, steps, ReleaseTally(w)) == Total(c, s, steps, AcquireTally(c, w))
  {
    var t := RunSystem(c, s, steps);
    SlotsAccounted(c, s, steps, w);
    SlotsConserved(c, s, steps);
    assert Balanced(t, w);
    hide Total, RunSystem, Held, InFlight, AcquireTally, ReleaseTally;
    DebtSplits(t.threads, w);
  }

  /**
   Each accepted claim releases its slot exactly once: the grant it made is made once, and by any point of the run its
   lease has either ended once or is still held.
   */
  lemma ClaimSettledOnce(c: Config, s: System, steps: seq<Step>, g: Grant)
    requires Starts(s)
    ensures var es, t := SystemEvents(c, s, steps), RunSystem(c, s, steps);
      && TimesGranted(s.jobs, es, g) <= 1
      && TimesEnded(s.jobs, es, g) + Count(HoldsLease(t.jobs, g)) == TimesGranted(s.jobs, es, g)
  {
    SystemIsRun(c, s, steps);
    GrantSettled(s.jobs, SystemEvents(c, s, steps), g);
    GrantedOnce(s.jobs, SystemEvents(c, s, steps), g);
  }

  /** The leases that a step ends for w are those of the grants to w that end in it, one each. */
  lemma EndsAreGrants(p: Registry, e: Event, w: WorkerId, id: JobId)
    requires WellFormed(p)
    ensures id in LeasesEnded(p, Apply(p, e), w) <==>
            exists attempt: nat ::
              HoldsLease(p, Grant(id, attempt, w)) && !HoldsLease(Apply(p, e), Grant(id, attempt, w))
  {
    hide WellFormed, Apply;
    var q := Apply(p, e);
    if id in HeldSet(p, w) {
      var g := Grant(id, p.jobs[id].lease.value.attempt, w);
      assert HoldsLease(p, g);
      if id in HeldSet(q, w) {
        StepEvolves(p, e, id);
      }
    }
  }
}
