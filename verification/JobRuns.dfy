/**
 What holds over every run of registry operations, however they interleave:
 the operations are events, a run is a sequence of them, and each theorem is
 an induction on the run.
 */
module JobRuns {
  import opened Collections
  import opened JobIds
  import opened JobModel
  import opened JobInvariant

  datatype Event =
    | SubmitJob(request: SubmitRequest, now: nat)
    | ClaimJob(profile: WorkerProfile, pools: PoolPolicy, now: nat, duration: nat)
    | RenewJob(id: JobId, worker: WorkerId, now: nat, duration: nat)
    | CompleteJob(id: JobId, worker: WorkerId, attempt: Option<nat>, result: Json, now: nat)
    | FailJob(id: JobId, worker: WorkerId, attempt: Option<nat>, failure: Failure, now: nat)
    | CancelJob(id: JobId, now: nat)
    | SweepLeases(now: nat)
    | PruneJobs(policy: RetentionPolicy, now: nat)
    | BeginCallbackAttempt(id: JobId, now: nat)
    | RecordCallbackSuccess(id: JobId, http: nat, now: nat)
    | RecordCallbackFailure(id: JobId, status: Option<nat>, error: Option<string>)

  function Apply(r: Registry, e: Event): Registry {
    match e
    case SubmitJob(q, now) => Submit(r, q, now).0
    case ClaimJob(w, pools, now, duration) => Claim(r, w, pools, now, duration).0
    case RenewJob(id, worker, now, duration) => RenewLease(r, id, worker, now, duration).0
    case CompleteJob(id, worker, attempt, result, now) => CompleteLease(r, id, worker, attempt, result, now).0
    case FailJob(id, worker, attempt, failure, now) => FailLease(r, id, worker, attempt, failure, now).0
    case CancelJob(id, now) => Cancel(r, id, now).0
    case SweepLeases(now) => Sweep(r, now).0
    case PruneJobs(policy, now) => Prune(r, policy, now).0
    case BeginCallbackAttempt(id, now) => BeginCallback(r, id, now).0
    case RecordCallbackSuccess(id, http, now) => CallbackSucceeded(r, id, http, now).0
    case RecordCallbackFailure(id, status, error) => CallbackFailed(r, id, status, error).0
  }

  function Run(r: Registry, es: seq<Event>): Registry {
    if es == [] then r else Apply(Run(r, es[..|es| - 1]), es[|es| - 1])
  }

  lemma ApplyKeepsWellFormed(r: Registry, e: Event)
    requires WellFormed(r)
    ensures WellFormed(Apply(r, e))
  {
    hide WellFormed, Submit, Claim, RenewLease, CompleteLease, FailLease, Cancel, Sweep, Prune;
    hide BeginCallback, CallbackSucceeded, CallbackFailed;
    match e
    case SubmitJob(q, now) => SubmitKeepsWellFormed(r, q, now);
    case ClaimJob(w, pools, now, duration) => ClaimKeepsWellFormed(r, w, pools, now, duration);
    case RenewJob(id, worker, now, duration) => RenewKeepsWellFormed(r, id, worker, now, duration);
    case CompleteJob(id, worker, attempt, result, now) =>
      CompleteKeepsWellFormed(r, id, worker, attempt, result, now);
    case FailJob(id, worker, attempt, failure, now) => FailKeepsWellFormed(r, id, worker, attempt, failure, now);
    case CancelJob(id, now) => CancelKeepsWellFormed(r, id, now);
    case SweepLeases(now) => SweepKeepsWellFormed(r, now);
    case PruneJobs(policy, now) => PruneKeepsWellFormed(r, policy, now);
    case BeginCallbackAttempt(id, now) => BeginKeepsWellFormed(r, id, now);
    case RecordCallbackSuccess(id, http, now) => SuccessKeepsWellFormed(r, id, http, now);
    case RecordCallbackFailure(id, status, error) => FailureKeepsWellFormed(r, id, status, error);
  }

  /** The index invariant holds after every run. */
  lemma {:induction false} RunKeepsWellFormed(r: Registry, es: seq<Event>)
    requires WellFormed(r)
    ensures WellFormed(Run(r, es))
  {
    if es != [] {
      RunKeepsWellFormed(r, es[..|es| - 1]);
      ApplyKeepsWellFormed(Run(r, es[..|es| - 1]), es[|es| - 1]);
    }
  }

  // ---------- One job under one event ----------

  /** The record of a retained job after an event, if the event does not prune it. */
  ghost function JobAfter(r: Registry, e: Event, id: JobId): Job
    requires id in r.jobs
  {
    var j := r.jobs[id];
    match e
    case SubmitJob(_, _) => j
    case ClaimJob(w, pools, now, duration) =>
      if FirstClaimable(r, r.queues.InClaimOrder(), w, pools) == Some(id) then ClaimedBy(j, w.id, now, duration) else j
    case RenewJob(i, worker, now, duration) =>
      if i == id && LiveLease(j, worker, None, now) then Renewed(j, now, duration) else j
    case CompleteJob(i, worker, attempt, result, now) =>
      if i == id && LiveLease(j, worker, attempt, now) then Completed(j, worker, result, now) else j
    case FailJob(i, worker, attempt, failure, now) =>
      if i == id && LiveLease(j, worker, attempt, now) then FailedBy(j, worker, failure, now) else j
    case CancelJob(i, now) => if i == id && !j.status.Terminal() then CancelledAt(j, now) else j
    case SweepLeases(now) => Swept(j, now)
    case PruneJobs(_, _) => j
    case BeginCallbackAttempt(i, now) =>
      if i == id && AwaitsDelivery(j) then Begun(j, now) else j
    case RecordCallbackSuccess(i, http, now) =>
      if i == id && j.callback.Some? then DeliveredJob(j, http, now) else j
    case RecordCallbackFailure(i, status, error) =>
      if i == id && j.callback.Some? && j.callback.value.status.Pending? then UndeliveredJob(j, status, error) else j
  }

  /** What a job may still do: it falls at every status change. */
  function Measure(j: Job): int {
    if j.status.Terminal() then 0
    else 2 * (j.maxAttempts - j.attempts) + Count(j.status.Running?)
  }

  /** A terminal record is frozen but for its callback state. */
  ghost predicate FrozenSince(j: Job, j': Job) { j' == j.(callback := j'.callback) }

  /** How one record may change in one event, whatever the event. */
  ghost predicate Evolves(j: Job, j': Job) {
    && SamePlace(j, j')
    && j'.kind == j.kind && j'.payload == j.payload && j'.callbackUrl == j.callbackUrl
    && j'.maxAttempts == j.maxAttempts && j.attempts <= j'.attempts
    && 0 <= Measure(j') <= Measure(j)
    && (j'.status != j.status ==> Measure(j') < Measure(j))
    && (j.status.Terminal() ==> FrozenSince(j, j'))
    && (j.callback.Some? && j.callback.value.status.Delivered? ==>
          j'.callback.Some? && j'.callback.value.status.Delivered?)
    && (j.status.Running? && j'.status.Running? ==>
          j.lease.Some? && j'.lease.Some? && j'.lease.value.attempt == j.lease.value.attempt &&
          j'.lease.value.workerId == j.lease.value.workerId)
  }

  ghost predicate PrunedBy(r: Registry, e: Event, id: JobId) {
    e.PruneJobs? && id in r.jobs && id in Victims(r, e.policy, e.now)
  }

  lemma PruneIds(r: Registry, policy: RetentionPolicy, now: nat, id: JobId)
    requires WellFormed(r)
    ensures var q := Prune(r, policy, now).0;
      && q.nextId == r.nextId
      && (id in q.jobs <==> id in r.jobs && id !in Victims(r, policy, now))
      && (id in q.jobs ==> q.jobs[id] == r.jobs[id])
    ensures id in Victims(r, policy, now) ==> id in r.jobs && Prunable(r.jobs[id], policy, now)
  {
    VictimsAre(r, policy, now);
  }

  lemma SubmitIds(r: Registry, q: SubmitRequest, now: nat, id: JobId)
    requires WellFormed(r)
    ensures var s := Submit(r, q, now).0;
      && r.nextId <= s.nextId
      && (id in r.jobs ==> id in s.jobs && s.jobs[id] == r.jobs[id])
      && (id !in r.jobs && id in s.jobs ==> id == JobIdOf(r.nextId + 1) && s.nextId == r.nextId + 1)
  {
    NextIdFresh(r);
  }

  lemma ClaimOnJob(r: Registry, w: WorkerProfile, pools: PoolPolicy, now: nat, duration: nat, id: JobId)
    requires WellFormed(r)
    ensures var q := Claim(r, w, pools, now, duration).0;
      && q.nextId == r.nextId && q.jobs.Keys == r.jobs.Keys
      && (id in r.jobs ==> q.jobs[id] == JobAfter(r, ClaimJob(w, pools, now, duration), id))
  {
  }

  /** The event changes one record in place, as JobAfter says, and no identifier. */
  ghost predicate InPlace(r: Registry, e: Event, id: JobId) {
    var q := Apply(r, e);
    && q.nextId == r.nextId && q.jobs.Keys == r.jobs.Keys
    && (id in r.jobs ==> q.jobs[id] == JobAfter(r, e, id))
  }

  lemma RenewOnJob(r: Registry, e: Event, id: JobId)
    requires WellFormed(r) && e.RenewJob?
    ensures InPlace(r, e, id)
  {
  }

  lemma CompleteOnJob(r: Registry, e: Event, id: JobId)
    requires WellFormed(r) && e.CompleteJob?
    ensures InPlace(r, e, id)
  {
  }

  lemma FailOnJob(r: Registry, e: Event, id: JobId)
    requires WellFormed(r) && e.FailJob?
    ensures InPlace(r, e, id)
  {
    hide WellFormed, PrepareCallback, TerminalAttemptMatches;
  }

  lemma CancelOnJob(r: Registry, e: Event, id: JobId)
    requires WellFormed(r) && e.CancelJob?
    ensures InPlace(r, e, id)
  {
  }

  lemma BeginOnJob(r: Registry, e: Event, id: JobId)
    requires WellFormed(r) && e.BeginCallbackAttempt?
    ensures InPlace(r, e, id)
  {
  }

  lemma SuccessOnJob(r: Registry, e: Event, id: JobId)
    requires WellFormed(r) && e.RecordCallbackSuccess?
    ensures InPlace(r, e, id)
  {
  }

  lemma FailureOnJob(r: Registry, e: Event, id: JobId)
    requires WellFormed(r) && e.RecordCallbackFailure?
    ensures InPlace(r, e, id)
  {
  }

  /**
   Identifiers are only ever added by submission, only ever removed by pruning, and never reused; a job
   that stays is changed as JobAfter says.
   */
  lemma ApplyOnJob(r: Registry, e: Event, id: JobId)
    requires WellFormed(r)
    ensures Apply(r, e).nextId >= r.nextId
    ensures id in r.jobs ==> (id in Apply(r, e).jobs <==> !PrunedBy(r, e, id))
    ensures id !in r.jobs && id in Apply(r, e).jobs ==>
              e.SubmitJob? && id == JobIdOf(r.nextId + 1) && Apply(r, e).nextId == r.nextId + 1
    ensures PrunedBy(r, e, id) ==> Prunable(r.jobs[id], e.policy, e.now)
    ensures id in r.jobs && id in Apply(r, e).jobs ==> Apply(r, e).jobs[id] == JobAfter(r, e, id)
  {
    match e
    case SubmitJob(q, now) => SubmitIds(r, q, now, id);
    case ClaimJob(w, pools, now, duration) => ClaimOnJob(r, w, pools, now, duration, id);
    case SweepLeases(now) =>
    case PruneJobs(policy, now) => PruneIds(r, policy, now, id);
    case RenewJob(_, _, _, _) => RenewOnJob(r, e, id);
    case CompleteJob(_, _, _, _, _) => CompleteOnJob(r, e, id);
    case FailJob(_, _, _, _, _) => FailOnJob(r, e, id);
    case CancelJob(_, _) => CancelOnJob(r, e, id);
    case BeginCallbackAttempt(_, _) => BeginOnJob(r, e, id);
    case RecordCallbackSuccess(_, _, _) => SuccessOnJob(r, e, id);
    case RecordCallbackFailure(_, _, _) => FailureOnJob(r, e, id);
  }

  lemma JobAfterEvolves(r: Registry, e: Event, id: JobId)
    requires id in r.jobs && JobOk(r.jobs[id])
    ensures Evolves(r.jobs[id], JobAfter(r, e, id))
  {
  }

  lemma StepEvolves(r: Registry, e: Event, id: JobId)
    requires WellFormed(r) && id in r.jobs && id in Apply(r, e).jobs
    ensures Evolves(r.jobs[id], Apply(r, e).jobs[id])
  {
    ApplyOnJob(r, e, id);
    JobAfterEvolves(r, e, id);
  }

  /** An issued identifier that is gone stays gone. */
  lemma GoneStaysGone(r: Registry, e: Event, id: JobId)
    requires WellFormed(r) && Issued(id, r.nextId) && id !in r.jobs
    ensures id !in Apply(r, e).jobs && Issued(id, Apply(r, e).nextId)
  {
    ApplyOnJob(r, e, id);
    var n: nat :| 1 <= n <= r.nextId && id == JobIdOf(n);
    if id == JobIdOf(r.nextId + 1) {
      JobIdInjective(n, r.nextId + 1);
    }
  }

  lemma IssuedStays(r: Registry, e: Event, id: JobId)
    requires WellFormed(r) && Issued(id, r.nextId)
    ensures Issued(id, Apply(r, e).nextId)
  {
    ApplyOnJob(r, e, id);
    var n: nat :| 1 <= n <= r.nextId && id == JobIdOf(n);
    assert 1 <= n <= Apply(r, e).nextId;
  }

  lemma {:induction false} RunIssued(r: Registry, es: seq<Event>, id: JobId)
    requires WellFormed(r) && Issued(id, r.nextId)
    ensures Issued(id, Run(r, es).nextId)
    ensures id !in r.jobs ==> id !in Run(r, es).jobs
  {
    hide WellFormed;
    if es != [] {
      var p := es[..|es| - 1];
      RunIssued(r, p, id);
      RunKeepsWellFormed(r, p);
      IssuedStays(Run(r, p), es[|es| - 1], id);
      if id !in Run(r, p).jobs {
        GoneStaysGone(Run(r, p), es[|es| - 1], id);
      }
    }
  }

  lemma {:induction false} RunAppend(r: Registry, es: seq<Event>, more: seq<Event>)
    ensures Run(r, es + more) == Run(Run(r, es), more)
  {
    if more == [] {
      assert es + more == es;
    } else {
      var all := es + more;
      assert all[..|all| - 1] == es + more[..|more| - 1];
      RunAppend(r, es, more[..|more| - 1]);
    }
  }

  // ---------- At most one terminal transition ----------

  /** Once terminal, a job keeps status, result, error and terminal attempt for as long as it is retained. */
  lemma {:induction false} TerminalForever(r: Registry, es: seq<Event>, id: JobId)
    requires WellFormed(r) && id in r.jobs && r.jobs[id].status.Terminal()
    ensures id in Run(r, es).jobs ==> FrozenSince(r.jobs[id], Run(r, es).jobs[id])
  {
    if es != [] {
      var p, e := es[..|es| - 1], es[|es| - 1];
      TerminalForever(r, p, id);
      RunKeepsWellFormed(r, p);
      assert Issued(id, r.nextId);
      RunIssued(r, p, id);
      if id in Run(r, p).jobs {
        if id in Run(r, es).jobs {
          StepEvolves(Run(r, p), e, id);
        }
      } else {
        GoneStaysGone(Run(r, p), e, id);
      }
    }
  }

  /** The report names the worker and attempt that ended this job, with what it ended in. */
  predicate RepeatsCompletion(j: Job, worker: WorkerId, attempt: Option<nat>, result: Json) {
    j.status.Complete? && TerminalAttemptMatches(j, worker, attempt) && j.result == Some(result)
  }

  predicate RepeatsFailure(j: Job, worker: WorkerId, attempt: Option<nat>, failure: Failure) {
    j.status.Failed? && TerminalAttemptMatches(j, worker, attempt) && j.error == Some(failure)
  }

  /**
   However a job became terminal, at every later point of every run: a report that repeats its ending is acknowledged,
   every other report, cancel or renewal is refused, and none changes anything.
   */
  lemma TerminalAnswers(
    r: Registry, es: seq<Event>, id: JobId, worker: WorkerId, attempt: Option<nat>, result: Json, failure: Failure,
    now: nat, duration: nat)
    requires WellFormed(r) && id in r.jobs && r.jobs[id].status.Terminal()
    ensures var p := Run(r, es);
      id in p.jobs ==>
        var j, j' := r.jobs[id], p.jobs[id];
        && CompleteLease(p, id, worker, attempt, result, now) ==
           (p, if RepeatsCompletion(j, worker, attempt, result) then IdempotentCompleted(j') else NotRunning(j'))
        && FailLease(p, id, worker, attempt, failure, now) ==
           (p, if RepeatsFailure(j, worker, attempt, failure) then IdempotentFailed(j') else NotRunning(j'))
        && Cancel(p, id, now) == (p, AlreadyTerminal(j'))
        && RenewLease(p, id, worker, now, duration) == (p, RenewNotRunning(j'))
  {
    TerminalForever(r, es, id);
  }

  /**
   After an accepted completion, whether or not it named its attempt: the same report under the attempt it ended is
   acknowledged at any later point and changes nothing, every other report is refused and changes nothing.
   */
  lemma CompletionAcceptedOnce(
    r: Registry, id: JobId, worker: WorkerId, attempt: Option<nat>, result: Json, now: nat, es: seq<Event>,
    worker': WorkerId, attempt': Option<nat>, result': Json, failure: Failure, later: nat)
    requires WellFormed(r) && id in r.jobs && LiveLease(r.jobs[id], worker, attempt, now)
    ensures var p := Run(CompleteLease(r, id, worker, attempt, result, now).0, es);
      id in p.jobs ==>
        && CompleteLease(p, id, worker', attempt', result', later) ==
           (p, if worker' == worker && attempt' == Some(r.jobs[id].attempts) && result' == result
               then IdempotentCompleted(p.jobs[id]) else NotRunning(p.jobs[id]))
        && FailLease(p, id, worker', attempt', failure, later) == (p, NotRunning(p.jobs[id]))
        && Cancel(p, id, later) == (p, AlreadyTerminal(p.jobs[id]))
  {
    var r1 := CompleteLease(r, id, worker, attempt, result, now).0;
    CompleteKeepsWellFormed(r, id, worker, attempt, result, now);
    OneJobOk(r, id);
    hide WellFormed, JobOk;
    TerminalAnswers(r1, es, id, worker', attempt', result', failure, later, 0);
  }

  /** The same for an accepted failure that was final. */
  lemma FinalFailureAcceptedOnce(
    r: Registry, id: JobId, worker: WorkerId, attempt: Option<nat>, failure: Failure, now: nat, es: seq<Event>,
    worker': WorkerId, attempt': Option<nat>, failure': Failure, result: Json, later: nat)
    requires WellFormed(r) && id in r.jobs && LiveLease(r.jobs[id], worker, attempt, now)
    requires !Retries(r.jobs[id], failure.retryable)
    ensures var p := Run(FailLease(r, id, worker, attempt, failure, now).0, es);
      id in p.jobs ==>
        && FailLease(p, id, worker', attempt', failure', later) ==
           (p, if worker' == worker && attempt' == Some(r.jobs[id].attempts) && failure' == failure
               then IdempotentFailed(p.jobs[id]) else NotRunning(p.jobs[id]))
        && CompleteLease(p, id, worker', attempt', result, later) == (p, NotRunning(p.jobs[id]))
        && Cancel(p, id, later) == (p, AlreadyTerminal(p.jobs[id]))
  {
    var r1 := FailLease(r, id, worker, attempt, failure, now).0;
    FailKeepsWellFormed(r, id, worker, attempt, failure, now);
    OneJobOk(r, id);
    hide WellFormed, JobOk;
    TerminalAnswers(r1, es, id, worker', attempt', result, failure', later, 0);
  }

  /** Every report and cancel of this job is refused and changes nothing, whatever it carries. */
  ghost predicate AllRefused(p: Registry, id: JobId)
    requires id in p.jobs
  {
    && (forall worker, attempt, result, now ::
          CompleteLease(p, id, worker, attempt, result, now) == (p, NotRunning(p.jobs[id])))
    && (forall worker, attempt, failure, now ::
          FailLease(p, id, worker, attempt, failure, now) == (p, NotRunning(p.jobs[id])))
    && (forall now :: Cancel(p, id, now) == (p, AlreadyTerminal(p.jobs[id])))
    && (forall worker, now, duration :: RenewLease(p, id, worker, now, duration) == (p, RenewNotRunning(p.jobs[id])))
  }

  lemma UnreportedRefusesAll(r: Registry, es: seq<Event>, id: JobId)
    requires WellFormed(r) && id in r.jobs && r.jobs[id].status.Terminal() && r.jobs[id].terminalAttempt.None?
    ensures id in Run(r, es).jobs ==> AllRefused(Run(r, es), id)
  {
    TerminalForever(r, es, id);
  }

  /** After a cancel that took effect, no report is ever accepted or acknowledged. */
  lemma CancelIsFinal(r: Registry, id: JobId, now: nat, es: seq<Event>)
    requires WellFormed(r) && id in r.jobs && !r.jobs[id].status.Terminal()
    ensures var p := Run(Cancel(r, id, now).0, es); id in p.jobs ==> AllRefused(p, id)
  {
    CancelKeepsWellFormed(r, id, now);
    UnreportedRefusesAll(Cancel(r, id, now).0, es, id);
  }

  /** Nor after a sweep has failed the job for its last timeout. */
  lemma TimeoutIsFinal(r: Registry, id: JobId, now: nat, es: seq<Event>)
    requires WellFormed(r) && id in r.jobs && IsExpired(r.jobs[id], now) && !Retries(r.jobs[id], true)
    ensures var p := Run(Sweep(r, now).0, es); id in p.jobs ==> AllRefused(p, id)
  {
    SweepKeepsWellFormed(r, now);
    OneJobOk(r, id);
    hide WellFormed;
    UnreportedRefusesAll(Sweep(r, now).0, es, id);
  }

  // ---------- Termination measure ----------

  /** How often the status of this job changes in a run. */
  ghost function StatusChanges(r: Registry, es: seq<Event>, id: JobId): nat {
    if es == [] then 0
    else
      var p, q := Run(r, es[..|es| - 1]), Run(r, es);
      StatusChanges(r, es[..|es| - 1], id) +
      Count(id in p.jobs && id in q.jobs && p.jobs[id].status != q.jobs[id].status)
  }

  lemma {:induction false} StatusChangesWithinMeasure(r: Registry, es: seq<Event>, id: JobId)
    requires WellFormed(r) && id in r.jobs
    ensures StatusChanges(r, es, id) + (if id in Run(r, es).jobs then Measure(Run(r, es).jobs[id]) else 0)
            <= Measure(r.jobs[id])
  {
    if es != [] {
      var p, e := es[..|es| - 1], es[|es| - 1];
      StatusChangesWithinMeasure(r, p, id);
      RunKeepsWellFormed(r, p);
      assert Issued(id, r.nextId);
      RunIssued(r, p, id);
      if id !in Run(r, p).jobs {
        GoneStaysGone(Run(r, p), e, id);
      } else if id in Run(r, es).jobs {
        StepEvolves(Run(r, p), e, id);
      } else {
        assert Measure(Run(r, p).jobs[id]) >= 0;
      }
    }
  }

  /** However events interleave, a job changes status at most twice per allowed attempt. */
  lemma StatusChangesBounded(r: Registry, es: seq<Event>, id: JobId)
    requires WellFormed(r) && id in r.jobs
    ensures StatusChanges(r, es, id) <= 2 * r.jobs[id].maxAttempts
  {
    StatusChangesWithinMeasure(r, es, id);
    RunKeepsWellFormed(r, es);
    assert JobOk(r.jobs[id]);
    if id in Run(r, es).jobs {
      assert JobOk(Run(r, es).jobs[id]);
    }
  }

  // ---------- Attempt fencing ----------

  /** One issue of a (job, attempt) pair to a worker. */
  datatype Grant = Grant(id: JobId, attempt: nat, worker: WorkerId)

  /** The worker of this grant holds its lease. */
  ghost predicate HoldsLease(r: Registry, g: Grant) {
    && g.id in r.jobs && r.jobs[g.id].status.Running? && r.jobs[g.id].lease.Some?
    && r.jobs[g.id].lease.value.attempt == g.attempt && r.jobs[g.id].lease.value.workerId == g.worker
  }

  ghost function NewGrant(r: Registry, e: Event): seq<Grant> {
    if e.ClaimJob? then
      match FirstClaimable(r, r.queues.InClaimOrder(), e.profile, e.pools)
      case Some(id) => [Grant(id, r.jobs[id].attempts + 1, e.profile.id)]
      case None => []
    else []
  }

  /** Every claim of a run, in order. */
  ghost function Claims(r: Registry, es: seq<Event>): seq<Grant> {
    if es == [] then []
    else Claims(r, es[..|es| - 1]) + NewGrant(Run(r, es[..|es| - 1]), es[|es| - 1])
  }

  ghost predicate Granted(r: Registry, es: seq<Event>, g: Grant) { HoldsLease(r, g) || g in Claims(r, es) }

  /** A granted attempt number is never above the count its job has reached. */
  ghost predicate Behind(p: Registry, g: Grant) {
    Issued(g.id, p.nextId) && (g.id in p.jobs ==> g.attempt <= p.jobs[g.id].attempts)
  }

  lemma BehindStays(p: Registry, e: Event, g: Grant)
    requires WellFormed(p) && Behind(p, g)
    ensures Behind(Apply(p, e), g)
  {
    IssuedStays(p, e, g.id);
    if g.id !in p.jobs {
      GoneStaysGone(p, e, g.id);
    } else if g.id in Apply(p, e).jobs {
      StepEvolves(p, e, g.id);
    }
  }

  lemma NewGrantIsNew(p: Registry, e: Event, g: Grant)
    requires WellFormed(p) && g in NewGrant(p, e)
    ensures g.id in p.jobs && g.attempt == p.jobs[g.id].attempts + 1
    ensures Behind(Apply(p, e), g)
  {
    assert Issued(g.id, p.nextId);
    IssuedStays(p, e, g.id);
    ApplyOnJob(p, e, g.id);
  }

  lemma {:induction false} GrantsBehind(r: Registry, es: seq<Event>, g: Grant)
    requires WellFormed(r) && Granted(r, es, g)
    ensures Behind(Run(r, es), g)
  {
    if es == [] {
      assert Issued(g.id, r.nextId);
      assert JobOk(r.jobs[g.id]);
    } else {
      var p, e := es[..|es| - 1], es[|es| - 1];
      RunKeepsWellFormed(r, p);
      if Granted(r, p, g) {
        GrantsBehind(r, p, g);
        BehindStays(Run(r, p), e, g);
      } else {
        NewGrantIsNew(Run(r, p), e, g);
      }
    }
  }

  /** No two of these grants, and none of them and a lease held at the start, share job and attempt. */
  ghost predicate IssuedOnce(r: Registry, c: seq<Grant>) {
    && (forall i, j :: 0 <= i < j < |c| ==> c[i].id != c[j].id || c[i].attempt != c[j].attempt)
    && (forall g, i :: HoldsLease(r, g) && 0 <= i < |c| ==> c[i].id != g.id || c[i].attempt != g.attempt)
  }

  lemma PushIssuedOnce(r: Registry, c: seq<Grant>, h: Grant)
    requires IssuedOnce(r, c)
    requires forall g :: HoldsLease(r, g) || g in c ==> g.id != h.id || g.attempt != h.attempt
    ensures IssuedOnce(r, c + [h])
  {
  }

  /** Each (job, attempt) pair is issued by at most one claim of a run, and none repeats a lease held at its start. */
  lemma {:induction false} AttemptIssuedOnce(r: Registry, es: seq<Event>)
    requires WellFormed(r)
    ensures IssuedOnce(r, Claims(r, es))
  {
    if es != [] {
      var p, e := es[..|es| - 1], es[|es| - 1];
      AttemptIssuedOnce(r, p);
      RunKeepsWellFormed(r, p);
      var before, added := Claims(r, p), NewGrant(Run(r, p), e);
      if added == [] {
        assert before + added == before;
      } else {
        var h := added[0];
        assert added == [h];
        forall g | HoldsLease(r, g) || g in before ensures g.id != h.id || g.attempt != h.attempt {
          GrantsBehind(r, p, g);
          NewGrantIsNew(Run(r, p), e, h);
        }
        PushIssuedOnce(r, before, h);
      }
    }
  }

  lemma SubmitStartsQueued(r: Registry, e: Event, id: JobId)
    requires WellFormed(r) && e.SubmitJob? && id !in r.jobs && id in Apply(r, e).jobs
    ensures Apply(r, e).jobs[id].status.Queued?
  {
  }

  /** Only a claim starts a job. */
  lemma JobAfterStarts(r: Registry, e: Event, id: JobId)
    requires id in r.jobs && !r.jobs[id].status.Running? && JobAfter(r, e, id).status.Running?
    ensures e.ClaimJob? && FirstClaimable(r, r.queues.InClaimOrder(), e.profile, e.pools) == Some(id)
    ensures JobAfter(r, e, id) == ClaimedBy(r.jobs[id], e.profile.id, e.now, e.duration)
  {
  }

  /** A lease in force after an event was in force before it, or the event granted it. */
  lemma LeaseStep(p: Registry, e: Event, g: Grant)
    requires WellFormed(p) && HoldsLease(Apply(p, e), g)
    ensures HoldsLease(p, g) || g in NewGrant(p, e)
  {
    ApplyOnJob(p, e, g.id);
    if g.id !in p.jobs {
      SubmitStartsQueued(p, e, g.id);
    } else if p.jobs[g.id].status.Running? {
      StepEvolves(p, e, g.id);
    } else {
      JobAfterStarts(p, e, g.id);
    }
  }

  /** Every lease in force is one that was granted. */
  lemma {:induction false} LeaseWasGranted(r: Registry, es: seq<Event>, g: Grant)
    requires WellFormed(r) && HoldsLease(Run(r, es), g)
    ensures Granted(r, es, g)
  {
    if es != [] {
      RunKeepsWellFormed(r, es[..|es| - 1]);
      LeaseStep(Run(r, es[..|es| - 1]), es[|es| - 1], g);
      if HoldsLease(Run(r, es[..|es| - 1]), g) {
        LeaseWasGranted(r, es[..|es| - 1], g);
      }
    }
  }

  /** The worker and attempt a completion or failure report speaks for. */
  ghost predicate Reports(e: Event, id: JobId, worker: WorkerId, attempt: Option<nat>, now: nat) {
    || (e.CompleteJob? && e.id == id && e.worker == worker && e.attempt == attempt && e.now == now)
    || (e.FailJob? && e.id == id && e.worker == worker && e.attempt == attempt && e.now == now)
  }

  lemma GrantsAgree(r: Registry, es: seq<Event>, g: Grant, h: Grant)
    requires WellFormed(r) && Granted(r, es, g) && Granted(r, es, h) && g.id == h.id && g.attempt == h.attempt
    ensures g == h
  {
    AttemptIssuedOnce(r, es);
    var c := Claims(r, es);
    assert HoldsLease(r, g) && HoldsLease(r, h) ==> g == h;
    if g in c && h in c {
      var i :| 0 <= i < |c| && c[i] == g;
      var j :| 0 <= j < |c| && c[j] == h;
    }
  }

  lemma ReportStep(p: Registry, e: Event, id: JobId, worker: WorkerId, a: nat, now: nat)
    requires WellFormed(p) && Reports(e, id, worker, Some(a), now) && Apply(p, e) != p
    ensures HoldsLease(p, Grant(id, a, worker)) && p.jobs[id].attempts == a && now < p.jobs[id].lease.value.expiresAt
  {
    if id in p.jobs {
      assert JobOk(p.jobs[id]);
    }
  }

  /**
   A report carrying attempt `a` changes anything only if `a` is the current attempt, was granted to the
   reporting worker and to no other, and its (possibly renewed) lease has not expired.
   */
  lemma AttemptFencing(r: Registry, es: seq<Event>, e: Event, id: JobId, worker: WorkerId, a: nat, now: nat)
    requires WellFormed(r) && Reports(e, id, worker, Some(a), now)
    requires Apply(Run(r, es), e) != Run(r, es)
    ensures var p := Run(r, es);
      && HoldsLease(p, Grant(id, a, worker)) && p.jobs[id].attempts == a
      && now < p.jobs[id].lease.value.expiresAt
      && Granted(r, es, Grant(id, a, worker))
      && (forall g :: Granted(r, es, g) && g.id == id && g.attempt == a ==> g.worker == worker)
  {
    RunKeepsWellFormed(r, es);
    ReportStep(Run(r, es), e, id, worker, a, now);
    LeaseWasGranted(r, es, Grant(id, a, worker));
    forall g | Granted(r, es, g) && g.id == id && g.attempt == a ensures g.worker == worker {
      GrantsAgree(r, es, g, Grant(id, a, worker));
    }
  }

  // ---------- Submission keys ----------

  /** A job keeps its identity and its request for as long as it is retained. */
  lemma {:induction false} RequestKept(r: Registry, es: seq<Event>, id: JobId)
    requires WellFormed(r) && id in r.jobs
    ensures id in Run(r, es).jobs ==>
      var j, j' := r.jobs[id], Run(r, es).jobs[id];
      j'.kind == j.kind && j'.payload == j.payload && j'.callbackUrl == j.callbackUrl && SamePlace(j, j')
  {
    if es != [] {
      var p, e := es[..|es| - 1], es[|es| - 1];
      RequestKept(r, p, id);
      RunKeepsWellFormed(r, p);
      assert Issued(id, r.nextId);
      RunIssued(r, p, id);
      if id !in Run(r, p).jobs {
        GoneStaysGone(Run(r, p), e, id);
      } else if id in Run(r, es).jobs {
        StepEvolves(Run(r, p), e, id);
      }
    }
  }

  /**
   At every later point of every run, whatever the job's status: while the job is retained its key answers
   for it, the same request gets it back and any other is rejected, nothing changing.
   */
  lemma SubmitIdempotent(r: Registry, id: JobId, es: seq<Event>, q: SubmitRequest, normal: SubmitRequest, now: nat)
    requires WellFormed(r) && id in r.jobs && r.jobs[id].key.Some?
    requires Normalize(q) == Ok(normal) && normal.key == r.jobs[id].key
    ensures var p := Run(r, es);
      id in p.jobs ==>
        && Submit(p, q, now) == (p, if SameRequest(r.jobs[id], normal) then Ok(p.jobs[id])
                                    else Err("idempotency_key already used for a different job request"))
        && (forall other :: other in p.jobs && p.jobs[other].key == r.jobs[id].key ==> other == id)
  {
    RunKeepsWellFormed(r, es);
    RequestKept(r, es, id);
  }

  /** An accepted keyed submission can be repeated at any later point: it returns its own job as it then is. */
  lemma ResubmissionReturnsTheJob(r: Registry, q: SubmitRequest, now: nat, es: seq<Event>, later: nat)
    requires WellFormed(r) && Normalize(q).Ok? && Normalize(q).value.key.Some? && Submit(r, q, now).1.Ok?
    ensures var (r1, reply) := Submit(r, q, now);
      var (id, p) := (reply.value.id, Run(r1, es));
      && id in r1.jobs && r1.jobs[id] == reply.value
      && (id in p.jobs ==> Submit(p, q, later) == (p, Ok(p.jobs[id])))
  {
    var (r1, reply) := Submit(r, q, now);
    SubmitKeepsWellFormed(r, q, now);
    var id := reply.value.id;
    assert id in r1.jobs && r1.jobs[id] == reply.value && SameRequest(reply.value, Normalize(q).value);
    SubmitIdempotent(r1, id, es, q, Normalize(q).value, later);
  }

  /** A key is free exactly when no retained job carries it; then a submission under it creates a new job. */
  lemma KeyFreeIffUnowned(p: Registry, q: SubmitRequest, normal: SubmitRequest, now: nat)
    requires WellFormed(p) && Normalize(q) == Ok(normal) && normal.key.Some?
    ensures (Submit(p, q, now).0 != p) <==> (forall id :: id in p.jobs ==> p.jobs[id].key != normal.key)
    ensures (forall id :: id in p.jobs ==> p.jobs[id].key != normal.key) ==>
      Submit(p, q, now).1 == Ok(NewJob(JobIdOf(p.nextId + 1), normal, now)) && JobIdOf(p.nextId + 1) !in p.jobs
  {
    NextIdFresh(p);
    if normal.key.value in p.keys {
      assert p.jobs[p.keys[normal.key.value]].key == normal.key;
    } else {
      assert Submit(p, q, now).0.nextId == p.nextId + 1;
    }
  }

  /** The n-th event of the run is a prune that takes this job. */
  ghost predicate PrunedAt(r: Registry, es: seq<Event>, id: JobId, n: nat) {
    n < |es| && PrunedBy(Run(r, es[..n]), es[n], id)
  }

  lemma PrunedAtPrefix(r: Registry, es: seq<Event>, id: JobId, n: nat)
    requires es != []
    ensures PrunedAt(r, es, id, n) <==>
            PrunedAt(r, es[..|es| - 1], id, n) || (n == |es| - 1 && PrunedBy(Run(r, es[..n]), es[n], id))
  {
    hide PrunedBy, Run;
    if n < |es| - 1 {
      assert es[..|es| - 1][..n] == es[..n];
    }
  }

  /** A retained job is gone from a run exactly when some prune of it took the job. */
  lemma {:induction false} GoneIffPruned(r: Registry, es: seq<Event>, id: JobId)
    requires WellFormed(r) && id in r.jobs
    ensures id !in Run(r, es).jobs <==> exists n: nat :: PrunedAt(r, es, id, n)
  {
    hide WellFormed, Apply, PrunedBy, PrunedAt;
    if es == [] {
      assert forall n: nat :: !PrunedAt(r, es, id, n) by {
        NeverPruned(r, id);
      }
    } else {
      var p, e := es[..|es| - 1], es[|es| - 1];
      GoneIffPruned(r, p, id);
      RunKeepsWellFormed(r, p);
      OneJobOk(r, id);
      RunIssued(r, p, id);
      forall n: nat ensures PrunedAt(r, es, id, n) <==>
          PrunedAt(r, p, id, n) || (n == |p| && PrunedBy(Run(r, p), e, id)) {
        PrunedAtPrefix(r, es, id, n);
      }
      if id in Run(r, p).jobs {
        ApplyOnJob(Run(r, p), e, id);
        assert PrunedAt(r, es, id, |p|) <==> PrunedBy(Run(r, p), e, id);
      } else {
        GoneStaysGone(Run(r, p), e, id);
        var n: nat :| PrunedAt(r, p, id, n);
        assert PrunedAt(r, es, id, n);
      }
    }
  }

  lemma NeverPruned(r: Registry, id: JobId)
    ensures forall n: nat :: !PrunedAt(r, [], id, n)
  {
  }

  /**
   A key becomes usable again exactly when its job is pruned: at any later point of any run, if nothing was submitted
   under it since, a submission under it creates a job if and only if some prune has taken the old one.
   */
  lemma KeyReusableIffPruned(r: Registry, es: seq<Event>, id: JobId, q: SubmitRequest, now: nat)
    requires WellFormed(r) && id in r.jobs && r.jobs[id].key.Some?
    requires Normalize(q).Ok? && Normalize(q).value.key == r.jobs[id].key
    requires forall e :: e in es ==> !SubmitsUnder(e, r.jobs[id].key)
    ensures (Submit(Run(r, es), q, now).0 != Run(r, es)) <==>
            exists n: nat :: PrunedAt(r, es, id, n)
  {
    hide PrunedAt;
    RunKeepsWellFormed(r, es);
    GoneIffPruned(r, es, id);
    KeyFreeIffUnowned(Run(r, es), q, Normalize(q).value, now);
    OnlyOwner(r, es, id);
    RequestKept(r, es, id);
  }

  predicate SubmitsUnder(e: Event, key: Option<string>) {
    e.SubmitJob? && Normalize(e.request).Ok? && Normalize(e.request).value.key == key
  }

  lemma OwnerStep(p: Registry, e: Event, other: JobId, key: Option<string>)
    requires WellFormed(p) && key.Some? && !SubmitsUnder(e, key)
    requires other in Apply(p, e).jobs && Apply(p, e).jobs[other].key == key
    ensures other in p.jobs && p.jobs[other].key == key
  {
    ApplyOnJob(p, e, other);
    if other in p.jobs {
      StepEvolves(p, e, other);
    } else {
      NextIdFresh(p);
      hide WellFormed, Apply;
      NewJobCarriesKey(p, e, other);
    }
  }

  lemma NewJobCarriesKey(p: Registry, e: Event, id: JobId)
    requires e.SubmitJob? && id !in p.jobs && id in Apply(p, e).jobs
    ensures SubmitsUnder(e, Apply(p, e).jobs[id].key)
  {
  }

  /** Without a further submission under its key, no other job comes to carry it. */
  lemma {:induction false} OnlyOwner(r: Registry, es: seq<Event>, id: JobId)
    requires WellFormed(r) && id in r.jobs && r.jobs[id].key.Some?
    requires forall e :: e in es ==> !SubmitsUnder(e, r.jobs[id].key)
    ensures forall other :: other in Run(r, es).jobs && Run(r, es).jobs[other].key == r.jobs[id].key ==> other == id
  {
    if es == [] {
      assert KeysOk(r);
    } else {
      var p, e := es[..|es| - 1], es[|es| - 1];
      OnlyOwner(r, p, id);
      RunKeepsWellFormed(r, p);
      assert e in es;
      forall other | other in Run(r, es).jobs && Run(r, es).jobs[other].key == r.jobs[id].key ensures other == id {
        OwnerStep(Run(r, p), e, other, r.jobs[id].key);
      }
    }
  }

  // ---------- Callback retention ----------

  /** `Delivered` is absorbing. */
  lemma {:induction false} DeliveredForever(r: Registry, es: seq<Event>, id: JobId)
    requires WellFormed(r) && id in r.jobs
    requires r.jobs[id].callback.Some? && r.jobs[id].callback.value.status.Delivered?
    ensures id in Run(r, es).jobs ==>
      Run(r, es).jobs[id].callback.Some? && Run(r, es).jobs[id].callback.value.status.Delivered?
  {
    if es != [] {
      var p, e := es[..|es| - 1], es[|es| - 1];
      DeliveredForever(r, p, id);
      RunKeepsWellFormed(r, p);
      assert Issued(id, r.nextId);
      RunIssued(r, p, id);
      if id !in Run(r, p).jobs {
        GoneStaysGone(Run(r, p), e, id);
      } else if id in Run(r, es).jobs {
        StepEvolves(Run(r, p), e, id);
      }
    }
  }

  /** A terminal job with a URL is always either delivered or listed for delivery; no other job has callback state. */
  lemma CallbackStateExact(r: Registry, es: seq<Event>, id: JobId)
    requires WellFormed(r) && id in Run(r, es).jobs
    ensures var p := Run(r, es); var j := p.jobs[id];
      && (j.callback.Some? <==> j.status.Terminal() && j.callbackUrl.Some?)
      && (id in PendingCallbacks(p) <==> j.status.Terminal() && HasPendingCallback(j))
  {
    RunKeepsWellFormed(r, es);
    assert JobOk(Run(r, es).jobs[id]);
  }

  lemma UndeliveredStep(p: Registry, e: Event, id: JobId)
    requires WellFormed(p) && id in p.jobs && AwaitsDelivery(p.jobs[id])
    requires !(e.RecordCallbackSuccess? && e.id == id)
    ensures id in Apply(p, e).jobs && AwaitsDelivery(Apply(p, e).jobs[id])
  {
    ApplyOnJob(p, e, id);
  }

  /**
   An undelivered callback keeps its job retained and listed, through every prune, until a success is recorded for
   it.
   */
  lemma {:induction false} UndeliveredIsRetained(r: Registry, es: seq<Event>, id: JobId)
    requires WellFormed(r) && id in r.jobs && AwaitsDelivery(r.jobs[id])
    requires forall e :: e in es ==> !(e.RecordCallbackSuccess? && e.id == id)
    ensures id in Run(r, es).jobs && AwaitsDelivery(Run(r, es).jobs[id])
    ensures id in PendingCallbacks(Run(r, es))
  {
    RunKeepsWellFormed(r, es);
    if es != [] {
      var p, e := es[..|es| - 1], es[|es| - 1];
      UndeliveredIsRetained(r, p, id);
      RunKeepsWellFormed(r, p);
      assert e in es;
      UndeliveredStep(Run(r, p), e, id);
    }
  }
}
