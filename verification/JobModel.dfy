/**
 The job registry as a value: records, queues, and what each operation of
 src/jobs.rs makes of them. The class in JobRegistry.dfy updates its fields in
 place and is proved to compute these functions.
 */
module JobModel {
  import opened Collections
  import opened JobIds

  type WorkerId = string

  /** A JSON document, compared only for equality. */
  type Json = string

  const ATTEMPT_TIMEOUT_ERROR := "attempt timed out"
  const MAX_ATTEMPTS: nat := 3
  const MAX_KEY_BYTES: nat := 256

  datatype JobKind = VisionAnalysis | EmbedBatch | IndexBuild | Cluster {
    function Name(): string {
      match this
      case VisionAnalysis => "vision_analysis"
      case EmbedBatch => "embed_batch"
      case IndexBuild => "index_build"
      case Cluster => "cluster"
    }
  }

  datatype Priority = Realtime | Batch | Background

  datatype JobStatus = Queued | Running | Complete | Failed | Cancelled {
    predicate Terminal() { Complete? || Failed? || Cancelled? }
  }

  datatype Failure = Failure(message: string, retryable: bool)

  datatype Lease = Lease(workerId: WorkerId, attempt: nat, claimedAt: nat, expiresAt: nat)

  datatype TerminalAttempt = TerminalAttempt(workerId: WorkerId, attempt: nat)

  datatype CallbackStatus = Pending | Delivered

  datatype CallbackState = CallbackState(
    status: CallbackStatus, attempts: nat, lastAttemptAt: Option<nat>,
    deliveredAt: Option<nat>, lastHttpStatus: Option<nat>, lastError: Option<string>)

  datatype Job = Job(
    id: JobId, kind: JobKind, priority: Priority, status: JobStatus, payload: Json,
    callbackUrl: Option<string>, key: Option<string>, result: Option<Json>, error: Option<Failure>,
    callback: Option<CallbackState>, attempts: nat, maxAttempts: nat, lease: Option<Lease>,
    terminalAttempt: Option<TerminalAttempt>, createdAt: nat, updatedAt: nat)

  datatype SubmitRequest = SubmitRequest(
    kind: JobKind, priority: Priority, payload: Json, callbackUrl: Option<string>, key: Option<string>)

  datatype RetentionPolicy = RetentionPolicy(terminalRetention: nat, maxPruned: nat)

  /** Which pools each workload may use; a workload without an entry may use any. */
  type PoolPolicy = map<string, seq<string>>

  predicate Allows(pools: PoolPolicy, workload: string, pool: string) {
    workload in pools ==> pool in pools[workload]
  }

  /** What a claim needs to know of a worker. */
  datatype WorkerProfile = WorkerProfile(id: WorkerId, jobTypes: seq<JobKind>, pool: string)

  datatype Queues = Queues(realtime: seq<JobId>, batch: seq<JobId>, background: seq<JobId>) {
    function Of(p: Priority): seq<JobId> {
      match p
      case Realtime => realtime
      case Batch => batch
      case Background => background
    }

    function With(p: Priority, q: seq<JobId>): Queues {
      match p
      case Realtime => this.(realtime := q)
      case Batch => this.(batch := q)
      case Background => this.(background := q)
    }

    function Push(p: Priority, id: JobId): Queues { With(p, Of(p) + [id]) }

    function Remove(p: Priority, id: JobId): Queues { With(p, RemoveFirst(Of(p), id)) }

    /** Every queued id: realtime first, each queue oldest first. */
    function InClaimOrder(): seq<JobId> { realtime + batch + background }
  }

  datatype Registry = Registry(
    nextId: nat, jobs: map<JobId, Job>, keys: map<string, JobId>, order: seq<JobId>, queues: Queues)

  const EMPTY := Registry(0, map[], map[], [], Queues([], [], []))

  // ---------- Request text ----------

  /** The Unicode White_Space code points, which `str::trim` removes at both ends. */
  predicate IsWhitespace(c: char) {
    var n := c as int;
    0x9 <= n <= 0xD || n in {0x20, 0x85, 0xA0, 0x1680, 0x2028, 0x2029, 0x202F, 0x205F, 0x3000} || 0x2000 <= n <= 0x200A
  }

  function TrimStart(s: string): string {
    if s != "" && IsWhitespace(s[0]) then TrimStart(s[1..]) else s
  }

  function TrimEnd(s: string): string {
    if s != "" && IsWhitespace(s[|s| - 1]) then TrimEnd(s[..|s| - 1]) else s
  }

  function Trim(s: string): string { TrimEnd(TrimStart(s)) }

  function Utf8Length(s: string): nat {
    if s == "" then 0
    else
      var n := s[0] as int;
      (if n < 0x80 then 1 else if n < 0x800 then 2 else if n < 0x1_0000 then 3 else 4) + Utf8Length(s[1..])
  }

  function NormalizeCallbackUrl(url: Option<string>): Result<Option<string>> {
    if url.None? then Ok(None)
    else if Trim(url.value) == "" then Err("callback_url cannot be empty")
    else Ok(Some(Trim(url.value)))
  }

  function NormalizeKey(key: Option<string>): Result<Option<string>> {
    if key.None? then Ok(None)
    else
      var trimmed := Trim(key.value);
      if trimmed == "" then Err("idempotency_key cannot be empty")
      else if Utf8Length(trimmed) > MAX_KEY_BYTES then Err("idempotency_key cannot exceed 256 bytes")
      else Ok(Some(trimmed))
  }

  /** The request with its URL and key trimmed, or the first complaint about them. */
  function Normalize(q: SubmitRequest): Result<SubmitRequest> {
    match NormalizeCallbackUrl(q.callbackUrl)
    case Err(m) => Err(m)
    case Ok(url) =>
      match NormalizeKey(q.key)
      case Err(m) => Err(m)
      case Ok(key) => Ok(q.(callbackUrl := url, key := key))
  }

  // ---------- One job ----------

  function NewJob(id: JobId, q: SubmitRequest, now: nat): Job {
    Job(id, q.kind, q.priority, Queued, q.payload, q.callbackUrl, q.key,
        None, None, None, 0, MAX_ATTEMPTS, None, None, now, now)
  }

  predicate SameRequest(j: Job, q: SubmitRequest) {
    j.kind == q.kind && j.priority == q.priority && j.payload == q.payload && j.callbackUrl == q.callbackUrl
  }

  predicate Claimable(j: Job, w: WorkerProfile, pools: PoolPolicy) {
    j.status.Queued? && j.kind in w.jobTypes && Allows(pools, j.kind.Name(), w.pool)
  }

  function ClaimedBy(j: Job, worker: WorkerId, now: nat, duration: nat): Job {
    j.(status := Running, attempts := j.attempts + 1, result := None, terminalAttempt := None,
       lease := Some(Lease(worker, j.attempts + 1, now, now + duration)), updatedAt := now)
  }

  /** The job is running under a lease of this worker, this attempt if one is named, not yet expired. */
  predicate LiveLease(j: Job, worker: WorkerId, attempt: Option<nat>, now: nat) {
    && j.status.Running?
    && j.lease.Some?
    && j.lease.value.workerId == worker
    && (attempt.Some? ==> attempt.value == j.lease.value.attempt)
    && now < j.lease.value.expiresAt
  }

  function Renewed(j: Job, now: nat, duration: nat): Job
    requires j.lease.Some?
  {
    j.(lease := Some(j.lease.value.(expiresAt := now + duration)), updatedAt := now)
  }

  const FRESH_CALLBACK := CallbackState(Pending, 0, None, None, None, None)

  function PrepareCallback(j: Job): Job {
    if j.callbackUrl.None? || !j.status.Terminal() then j
    else if j.callback.Some? && j.callback.value.status.Delivered? then j
    else
      var c := if j.callback.Some? then j.callback.value else FRESH_CALLBACK;
      j.(callback := Some(c.(status := Pending, deliveredAt := None, lastError := None, lastHttpStatus := None)))
  }

  function Completed(j: Job, worker: WorkerId, result: Json, now: nat): Job
    requires j.lease.Some?
  {
    PrepareCallback(j.(status := Complete, result := Some(result), error := None, lease := None,
                       terminalAttempt := Some(TerminalAttempt(worker, j.lease.value.attempt)), updatedAt := now))
  }

  predicate Retries(j: Job, retryable: bool) { retryable && j.attempts < j.maxAttempts }

  function FailedBy(j: Job, worker: WorkerId, failure: Failure, now: nat): Job
    requires j.lease.Some?
  {
    var base := j.(result := None, error := Some(failure), lease := None, updatedAt := now);
    if Retries(j, failure.retryable) then base.(status := Queued, terminalAttempt := None)
    else PrepareCallback(base.(status := Failed,
                               terminalAttempt := Some(TerminalAttempt(worker, j.lease.value.attempt))))
  }

  function CancelledAt(j: Job, now: nat): Job {
    PrepareCallback(j.(status := Cancelled, updatedAt := now, terminalAttempt := None))
  }

  predicate IsExpired(j: Job, now: nat) {
    j.status.Running? && j.lease.Some? && j.lease.value.expiresAt <= now
  }

  /** The job after an expiry sweep at `now`. */
  function Swept(j: Job, now: nat): Job {
    if !IsExpired(j, now) then j
    else
      var retryable := Retries(j, true);
      var base := j.(result := None, error := Some(Failure(ATTEMPT_TIMEOUT_ERROR, retryable)),
                     lease := None, updatedAt := now);
      if retryable then base.(status := Queued) else PrepareCallback(base.(status := Failed))
  }

  predicate TerminalAttemptMatches(j: Job, worker: WorkerId, attempt: Option<nat>) {
    attempt.Some? && j.terminalAttempt == Some(TerminalAttempt(worker, attempt.value))
  }

  predicate HasPendingCallback(j: Job) {
    j.callbackUrl.Some? && !(j.callback.Some? && j.callback.value.status.Delivered?)
  }

  /** Terminal for at least the retention time. */
  predicate Aged(j: Job, policy: RetentionPolicy, now: nat) {
    j.status.Terminal() && policy.terminalRetention <= SaturatingSub(now, j.updatedAt)
  }

  predicate Prunable(j: Job, policy: RetentionPolicy, now: nat) {
    Aged(j, policy, now) && !HasPendingCallback(j)
  }

  /** Terminal, with a URL, and its callback still to be delivered. */
  predicate AwaitsDelivery(j: Job) {
    j.callbackUrl.Some? && j.status.Terminal() && j.callback.Some? && j.callback.value.status.Pending?
  }

  // ---------- Replies ----------

  datatype RenewReply = LeaseRenewed(job: Job) | RenewNotRunning(job: Job) | RenewLeaseNotHeld(job: Job)
                      | RenewExpired(job: Job) | RenewNotFound

  datatype FinishReply = JobCompleted(job: Job) | IdempotentCompleted(job: Job) | JobRequeued(job: Job)
                       | JobFailed(job: Job) | IdempotentFailed(job: Job) | NotRunning(job: Job)
                       | LeaseNotHeld(job: Job) | LeaseExpired(job: Job) | NotFound

  datatype CancelReply = JobCancelled(job: Job) | AlreadyTerminal(job: Job) | CancelNotFound

  datatype SweepReport = SweepReport(
    requeued: nat, failed: nat, releasedWorkers: seq<WorkerId>, failedJobs: seq<Job>)

  datatype StatusCount = StatusCount(status: JobStatus, removed: nat)

  datatype PruneReport = PruneReport(removed: nat, retainedPendingCallbacks: nat, byStatus: seq<StatusCount>)

  // ---------- Registry operations ----------

  /** Submission of a normalized request. */
  function SubmitNormalized(r: Registry, q: SubmitRequest, now: nat): (Registry, Result<Job>) {
    if q.key.Some? && q.key.value in r.keys && r.keys[q.key.value] in r.jobs then
      var existing := r.jobs[r.keys[q.key.value]];
      (r, if SameRequest(existing, q) then Ok(existing)
          else Err("idempotency_key already used for a different job request"))
    else
      var job := NewJob(JobIdOf(r.nextId + 1), q, now);
      (Registry(r.nextId + 1, r.jobs[job.id := job],
                if q.key.Some? then r.keys[q.key.value := job.id] else r.keys,
                r.order + [job.id], r.queues.Push(job.priority, job.id)), Ok(job))
  }

  function Submit(r: Registry, q: SubmitRequest, now: nat): (Registry, Result<Job>) {
    match Normalize(q)
    case Err(m) => (r, Err(m))
    case Ok(normal) => SubmitNormalized(r, normal, now)
  }

  /** The first id, in the given order, whose job this worker may claim. */
  function FirstClaimable(r: Registry, ids: seq<JobId>, w: WorkerProfile, pools: PoolPolicy): (found: Option<JobId>)
    ensures found.Some? ==> found.value in r.jobs && Claimable(r.jobs[found.value], w, pools)
  {
    if ids == [] then None
    else if ids[0] in r.jobs && Claimable(r.jobs[ids[0]], w, pools) then Some(ids[0])
    else FirstClaimable(r, ids[1..], w, pools)
  }

  lemma {:induction false} FirstClaimableIs(r: Registry, ids: seq<JobId>, w: WorkerProfile, pools: PoolPolicy)
    ensures var found := FirstClaimable(r, ids, w, pools);
      && (found.None? ==> forall id :: id in ids && id in r.jobs ==> !Claimable(r.jobs[id], w, pools))
      && (found.Some? ==> found.value in ids)
      && (found.Some? ==>
            forall k :: 0 <= k < IndexOf(ids, found.value) ==>
                !(ids[k] in r.jobs && Claimable(r.jobs[ids[k]], w, pools)))
  {
    if ids != [] && !(ids[0] in r.jobs && Claimable(r.jobs[ids[0]], w, pools)) {
      FirstClaimableIs(r, ids[1..], w, pools);
      var found := FirstClaimable(r, ids, w, pools);
      if found.Some? {
        forall k | 0 <= k < IndexOf(ids, found.value)
          ensures !(ids[k] in r.jobs && Claimable(r.jobs[ids[k]], w, pools))
        {
          assert k > 0 ==> ids[k] == ids[1..][k - 1];
        }
      }
    }
  }

  function Claim(r: Registry, w: WorkerProfile, pools: PoolPolicy, now: nat, duration: nat): (Registry, Option<Job>) {
    match FirstClaimable(r, r.queues.InClaimOrder(), w, pools)
    case None => (r, None)
    case Some(id) =>
      var job := ClaimedBy(r.jobs[id], w.id, now, duration);
      (r.(jobs := r.jobs[id := job], queues := r.queues.Remove(job.priority, id)), Some(job))
  }

  function RenewLease(r: Registry, id: JobId, worker: WorkerId, now: nat, duration: nat): (Registry, RenewReply) {
    if id !in r.jobs then (r, RenewNotFound)
    else
      var job := r.jobs[id];
      if LiveLease(job, worker, None, now) then
        var renewed := Renewed(job, now, duration);
        (r.(jobs := r.jobs[id := renewed]), LeaseRenewed(renewed))
      else if !job.status.Running? || job.lease.None? then (r, RenewNotRunning(job))
      else if job.lease.value.workerId != worker then (r, RenewLeaseNotHeld(job))
      else (r, RenewExpired(job))
  }

  /** Why a report on a job that is not under a live lease of this reporter is refused. */
  function Refusal(job: Job, worker: WorkerId, attempt: Option<nat>): FinishReply {
    if !job.status.Running? || job.lease.None? then NotRunning(job)
    else if job.lease.value.workerId != worker then LeaseNotHeld(job)
    else if attempt.Some? && attempt.value != job.lease.value.attempt then LeaseNotHeld(job)
    else LeaseExpired(job)
  }

  function CompleteLease(
    r: Registry, id: JobId, worker: WorkerId, attempt: Option<nat>, result: Json, now: nat): (Registry, FinishReply)
  {
    if id !in r.jobs then (r, NotFound)
    else
      var job := r.jobs[id];
      if LiveLease(job, worker, attempt, now) then
        var done := Completed(job, worker, result, now);
        (r.(jobs := r.jobs[id := done]), JobCompleted(done))
      else if job.status.Complete? && TerminalAttemptMatches(job, worker, attempt) && job.result == Some(result) then
        (r, IdempotentCompleted(job))
      else (r, Refusal(job, worker, attempt))
  }

  function FailLease(
    r: Registry, id: JobId, worker: WorkerId, attempt: Option<nat>, failure: Failure, now: nat): (Registry, FinishReply)
  {
    if id !in r.jobs then (r, NotFound)
    else
      var job := r.jobs[id];
      if LiveLease(job, worker, attempt, now) then
        var done := FailedBy(job, worker, failure, now);
        if Retries(job, failure.retryable) then
          (r.(jobs := r.jobs[id := done], queues := r.queues.Push(job.priority, id)), JobRequeued(done))
        else (r.(jobs := r.jobs[id := done]), JobFailed(done))
      else if job.status.Failed? && TerminalAttemptMatches(job, worker, attempt) && job.error == Some(failure) then
        (r, IdempotentFailed(job))
      else (r, Refusal(job, worker, attempt))
  }

  function Cancel(r: Registry, id: JobId, now: nat): (Registry, CancelReply) {
    if id !in r.jobs then (r, CancelNotFound)
    else if r.jobs[id].status.Terminal() then (r, AlreadyTerminal(r.jobs[id]))
    else
      var job := CancelledAt(r.jobs[id], now);
      (r.(jobs := r.jobs[id := job], queues := r.queues.Remove(job.priority, id)), JobCancelled(job))
  }

  // Tests on ids, named so that equal arguments give equal filters.

  function ExpiredTest(jobs: map<JobId, Job>, now: nat): JobId -> bool {
    id => id in jobs && IsExpired(jobs[id], now)
  }

  function RequeueTest(jobs: map<JobId, Job>, now: nat): JobId -> bool {
    id => id in jobs && IsExpired(jobs[id], now) && Retries(jobs[id], true)
  }

  function TimeoutTest(jobs: map<JobId, Job>, now: nat): JobId -> bool {
    id => id in jobs && IsExpired(jobs[id], now) && !Retries(jobs[id], true)
  }

  function PriorityTest(jobs: map<JobId, Job>, p: Priority): JobId -> bool {
    id => id in jobs && jobs[id].priority == p
  }

  function PruneTest(jobs: map<JobId, Job>, policy: RetentionPolicy, now: nat): JobId -> bool {
    id => id in jobs && Prunable(jobs[id], policy, now)
  }

  function PendingTest(jobs: map<JobId, Job>, policy: RetentionPolicy, now: nat): JobId -> bool {
    id => id in jobs && Aged(jobs[id], policy, now) && HasPendingCallback(jobs[id])
  }

  function StatusTest(jobs: map<JobId, Job>, status: JobStatus): JobId -> bool {
    id => id in jobs && jobs[id].status == status
  }

  function RetainedTest(jobs: map<JobId, Job>): JobId -> bool { id => id in jobs }

  function DeliveryTest(jobs: map<JobId, Job>): JobId -> bool {
    id => id in jobs && AwaitsDelivery(jobs[id])
  }

  /** The workers holding the leases of these jobs, in order. */
  function Holders(jobs: map<JobId, Job>, ids: seq<JobId>): seq<WorkerId>
    requires forall id :: id in ids ==> id in jobs && jobs[id].lease.Some?
  {
    seq(|ids|, i requires 0 <= i < |ids| => assert ids[i] in ids; jobs[ids[i]].lease.value.workerId)
  }

  function Records(jobs: map<JobId, Job>, ids: seq<JobId>): seq<Job>
    requires forall id :: id in ids ==> id in jobs
  {
    seq(|ids|, i requires 0 <= i < |ids| => assert ids[i] in ids; jobs[ids[i]])
  }

  function SweptJobs(jobs: map<JobId, Job>, now: nat): map<JobId, Job> {
    map id | id in jobs :: Swept(jobs[id], now)
  }

  function RequeuedIn(r: Registry, now: nat, p: Priority): seq<JobId> {
    Filter(Filter(r.order, RequeueTest(r.jobs, now)), PriorityTest(r.jobs, p))
  }

  /** One expiry sweep: every expired running job, and no other, gives up its lease. */
  function Sweep(r: Registry, now: nat): (Registry, SweepReport) {
    var jobs := SweptJobs(r.jobs, now);
    (r.(jobs := jobs,
        queues := Queues(r.queues.realtime + RequeuedIn(r, now, Realtime),
                         r.queues.batch + RequeuedIn(r, now, Batch),
                         r.queues.background + RequeuedIn(r, now, Background))),
     SweepReport(|Filter(r.order, RequeueTest(r.jobs, now))|,
                 |Filter(r.order, TimeoutTest(r.jobs, now))|,
                 Holders(r.jobs, Filter(r.order, ExpiredTest(r.jobs, now))),
                 Records(jobs, Filter(r.order, TimeoutTest(r.jobs, now)))))
  }

  /** The first `maxPruned` prunable ids in submission order. */
  function Victims(r: Registry, policy: RetentionPolicy, now: nat): seq<JobId> {
    Take(Filter(r.order, PruneTest(r.jobs, policy, now)), policy.maxPruned)
  }

  /** How far into the submission order one prune looks before its limit stops it. */
  function ScanEnd(r: Registry, policy: RetentionPolicy, now: nat, i: nat): (n: nat)
    requires i <= |r.order|
    ensures i <= n <= |r.order|
    decreases |r.order| - i
  {
    if i < |r.order| && |Filter(r.order[..i], PruneTest(r.jobs, policy, now))| < policy.maxPruned
    then ScanEnd(r, policy, now, i + 1) else i
  }

  function CountOf(counts: map<JobStatus, nat>, s: JobStatus): nat { if s in counts then counts[s] else 0 }

  /** How many of these jobs have each status; a status none of them has is absent. */
  function StatusCounts(jobs: map<JobId, Job>, ids: seq<JobId>): map<JobStatus, nat> {
    if ids == [] then map[]
    else
      var last, before := ids[|ids| - 1], StatusCounts(jobs, ids[..|ids| - 1]);
      if last in jobs then before[jobs[last].status := CountOf(before, jobs[last].status) + 1] else before
  }

  const ALL_STATUSES := [Queued, Running, Complete, Failed, Cancelled]

  function StatusRank(s: JobStatus): nat {
    match s
    case Queued => 0
    case Running => 1
    case Complete => 2
    case Failed => 3
    case Cancelled => 4
  }

  /** The counts there are, in the order of these statuses. */
  function CountsInOrder(statuses: seq<JobStatus>, counts: map<JobStatus, nat>): seq<StatusCount> {
    if statuses == [] then []
    else
      var last := statuses[|statuses| - 1];
      CountsInOrder(statuses[..|statuses| - 1], counts)
      + if last in counts then [StatusCount(last, counts[last])] else []
  }

  function JobsWithout(jobs: map<JobId, Job>, ids: seq<JobId>): map<JobId, Job> {
    map id | id in jobs && id !in ids :: jobs[id]
  }

  function KeysWithout(keys: map<string, JobId>, ids: seq<JobId>): map<string, JobId> {
    map k | k in keys && keys[k] !in ids :: keys[k]
  }

  function Prune(r: Registry, policy: RetentionPolicy, now: nat): (Registry, PruneReport) {
    var victims := Victims(r, policy, now);
    var jobs := JobsWithout(r.jobs, victims);
    (r.(jobs := jobs,
        keys := KeysWithout(r.keys, victims),
        order := Filter(r.order, RetainedTest(jobs))),
     PruneReport(|victims|, |Filter(r.order[..ScanEnd(r, policy, now, 0)], PendingTest(r.jobs, policy, now))|,
                 CountsInOrder(ALL_STATUSES, StatusCounts(r.jobs, victims))))
  }

  // ---------- Callback state ----------

  function Begun(j: Job, now: nat): Job
    requires j.callback.Some?
  {
    var c := j.callback.value;
    j.(callback := Some(c.(attempts := c.attempts + 1, lastAttemptAt := Some(now))))
  }

  function DeliveredJob(j: Job, http: nat, now: nat): Job
    requires j.callback.Some?
  {
    j.(callback := Some(j.callback.value.(
       status := Delivered, deliveredAt := Some(now), lastHttpStatus := Some(http), lastError := None)))
  }

  function UndeliveredJob(j: Job, http: Option<nat>, error: Option<string>): Job
    requires j.callback.Some?
  {
    j.(callback := Some(j.callback.value.(lastHttpStatus := http, lastError := error)))
  }

  function BeginCallback(r: Registry, id: JobId, now: nat): (Registry, Option<Job>) {
    if id !in r.jobs || !AwaitsDelivery(r.jobs[id]) then (r, None)
    else
      var job := Begun(r.jobs[id], now);
      (r.(jobs := r.jobs[id := job]), Some(job))
  }

  function CallbackSucceeded(r: Registry, id: JobId, http: nat, now: nat): (Registry, Option<Job>) {
    if id !in r.jobs || r.jobs[id].callback.None? then (r, None)
    else
      var job := DeliveredJob(r.jobs[id], http, now);
      (r.(jobs := r.jobs[id := job]), Some(job))
  }

  function CallbackFailed(r: Registry, id: JobId, http: Option<nat>, error: Option<string>): (Registry, Option<Job>) {
    if id !in r.jobs || r.jobs[id].callback.None? || !r.jobs[id].callback.value.status.Pending? then (r, None)
    else
      var job := UndeliveredJob(r.jobs[id], http, error);
      (r.(jobs := r.jobs[id := job]), Some(job))
  }

  /** The jobs a callback recovery pass dispatches. */
  function PendingCallbacks(r: Registry): seq<JobId> { Filter(r.order, DeliveryTest(r.jobs)) }
}
