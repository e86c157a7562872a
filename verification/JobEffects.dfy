/**
 What each registry operation does, said in the fields of its records and of the registry: when it takes effect, what
 it then changes, what it answers, and that nothing else moves.
 */
module JobEffects {
  import opened Collections
  import opened JobIds
  import opened JobModel
  import opened JobInvariant
  import opened JobExactness

  // ---------- Claim ----------

  lemma PlaceInLine(r: Registry, id: JobId)
    requires WellFormed(r) && id in r.jobs && r.jobs[id].status.Queued?
    ensures id in r.queues.Of(r.jobs[id].priority) && id in r.queues.InClaimOrder()
    ensures var i := IndexOf(r.queues.Of(r.jobs[id].priority), id);
      IndexOf(r.queues.InClaimOrder(), id) ==
      match r.jobs[id].priority
      case Realtime => i
      case Batch => |r.queues.realtime| + i
      case Background => |r.queues.realtime| + |r.queues.batch| + i
  {
    hide WellFormed, IndexOf;
    var a, b, c := r.queues.realtime, r.queues.batch, r.queues.background;
    OwnQueueOnly(r, id);
    match r.jobs[id].priority
    case Realtime =>
      FirstInConcat([], a, b + c, id);
      assert [] + a + (b + c) == a + b + c;
    case Batch => FirstInConcat(a, b, c, id);
    case Background =>
      FirstInConcat(a + b, c, [], id);
      assert (a + b) + c + [] == a + b + c;
  }

  /** `other` is not more urgent than `id`, and not before it in the queue they share. */
  ghost predicate NotAhead(r: Registry, other: JobId, id: JobId) {
    && other in r.jobs && id in r.jobs
    && (r.jobs[other].priority == Realtime ==> r.jobs[id].priority == Realtime)
    && (r.jobs[other].priority == Batch ==> r.jobs[id].priority != Background)
    && (other != id && r.jobs[other].priority == r.jobs[id].priority ==>
          && id in r.queues.Of(r.jobs[id].priority) && other in r.queues.Of(r.jobs[id].priority)
          && IndexOf(r.queues.Of(r.jobs[id].priority), id) < IndexOf(r.queues.Of(r.jobs[id].priority), other))
  }

  lemma LaterInLine(r: Registry, other: JobId, id: JobId)
    requires WellFormed(r)
    requires id in r.jobs && r.jobs[id].status.Queued? && other in r.jobs && r.jobs[other].status.Queued?
    requires var line := r.queues.InClaimOrder();
      id in line && other in line && IndexOf(line, id) <= IndexOf(line, other)
    ensures NotAhead(r, other, id)
  {
    hide WellFormed, IndexOf;
    PlaceInLine(r, id);
    PlaceInLine(r, other);
    var line := r.queues.InClaimOrder();
    assert line[IndexOf(line, other)] == other && line[IndexOf(line, id)] == id;
  }

  /**
   A claim finds nothing exactly when no queued job is of a kind and pool the worker may take. Otherwise it takes such
   a job: none such is more urgent, and none such stands before it in its own queue.
   */
  lemma ClaimChoice(r: Registry, w: WorkerProfile, pools: PoolPolicy, now: nat, duration: nat)
    requires WellFormed(r)
    ensures Claim(r, w, pools, now, duration).1.None? <==>
            forall id :: id in r.jobs && r.jobs[id].status == Queued && r.jobs[id].kind in w.jobTypes ==>
              r.jobs[id].kind.Name() in pools && w.pool !in pools[r.jobs[id].kind.Name()]
    ensures var claimed := Claim(r, w, pools, now, duration).1;
      claimed.Some? ==>
        var id := claimed.value.id;
        && id in r.jobs && r.jobs[id].status == Queued && r.jobs[id].kind in w.jobTypes
        && (r.jobs[id].kind.Name() in pools ==> w.pool in pools[r.jobs[id].kind.Name()])
        && id in r.queues.Of(r.jobs[id].priority)
        && (forall other ::
              && other in r.jobs && r.jobs[other].status == Queued && r.jobs[other].kind in w.jobTypes
              && (r.jobs[other].kind.Name() in pools ==> w.pool in pools[r.jobs[other].kind.Name()]) ==>
                var queue := r.queues.Of(r.jobs[id].priority);
                && (r.jobs[other].priority == Realtime ==> r.jobs[id].priority == Realtime)
                && (r.jobs[other].priority == Batch ==> r.jobs[id].priority != Background)
                && (other != id && r.jobs[other].priority == r.jobs[id].priority ==>
                      other in queue && IndexOf(queue, id) < IndexOf(queue, other)))
  {
    hide WellFormed, Claim, IndexOf, Queues.InClaimOrder;
    ClaimTakesTheFirst(r, w, pools, now, duration);
    var claimed := Claim(r, w, pools, now, duration).1;
    if claimed.Some? {
      PlaceInLine(r, claimed.value.id);
      forall other | other in r.jobs && Claimable(r.jobs[other], w, pools)
        ensures NotAhead(r, other, claimed.value.id)
      {
        PlaceInLine(r, other);
        LaterInLine(r, other, claimed.value.id);
      }
    }
  }

  /** The claimed record runs under the worker's lease with the next attempt; it alone leaves its queue. */
  lemma ClaimEffect(r: Registry, w: WorkerProfile, pools: PoolPolicy, now: nat, duration: nat)
    requires WellFormed(r)
    ensures var (q, claimed) := Claim(r, w, pools, now, duration);
      && q.order == r.order && q.keys == r.keys && q.nextId == r.nextId
      && (claimed.None? ==> q == r)
      && (claimed.Some? ==>
            var id := claimed.value.id;
            && id in r.jobs && id in r.queues.Of(r.jobs[id].priority)
            && claimed.value ==
               r.jobs[id].(status := Running, attempts := r.jobs[id].attempts + 1, result := None,
                           terminalAttempt := None,
                           lease := Some(Lease(w.id, r.jobs[id].attempts + 1, now, now + duration)), updatedAt := now)
            && q.jobs == r.jobs[id := claimed.value]
            && (forall p: Priority | p != r.jobs[id].priority :: q.queues.Of(p) == r.queues.Of(p))
            && var queue := r.queues.Of(r.jobs[id].priority);
            && q.queues.Of(r.jobs[id].priority) == queue[..IndexOf(queue, id)] + queue[IndexOf(queue, id) + 1..])
  {
    hide WellFormed, FirstClaimable, IndexOf, RemoveFirst, JobOk, Issued;
    var found := FirstClaimable(r, r.queues.InClaimOrder(), w, pools);
    if found.Some? {
      OneJobOk(r, found.value);
      PlaceInLine(r, found.value);
      hide Claimable;
      RemoveFirstIs(r.queues.Of(r.jobs[found.value].priority), found.value);
    }
  }

  /** The names under which the pool policy knows the kinds. */
  lemma KindNames(k: JobKind)
    ensures k.Name() == "vision_analysis" <==> k == VisionAnalysis
    ensures k.Name() == "embed_batch" <==> k == EmbedBatch
    ensures k.Name() == "index_build" <==> k == IndexBuild
    ensures k.Name() == "cluster" <==> k == Cluster
  {
    assert |"vision_analysis"| == 15 && |"embed_batch"| == 11 && |"index_build"| == 11 && |"cluster"| == 7;
    assert "embed_batch"[0] == 'e' && "index_build"[0] == 'i';
  }

  // ---------- Reports on a lease ----------

  lemma RenewEffect(r: Registry, id: JobId, worker: WorkerId, now: nat, duration: nat)
    ensures id !in r.jobs ==> RenewLease(r, id, worker, now, duration) == (r, RenewNotFound)
    ensures id in r.jobs ==>
      var j := r.jobs[id];
      RenewLease(r, id, worker, now, duration) ==
      if j.status != Running || j.lease.None? then (r, RenewNotRunning(j))
      else if j.lease.value.workerId != worker then (r, RenewLeaseNotHeld(j))
      else if j.lease.value.expiresAt <= now then (r, RenewExpired(j))
      else
        var j' := j.(lease := Some(Lease(worker, j.lease.value.attempt, j.lease.value.claimedAt, now + duration)),
                     updatedAt := now);
        (r.(jobs := r.jobs[id := j']), LeaseRenewed(j'))
  {
  }

  /** The callback of a job that has just ended: none without a URL, else one to deliver, never tried. */
  function NewCallback(url: Option<string>): (c: Option<CallbackState>)
    ensures c.Some? <==> url.Some?
  {
    if url.None? then None else Some(CallbackState(Pending, 0, None, None, None, None))
  }

  /**
   A completion takes effect exactly under a lease of this worker, of the named attempt if one is named, that expires
   after now. A job that ended under the named attempt with this result is acknowledged; anything else is refused.
   */
  lemma CompleteEffect(r: Registry, id: JobId, worker: WorkerId, attempt: Option<nat>, result: Json, now: nat)
    requires WellFormed(r)
    ensures id !in r.jobs ==> CompleteLease(r, id, worker, attempt, result, now) == (r, NotFound)
    ensures id in r.jobs ==>
      var j := r.jobs[id];
      CompleteLease(r, id, worker, attempt, result, now) ==
      if j.status == Complete && attempt.Some? && j.terminalAttempt == Some(TerminalAttempt(worker, attempt.value))
         && j.result == Some(result)
      then (r, IdempotentCompleted(j))
      else if j.status != Running || j.lease.None? then (r, NotRunning(j))
      else if j.lease.value.workerId != worker || (attempt.Some? && attempt.value != j.lease.value.attempt)
      then (r, LeaseNotHeld(j))
      else if j.lease.value.expiresAt <= now then (r, LeaseExpired(j))
      else
        var j' := j.(status := Complete, result := Some(result), error := None, lease := None, updatedAt := now,
                     terminalAttempt := Some(TerminalAttempt(worker, j.attempts)),
                     callback := NewCallback(j.callbackUrl));
        (r.(jobs := r.jobs[id := j']), JobCompleted(j'))
  {
    if id in r.jobs {
      OneJobOk(r, id);
    }
    hide WellFormed;
  }

  /**
   A failure takes effect under the same lease. Retryable and with attempts left the job waits again at the end of its
   own queue; otherwise it has failed for good under this attempt, its callback is due, and the queues stay.
   */
  lemma FailEffect(r: Registry, id: JobId, worker: WorkerId, attempt: Option<nat>, failure: Failure, now: nat)
    requires WellFormed(r)
    ensures id !in r.jobs ==> FailLease(r, id, worker, attempt, failure, now) == (r, NotFound)
    ensures id in r.jobs ==>
      var j := r.jobs[id]; var (q, reply) := FailLease(r, id, worker, attempt, failure, now);
      if j.status == Failed && attempt.Some? && j.terminalAttempt == Some(TerminalAttempt(worker, attempt.value))
         && j.error == Some(failure)
      then (q, reply) == (r, IdempotentFailed(j))
      else if j.status != Running || j.lease.None? then (q, reply) == (r, NotRunning(j))
      else if j.lease.value.workerId != worker || (attempt.Some? && attempt.value != j.lease.value.attempt)
      then (q, reply) == (r, LeaseNotHeld(j))
      else if j.lease.value.expiresAt <= now then (q, reply) == (r, LeaseExpired(j))
      else if failure.retryable && j.attempts < j.maxAttempts then
        var j' := j.(status := Queued, result := None, error := Some(failure), lease := None, terminalAttempt := None,
                     updatedAt := now);
        && reply == JobRequeued(j') && q == r.(jobs := r.jobs[id := j'], queues := q.queues)
        && forall p: Priority :: q.queues.Of(p) == r.queues.Of(p) + if p == j.priority then [id] else []
      else
        var j' := j.(status := Failed, result := None, error := Some(failure), lease := None, updatedAt := now,
                     terminalAttempt := Some(TerminalAttempt(worker, j.attempts)),
                     callback := NewCallback(j.callbackUrl));
        (q, reply) == (r.(jobs := r.jobs[id := j']), JobFailed(j'))
  {
    if id in r.jobs {
      OneJobOk(r, id);
      assert forall p: Priority :: r.queues.Of(p) + [] == r.queues.Of(p);
    }
    hide WellFormed;
  }

  /**
   A cancel takes effect on a queued or running job and on no other: the record keeps its lease, its callback is due,
   and the job waits in no queue.
   */
  lemma CancelEffect(r: Registry, id: JobId, now: nat)
    requires WellFormed(r)
    ensures id !in r.jobs ==> Cancel(r, id, now) == (r, CancelNotFound)
    ensures id in r.jobs && r.jobs[id].status in {Complete, Failed, Cancelled} ==>
      Cancel(r, id, now) == (r, AlreadyTerminal(r.jobs[id]))
    ensures id in r.jobs && r.jobs[id].status in {Queued, Running} ==>
      var j := r.jobs[id]; var (q, reply) := Cancel(r, id, now);
      var j' := j.(status := Cancelled, updatedAt := now, terminalAttempt := None,
                   callback := NewCallback(j.callbackUrl));
      && reply == JobCancelled(j') && q == r.(jobs := r.jobs[id := j'], queues := q.queues)
      && (j.status == Running ==> q.queues == r.queues)
      && (j.status == Queued ==>
            && id in r.queues.Of(j.priority)
            && (forall p: Priority | p != j.priority :: q.queues.Of(p) == r.queues.Of(p))
            && var queue := r.queues.Of(j.priority);
            && q.queues.Of(j.priority) == queue[..IndexOf(queue, id)] + queue[IndexOf(queue, id) + 1..])
  {
    if id in r.jobs && !r.jobs[id].status.Terminal() {
      var p := r.jobs[id].priority;
      OneJobOk(r, id);
      assert QueueOk(r, p);
      hide WellFormed, RemoveFirst, IndexOf;
      if r.jobs[id].status.Queued? {
        RemoveFirstIs(r.queues.Of(p), id);
      } else {
        NothingToRemove(r.queues.Of(p), id);
      }
    }
  }

  lemma NothingToRemove(queue: seq<JobId>, id: JobId)
    requires id !in queue
    ensures RemoveFirst(queue, id) == queue
  {
  }

  // ---------- Prune ----------

  /** Which jobs a prune may take: ended for at least the retention time, and nothing to deliver any more. */
  lemma PrunableExactly(j: Job, policy: RetentionPolicy, now: nat)
    ensures Prunable(j, policy, now) <==>
      && (j.status == Complete || j.status == Failed || j.status == Cancelled)
      && (policy.terminalRetention == 0 || j.updatedAt + policy.terminalRetention <= now)
      && (j.callbackUrl.None? || (j.callback.Some? && j.callback.value.status == Delivered))
  {
  }

  /** Which jobs it counts as kept for their callbacks: as old, but still to be delivered. */
  lemma KeptExactly(j: Job, policy: RetentionPolicy, now: nat)
    ensures Aged(j, policy, now) && HasPendingCallback(j) <==>
      && (j.status == Complete || j.status == Failed || j.status == Cancelled)
      && (policy.terminalRetention == 0 || j.updatedAt + policy.terminalRetention <= now)
      && j.callbackUrl.Some? && (j.callback.None? || j.callback.value.status == Pending)
  {
  }

  /** How many of the jobs before the p-th in the order a prune may take: only while they are fewer than its limit. */
  lemma {:induction false} ScanReaches(r: Registry, policy: RetentionPolicy, now: nat, i: nat, p: nat)
    requires i <= p < |r.order|
    ensures p < ScanEnd(r, policy, now, i) <==>
            |Filter(r.order[..p], PruneTest(r.jobs, policy, now))| < policy.maxPruned
    decreases |r.order| - i
  {
    hide Filter, PruneTest;
    var test := PruneTest(r.jobs, policy, now);
    PrefixCounts(r.order, i, p, test);
    if i < p && |Filter(r.order[..i], test)| < policy.maxPruned {
      ScanReaches(r, policy, now, i + 1, p);
    }
  }

  lemma {:induction false} PrefixCounts<T(!new)>(s: seq<T>, i: nat, p: nat, test: T -> bool)
    requires i <= p <= |s|
    ensures |Filter(s[..i], test)| <= |Filter(s[..p], test)|
  {
    hide Filter;
    if i < p {
      FilterPrefix(s, p - 1, test);
      PrefixCounts(s, i, p - 1, test);
    }
  }

  /** The old jobs still to be delivered that a prune comes to before it has taken its limit. */
  function KeptForCallback(r: Registry, policy: RetentionPolicy, now: nat): set<JobId> {
    set id | id in r.order && Comes(r, policy, now, id)
  }

  predicate Comes(r: Registry, policy: RetentionPolicy, now: nat, id: JobId)
    requires id in r.order
  {
    && id in r.jobs && Aged(r.jobs[id], policy, now) && HasPendingCallback(r.jobs[id])
    && |Filter(r.order[..IndexOf(r.order, id)], PruneTest(r.jobs, policy, now))| < policy.maxPruned
  }

  /** The prune reports exactly those as kept for their callbacks. */
  lemma RetainedCount(r: Registry, policy: RetentionPolicy, now: nat)
    requires WellFormed(r)
    ensures Prune(r, policy, now).1.retainedPendingCallbacks == |KeptForCallback(r, policy, now)|
  {
    OrderIsOk(r);
    hide WellFormed, Filter, ScanEnd, IndexOf, PruneTest, KeptForCallback, Victims, StatusCounts, CountsInOrder;
    var scanned, test := r.order[..ScanEnd(r, policy, now, 0)], PendingTest(r.jobs, policy, now);
    FilterNoDuplicates(scanned, test);
    CardinalityOfDistinct(Filter(scanned, test));
    forall id ensures id in Filter(scanned, test) <==> id in KeptForCallback(r, policy, now) {
      PendingScanned(r, policy, now, id);
    }
    assert (set id | id in Filter(scanned, test)) == KeptForCallback(r, policy, now);
  }

  lemma PendingScanned(r: Registry, policy: RetentionPolicy, now: nat, id: JobId)
    requires NoDuplicates(r.order)
    ensures id in Filter(r.order[..ScanEnd(r, policy, now, 0)], PendingTest(r.jobs, policy, now)) <==>
            id in KeptForCallback(r, policy, now)
  {
    hide Filter, ScanEnd, IndexOf, PruneTest, Aged, HasPendingCallback;
    if id in r.order {
      Scanned(r, policy, now, id);
    }
  }

  lemma Scanned(r: Registry, policy: RetentionPolicy, now: nat, id: JobId)
    requires NoDuplicates(r.order) && id in r.order
    ensures id in r.order[..ScanEnd(r, policy, now, 0)] <==>
            |Filter(r.order[..IndexOf(r.order, id)], PruneTest(r.jobs, policy, now))| < policy.maxPruned
  {
    hide Filter, ScanEnd, PruneTest, IndexOf;
    var p, scanned := IndexOf(r.order, id), r.order[..ScanEnd(r, policy, now, 0)];
    ScanReaches(r, policy, now, 0, p);
    assert p < |scanned| ==> scanned[p] == id;
    if id in scanned {
      var m :| 0 <= m < |scanned| && scanned[m] == id;
      assert r.order[m] == id;
    }
  }

  /** The per-status counts of a prune stand in this order: complete, failed, cancelled. */
  lemma CountsOrder(r: Registry, policy: RetentionPolicy, now: nat, i: nat, j: nat)
    requires WellFormed(r) && i < j < |Prune(r, policy, now).1.byStatus|
    ensures var list := Prune(r, policy, now).1.byStatus;
      || (list[i].status == Complete && list[j].status == Failed)
      || (list[i].status == Complete && list[j].status == Cancelled)
      || (list[i].status == Failed && list[j].status == Cancelled)
  {
    hide Prune, WellFormed;
    PruneReportExact(r, policy, now);
    var list := Prune(r, policy, now).1.byStatus;
    forall c | c in list ensures c.status.Terminal() {
      assert exists id :: id in Victims(r, policy, now) && id in r.jobs && r.jobs[id].status == c.status;
      VictimsEnded(r, policy, now, c.status);
    }
    assert list[i] in list && list[j] in list;
    assert StatusRank(list[i].status) < StatusRank(list[j].status);
  }

  lemma VictimsEnded(r: Registry, policy: RetentionPolicy, now: nat, status: JobStatus)
    requires WellFormed(r)
    requires exists id :: id in Victims(r, policy, now) && id in r.jobs && r.jobs[id].status == status
    ensures status.Terminal()
  {
    var id :| id in Victims(r, policy, now) && id in r.jobs && r.jobs[id].status == status;
    hide WellFormed, Victims, Filter;
    PruneTakesTheFirst(r, policy, now, id);
  }

  // ---------- Sweep ----------

  /** A sweep takes the lease of each running job whose lease has run out, and touches no other. */
  lemma SweepEffect(r: Registry, now: nat, id: JobId)
    requires WellFormed(r) && id in r.jobs
    ensures id in Sweep(r, now).0.jobs
    ensures var j := r.jobs[id];
      Sweep(r, now).0.jobs[id] ==
      if j.status != Running || j.lease.None? || now < j.lease.value.expiresAt then j
      else
        var again := j.attempts < j.maxAttempts;
        j.(status := if again then Queued else Failed, result := None, lease := None, updatedAt := now,
           error := Some(Failure("attempt timed out", again)),
           callback := if again then j.callback else NewCallback(j.callbackUrl))
  {
    SweepExact(r, now, id);
    OneJobOk(r, id);
    hide WellFormed, Sweep;
  }

  // ---------- Callbacks ----------

  /** A recovery pass is given the ended jobs with a URL whose callback is pending, in the order they were submitted. */
  lemma PendingListed(r: Registry)
    requires WellFormed(r)
    ensures InOrderOf(PendingCallbacks(r), r.order)
    ensures forall id :: id in PendingCallbacks(r) <==>
      && id in r.jobs && r.jobs[id].callbackUrl.Some? && r.jobs[id].status in {Complete, Failed, Cancelled}
      && r.jobs[id].callback.Some? && r.jobs[id].callback.value.status == Pending
  {
    OrderIsOk(r);
    hide WellFormed;
    InOrderOfItself(r.order);
    FilterInOrder(r.order, r.order, DeliveryTest(r.jobs));
  }

  /** An attempt begins exactly for an ended job with a URL whose callback is pending; it is counted and stamped. */
  lemma BeginEffect(r: Registry, id: JobId, now: nat)
    ensures BeginCallback(r, id, now) ==
      if id in r.jobs && r.jobs[id].callbackUrl.Some? && r.jobs[id].status in {Complete, Failed, Cancelled}
         && r.jobs[id].callback.Some? && r.jobs[id].callback.value.status == Pending
      then
        var c := r.jobs[id].callback.value;
        var j := r.jobs[id].(callback := Some(CallbackState(
          Pending, c.attempts + 1, Some(now), c.deliveredAt, c.lastHttpStatus, c.lastError)));
        (r.(jobs := r.jobs[id := j]), Some(j))
      else (r, None)
  {
  }

  lemma SuccessEffect(r: Registry, id: JobId, http: nat, now: nat)
    ensures CallbackSucceeded(r, id, http, now) ==
      if id in r.jobs && r.jobs[id].callback.Some? then
        var c := r.jobs[id].callback.value;
        var j := r.jobs[id].(callback := Some(CallbackState(
          Delivered, c.attempts, c.lastAttemptAt, Some(now), Some(http), None)));
        (r.(jobs := r.jobs[id := j]), Some(j))
      else (r, None)
  {
  }

  lemma FailureEffect(r: Registry, id: JobId, http: Option<nat>, error: Option<string>)
    ensures CallbackFailed(r, id, http, error) ==
      if id in r.jobs && r.jobs[id].callback.Some? && r.jobs[id].callback.value.status == Pending then
        var c := r.jobs[id].callback.value;
        var j := r.jobs[id].(callback := Some(CallbackState(
          Pending, c.attempts, c.lastAttemptAt, c.deliveredAt, http, error)));
        (r.(jobs := r.jobs[id := j]), Some(j))
      else (r, None)
  {
  }

  // ---------- Submission ----------

  /** What trimming leaves: only white space is cut, at the two ends, and no more is left to cut. */
  lemma TrimCuts(s: string) returns (a: nat, b: nat)
    ensures a <= b <= |s| && Trim(s) == s[a..b]
    ensures forall i :: 0 <= i < a || b <= i < |s| ==> IsWhitespace(s[i])
    ensures a < b ==> !IsWhitespace(s[a]) && !IsWhitespace(s[b - 1])
    ensures a == b ==> forall c :: c in s ==> IsWhitespace(c)
  {
    a := StartCuts(s);
    var rest := TrimStart(s);
    var n := EndCuts(rest);
    b := a + n;
    assert forall i :: a <= i < |s| ==> s[i] == rest[i - a];
  }

  lemma {:induction false} StartCuts(s: string) returns (a: nat)
    ensures a <= |s| && TrimStart(s) == s[a..]
    ensures forall i :: 0 <= i < a ==> IsWhitespace(s[i])
    ensures a < |s| ==> !IsWhitespace(s[a])
  {
    hide IsWhitespace;
    a := 0;
    if s != "" && IsWhitespace(s[0]) {
      var n := StartCuts(s[1..]);
      a := n + 1;
      assert forall i :: 1 <= i < |s| ==> s[i] == s[1..][i - 1];
    }
  }

  lemma {:induction false} EndCuts(s: string) returns (n: nat)
    ensures n <= |s| && TrimEnd(s) == s[..n]
    ensures forall i :: n <= i < |s| ==> IsWhitespace(s[i])
    ensures n > 0 ==> !IsWhitespace(s[n - 1])
  {
    hide IsWhitespace;
    n := |s|;
    if s != "" && IsWhitespace(s[|s| - 1]) {
      n := EndCuts(s[..|s| - 1]);
    }
  }

  /** The 25 code points of the White_Space property. */
  lemma WhitespaceIs(c: char)
    ensures IsWhitespace(c) <==>
            c as int in {9, 10, 11, 12, 13, 32, 133, 160, 5760, 8192, 8193, 8194, 8195, 8196, 8197, 8198, 8199, 8200,
                         8201, 8202, 8232, 8233, 8239, 8287, 12288}
  {
  }

  /** Bytes of UTF-8: by the bits of each code point, added up. */
  lemma {:induction false} Utf8Counts(s: string, t: string)
    ensures Utf8Length(s + t) == Utf8Length(s) + Utf8Length(t)
    ensures |t| == 1 ==>
      Utf8Length(t) == if t[0] as int <= 127 then 1 else if t[0] as int <= 2047 then 2
                       else if t[0] as int <= 65535 then 3 else 4
  {
    if s == "" {
      assert s + t == t;
    } else {
      assert (s + t)[1..] == s[1..] + t;
      Utf8Counts(s[1..], t);
    }
    assert |t| == 1 ==> t[1..] == "";
  }

  /** A key is accepted exactly when something is left of it after trimming, and no more than 256 bytes. */
  lemma KeyNormalized(key: Option<string>)
    ensures key.None? ==> NormalizeKey(key) == Ok(None)
    ensures key.Some? && Trim(key.value) == "" ==> NormalizeKey(key) == Err("idempotency_key cannot be empty")
    ensures key.Some? && Utf8Length(Trim(key.value)) > 256 ==>
      NormalizeKey(key) == Err("idempotency_key cannot exceed 256 bytes")
    ensures key.Some? && Trim(key.value) != "" && Utf8Length(Trim(key.value)) <= 256 ==>
      NormalizeKey(key) == Ok(Some(Trim(key.value)))
  {
    hide Trim;
  }

  /** A URL is accepted exactly when something is left of it after trimming. */
  lemma UrlNormalized(url: Option<string>)
    ensures url.None? ==> NormalizeCallbackUrl(url) == Ok(None)
    ensures url.Some? ==>
      NormalizeCallbackUrl(url) ==
      if Trim(url.value) == "" then Err("callback_url cannot be empty") else Ok(Some(Trim(url.value)))
  {
    hide Trim;
  }

  /**
   A submission whose key answers for a job returns that job if kind, priority, payload and trimmed URL are the same and
   is rejected otherwise; any other creates a queued job with three attempts at the end of the order and of its queue.
   */
  lemma SubmitEffect(r: Registry, q: SubmitRequest, now: nat, url: Option<string>, key: Option<string>)
    requires WellFormed(r) && NormalizeCallbackUrl(q.callbackUrl) == Ok(url) && NormalizeKey(q.key) == Ok(key)
    ensures key.Some? && key.value in r.keys ==>
      var j := r.jobs[r.keys[key.value]];
      Submit(r, q, now) ==
      (r, if j.kind == q.kind && j.priority == q.priority && j.payload == q.payload && j.callbackUrl == url then Ok(j)
          else Err("idempotency_key already used for a different job request"))
    ensures (key.None? || key.value !in r.keys) ==>
      var (s, reply) := Submit(r, q, now); var id := JobIdOf(r.nextId + 1);
      var j := Job(id, q.kind, q.priority, Queued, q.payload, url, key, None, None, None, 0, 3, None, None, now, now);
      && reply == Ok(j) && s.nextId == r.nextId + 1 && s.jobs == r.jobs[id := j] && s.order == r.order + [id]
      && s.keys == (if key.Some? then r.keys[key.value := id] else r.keys)
      && forall p: Priority :: s.queues.Of(p) == r.queues.Of(p) + if p == q.priority then [id] else []
  {
    hide NormalizeCallbackUrl, NormalizeKey, Decimal;
    KeysPointAtJobs(r);
    hide WellFormed;
    assert forall p: Priority :: r.queues.Of(p) + [] == r.queues.Of(p);
  }

  lemma KeysPointAtJobs(r: Registry)
    requires WellFormed(r)
    ensures forall k :: k in r.keys ==> r.keys[k] in r.jobs
  {
  }

  lemma SubmitRefused(r: Registry, q: SubmitRequest, now: nat)
    ensures NormalizeCallbackUrl(q.callbackUrl).Err? ==>
      Submit(r, q, now) == (r, Err(NormalizeCallbackUrl(q.callbackUrl).message))
    ensures NormalizeCallbackUrl(q.callbackUrl).Ok? && NormalizeKey(q.key).Err? ==>
      Submit(r, q, now) == (r, Err(NormalizeKey(q.key).message))
  {
    hide NormalizeCallbackUrl, NormalizeKey;
  }
}
