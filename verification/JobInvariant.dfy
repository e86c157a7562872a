/**
 The registry invariant, kept by every operation: queues, submission order,
 idempotency keys and identifiers all agree with the job map, and every record
 is consistent with its own status.
 */
module JobInvariant {
  import opened Collections
  import opened JobIds
  import opened JobModel

  ghost predicate JobOk(j: Job) {
    && j.attempts <= j.maxAttempts
    && (j.status.Queued? ==> j.attempts < j.maxAttempts && j.lease.None?)
    && (j.status.Running? ==> j.lease.Some? && j.lease.value.attempt == j.attempts && 1 <= j.attempts)
    && (j.status.Complete? || j.status.Failed? ==> j.lease.None?)
    && (j.result.Some? <==> j.status.Complete?)
    && (j.status.Failed? ==> j.error.Some?)
    && (j.status.Complete? ==> j.terminalAttempt.Some?)
    && (j.terminalAttempt.Some? ==>
        (j.status.Complete? || j.status.Failed?) && j.terminalAttempt.value.attempt == j.attempts)
    && (j.callback.Some? <==> j.status.Terminal() && j.callbackUrl.Some?)
  }

  ghost predicate OrderOk(r: Registry) {
    NoDuplicates(r.order) && forall id :: id in r.order <==> id in r.jobs
  }

  ghost predicate JobsOk(r: Registry) {
    forall id :: id in r.jobs ==> r.jobs[id].id == id && JobOk(r.jobs[id])
  }

  ghost predicate QueueOk(r: Registry, p: Priority) {
    && NoDuplicates(r.queues.Of(p))
    && forall id :: id in r.queues.Of(p) <==> id in r.jobs && r.jobs[id].status.Queued? && r.jobs[id].priority == p
  }

  ghost predicate KeysOk(r: Registry) {
    && (forall id :: id in r.jobs && r.jobs[id].key.Some? ==>
          r.jobs[id].key.value in r.keys && r.keys[r.jobs[id].key.value] == id)
    && (forall k :: k in r.keys ==> r.keys[k] in r.jobs && r.jobs[r.keys[k]].key == Some(k))
  }

  ghost predicate Issued(id: JobId, last: nat) { exists n: nat :: 1 <= n <= last && id == JobIdOf(n) }

  ghost predicate IdsOk(r: Registry) { forall id :: id in r.jobs ==> Issued(id, r.nextId) }

  ghost predicate WellFormed(r: Registry) {
    && OrderOk(r)
    && JobsOk(r)
    && (forall p :: QueueOk(r, p))
    && KeysOk(r)
    && IdsOk(r)
  }

  lemma OrderIsOk(r: Registry)
    requires WellFormed(r)
    ensures OrderOk(r)
  {
  }

  lemma OneJobOk(r: Registry, id: JobId)
    requires WellFormed(r) && id in r.jobs
    ensures r.jobs[id].id == id && JobOk(r.jobs[id]) && Issued(id, r.nextId)
  {
  }

  lemma EmptyWellFormed()
    ensures WellFormed(EMPTY)
  {
  }

  /** The two records agree on what the queues and the key index depend on, up to status. */
  ghost predicate SamePlace(j: Job, j': Job) {
    j'.id == j.id && j'.priority == j.priority && j'.key == j.key
  }

  /** Changing records in place leaves order, keys and identifiers consistent. */
  lemma SamePlacesKeepIndexes(r: Registry, r': Registry)
    requires WellFormed(r) && r'.jobs.Keys == r.jobs.Keys
    requires forall id :: id in r.jobs ==> SamePlace(r.jobs[id], r'.jobs[id]) && JobOk(r'.jobs[id])
    requires r'.order == r.order && r'.keys == r.keys && r'.nextId == r.nextId
    ensures OrderOk(r') && JobsOk(r') && KeysOk(r') && IdsOk(r')
  {
    forall id ensures id in r'.order <==> id in r'.jobs {
      assert id in r.order <==> id in r.jobs;
    }
    forall id | id in r'.jobs ensures Issued(id, r'.nextId) {
      assert id in r.jobs;
    }
  }

  lemma PutKeepsWellFormed(r: Registry, id: JobId, j': Job)
    requires WellFormed(r) && id in r.jobs && SamePlace(r.jobs[id], j') && JobOk(j')
    requires r.jobs[id].status.Queued? <==> j'.status.Queued?
    ensures WellFormed(r.(jobs := r.jobs[id := j']))
  {
    var r' := r.(jobs := r.jobs[id := j']);
    assert r'.jobs.Keys == r.jobs.Keys;
    SamePlacesKeepIndexes(r, r');
    forall p ensures QueueOk(r', p) {
      assert QueueOk(r, p);
    }
  }

  lemma RemoveKeepsQueues(r: Registry, r': Registry, id: JobId, p: Priority)
    requires forall q :: QueueOk(r, q)
    requires id in r.jobs && r.jobs[id].priority == p
    requires id in r'.jobs && !r'.jobs[id].status.Queued?
    requires r'.jobs == r.jobs[id := r'.jobs[id]] && r'.queues == r.queues.Remove(p, id)
    ensures forall q :: QueueOk(r', q)
  {
    forall q ensures QueueOk(r', q) {
      assert QueueOk(r, q);
      if q == p {
        assert r'.queues.Of(q) == RemoveFirst(r.queues.Of(q), id);
        RemoveFirstMembers(r.queues.Of(q), id);
      } else {
        assert r'.queues.Of(q) == r.queues.Of(q);
      }
    }
  }

  lemma DequeueKeepsWellFormed(r: Registry, id: JobId, j': Job)
    requires WellFormed(r) && id in r.jobs && SamePlace(r.jobs[id], j') && JobOk(j') && !j'.status.Queued?
    ensures WellFormed(r.(jobs := r.jobs[id := j'], queues := r.queues.Remove(j'.priority, id)))
  {
    var r' := r.(jobs := r.jobs[id := j'], queues := r.queues.Remove(j'.priority, id));
    assert r'.jobs.Keys == r.jobs.Keys;
    SamePlacesKeepIndexes(r, r');
    RemoveKeepsQueues(r, r', id, j'.priority);
  }

  lemma PushKeepsQueues(r: Registry, r': Registry, id: JobId, p: Priority)
    requires forall q :: QueueOk(r, q)
    requires !(id in r.jobs && r.jobs[id].status.Queued?)
    requires id in r'.jobs && r'.jobs[id].status.Queued? && r'.jobs[id].priority == p
    requires r'.jobs == r.jobs[id := r'.jobs[id]] && r'.queues == r.queues.Push(p, id)
    ensures forall q :: QueueOk(r', q)
  {
    forall q ensures QueueOk(r', q) {
      assert QueueOk(r, q);
      if q == p {
        assert r'.queues.Of(q) == r.queues.Of(q) + [id];
        ConcatNoDuplicates(r.queues.Of(q), [id]);
      } else {
        assert r'.queues.Of(q) == r.queues.Of(q);
      }
    }
  }

  lemma EnqueueKeepsWellFormed(r: Registry, id: JobId, j': Job)
    requires WellFormed(r) && id in r.jobs && SamePlace(r.jobs[id], j') && JobOk(j')
    requires !r.jobs[id].status.Queued? && j'.status.Queued?
    ensures WellFormed(r.(jobs := r.jobs[id := j'], queues := r.queues.Push(j'.priority, id)))
  {
    var r' := r.(jobs := r.jobs[id := j'], queues := r.queues.Push(j'.priority, id));
    assert r'.jobs.Keys == r.jobs.Keys;
    SamePlacesKeepIndexes(r, r');
    PushKeepsQueues(r, r', id, j'.priority);
  }

  /** The next identifier is not retained, whatever was submitted or pruned before. */
  lemma NextIdFresh(r: Registry)
    requires IdsOk(r)
    ensures JobIdOf(r.nextId + 1) !in r.jobs
  {
    if JobIdOf(r.nextId + 1) in r.jobs {
      var n: nat :| 1 <= n <= r.nextId && JobIdOf(r.nextId + 1) == JobIdOf(n);
      JobIdInjective(r.nextId + 1, n);
    }
  }

  lemma InsertKeepsIndexes(r: Registry, q: SubmitRequest, now: nat)
    requires OrderOk(r) && JobsOk(r) && IdsOk(r) && JobIdOf(r.nextId + 1) !in r.jobs
    requires q.key.Some? ==> q.key.value !in r.keys
    ensures var r' := SubmitNormalized(r, q, now).0; OrderOk(r') && JobsOk(r') && IdsOk(r')
  {
    var r', id := SubmitNormalized(r, q, now).0, JobIdOf(r.nextId + 1);
    ConcatNoDuplicates(r.order, [id]);
    assert r'.order == r.order + [id];
    forall x | x in r'.jobs ensures Issued(x, r'.nextId) {
      if x != id {
        assert Issued(x, r.nextId);
      }
    }
  }

  lemma InsertKeepsKeys(r: Registry, q: SubmitRequest, now: nat)
    requires KeysOk(r) && JobIdOf(r.nextId + 1) !in r.jobs
    requires q.key.Some? ==> q.key.value !in r.keys
    ensures KeysOk(SubmitNormalized(r, q, now).0)
  {
  }

  lemma InsertKeepsWellFormed(r: Registry, q: SubmitRequest, now: nat)
    requires WellFormed(r)
    requires q.key.Some? ==> q.key.value !in r.keys
    ensures WellFormed(SubmitNormalized(r, q, now).0)
  {
    NextIdFresh(r);
    InsertKeepsIndexes(r, q, now);
    InsertKeepsKeys(r, q, now);
    PushKeepsQueues(r, SubmitNormalized(r, q, now).0, JobIdOf(r.nextId + 1), q.priority);
  }

  lemma SubmitKeepsWellFormed(r: Registry, q: SubmitRequest, now: nat)
    requires WellFormed(r)
    ensures WellFormed(Submit(r, q, now).0)
  {
    var n := Normalize(q);
    if n.Ok? && !(n.value.key.Some? && n.value.key.value in r.keys) {
      InsertKeepsWellFormed(r, n.value, now);
    }
  }

  lemma ClaimKeepsWellFormed(r: Registry, w: WorkerProfile, pools: PoolPolicy, now: nat, duration: nat)
    requires WellFormed(r)
    ensures WellFormed(Claim(r, w, pools, now, duration).0)
  {
    var found := FirstClaimable(r, r.queues.InClaimOrder(), w, pools);
    if found.Some? {
      DequeueKeepsWellFormed(r, found.value, ClaimedBy(r.jobs[found.value], w.id, now, duration));
    }
  }

  lemma RenewKeepsWellFormed(r: Registry, id: JobId, worker: WorkerId, now: nat, duration: nat)
    requires WellFormed(r)
    ensures WellFormed(RenewLease(r, id, worker, now, duration).0)
  {
    if id in r.jobs && LiveLease(r.jobs[id], worker, None, now) {
      PutKeepsWellFormed(r, id, Renewed(r.jobs[id], now, duration));
    }
  }

  lemma CompleteKeepsWellFormed(
    r: Registry, id: JobId, worker: WorkerId, attempt: Option<nat>, result: Json, now: nat)
    requires WellFormed(r)
    ensures WellFormed(CompleteLease(r, id, worker, attempt, result, now).0)
  {
    if id in r.jobs && LiveLease(r.jobs[id], worker, attempt, now) {
      PutKeepsWellFormed(r, id, Completed(r.jobs[id], worker, result, now));
    }
  }

  lemma FailKeepsWellFormed(
    r: Registry, id: JobId, worker: WorkerId, attempt: Option<nat>, failure: Failure, now: nat)
    requires WellFormed(r)
    ensures WellFormed(FailLease(r, id, worker, attempt, failure, now).0)
  {
    if id in r.jobs && LiveLease(r.jobs[id], worker, attempt, now) {
      var j' := FailedBy(r.jobs[id], worker, failure, now);
      if Retries(r.jobs[id], failure.retryable) {
        EnqueueKeepsWellFormed(r, id, j');
      } else {
        PutKeepsWellFormed(r, id, j');
      }
    }
  }

  lemma CancelKeepsWellFormed(r: Registry, id: JobId, now: nat)
    requires WellFormed(r)
    ensures WellFormed(Cancel(r, id, now).0)
  {
    if id in r.jobs && !r.jobs[id].status.Terminal() {
      DequeueKeepsWellFormed(r, id, CancelledAt(r.jobs[id], now));
    }
  }

  /** What the sweep appends to one queue: exactly its own requeued jobs, each once. */
  lemma RequeuedInMembers(r: Registry, now: nat, p: Priority)
    requires WellFormed(r)
    ensures NoDuplicates(RequeuedIn(r, now, p))
    ensures forall id :: id in RequeuedIn(r, now, p) <==>
      id in r.jobs && r.jobs[id].priority == p && IsExpired(r.jobs[id], now) && Retries(r.jobs[id], true)
  {
    FilterNoDuplicates(r.order, RequeueTest(r.jobs, now));
    FilterNoDuplicates(Filter(r.order, RequeueTest(r.jobs, now)), PriorityTest(r.jobs, p));
  }

  /** The sweep turns an expired job into a queued or failed one and leaves every other job alone. */
  lemma SweptJobOk(j: Job, now: nat)
    requires JobOk(j)
    ensures JobOk(Swept(j, now)) && SamePlace(j, Swept(j, now))
    ensures Swept(j, now).status.Queued? <==> j.status.Queued? || (IsExpired(j, now) && Retries(j, true))
  {
  }

  lemma SweepKeepsQueue(r: Registry, now: nat, p: Priority)
    requires WellFormed(r)
    ensures QueueOk(Sweep(r, now).0, p)
  {
    var r', added := Sweep(r, now).0, RequeuedIn(r, now, p);
    assert QueueOk(r, p);
    RequeuedInMembers(r, now, p);
    ConcatNoDuplicates(r.queues.Of(p), added);
    assert r'.queues.Of(p) == r.queues.Of(p) + added;
    forall id ensures id in r'.queues.Of(p) <==>
        id in r'.jobs && r'.jobs[id].status.Queued? && r'.jobs[id].priority == p {
      if id in r.jobs {
        SweptJobOk(r.jobs[id], now);
      }
    }
  }

  lemma SweepKeepsWellFormed(r: Registry, now: nat)
    requires WellFormed(r)
    ensures WellFormed(Sweep(r, now).0)
  {
    var r' := Sweep(r, now).0;
    assert r'.jobs.Keys == r.jobs.Keys;
    forall id | id in r.jobs ensures SamePlace(r.jobs[id], r'.jobs[id]) && JobOk(r'.jobs[id]) {
      SweptJobOk(r.jobs[id], now);
    }
    SamePlacesKeepIndexes(r, r');
    forall p ensures QueueOk(r', p) {
      SweepKeepsQueue(r, now, p);
    }
  }

  /** Victims are retained, prunable and listed once. */
  lemma VictimsAre(r: Registry, policy: RetentionPolicy, now: nat)
    requires WellFormed(r)
    ensures NoDuplicates(Victims(r, policy, now))
    ensures forall id :: id in Victims(r, policy, now) ==> id in r.jobs && Prunable(r.jobs[id], policy, now)
  {
    var all := Filter(r.order, PruneTest(r.jobs, policy, now));
    FilterNoDuplicates(r.order, PruneTest(r.jobs, policy, now));
    forall id | id in Victims(r, policy, now) ensures id in all {
    }
  }

  lemma PruneKeepsWellFormed(r: Registry, policy: RetentionPolicy, now: nat)
    requires WellFormed(r)
    ensures WellFormed(Prune(r, policy, now).0)
  {
    var r' := Prune(r, policy, now).0;
    VictimsAre(r, policy, now);
    FilterNoDuplicates(r.order, RetainedTest(r'.jobs));
    forall p ensures QueueOk(r', p) {
      assert QueueOk(r, p);
    }
  }

  lemma CallbackKeepsWellFormed(r: Registry, id: JobId, c: CallbackState)
    requires WellFormed(r) && id in r.jobs && r.jobs[id].callback.Some?
    ensures WellFormed(r.(jobs := r.jobs[id := r.jobs[id].(callback := Some(c))]))
  {
    PutKeepsWellFormed(r, id, r.jobs[id].(callback := Some(c)));
  }

  lemma BeginKeepsWellFormed(r: Registry, id: JobId, now: nat)
    requires WellFormed(r)
    ensures WellFormed(BeginCallback(r, id, now).0)
  {
    hide WellFormed;
    if BeginCallback(r, id, now).1.Some? {
      CallbackKeepsWellFormed(r, id, BeginCallback(r, id, now).1.value.callback.value);
    }
  }

  lemma SuccessKeepsWellFormed(r: Registry, id: JobId, http: nat, now: nat)
    requires WellFormed(r)
    ensures WellFormed(CallbackSucceeded(r, id, http, now).0)
  {
    hide WellFormed;
    if CallbackSucceeded(r, id, http, now).1.Some? {
      CallbackKeepsWellFormed(r, id, CallbackSucceeded(r, id, http, now).1.value.callback.value);
    }
  }

  lemma FailureKeepsWellFormed(r: Registry, id: JobId, http: Option<nat>, error: Option<string>)
    requires WellFormed(r)
    ensures WellFormed(CallbackFailed(r, id, http, error).0)
  {
    hide WellFormed;
    if CallbackFailed(r, id, http, error).1.Some? {
      CallbackKeepsWellFormed(r, id, CallbackFailed(r, id, http, error).1.value.callback.value);
    }
  }
}
