/**
 The job registry itself (src/jobs.rs): fields updated in place, each method
 proved to leave the state its specification function says, to keep the
 registry invariant, and to leave the durable table in step with memory.
 */
module Jobs {
  import opened Collections
  import opened JobIds
  import opened JobModel
  import opened JobInvariant
  import opened JobExactness
  import opened JobStore
  import opened Sorting

  class JobRegistry {
    var nextId: nat
    var jobs: map<JobId, Job>
    var keys: map<string, JobId>
    var order: seq<JobId>
    var queues: Queues
    const store: SqliteJobStore?
    const retention: RetentionPolicy

    ghost function State(): Registry
      reads this
    {
      Registry(nextId, jobs, keys, order, queues)
    }

    ghost function Disk(): set<object> { if store == null then {} else {store} }

    /** The table holds exactly the state in memory. */
    ghost predicate Durable()
      reads this, Disk()
    {
      store != null ==> WellFormed(State()) && store.Valid() && store.table == RowsOf(State())
    }

    ghost predicate Valid()
      reads this, Disk()
    {
      WellFormed(State()) && nextId <= U64_MAX && Durable()
    }

    constructor InMemory(retention: RetentionPolicy)
      ensures Valid() && State() == EMPTY && store == null
    {
      nextId, jobs, keys, order, queues := 0, map[], map[], [], Queues([], [], []);
      store := null;
      this.retention := retention;
      new;
      EmptyWellFormed();
    }

    /**
     Restart: the state a crash left in the table, once swept at `now`. For any registry `saved` whose
     snapshot the table is, that is the sweep of `saved` itself, with `nextId` the largest retained number.
     */
    constructor WithStore(store: SqliteJobStore, retention: RetentionPolicy, now: nat, ghost saved: Registry)
      requires WellFormed(saved) && saved.nextId <= U64_MAX
      requires store.Valid() && store.table == RowsOf(saved)
      modifies store
      ensures Valid() && this.store == store
      ensures State() == Restarted(saved, now)
    {
      var inner := store.LoadSnapshot();
      nextId, jobs, keys, order, queues := inner.nextId, inner.jobs, inner.keys, inner.order, inner.queues;
      this.store := store;
      this.retention := retention;
      new;
      hide WellFormed, Loaded, RowsOf, Restarted;
      Recover(now, saved);
    }

    /** Sweep what was loaded, and write it back if anything expired. */
    method Recover(now: nat, ghost saved: Registry)
      requires WellFormed(saved) && saved.nextId <= U64_MAX && Loaded(RowsOf(saved), State())
      requires store != null && store.Valid() && store.table == RowsOf(saved)
      modifies this, store
      ensures Valid() && State() == Restarted(saved, now)
    {
      hide WellFormed, Loaded, RowsOf, Sweep, Restarted, LargestIn;
      ghost var inner := State();
      LoadedIsRestored(saved, inner);
      var report := RequeueExpiredLocked(now);
      RestartIsDurable(saved, inner, now);
      if report.requeued > 0 || report.failed > 0 {
        store.ReplaceSnapshot(Registry(nextId, jobs, keys, order, queues));
      }
    }

    method Persist()
      requires WellFormed(State())
      modifies Disk()
      ensures Durable()
    {
      if store != null {
        store.ReplaceSnapshot(Registry(nextId, jobs, keys, order, queues));
      }
    }

    method Submit(request: SubmitRequest, now: nat) returns (reply: Result<Job>)
      requires Valid() && nextId < U64_MAX
      modifies this, Disk()
      ensures Valid()
      ensures (State(), reply) == JobModel.Submit(old(State()), request, now)
    {
      hide WellFormed, NormalizeCallbackUrl, NormalizeKey, Normalize, Decimal;
      NormalizeParts(request);
      ghost var r := State();
      var url := NormalizeCallbackUrl(request.callbackUrl);
      if url.Err? {
        return Err(url.message);
      }
      var key := NormalizeKey(request.key);
      if key.Err? {
        return Err(key.message);
      }
      var normal := request.(callbackUrl := url.value, key := key.value);
      if key.value.Some? && key.value.value in keys && keys[key.value.value] in jobs {
        var existing := jobs[keys[key.value.value]];
        if SameRequest(existing, normal) {
          return Ok(existing);
        }
        return Err("idempotency_key already used for a different job request");
      }
      nextId := nextId + 1;
      var job := NewJob(JobIdOf(nextId), normal, now);
      jobs := jobs[job.id := job];
      if key.value.Some? {
        keys := keys[key.value.value := job.id];
      }
      order := order + [job.id];
      queues := queues.Push(job.priority, job.id);
      assert (State(), Ok(job)) == JobModel.Submit(r, request, now);
      SubmitKeepsWellFormed(r, request, now);
      Persist();
      return Ok(job);
    }

    method FindClaimable(w: WorkerProfile, pools: PoolPolicy) returns (found: Option<JobId>)
      ensures found == FirstClaimable(State(), queues.InClaimOrder(), w, pools)
    {
      var line := queues.InClaimOrder();
      for i := 0 to |line|
        invariant FirstClaimable(State(), line, w, pools) == FirstClaimable(State(), line[i..], w, pools)
      {
        if line[i] in jobs && Claimable(jobs[line[i]], w, pools) {
          return Some(line[i]);
        }
        assert line[i..][1..] == line[i + 1..];
      }
      return None;
    }

    method ClaimNext(w: WorkerProfile, pools: PoolPolicy, now: nat, duration: nat) returns (claimed: Option<Job>)
      requires Valid()
      modifies this, Disk()
      ensures Valid()
      ensures (State(), claimed) == Claim(old(State()), w, pools, now, duration)
    {
      hide WellFormed;
      ClaimKeepsWellFormed(State(), w, pools, now, duration);
      var found := FindClaimable(w, pools);
      if found.None? {
        return None;
      }
      var job := jobs[found.value];
      job := job.(status := Running, attempts := job.attempts + 1, result := None, terminalAttempt := None);
      job := job.(lease := Some(Lease(w.id, job.attempts, now, now + duration)), updatedAt := now);
      jobs := jobs[found.value := job];
      queues := queues.Remove(job.priority, found.value);
      assert State() == Claim(old(State()), w, pools, now, duration).0;
      Persist();
      return Some(job);
    }

    method Renew(id: JobId, worker: WorkerId, now: nat, duration: nat) returns (reply: RenewReply)
      requires Valid()
      modifies this, Disk()
      ensures Valid()
      ensures (State(), reply) == RenewLease(old(State()), id, worker, now, duration)
    {
      hide WellFormed;
      RenewKeepsWellFormed(State(), id, worker, now, duration);
      if id !in jobs {
        return RenewNotFound;
      }
      var job := jobs[id];
      if !job.status.Running? || job.lease.None? {
        return RenewNotRunning(job);
      }
      if job.lease.value.workerId != worker {
        return RenewLeaseNotHeld(job);
      }
      if job.lease.value.expiresAt <= now {
        return RenewExpired(job);
      }
      job := job.(lease := Some(job.lease.value.(expiresAt := now + duration)), updatedAt := now);
      jobs := jobs[id := job];
      assert State() == RenewLease(old(State()), id, worker, now, duration).0;
      Persist();
      return LeaseRenewed(job);
    }

    method Complete(id: JobId, worker: WorkerId, attempt: Option<nat>, result: Json, now: nat)
        returns (reply: FinishReply)
      requires Valid()
      modifies this, Disk()
      ensures Valid()
      ensures (State(), reply) == CompleteLease(old(State()), id, worker, attempt, result, now)
    {
      hide WellFormed;
      CompleteKeepsWellFormed(State(), id, worker, attempt, result, now);
      if id !in jobs {
        return NotFound;
      }
      var job := jobs[id];
      if !job.status.Running? || job.lease.None? {
        if job.status.Complete? && TerminalAttemptMatches(job, worker, attempt) && job.result == Some(result) {
          return IdempotentCompleted(job);
        }
        return NotRunning(job);
      }
      var lease := job.lease.value;
      if lease.workerId != worker {
        return LeaseNotHeld(job);
      }
      if attempt.Some? && attempt.value != lease.attempt {
        return LeaseNotHeld(job);
      }
      if lease.expiresAt <= now {
        return LeaseExpired(job);
      }
      job := job.(status := JobStatus.Complete, result := Some(result), error := None, lease := None);
      job := job.(terminalAttempt := Some(TerminalAttempt(worker, lease.attempt)), updatedAt := now);
      job := PrepareCallback(job);
      jobs := jobs[id := job];
      Persist();
      return JobCompleted(job);
    }

    method Fail(id: JobId, worker: WorkerId, attempt: Option<nat>, failure: Failure, now: nat)
        returns (reply: FinishReply)
      requires Valid()
      modifies this, Disk()
      ensures Valid()
      ensures (State(), reply) == FailLease(old(State()), id, worker, attempt, failure, now)
    {
      hide WellFormed, PrepareCallback, TerminalAttemptMatches;
      if id in jobs {
        OneJobOk(State(), id);
      }
      hide JobOk, Issued;
      FailKeepsWellFormed(State(), id, worker, attempt, failure, now);
      if id !in jobs {
        return NotFound;
      }
      var job := jobs[id];
      if !job.status.Running? || job.lease.None? {
        if job.status.Failed? && TerminalAttemptMatches(job, worker, attempt) && job.error == Some(failure) {
          return IdempotentFailed(job);
        }
        return NotRunning(job);
      }
      var lease := job.lease.value;
      if lease.workerId != worker {
        return LeaseNotHeld(job);
      }
      if attempt.Some? && attempt.value != lease.attempt {
        return LeaseNotHeld(job);
      }
      if lease.expiresAt <= now {
        return LeaseExpired(job);
      }
      job := job.(result := None, error := Some(failure), lease := None, updatedAt := now);
      if failure.retryable && job.attempts < job.maxAttempts {
        job := job.(status := Queued, terminalAttempt := None);
        jobs := jobs[id := job];
        queues := queues.Push(job.priority, job.id);
        Persist();
        return JobRequeued(job);
      }
      job := job.(status := JobStatus.Failed, terminalAttempt := Some(TerminalAttempt(worker, lease.attempt)));
      job := PrepareCallback(job);
      jobs := jobs[id := job];
      Persist();
      return JobFailed(job);
    }

    method Cancel(id: JobId, now: nat) returns (reply: CancelReply)
      requires Valid()
      modifies this, Disk()
      ensures Valid()
      ensures (State(), reply) == JobModel.Cancel(old(State()), id, now)
    {
      hide WellFormed;
      CancelKeepsWellFormed(State(), id, now);
      if id !in jobs {
        return CancelNotFound;
      }
      var job := jobs[id];
      if job.status.Terminal() {
        return AlreadyTerminal(job);
      }
      job := job.(status := Cancelled, updatedAt := now, terminalAttempt := None);
      job := PrepareCallback(job);
      jobs := jobs[id := job];
      queues := queues.Remove(job.priority, id);
      assert State() == JobModel.Cancel(old(State()), id, now).0;
      Persist();
      return JobCancelled(job);
    }

    /** The sweep's two loops: expire in submission order, then append the requeued jobs. */
    method RequeueExpiredLocked(now: nat) returns (report: SweepReport)
      requires WellFormed(State())
      modifies this
      ensures (State(), report) == Sweep(old(State()), now)
    {
      hide WellFormed, SweptAmong, Visited;
      ghost var r := State();
      var released: seq<WorkerId>, failedJobs: seq<Job>, requeued: seq<JobId>, failed := [], [], [], 0;
      NothingVisited(r, now);
      for i := 0 to |order|
        invariant State() == r.(jobs := SweptAmong(r.jobs, now, r.order[..i]))
        invariant Visited(r, now, i, requeued, released, failedJobs, failed)
      {
        var id := order[i];
        VisitStep(r, now, i, requeued, released, failedJobs, failed);
        SweptAmongStep(r.jobs, now, r.order[..i], id);
        if id in jobs && IsExpired(jobs[id], now) {
          var job := jobs[id];
          released := released + [job.lease.value.workerId];
          var retryable := job.attempts < job.maxAttempts;
          job := job.(result := None, error := Some(Failure(ATTEMPT_TIMEOUT_ERROR, retryable)));
          job := job.(lease := None, updatedAt := now);
          if retryable {
            job := job.(status := Queued);
            requeued := requeued + [id];
          } else {
            job := PrepareCallback(job.(status := JobStatus.Failed));
            failedJobs := failedJobs + [job];
            failed := failed + 1;
          }
          assert job == Swept(r.jobs[id], now);
          jobs := jobs[id := job];
        }
      }
      AllVisited(r, now, requeued, released, failedJobs, failed);
      AppendRequeued(r, now, requeued);
      report := SweepReport(|requeued|, failed, released, failedJobs);
    }

    method AppendRequeued(ghost r: Registry, now: nat, requeued: seq<JobId>)
      requires WellFormed(r) && State() == r.(jobs := SweptJobs(r.jobs, now))
      requires requeued == Filter(r.order, RequeueTest(r.jobs, now))
      modifies this`queues
      ensures State() == Sweep(r, now).0
    {
      hide WellFormed, Appended, SweptJobs;
      NoneAppended(r, requeued);
      for i := 0 to |requeued|
        invariant Appended(r, queues, requeued, i)
      {
        var id := requeued[i];
        NotQueuedYet(r, now, i);
        SweptKeepsPriority(r, now, id);
        AppendStep(r, queues, requeued, i);
        var p := jobs[id].priority;
        if id !in queues.Of(p) {
          queues := queues.Push(p, id);
        }
      }
      AllAppended(r, queues, now, requeued);
    }

    method RequeueExpired(now: nat) returns (report: SweepReport)
      requires Valid()
      modifies this, Disk()
      ensures Valid()
      ensures (State(), report) == Sweep(old(State()), now)
    {
      hide WellFormed, SweptJobs, Holders, Records, Filter;
      SweepKeepsWellFormed(State(), now);
      report := RequeueExpiredLocked(now);
      Persist();
    }

    /** The prune's loops: find victims in submission order up to the limit, then drop each one everywhere. */
    method PruneTerminal(now: nat) returns (report: PruneReport)
      requires Valid()
      modifies this, Disk()
      ensures Valid()
      ensures (State(), report) == Prune(old(State()), retention, now)
    {
      hide WellFormed, KeysOk, JobsWithout, KeysWithout, StatusCounts, Filter, ScanEnd, Victims, NoDuplicates, Lists;
      hide CountsInOrder, RankLe, RemoveFirst, SortBy, RowsOf;
      ghost var r := State();
      PruneKeepsWellFormed(r, retention, now);
      var removeIds: seq<JobId>, retained: nat := FindVictims(now);
      VictimsAre(r, retention, now);
      assert KeysOk(r) by {
        WellFormedKeys(r);
      }
      var byStatus: seq<StatusCount>, removed := [], 0;
      NothingRemoved(r);
      for i := 0 to |removeIds|
        invariant nextId == r.nextId && order == r.order && queues == r.queues
        invariant jobs == JobsWithout(r.jobs, removeIds[..i]) && keys == KeysWithout(r.keys, removeIds[..i])
        invariant Lists(byStatus, StatusCounts(r.jobs, removeIds[..i])) && removed == i
      {
        var id := removeIds[i];
        assert id in removeIds && id !in removeIds[..i] && id in r.jobs;
        assert removeIds[..i + 1] == removeIds[..i] + [id];
        RemovalStep(r, removeIds[..i], id);
        KeyRemovalStep(r, removeIds[..i], id);
        StatusCountsStep(r.jobs, removeIds, i);
        var job := jobs[id];
        jobs := jobs - {id};
        if job.key.Some? {
          keys := keys - {job.key.value};
        }
        queues := queues.Remove(job.priority, id);
        byStatus := RecordRemoved(byStatus, job.status, StatusCounts(r.jobs, removeIds[..i]));
        removed := removed + 1;
      }
      assert removeIds[..|removeIds|] == removeIds;
      order := Filter(order, RetainedTest(jobs));
      SortedListing(byStatus, StatusCounts(r.jobs, removeIds));
      report := PruneReport(removed, retained, SortBy(byStatus, RankLe));
      Persist();
    }

    /** One more removal with this status: its entry grows, or is made. */
    static method RecordRemoved(list: seq<StatusCount>, status: JobStatus, ghost counts: map<JobStatus, nat>)
      returns (after: seq<StatusCount>)
      requires Lists(list, counts)
      ensures Lists(after, counts[status := CountOf(counts, status) + 1])
    {
      for i := 0 to |list|
        invariant forall j :: 0 <= j < i ==> list[j].status != status
      {
        if list[i].status == status {
          EntryGrows(list, i, counts);
          return list[i := StatusCount(status, list[i].removed + 1)];
        }
      }
      EntryMade(list, status, counts);
      return list + [StatusCount(status, 1)];
    }

    method FindVictims(now: nat) returns (removeIds: seq<JobId>, retained: nat)
      requires WellFormed(State())
      ensures removeIds == Victims(State(), retention, now)
      ensures retained == |Filter(order[..ScanEnd(State(), retention, now, 0)], PendingTest(jobs, retention, now))|
    {
      hide Filter, ScanEnd, WellFormed, Victims;
      removeIds, retained := [], 0;
      NothingScanned(State(), retention, now);
      var i := 0;
      while i < |order| && |removeIds| < retention.maxPruned
        invariant i <= |order|
        invariant removeIds == Filter(order[..i], PruneTest(jobs, retention, now)) && |removeIds| <= retention.maxPruned
        invariant retained == |Filter(order[..i], PendingTest(jobs, retention, now))|
        invariant ScanEnd(State(), retention, now, 0) == ScanEnd(State(), retention, now, i)
      {
        ScanStep(State(), retention, now, i);
        var id := order[i];
        if id in jobs && Aged(jobs[id], retention, now) {
          if HasPendingCallback(jobs[id]) {
            retained := retained + 1;
          } else {
            removeIds := removeIds + [id];
          }
        }
        i := i + 1;
      }
      ScanStops(State(), retention, now, i);
    }

    method PendingCallbackJobs() returns (ids: seq<JobId>)
      ensures ids == PendingCallbacks(State())
    {
      ids := [];
      for i := 0 to |order|
        invariant ids == Filter(order[..i], DeliveryTest(jobs))
      {
        FilterPrefix(order, i, DeliveryTest(jobs));
        var id := order[i];
        if id in jobs && jobs[id].callbackUrl.Some? && jobs[id].status.Terminal() &&
           jobs[id].callback.Some? && jobs[id].callback.value.status.Pending? {
          ids := ids + [id];
        }
      }
      assert order[..|order|] == order;
    }

    method BeginCallbackAttempt(id: JobId, now: nat) returns (begun: Option<Job>)
      requires Valid()
      modifies this, Disk()
      ensures Valid()
      ensures (State(), begun) == BeginCallback(old(State()), id, now)
    {
      hide WellFormed;
      if id !in jobs {
        return None;
      }
      var job := jobs[id];
      if job.callbackUrl.None? || !job.status.Terminal() || job.callback.None? || !job.callback.value.status.Pending? {
        return None;
      }
      var callback := job.callback.value;
      callback := callback.(attempts := callback.attempts + 1);
      callback := callback.(lastAttemptAt := Some(now));
      CallbackKeepsWellFormed(State(), id, callback);
      job := job.(callback := Some(callback));
      jobs := jobs[id := job];
      Persist();
      return Some(job);
    }

    method RecordCallbackSuccess(id: JobId, http: nat, now: nat) returns (recorded: Option<Job>)
      requires Valid()
      modifies this, Disk()
      ensures Valid()
      ensures (State(), recorded) == CallbackSucceeded(old(State()), id, http, now)
    {
      if id !in jobs || jobs[id].callback.None? {
        return None;
      }
      var job := jobs[id];
      var callback := job.callback.value.(status := Delivered, deliveredAt := Some(now));
      callback := callback.(lastHttpStatus := Some(http), lastError := None);
      CallbackKeepsWellFormed(State(), id, callback);
      job := job.(callback := Some(callback));
      jobs := jobs[id := job];
      Persist();
      return Some(job);
    }

    method RecordCallbackFailure(id: JobId, http: Option<nat>, error: Option<string>) returns (recorded: Option<Job>)
      requires Valid()
      modifies this, Disk()
      ensures Valid()
      ensures (State(), recorded) == CallbackFailed(old(State()), id, http, error)
    {
      if id !in jobs || jobs[id].callback.None? {
        return None;
      }
      var job := jobs[id];
      if !job.callback.value.status.Pending? {
        return None;
      }
      var callback := job.callback.value.(lastHttpStatus := http, lastError := error);
      CallbackKeepsWellFormed(State(), id, callback);
      job := job.(callback := Some(callback));
      jobs := jobs[id := job];
      Persist();
      return Some(job);
    }
  }

  // ---------- Steps of the loops ----------

  /** The jobs once the sweep has visited these ids. */
  ghost function SweptAmong(jobs: map<JobId, Job>, now: nat, ids: seq<JobId>): map<JobId, Job> {
    map id | id in jobs :: if id in ids then Swept(jobs[id], now) else jobs[id]
  }

  lemma SweptAmongStep(jobs: map<JobId, Job>, now: nat, ids: seq<JobId>, id: JobId)
    requires id in jobs && id !in ids
    ensures id in SweptAmong(jobs, now, ids) && SweptAmong(jobs, now, ids)[id] == jobs[id]
    ensures !IsExpired(jobs[id], now) ==> SweptAmong(jobs, now, ids + [id]) == SweptAmong(jobs, now, ids)
    ensures SweptAmong(jobs, now, ids + [id]) == SweptAmong(jobs, now, ids)[id := Swept(jobs[id], now)]
  {
  }

  /** What the sweep's first loop has gathered once it has visited the first i jobs. */
  ghost predicate Visited(
    r: Registry, now: nat, i: nat, requeued: seq<JobId>, released: seq<WorkerId>, failedJobs: seq<Job>, failed: nat)
  {
    && i <= |r.order|
    && requeued == Filter(r.order[..i], RequeueTest(r.jobs, now))
    && released == Holders(r.jobs, Filter(r.order[..i], ExpiredTest(r.jobs, now)))
    && failedJobs == Records(SweptJobs(r.jobs, now), Filter(r.order[..i], TimeoutTest(r.jobs, now)))
    && failed == |Filter(r.order[..i], TimeoutTest(r.jobs, now))|
  }

  lemma NothingVisited(r: Registry, now: nat)
    ensures SweptAmong(r.jobs, now, r.order[..0]) == r.jobs && Visited(r, now, 0, [], [], [], 0)
  {
  }

  lemma AllVisited(
    r: Registry, now: nat, requeued: seq<JobId>, released: seq<WorkerId>, failedJobs: seq<Job>, failed: nat)
    requires WellFormed(r) && Visited(r, now, |r.order|, requeued, released, failedJobs, failed)
    ensures SweptAmong(r.jobs, now, r.order[..|r.order|]) == SweptJobs(r.jobs, now)
    ensures requeued == Filter(r.order, RequeueTest(r.jobs, now))
    ensures SweepReport(|requeued|, failed, released, failedJobs) == Sweep(r, now).1
  {
    hide WellFormed;
    OrderIsOk(r);
    assert r.order[..|r.order|] == r.order;
  }

  /** The next job joins what it belongs to: nothing, the requeued and released, or the failed and released. */
  lemma VisitStep(
    r: Registry, now: nat, i: nat, requeued: seq<JobId>, released: seq<WorkerId>, failedJobs: seq<Job>, failed: nat)
    requires WellFormed(r) && i < |r.order| && Visited(r, now, i, requeued, released, failedJobs, failed)
    ensures r.order[i] in r.jobs && r.order[i] !in r.order[..i]
    ensures r.order[..i + 1] == r.order[..i] + [r.order[i]]
    ensures var (id, job) := (r.order[i], r.jobs[r.order[i]]);
      if !IsExpired(job, now) then Visited(r, now, i + 1, requeued, released, failedJobs, failed)
      else if Retries(job, true) then
        Visited(r, now, i + 1, requeued + [id], released + [job.lease.value.workerId], failedJobs, failed)
      else
        Visited(r, now, i + 1, requeued, released + [job.lease.value.workerId],
                failedJobs + [Swept(job, now)], failed + 1)
  {
    hide WellFormed, Filter, Holders, Records;
    SweepLoopStep(r, now, i);
    ReleaseStep(r, now, i);
    TimeoutStep(r, now, i);
  }

  lemma SweepLoopStep(r: Registry, now: nat, i: nat)
    requires WellFormed(r) && i < |r.order|
    ensures r.order[i] in r.jobs && r.order[i] !in r.order[..i]
    ensures r.order[..i + 1] == r.order[..i] + [r.order[i]]
    ensures var (id, o) := (r.order[i], r.order);
      Filter(o[..i + 1], RequeueTest(r.jobs, now)) ==
      if IsExpired(r.jobs[id], now) && Retries(r.jobs[id], true) then Filter(o[..i], RequeueTest(r.jobs, now)) + [id]
      else Filter(o[..i], RequeueTest(r.jobs, now))
  {
    hide WellFormed;
    OrderIsOk(r);
    assert r.order[i] in r.order;
    FilterPrefix(r.order, i, RequeueTest(r.jobs, now));
  }

  lemma ReleaseStep(r: Registry, now: nat, i: nat)
    requires WellFormed(r) && i < |r.order|
    ensures r.order[i] in r.jobs
    ensures var (id, o) := (r.order[i], r.order);
      Holders(r.jobs, Filter(o[..i + 1], ExpiredTest(r.jobs, now))) ==
      if IsExpired(r.jobs[id], now) then
        Holders(r.jobs, Filter(o[..i], ExpiredTest(r.jobs, now))) + [r.jobs[id].lease.value.workerId]
      else Holders(r.jobs, Filter(o[..i], ExpiredTest(r.jobs, now)))
  {
    hide WellFormed;
    OrderIsOk(r);
    var id := r.order[i];
    assert id in r.order;
    FilterPrefix(r.order, i, ExpiredTest(r.jobs, now));
    if IsExpired(r.jobs[id], now) {
      HoldersPush(r.jobs, Filter(r.order[..i], ExpiredTest(r.jobs, now)), id);
    }
  }

  lemma TimeoutStep(r: Registry, now: nat, i: nat)
    requires WellFormed(r) && i < |r.order|
    ensures r.order[i] in r.jobs
    ensures var (id, o, swept) := (r.order[i], r.order, SweptJobs(r.jobs, now));
      var timedOut := IsExpired(r.jobs[id], now) && !Retries(r.jobs[id], true);
      && |Filter(o[..i + 1], TimeoutTest(r.jobs, now))| == |Filter(o[..i], TimeoutTest(r.jobs, now))| + Count(timedOut)
      && Records(swept, Filter(o[..i + 1], TimeoutTest(r.jobs, now))) ==
         if timedOut then Records(swept, Filter(o[..i], TimeoutTest(r.jobs, now))) + [swept[id]]
         else Records(swept, Filter(o[..i], TimeoutTest(r.jobs, now)))
  {
    hide WellFormed;
    OrderIsOk(r);
    var id, swept := r.order[i], SweptJobs(r.jobs, now);
    assert id in r.order;
    FilterPrefix(r.order, i, TimeoutTest(r.jobs, now));
    if IsExpired(r.jobs[id], now) && !Retries(r.jobs[id], true) {
      RecordsPush(swept, Filter(r.order[..i], TimeoutTest(r.jobs, now)), id);
    }
  }

  lemma RecordsPush(jobs: map<JobId, Job>, ids: seq<JobId>, id: JobId)
    requires forall i :: i in ids + [id] ==> i in jobs
    ensures id in ids + [id] && forall i :: i in ids ==> i in ids + [id]
    ensures Records(jobs, ids + [id]) == Records(jobs, ids) + [jobs[id]]
  {
    assert (ids + [id])[|ids|] == id;
  }

  /** The queues hold their old contents and then the first i requeued ids of their own priority. */
  ghost predicate Appended(r: Registry, queues: Queues, requeued: seq<JobId>, i: nat) {
    && i <= |requeued|
    && forall p :: queues.Of(p) == r.queues.Of(p) + Filter(requeued[..i], PriorityTest(r.jobs, p))
  }

  lemma NoneAppended(r: Registry, requeued: seq<JobId>)
    ensures Appended(r, r.queues, requeued, 0)
  {
  }

  lemma AllAppended(r: Registry, queues: Queues, now: nat, requeued: seq<JobId>)
    requires requeued == Filter(r.order, RequeueTest(r.jobs, now)) && Appended(r, queues, requeued, |requeued|)
    ensures queues == Sweep(r, now).0.queues
  {
    assert requeued[..|requeued|] == requeued;
    assert queues.Of(Realtime) == r.queues.realtime + RequeuedIn(r, now, Realtime);
    assert queues.Of(Batch) == r.queues.batch + RequeuedIn(r, now, Batch);
    assert queues.Of(Background) == r.queues.background + RequeuedIn(r, now, Background);
  }

  lemma SweptKeepsPriority(r: Registry, now: nat, id: JobId)
    requires id in r.jobs
    ensures id in SweptJobs(r.jobs, now) && SweptJobs(r.jobs, now)[id].priority == r.jobs[id].priority
  {
  }

  /** Appending one requeued id to its queue is one more step of that queue's filter, and of no other's. */
  lemma AppendStep(r: Registry, queues: Queues, requeued: seq<JobId>, i: nat)
    requires i < |requeued| && requeued[i] in r.jobs
    requires Appended(r, queues, requeued, i)
    ensures var (id, p) := (requeued[i], r.jobs[requeued[i]].priority);
      && Appended(r, queues.Push(p, id), requeued, i + 1)
      && (id in queues.Of(p) ==> id in r.queues.Of(p) || id in requeued[..i])
  {
    var id, p := requeued[i], r.jobs[requeued[i]].priority;
    forall q ensures queues.Push(p, id).Of(q) == r.queues.Of(q) + Filter(requeued[..i + 1], PriorityTest(r.jobs, q)) {
      FilterPrefix(requeued, i, PriorityTest(r.jobs, q));
      var before := Filter(requeued[..i], PriorityTest(r.jobs, q));
      if q == p {
        assert queues.Push(p, id).Of(q) == queues.Of(q) + [id];
        assert r.queues.Of(q) + (before + [id]) == r.queues.Of(q) + before + [id];
      } else {
        assert queues.Push(p, id).Of(q) == queues.Of(q);
        assert before + [] == before;
      }
    }
  }

  /** A job being requeued is in no queue yet. */
  lemma NotQueuedYet(r: Registry, now: nat, i: nat)
    requires WellFormed(r) && i < |Filter(r.order, RequeueTest(r.jobs, now))|
    ensures var requeued := Filter(r.order, RequeueTest(r.jobs, now));
      && requeued[i] in r.jobs && requeued[i] !in requeued[..i]
      && requeued[i] !in r.queues.Of(r.jobs[requeued[i]].priority)
  {
    var requeued := Filter(r.order, RequeueTest(r.jobs, now));
    assert requeued[i] in requeued;
    FilterNoDuplicates(r.order, RequeueTest(r.jobs, now));
    assert QueueOk(r, r.jobs[requeued[i]].priority);
  }

  /** What was loaded is the saved registry but for `nextId`. */
  lemma LoadedIsRestored(saved: Registry, inner: Registry)
    requires WellFormed(saved) && saved.nextId <= U64_MAX && Loaded(RowsOf(saved), inner)
    ensures inner == saved.(nextId := LargestIn(saved.order)) && inner.nextId <= saved.nextId
    ensures WellFormed(inner) && RowsOf(inner) == RowsOf(saved)
  {
    LoadInvertsReplace(saved, inner);
    OrderIsOk(saved);
    LargestIsUnique(saved, inner.nextId);
    RestoredWellFormed(saved, inner.nextId);
  }

  /** The recovered registry is consistent, and if nothing expired the table already holds it. */
  lemma RestartIsDurable(saved: Registry, inner: Registry, now: nat)
    requires WellFormed(saved) && WellFormed(inner) && RowsOf(inner) == RowsOf(saved)
    requires inner == saved.(nextId := LargestIn(saved.order))
    ensures var (q, report) := Sweep(inner, now);
      && q == Restarted(saved, now) && q.nextId == inner.nextId && WellFormed(q)
      && (report.requeued == 0 && report.failed == 0 ==> RowsOf(q) == RowsOf(saved))
  {
    SweepKeepsWellFormed(inner, now);
    if Sweep(inner, now).1.requeued == 0 && Sweep(inner, now).1.failed == 0 {
      QuietSweep(inner, now);
    }
  }

  lemma QuietSweep(r: Registry, now: nat)
    requires WellFormed(r) && Sweep(r, now).1.requeued == 0 && Sweep(r, now).1.failed == 0
    ensures Sweep(r, now).0 == r
  {
    forall id | id in r.jobs ensures !IsExpired(r.jobs[id], now) {
      assert id in r.order;
      assert id !in Filter(r.order, RequeueTest(r.jobs, now));
      assert id !in Filter(r.order, TimeoutTest(r.jobs, now));
    }
    NothingExpired(r, now);
  }

  lemma WellFormedKeys(r: Registry)
    requires WellFormed(r)
    ensures KeysOk(r)
  {
  }

  lemma NothingScanned(r: Registry, policy: RetentionPolicy, now: nat)
    ensures Filter(r.order[..0], PruneTest(r.jobs, policy, now)) ==
            Filter(r.order[..0], PendingTest(r.jobs, policy, now)) == []
  {
  }

  /** While the limit is not reached the scan goes on, and the next job joins the victims, the kept ones or neither. */
  lemma ScanStep(r: Registry, policy: RetentionPolicy, now: nat, i: nat)
    requires i < |r.order| && |Filter(r.order[..i], PruneTest(r.jobs, policy, now))| < policy.maxPruned
    ensures ScanEnd(r, policy, now, i) == ScanEnd(r, policy, now, i + 1)
    ensures var (victim, kept, id) := (PruneTest(r.jobs, policy, now), PendingTest(r.jobs, policy, now), r.order[i]);
      && Filter(r.order[..i + 1], victim) == Filter(r.order[..i], victim) + (if victim(id) then [id] else [])
      && |Filter(r.order[..i + 1], kept)| == |Filter(r.order[..i], kept)| + Count(kept(id))
  {
    FilterPrefix(r.order, i, PruneTest(r.jobs, policy, now));
    FilterPrefix(r.order, i, PendingTest(r.jobs, policy, now));
  }

  lemma ScanStops(r: Registry, policy: RetentionPolicy, now: nat, i: nat)
    requires i <= |r.order| && |Filter(r.order[..i], PruneTest(r.jobs, policy, now))| <= policy.maxPruned
    requires i == |r.order| || |Filter(r.order[..i], PruneTest(r.jobs, policy, now))| == policy.maxPruned
    ensures ScanEnd(r, policy, now, i) == i
    ensures Filter(r.order[..i], PruneTest(r.jobs, policy, now)) == Victims(r, policy, now)
  {
    hide Filter;
    ScanFindsVictims(r, policy, now, i);
  }

  /** The parts are normalized one after the other, and the first complaint wins. */
  lemma NormalizeParts(q: SubmitRequest)
    ensures var url, key := NormalizeCallbackUrl(q.callbackUrl), NormalizeKey(q.key);
      Normalize(q) == if url.Err? then Err(url.message) else if key.Err? then Err(key.message)
                      else Ok(q.(callbackUrl := url.value, key := key.value))
  {
    hide NormalizeCallbackUrl, NormalizeKey;
  }

  predicate RankLe(a: StatusCount, b: StatusCount) { StatusRank(a.status) <= StatusRank(b.status) }

  lemma EntryGrows(list: seq<StatusCount>, i: nat, counts: map<JobStatus, nat>)
    requires i < |list| && Lists(list, counts)
    ensures var c := list[i];
      Lists(list[i := StatusCount(c.status, c.removed + 1)], counts[c.status := CountOf(counts, c.status) + 1])
  {
    var c := list[i];
    assert c in list;
    var after, counts' := list[i := StatusCount(c.status, c.removed + 1)], counts[c.status := c.removed + 1];
    assert after[i] == StatusCount(c.status, c.removed + 1);
    forall d ensures d in after <==> d.status in counts' && counts'[d.status] == d.removed {
      if d in list && d.status != c.status {
        var j :| 0 <= j < |list| && list[j] == d;
        assert after[j] == d;
      }
      if d in after && d != after[i] {
        var j :| 0 <= j < |after| && after[j] == d;
        assert list[j] == d && list[j] in list;
      }
    }
  }

  lemma EntryMade(list: seq<StatusCount>, status: JobStatus, counts: map<JobStatus, nat>)
    requires Lists(list, counts) && forall j :: 0 <= j < |list| ==> list[j].status != status
    ensures Lists(list + [StatusCount(status, 1)], counts[status := CountOf(counts, status) + 1])
  {
    assert StatusCount(status, CountOf(counts, status)) !in list;
  }

  /** Sorted by rank, the entries made are the report's list. */
  lemma SortedListing(list: seq<StatusCount>, counts: map<JobStatus, nat>)
    requires Lists(list, counts)
    ensures SortBy(list, RankLe) == CountsInOrder(ALL_STATUSES, counts)
  {
    SortBySorts(list, RankLe);
    OneListing(SortBy(list, RankLe), counts);
  }

  lemma NothingRemoved(r: Registry)
    ensures JobsWithout(r.jobs, []) == r.jobs && KeysWithout(r.keys, []) == r.keys
    ensures Lists([], StatusCounts(r.jobs, []))
  {
  }

  /** Dropping one victim: its key goes with it, and no queue lists it. */
  lemma RemovalStep(r: Registry, gone: seq<JobId>, id: JobId)
    requires WellFormed(r) && id in r.jobs && r.jobs[id].status.Terminal() && id !in gone
    ensures id in JobsWithout(r.jobs, gone) && JobsWithout(r.jobs, gone)[id] == r.jobs[id]
    ensures JobsWithout(r.jobs, gone + [id]) == JobsWithout(r.jobs, gone) - {id}
    ensures r.queues.Remove(r.jobs[id].priority, id) == r.queues
  {
    assert QueueOk(r, r.jobs[id].priority);
  }

  lemma KeyRemovalStep(r: Registry, gone: seq<JobId>, id: JobId)
    requires KeysOk(r) && id in r.jobs && id !in gone
    ensures KeysWithout(r.keys, gone + [id]) ==
            if r.jobs[id].key.Some? then KeysWithout(r.keys, gone) - {r.jobs[id].key.value}
            else KeysWithout(r.keys, gone)
  {
    var key := r.jobs[id].key;
    forall k | k in r.keys ensures r.keys[k] == id <==> key == Some(k) {
    }
    hide KeysOk;
    forall k | k in r.keys ensures r.keys[k] !in gone + [id] <==> r.keys[k] !in gone && key != Some(k) {
    }
  }

  lemma StatusCountsStep(jobs: map<JobId, Job>, victims: seq<JobId>, i: nat)
    requires i < |victims| && victims[i] in jobs && jobs[victims[i]].status.Terminal()
    ensures StatusCounts(jobs, victims[..i + 1]) ==
            var (s, c) := (jobs[victims[i]].status, StatusCounts(jobs, victims[..i])); c[s := CountOf(c, s) + 1]
  {
    assert victims[..i + 1][..i] == victims[..i];
  }
}
