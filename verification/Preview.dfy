/** The scheduler's preview (src/scheduler.rs) and its agreement with what a claim would do. */
module Preview {
  import opened Collections
  import opened JobIds
  import opened JobModel
  import opened JobInvariant
  import opened JobExactness
  import opened Workers

  /** Queued jobs in claim order. */
  function QueuedJobs(r: Registry): seq<Job> {
    Records(r.jobs, Filter(r.queues.InClaimOrder(), StatusTest(r.jobs, Queued)))
  }

  predicate Suits(s: Snapshot, job: Job, pools: PoolPolicy) {
    s.CanAcceptWork() && job.kind in s.worker.jobTypes && Allows(pools, job.kind.Name(), s.worker.pool)
  }

  function FindWorker(workers: seq<Snapshot>, job: Job, pools: PoolPolicy): Option<Snapshot> {
    if workers == [] then None
    else if Suits(workers[0], job, pools) then Some(workers[0])
    else FindWorker(workers[1..], job, pools)
  }

  function PreviewFrom(queued: seq<Job>, workers: seq<Snapshot>, pools: PoolPolicy): Option<(Job, Snapshot)> {
    if queued == [] then None
    else
      match FindWorker(workers, queued[0], pools)
      case Some(worker) => Some((queued[0], worker))
      case None => PreviewFrom(queued[1..], workers, pools)
  }

  lemma {:induction false} FindWorkerIs(workers: seq<Snapshot>, job: Job, pools: PoolPolicy)
    ensures var found := FindWorker(workers, job, pools);
      && (found.Some? ==> found.value in workers && Suits(found.value, job, pools))
      && (found.None? ==> forall s :: s in workers ==> !Suits(s, job, pools))
  {
    if workers != [] {
      FindWorkerIs(workers[1..], job, pools);
    }
  }

  /** Along any line of queued jobs, the preview stops where the worker it names would claim. */
  lemma {:induction false} PreviewAlong(r: Registry, ids: seq<JobId>, workers: seq<Snapshot>, pools: PoolPolicy)
    requires forall id :: id in ids ==> id in r.jobs && r.jobs[id].status.Queued? && r.jobs[id].id == id
    ensures var p := PreviewFrom(Records(r.jobs, ids), workers, pools);
      && (p.Some? ==>
            && p.value.1 in workers && p.value.1.CanAcceptWork()
            && FirstClaimable(r, ids, p.value.1.worker.Profile(), pools) == Some(p.value.0.id)
            && p.value.0.id in r.jobs && r.jobs[p.value.0.id] == p.value.0)
      && (p.None? ==>
            forall w :: w in workers && w.CanAcceptWork() ==> FirstClaimable(r, ids, w.worker.Profile(), pools).None?)
  {
    if ids != [] {
      var job := r.jobs[ids[0]];
      assert ids[0] in ids;
      FindWorkerIs(workers, job, pools);
      assert Records(r.jobs, ids)[1..] == Records(r.jobs, ids[1..]);
      PreviewAlong(r, ids[1..], workers, pools);
    }
  }

  /**
   In one fixed state: a preview (job, worker) is exactly the job a claim by that worker would take, and
   no preview means that no fresh, non-draining worker could claim anything.
   */
  lemma PreviewAgreesWithClaim(
    r: Registry, workers: seq<Snapshot>, pools: PoolPolicy, now: nat, duration: nat)
    requires WellFormed(r)
    ensures var p := PreviewFrom(QueuedJobs(r), workers, pools);
      && (p.Some? ==>
            var (job, found) := p.value;
            && found in workers && found.CanAcceptWork()
            && Claim(r, found.worker.Profile(), pools, now, duration).1 ==
               Some(ClaimedBy(job, found.worker.id, now, duration)))
      && (p.None? <==>
            forall w :: w in workers && w.CanAcceptWork() ==>
                Claim(r, w.worker.Profile(), pools, now, duration).1.None?)
  {
    var line := r.queues.InClaimOrder();
    LineMembers(r);
    FilterAll(line, StatusTest(r.jobs, Queued));
    assert JobsOk(r);
    hide WellFormed;
    PreviewAlong(r, line, workers, pools);
  }
}
