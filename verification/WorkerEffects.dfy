/**
 The worker registry and the preview said in plain fields: what registration accepts and keeps, who is given a slot and
 what every other call changes, and which job and worker a preview names.
 */
module WorkerEffects {
  import opened Collections
  import opened JobIds
  import opened JobModel
  import opened JobInvariant
  import opened JobExactness
  import opened JobEffects
  import opened Workers
  import opened Preview

  // ---------- The registry of workers ----------

  /** What a caller sees: the free slots of a worker with a maximum, none while it drains, and whether it is stale. */
  lemma SnapshotMeans(w: Worker, staleAfter: nat, now: nat)
    ensures var s := SnapshotOf(w, staleAfter, now);
      && s.worker == w
      && (s.stale <==> staleAfter == 0 || w.observedAt + staleAfter <= now)
      && (s.availableSlots.None? <==> w.maxConcurrentJobs.None?)
      && (w.maxConcurrentJobs.Some? && (w.draining || w.maxConcurrentJobs.value <= w.inFlight) ==>
            s.availableSlots == Some(0))
      && (w.maxConcurrentJobs.Some? && !w.draining && w.inFlight < w.maxConcurrentJobs.value ==>
            s.availableSlots == Some(w.maxConcurrentJobs.value - w.inFlight))
  {
  }

  /**
   A slot is given exactly to a registered worker seen less than `staleAfter` ago that is not draining and has fewer in
   use than its maximum; a refusal names the first of these that fails and changes nothing.
   */
  lemma AcquireEffect(ws: WorkerMap, id: WorkerId, staleAfter: nat, now: nat)
    ensures id !in ws ==> TryAcquire(ws, id, staleAfter, now) == (ws, NoWorker)
    ensures id in ws ==>
      var w := ws[id]; var (after, reply) := TryAcquire(ws, id, staleAfter, now);
      if staleAfter == 0 || w.observedAt + staleAfter <= now then after == ws && reply.Stale?
      else if w.draining then after == ws && reply.Draining?
      else if w.maxConcurrentJobs.Some? && w.maxConcurrentJobs.value <= w.inFlight then after == ws && reply.AtCapacity?
      else
        && after == ws[id := w.(inFlight := w.inFlight + 1)]
        && reply.Acquired? && reply.snapshot.worker == w.(inFlight := w.inFlight + 1)
    ensures var reply := TryAcquire(ws, id, staleAfter, now).1;
      id in ws && !reply.Acquired? ==> !reply.NoWorker? && reply.snapshot == SnapshotOf(ws[id], staleAfter, now)
  {
  }

  /** Every other call: an unknown worker is left unknown, a known one changes in these fields, no other changes. */
  lemma CallEffects(ws: WorkerMap, id: WorkerId, now: nat)
    ensures id !in ws ==>
      Released(ws, id) == WithHeartbeat(ws, id, now) == Drained(ws, id) == Reactivated(ws, id, now)
      == Deregistered(ws, id) == ws
    ensures id in ws ==>
      var w := ws[id];
      && Released(ws, id) == ws[id := w.(inFlight := if w.inFlight == 0 then 0 else w.inFlight - 1)]
      && WithHeartbeat(ws, id, now) == ws[id := w.(lastSeenAt := now, observedAt := now)]
      && Drained(ws, id) == ws[id := w.(draining := true)]
      && Reactivated(ws, id, now) == ws[id := w.(draining := false, lastSeenAt := now, observedAt := now)]
      && (w.inFlight > 0 ==> Deregistered(ws, id) == ws[id := w.(draining := true)])
      && (w.inFlight == 0 ==> Deregistered(ws, id).Keys == ws.Keys - {id})
      && (w.inFlight == 0 ==> forall k :: k in Deregistered(ws, id) ==> k in ws && Deregistered(ws, id)[k] == ws[k])
  {
  }

  /**
   A registration is accepted exactly when, trimmed, it has an id, an http or https endpoint and a pool, and it names a
   kind of job and no maximum of zero. A worker known under that id keeps its slots, its draining mark and its date.
   */
  lemma RegisterEffect(ws: WorkerMap, q: RegisterRequest, now: nat)
    ensures Registered(ws, q, now).1.Ok? <==>
            && Trim(q.id) != "" && Trim(q.pool) != ""
            && ("http://" <= Trim(q.endpointUrl) || "https://" <= Trim(q.endpointUrl))
            && q.jobTypes != [] && q.maxConcurrentJobs != Some(0)
    ensures Registered(ws, q, now).1.Err? ==> Registered(ws, q, now).0 == ws
    ensures Registered(ws, q, now).1.Ok? ==>
      var id := Trim(q.id); var known := id in ws;
      var node := if q.nodeId.None? || Trim(q.nodeId.value) == "" then None else Some(Trim(q.nodeId.value));
      var w := Worker(id, Trim(q.endpointUrl), node, Trim(q.pool), q.jobTypes, q.maxConcurrentJobs, q.availableVramMb,
                      if known then ws[id].inFlight else 0, known && ws[id].draining,
                      if known then ws[id].registeredAt else now, now, now);
      Registered(ws, q, now) == (ws[id := w], Ok(w))
  {
    hide Trim;
  }

  // ---------- The preview ----------

  lemma {:induction false} FirstSuiting(workers: seq<Snapshot>, job: Job, pools: PoolPolicy) returns (m: nat)
    requires FindWorker(workers, job, pools).Some?
    ensures m < |workers| && FindWorker(workers, job, pools) == Some(workers[m]) && Suits(workers[m], job, pools)
    ensures forall i :: 0 <= i < m ==> !Suits(workers[i], job, pools)
  {
    m := 0;
    if !Suits(workers[0], job, pools) {
      var n := FirstSuiting(workers[1..], job, pools);
      m := n + 1;
      assert forall i :: 1 <= i < m ==> workers[i] == workers[1..][i - 1];
    }
  }

  /** Along the line of queued jobs the preview stops at the first job that some worker suits. */
  lemma {:induction false} PreviewStops(queued: seq<Job>, workers: seq<Snapshot>, pools: PoolPolicy) returns (k: nat)
    ensures k <= |queued| && (PreviewFrom(queued, workers, pools).None? <==> k == |queued|)
    ensures forall i, w :: 0 <= i < k && w in workers ==> !Suits(w, queued[i], pools)
    ensures k < |queued| ==>
      && FindWorker(workers, queued[k], pools).Some?
      && PreviewFrom(queued, workers, pools) == Some((queued[k], FindWorker(workers, queued[k], pools).value))
  {
    k := 0;
    if queued != [] {
      FindWorkerIs(workers, queued[0], pools);
      if FindWorker(workers, queued[0], pools).None? {
        var n := PreviewStops(queued[1..], workers, pools);
        k := n + 1;
        assert forall i :: 1 <= i < k ==> queued[i] == queued[1..][i - 1];
      }
    }
  }

  /** A worker suits a job: seen recently, not draining, and it takes jobs of this kind in a pool the kind may use. */
  lemma SuitsMeans(s: Snapshot, job: Job, pools: PoolPolicy)
    ensures Suits(s, job, pools) <==>
            && !s.stale && !s.worker.draining && job.kind in s.worker.jobTypes
            && (job.kind.Name() in pools ==> s.worker.pool in pools[job.kind.Name()])
  {
  }

  lemma QueuedAre(r: Registry)
    requires WellFormed(r)
    ensures var line := r.queues.InClaimOrder();
      && (forall id :: id in line <==> id in r.jobs && r.jobs[id].status.Queued?)
      && (forall id :: id in line ==> r.jobs[id].id == id)
      && QueuedJobs(r) == Records(r.jobs, line)
  {
    LineMembers(r);
    FilterAll(r.queues.InClaimOrder(), StatusTest(r.jobs, Queued));
    assert JobsOk(r);
  }

  /** Where in the line of queued jobs the preview stops; at its end when it names nothing. */
  lemma PreviewAt(r: Registry, workers: seq<Snapshot>, pools: PoolPolicy) returns (k: nat)
    requires WellFormed(r)
    ensures var line := r.queues.InClaimOrder();
      && k <= |line| && (PreviewFrom(QueuedJobs(r), workers, pools).None? <==> k == |line|)
      && (forall id, w :: id in r.jobs && r.jobs[id].status.Queued? && w in workers && Suits(w, r.jobs[id], pools) ==>
            k < |line| && id in line && k <= IndexOf(line, id))
      && (k < |line| ==>
            && line[k] in r.jobs && r.jobs[line[k]].status.Queued? && r.jobs[line[k]].id == line[k]
            && IndexOf(line, line[k]) == k
            && FindWorker(workers, r.jobs[line[k]], pools).Some?
            && PreviewFrom(QueuedJobs(r), workers, pools) ==
               Some((r.jobs[line[k]], FindWorker(workers, r.jobs[line[k]], pools).value)))
  {
    hide WellFormed, Suits, FindWorker, PreviewFrom, QueuedJobs, IndexOf;
    var line, queued := r.queues.InClaimOrder(), QueuedJobs(r);
    QueuedAre(r);
    k := PreviewStops(queued, workers, pools);
    forall id, w | id in r.jobs && r.jobs[id].status.Queued? && w in workers && Suits(w, r.jobs[id], pools)
      ensures id in line && k <= IndexOf(line, id)
    {
      assert queued[IndexOf(line, id)] == r.jobs[id];
    }
    if k < |line| {
      assert line[k] in line;
      FindWorkerIs(workers, queued[k], pools);
      assert k <= IndexOf(line, line[k]);
      assert line[k] !in line[..IndexOf(line, line[k])];
    }
  }

  /**
   The preview names a queued job that some worker suits, none more urgent and none before it in its own queue, and the
   first worker that suits it; it names nothing exactly when no worker suits any queued job.
   */
  lemma PreviewChoice(r: Registry, workers: seq<Snapshot>, pools: PoolPolicy)
    requires WellFormed(r)
    ensures var p := PreviewFrom(QueuedJobs(r), workers, pools);
      p.None? <==> forall id, w :: id in r.jobs && r.jobs[id].status == Queued && w in workers ==>
          !Suits(w, r.jobs[id], pools)
    ensures var p := PreviewFrom(QueuedJobs(r), workers, pools);
      p.Some? ==>
        var (job, found) := p.value;
        && job.id in r.jobs && r.jobs[job.id] == job && job.status == Queued && job.id in r.queues.Of(job.priority)
        && (exists m :: 0 <= m < |workers| && workers[m] == found && Suits(found, job, pools)
                        && forall i :: 0 <= i < m ==> !Suits(workers[i], job, pools))
        && (forall other, w ::
              && other in r.jobs && r.jobs[other].status == Queued && w in workers && Suits(w, r.jobs[other], pools) ==>
                && (r.jobs[other].priority == Realtime ==> job.priority == Realtime)
                && (r.jobs[other].priority == Batch ==> job.priority != Background)
                && (other != job.id && r.jobs[other].priority == job.priority ==>
                      && other in r.queues.Of(job.priority)
                      && IndexOf(r.queues.Of(job.priority), job.id) < IndexOf(r.queues.Of(job.priority), other)))
  {
    hide WellFormed, Suits, FindWorker, PreviewFrom, QueuedJobs, IndexOf;
    var k := PreviewAt(r, workers, pools);
    if k < |r.queues.InClaimOrder()| {
      var id := r.queues.InClaimOrder()[k];
      var m := FirstSuiting(workers, r.jobs[id], pools);
      PlaceInLine(r, id);
      assert workers[m] in workers && r.jobs[id].status == Queued;
      forall other, w |
        other in r.jobs && r.jobs[other].status == Queued && w in workers && Suits(w, r.jobs[other], pools)
        ensures NotAhead(r, other, id)
      {
        PlaceInLine(r, other);
        LaterInLine(r, other, id);
      }
    }
  }
}
