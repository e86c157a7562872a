/** The worker registry (src/workers.rs): who may take work, and how many slots are in use. */
module Workers {
  import opened Collections
  import opened JobModel

  datatype RegisterRequest = RegisterRequest(
    id: string, endpointUrl: string, nodeId: Option<string>, pool: string, jobTypes: seq<JobKind>,
    maxConcurrentJobs: Option<nat>, availableVramMb: Option<nat>)

  datatype Worker = Worker(
    id: WorkerId, endpointUrl: string, nodeId: Option<string>, pool: string, jobTypes: seq<JobKind>,
    maxConcurrentJobs: Option<nat>, availableVramMb: Option<nat>, inFlight: nat, draining: bool,
    registeredAt: nat, lastSeenAt: nat, observedAt: nat)
  {
    function Profile(): WorkerProfile { WorkerProfile(id, jobTypes, pool) }
  }

  type WorkerMap = map<WorkerId, Worker>

  /** What a caller is shown of a worker. */
  datatype Snapshot = Snapshot(worker: Worker, availableSlots: Option<nat>, stale: bool) {
    predicate CanAcceptWork() { !stale && !worker.draining }
  }

  datatype AcquireReply = Acquired(snapshot: Snapshot) | AtCapacity(snapshot: Snapshot) | Draining(snapshot: Snapshot)
                        | Stale(snapshot: Snapshot) | NoWorker

  datatype DeregisterReply = Removed | StillDraining(snapshot: Snapshot) | NotRegistered

  function SnapshotOf(w: Worker, staleAfter: nat, now: nat): Snapshot {
    Snapshot(w,
             if w.maxConcurrentJobs.None? then None
             else Some(if w.draining then 0 else SaturatingSub(w.maxConcurrentJobs.value, w.inFlight)),
             SaturatingSub(now, w.observedAt) >= staleAfter)
  }

  /** The entry a valid request describes, all counters fresh; or the first complaint. */
  function Validate(q: RegisterRequest, now: nat): Result<Worker> {
    var id, url, pool := Trim(q.id), Trim(q.endpointUrl), Trim(q.pool);
    if id == "" then Err("worker id cannot be empty")
    else if url == "" then Err("endpoint_url cannot be empty")
    else if !("http://" <= url || "https://" <= url) then Err("endpoint_url must start with http:// or https://")
    else if q.jobTypes == [] then Err("worker must support at least one job type")
    else if q.maxConcurrentJobs == Some(0) then Err("max_concurrent_jobs must be greater than zero")
    else if pool == "" then Err("worker pool cannot be empty")
    else
      var node := if q.nodeId.Some? && Trim(q.nodeId.value) != "" then Some(Trim(q.nodeId.value)) else None;
      Ok(Worker(id, url, node, pool, q.jobTypes, q.maxConcurrentJobs, q.availableVramMb, 0, false, now, now, now))
  }

  // ---------- Operations on the map ----------

  /** A known worker keeps its slots in use, its draining mark and its registration time. */
  function Registered(ws: WorkerMap, q: RegisterRequest, now: nat): (WorkerMap, Result<Worker>) {
    match Validate(q, now)
    case Err(m) => (ws, Err(m))
    case Ok(entry) =>
      var kept := if entry.id in ws then
                    var was := ws[entry.id];
                    entry.(inFlight := was.inFlight, draining := was.draining, registeredAt := was.registeredAt)
                  else entry;
      (ws[entry.id := kept], Ok(kept))
  }

  predicate AtLimit(w: Worker) { w.maxConcurrentJobs.Some? && w.inFlight >= w.maxConcurrentJobs.value }

  function TryAcquire(ws: WorkerMap, id: WorkerId, staleAfter: nat, now: nat): (WorkerMap, AcquireReply) {
    if id !in ws then (ws, NoWorker)
    else
      var w := ws[id];
      var snapshot := SnapshotOf(w, staleAfter, now);
      if snapshot.CanAcceptWork() && !AtLimit(w) then
        var taken := w.(inFlight := w.inFlight + 1);
        (ws[id := taken], Acquired(SnapshotOf(taken, staleAfter, now)))
      else (ws, if snapshot.stale then Stale(snapshot)
                else if w.draining then Draining(snapshot)
                else AtCapacity(snapshot))
  }

  function Released(ws: WorkerMap, id: WorkerId): WorkerMap {
    if id in ws then ws[id := ws[id].(inFlight := SaturatingSub(ws[id].inFlight, 1))] else ws
  }

  function WithHeartbeat(ws: WorkerMap, id: WorkerId, now: nat): WorkerMap {
    if id in ws then ws[id := ws[id].(lastSeenAt := now, observedAt := now)] else ws
  }

  function Drained(ws: WorkerMap, id: WorkerId): WorkerMap {
    if id in ws then ws[id := ws[id].(draining := true)] else ws
  }

  function Reactivated(ws: WorkerMap, id: WorkerId, now: nat): WorkerMap {
    if id in ws then ws[id := ws[id].(draining := false, lastSeenAt := now, observedAt := now)] else ws
  }

  /** Only an idle worker is removed; a busy one starts draining. */
  function Deregistered(ws: WorkerMap, id: WorkerId): WorkerMap {
    if id !in ws then ws
    else if ws[id].inFlight > 0 then Drained(ws, id)
    else ws - {id}
  }

  ghost predicate WorkersOk(ws: WorkerMap) { forall id :: id in ws ==> ws[id].id == id }

  class WorkerRegistry {
    var workers: WorkerMap
    const staleAfter: nat

    ghost predicate Valid()
      reads this
    {
      WorkersOk(workers)
    }

    constructor (staleAfter: nat)
      ensures Valid() && workers == map[] && this.staleAfter == staleAfter
    {
      workers := map[];
      this.staleAfter := staleAfter;
    }

    method Register(request: RegisterRequest, now: nat) returns (reply: Result<Snapshot>)
      requires Valid()
      modifies this
      ensures Valid()
      ensures var (ws, r) := Registered(old(workers), request, now);
        && workers == ws
        && reply == if r.Ok? then Ok(SnapshotOf(r.value, staleAfter, now)) else Err(r.message)
    {
      var valid := Validate(request, now);
      if valid.Err? {
        return Err(valid.message);
      }
      var entry := valid.value;
      if entry.id in workers {
        var existing := workers[entry.id];
        entry := entry.(registeredAt := existing.registeredAt);
        entry := entry.(inFlight := existing.inFlight);
        entry := entry.(draining := existing.draining);
      }
      workers := workers[entry.id := entry];
      return Ok(SnapshotOf(entry, staleAfter, now));
    }

    method TryAcquireSlot(id: WorkerId, now: nat) returns (reply: AcquireReply)
      requires Valid()
      modifies this
      ensures Valid()
      ensures (workers, reply) == TryAcquire(old(workers), id, staleAfter, now)
    {
      if id !in workers {
        return NoWorker;
      }
      var worker := workers[id];
      var snapshot := SnapshotOf(worker, staleAfter, now);
      if snapshot.stale {
        return Stale(snapshot);
      }
      if worker.draining {
        return Draining(snapshot);
      }
      if worker.maxConcurrentJobs.Some? && worker.inFlight >= worker.maxConcurrentJobs.value {
        return AtCapacity(snapshot);
      }
      worker := worker.(inFlight := worker.inFlight + 1);
      workers := workers[id := worker];
      return Acquired(SnapshotOf(worker, staleAfter, now));
    }

    method ReleaseSlot(id: WorkerId, now: nat) returns (reply: Option<Snapshot>)
      requires Valid()
      modifies this
      ensures Valid() && workers == Released(old(workers), id)
      ensures reply == if id in workers then Some(SnapshotOf(workers[id], staleAfter, now)) else None
    {
      if id !in workers {
        return None;
      }
      var worker := workers[id];
      worker := worker.(inFlight := SaturatingSub(worker.inFlight, 1));
      workers := workers[id := worker];
      return Some(SnapshotOf(worker, staleAfter, now));
    }

    method Heartbeat(id: WorkerId, now: nat) returns (reply: Option<Snapshot>)
      requires Valid()
      modifies this
      ensures Valid() && workers == WithHeartbeat(old(workers), id, now)
      ensures reply == if id in workers then Some(SnapshotOf(workers[id], staleAfter, now)) else None
    {
      if id !in workers {
        return None;
      }
      var worker := workers[id].(lastSeenAt := now, observedAt := now);
      workers := workers[id := worker];
      return Some(SnapshotOf(worker, staleAfter, now));
    }

    method Drain(id: WorkerId, now: nat) returns (reply: Option<Snapshot>)
      requires Valid()
      modifies this
      ensures Valid() && workers == Drained(old(workers), id)
      ensures reply == if id in workers then Some(SnapshotOf(workers[id], staleAfter, now)) else None
    {
      if id !in workers {
        return None;
      }
      var worker := workers[id].(draining := true);
      workers := workers[id := worker];
      return Some(SnapshotOf(worker, staleAfter, now));
    }

    method Reactivate(id: WorkerId, now: nat) returns (reply: Option<Snapshot>)
      requires Valid()
      modifies this
      ensures Valid() && workers == Reactivated(old(workers), id, now)
      ensures reply == if id in workers then Some(SnapshotOf(workers[id], staleAfter, now)) else None
    {
      if id !in workers {
        return None;
      }
      var worker := workers[id].(draining := false);
      worker := worker.(lastSeenAt := now, observedAt := now);
      workers := workers[id := worker];
      return Some(SnapshotOf(worker, staleAfter, now));
    }

    method Deregister(id: WorkerId, now: nat) returns (reply: DeregisterReply)
      requires Valid()
      modifies this
      ensures Valid() && workers == Deregistered(old(workers), id)
      ensures reply.NotRegistered? <==> id !in old(workers)
      ensures reply.Removed? <==> id in old(workers) && old(workers)[id].inFlight == 0
      ensures reply.StillDraining? ==> id in workers && reply.snapshot == SnapshotOf(workers[id], staleAfter, now)
    {
      if id !in workers {
        return NotRegistered;
      }
      var worker := workers[id];
      if worker.inFlight > 0 {
        worker := worker.(draining := true);
        workers := workers[id := worker];
        return StillDraining(SnapshotOf(worker, staleAfter, now));
      }
      workers := workers - {id};
      return Removed;
    }
  }
}
