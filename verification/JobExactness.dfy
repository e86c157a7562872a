/**
 What an expiry sweep, a prune and a claim do, said without their loops: which
 jobs they touch, in which order, and how their reports count.
 */
module JobExactness {
  import opened Collections
  import opened JobIds
  import opened JobModel
  import opened JobInvariant

  lemma {:induction false} FilterInOrder<T(!new)>(t: seq<T>, s: seq<T>, keep: T -> bool)
    requires InOrderOf(t, s)
    ensures InOrderOf(Filter(t, keep), s)
  {
    if t != [] {
      var front, last := t[..|t| - 1], t[|t| - 1];
      FilterInOrder(front, s, keep);
      forall i | 0 <= i < |Filter(front, keep)| ensures IndexOf(s, Filter(front, keep)[i]) < IndexOf(s, last) {
        assert Filter(front, keep)[i] in front;
      }
    }
  }

  lemma {:induction false} FilterSplit<T(!new)>(s: seq<T>, all: T -> bool, p: T -> bool, q: T -> bool)
    requires forall x :: x in s ==> (all(x) <==> p(x) || q(x)) && !(p(x) && q(x))
    ensures |Filter(s, all)| == |Filter(s, p)| + |Filter(s, q)|
  {
    if s != [] {
      FilterSplit(s[..|s| - 1], all, p, q);
      assert s[|s| - 1] in s;
    }
  }

  // ---------- Expiry sweep ----------

  /**
   A sweep changes exactly the expired jobs, and of each: back to the queue while attempts remain, else failed by
   timeout with a fresh callback to deliver if it has a URL. Every other field stays as it was.
   */
  lemma SweepExact(r: Registry, now: nat, id: JobId)
    requires WellFormed(r) && id in r.jobs
    ensures id in Sweep(r, now).0.jobs
    ensures var j, j' := r.jobs[id], Sweep(r, now).0.jobs[id];
      && (j' == j <==> !IsExpired(j, now))
      && (IsExpired(j, now) && j.attempts < j.maxAttempts ==>
            j' == j.(status := Queued, lease := None, updatedAt := now,
                     error := Some(Failure(ATTEMPT_TIMEOUT_ERROR, true))))
      && (IsExpired(j, now) && j.attempts >= j.maxAttempts ==>
            j' == j.(status := Failed, lease := None, updatedAt := now,
                     error := Some(Failure(ATTEMPT_TIMEOUT_ERROR, false)),
                     callback := if j.callbackUrl.Some? then Some(CallbackState(Pending, 0, None, None, None, None))
                                 else None))
  {
    hide WellFormed, Swept, IsExpired, PrepareCallback;
    OneJobOk(r, id);
    SweptExact(r.jobs[id], now);
    hide JobOk, Issued;
  }

  lemma SweptExact(j: Job, now: nat)
    requires JobOk(j)
    ensures var j' := Swept(j, now);
      && (j' == j <==> !IsExpired(j, now))
      && (IsExpired(j, now) && j.attempts < j.maxAttempts ==>
            j' == j.(status := Queued, lease := None, updatedAt := now,
                     error := Some(Failure(ATTEMPT_TIMEOUT_ERROR, true))))
      && (IsExpired(j, now) && j.attempts >= j.maxAttempts ==>
            j' == j.(status := Failed, lease := None, updatedAt := now,
                     error := Some(Failure(ATTEMPT_TIMEOUT_ERROR, false)),
                     callback := if j.callbackUrl.Some? then Some(CallbackState(Pending, 0, None, None, None, None))
                                 else None))
  {
  }

  /** Each queue keeps its contents and gains its own requeued jobs, in submission order. */
  lemma SweepQueues(r: Registry, now: nat, p: Priority)
    requires WellFormed(r)
    ensures Sweep(r, now).0.queues.Of(p) == r.queues.Of(p) + RequeuedIn(r, now, p)
    ensures InOrderOf(RequeuedIn(r, now, p), r.order)
    ensures forall id :: id in RequeuedIn(r, now, p) <==>
      id in r.jobs && r.jobs[id].priority == p && IsExpired(r.jobs[id], now)
          && r.jobs[id].attempts < r.jobs[id].maxAttempts
  {
    InOrderOfItself(r.order);
    FilterInOrder(r.order, r.order, RequeueTest(r.jobs, now));
    FilterInOrder(Filter(r.order, RequeueTest(r.jobs, now)), r.order, PriorityTest(r.jobs, p));
    RequeuedInMembers(r, now, p);
  }

  predicate IsHeldBy(j: Job, w: WorkerId) { j.status.Running? && j.lease.Some? && j.lease.value.workerId == w }

  function HeldTest(jobs: map<JobId, Job>, w: WorkerId): JobId -> bool { id => id in jobs && IsHeldBy(jobs[id], w) }

  /** How many running jobs are leased to a worker. */
  function Held(r: Registry, w: WorkerId): nat { |Filter(r.order, HeldTest(r.jobs, w))| }

  lemma HoldersPush(jobs: map<JobId, Job>, ids: seq<JobId>, id: JobId)
    requires forall i :: i in ids + [id] ==> i in jobs && jobs[i].lease.Some?
    ensures id in ids + [id] && forall i :: i in ids ==> i in ids + [id]
    ensures Holders(jobs, ids + [id]) == Holders(jobs, ids) + [jobs[id].lease.value.workerId]
  {
    assert (ids + [id])[|ids|] == id;
  }

  lemma {:induction false} SweepCounts(jobs: map<JobId, Job>, ids: seq<JobId>, now: nat, w: WorkerId)
    requires forall id :: id in ids ==> id in jobs && JobOk(jobs[id])
    ensures multiset(Holders(jobs, Filter(ids, ExpiredTest(jobs, now))))[w]
            + |Filter(ids, HeldTest(SweptJobs(jobs, now), w))|
            == |Filter(ids, HeldTest(jobs, w))|
  {
    if ids != [] {
      var front, last := ids[..|ids| - 1], ids[|ids| - 1];
      SweepCounts(jobs, front, now, w);
      assert last in ids;
      var expired := Filter(front, ExpiredTest(jobs, now));
      SweptJobOk(jobs[last], now);
      assert IsExpired(jobs[last], now) ==> !SweptJobs(jobs, now)[last].status.Running?;
      if IsExpired(jobs[last], now) {
        assert Filter(ids, ExpiredTest(jobs, now)) == expired + [last];
        HoldersPush(jobs, expired, last);
      } else {
        assert Filter(ids, ExpiredTest(jobs, now)) == expired;
      }
    }
  }

  lemma TimedOutFails(j: Job, now: nat)
    requires IsExpired(j, now) && !Retries(j, true)
    ensures Swept(j, now).status.Failed? && Swept(j, now).id == j.id
  {
  }

  /** The report releases each worker once per lease it lost. */
  lemma SweepReleases(r: Registry, now: nat, w: WorkerId)
    requires WellFormed(r)
    ensures var (q, report) := Sweep(r, now); multiset(report.releasedWorkers)[w] + Held(q, w) == Held(r, w)
  {
    hide WellFormed, JobOk, Swept, IsHeldBy;
    OrderIsOk(r);
    forall id | id in r.order ensures id in r.jobs && JobOk(r.jobs[id]) {
      OneJobOk(r, id);
    }
    SweepCounts(r.jobs, r.order, now, w);
  }

  /** The records reported as failed are failed, and as they are stored. */
  lemma SweepFailures(r: Registry, now: nat, j: Job)
    requires WellFormed(r) && j in Sweep(r, now).1.failedJobs
    ensures var q := Sweep(r, now).0; j.id in q.jobs && q.jobs[j.id] == j && j.status.Failed?
  {
    hide WellFormed, JobOk, Swept, Filter;
    var ids := Filter(r.order, TimeoutTest(r.jobs, now));
    var i :| 0 <= i < |ids| && Sweep(r, now).1.failedJobs[i] == j;
    assert ids[i] in ids;
    OneJobOk(r, ids[i]);
    TimedOutFails(r.jobs[ids[i]], now);
  }

  /** Releases match the leases lost, worker by worker; every released job is counted once, as requeued or failed. */
  lemma SweepReportExact(r: Registry, now: nat, w: WorkerId)
    requires WellFormed(r)
    ensures var (q, report) := Sweep(r, now);
      && multiset(report.releasedWorkers)[w] + Held(q, w) == Held(r, w)
      && report.requeued + report.failed == |report.releasedWorkers|
      && |report.failedJobs| == report.failed
      && (forall j :: j in report.failedJobs ==> j.id in q.jobs && q.jobs[j.id] == j && j.status.Failed?)
  {
    hide WellFormed, Held;
    SweepReleases(r, now, w);
    FilterSplit(r.order, ExpiredTest(r.jobs, now), RequeueTest(r.jobs, now), TimeoutTest(r.jobs, now));
    var (q, report) := Sweep(r, now);
    assert |report.releasedWorkers| == |Filter(r.order, ExpiredTest(r.jobs, now))|;
    forall j | j in report.failedJobs ensures j.id in q.jobs && q.jobs[j.id] == j && j.status.Failed? {
      SweepFailures(r, now, j);
    }
  }

  lemma NothingExpired(r: Registry, now: nat)
    requires forall id :: id in r.jobs ==> !IsExpired(r.jobs[id], now)
    ensures Sweep(r, now) == (r, SweepReport(0, 0, [], []))
  {
    assert SweptJobs(r.jobs, now) == r.jobs;
    FilterNone(r.order, ExpiredTest(r.jobs, now));
    FilterNone(r.order, RequeueTest(r.jobs, now));
    FilterNone(r.order, TimeoutTest(r.jobs, now));
    assert forall p :: RequeuedIn(r, now, p) == [];
    assert r.queues.realtime + [] == r.queues.realtime;
    assert r.queues.batch + [] == r.queues.batch;
    assert r.queues.background + [] == r.queues.background;
    assert Sweep(r, now).0.queues == r.queues;
    assert Sweep(r, now).1.releasedWorkers == [] && Sweep(r, now).1.failedJobs == [];
  }

  /** A second sweep at the same time finds nothing to do. */
  lemma SweepIdempotent(r: Registry, now: nat)
    requires WellFormed(r)
    ensures Sweep(Sweep(r, now).0, now) == (Sweep(r, now).0, SweepReport(0, 0, [], []))
  {
    assert forall id :: id in r.jobs ==> !IsExpired(Swept(r.jobs[id], now), now);
    NothingExpired(Sweep(r, now).0, now);
  }

  // ---------- Prune ----------

  lemma {:induction false} FilterOfPrefix<T(!new)>(s: seq<T>, m: nat, n: nat, keep: T -> bool)
    requires m <= n <= |s|
    ensures Filter(s[..m], keep) <= Filter(s[..n], keep)
    decreases n - m
  {
    if m < n {
      FilterOfPrefix(s, m, n - 1, keep);
      FilterPrefix(s, n - 1, keep);
    }
  }

  lemma FilterPosition<T(!new)>(s: seq<T>, i: nat, keep: T -> bool)
    requires i < |s| && keep(s[i])
    ensures var k := |Filter(s[..i], keep)|; k < |Filter(s, keep)| && Filter(s, keep)[k] == s[i]
  {
    FilterPrefix(s, i, keep);
    FilterOfPrefix(s, i + 1, |s|, keep);
    assert s[..|s|] == s;
    assert Filter(s[..i + 1], keep)[|Filter(s[..i], keep)|] == s[i];
  }

  /**
   A job is pruned exactly when it is prunable and fewer than `maxPruned` prunable jobs precede it in submission
   order.
   */
  lemma PruneTakesTheFirst(r: Registry, policy: RetentionPolicy, now: nat, id: JobId)
    requires WellFormed(r) && id in r.jobs
    ensures id in Victims(r, policy, now) <==>
      && Prunable(r.jobs[id], policy, now)
      && |Filter(r.order[..IndexOf(r.order, id)], PruneTest(r.jobs, policy, now))| < policy.maxPruned
  {
    var test, i := PruneTest(r.jobs, policy, now), IndexOf(r.order, id);
    var all, victims := Filter(r.order, test), Victims(r, policy, now);
    VictimsAre(r, policy, now);
    if Prunable(r.jobs[id], policy, now) {
      var k := |Filter(r.order[..i], test)|;
      FilterPosition(r.order, i, test);
      FilterNoDuplicates(r.order, test);
      assert k < policy.maxPruned ==> victims[k] == id;
      if id in victims {
        var m :| 0 <= m < |victims| && victims[m] == id;
        assert all[m] == all[k];
      }
    }
  }

  /** Everything but the victims and their keys is left as it was. */
  lemma PruneLeavesTheRest(r: Registry, policy: RetentionPolicy, now: nat)
    requires WellFormed(r)
    ensures var (q, victims) := (Prune(r, policy, now).0, Victims(r, policy, now));
      && q.queues == r.queues && q.nextId == r.nextId && InOrderOf(q.order, r.order)
      && (forall id :: id in q.jobs <==> id in r.jobs && id !in victims)
      && (forall id :: id in q.jobs ==> q.jobs[id] == r.jobs[id])
      && (forall k :: k in q.keys <==> k in r.keys && r.keys[k] !in victims)
      && (forall k :: k in q.keys ==> q.keys[k] == r.keys[k])
  {
    var (q, victims) := (Prune(r, policy, now).0, Victims(r, policy, now));
    InOrderOfItself(r.order);
    FilterInOrder(r.order, r.order, RetainedTest(q.jobs));
  }

  function TotalRemoved(list: seq<StatusCount>): nat {
    if list == [] then 0 else TotalRemoved(list[..|list| - 1]) + list[|list| - 1].removed
  }

  /** A list of counts says exactly what the map says, each status once. */
  ghost predicate Lists(list: seq<StatusCount>, counts: map<JobStatus, nat>) {
    && (forall i, j :: 0 <= i < j < |list| ==> list[i].status != list[j].status)
    && (forall c :: c in list <==> c.status in counts && counts[c.status] == c.removed)
  }

  lemma {:induction false} CountsListed(statuses: seq<JobStatus>, counts: map<JobStatus, nat>)
    requires forall i, j :: 0 <= i < j < |statuses| ==> StatusRank(statuses[i]) < StatusRank(statuses[j])
    ensures var list := CountsInOrder(statuses, counts);
      && (forall i, j :: 0 <= i < j < |list| ==> StatusRank(list[i].status) < StatusRank(list[j].status))
      && (forall c :: c in list <==> c.status in statuses && c.status in counts && counts[c.status] == c.removed)
  {
    if statuses != [] {
      var front, last := statuses[..|statuses| - 1], statuses[|statuses| - 1];
      CountsListed(front, counts);
      var list := CountsInOrder(front, counts);
      assert statuses == front + [last];
      forall i | 0 <= i < |list| ensures StatusRank(list[i].status) < StatusRank(last) {
        assert list[i] in list;
      }
    }
  }

  lemma AllStatuses(s: JobStatus)
    ensures s in ALL_STATUSES && ALL_STATUSES[StatusRank(s)] == s
  {
  }

  /** In rank order a map of counts has one listing only. */
  lemma OneListing(list: seq<StatusCount>, counts: map<JobStatus, nat>)
    requires Lists(list, counts)
    requires forall i, j :: 0 <= i < j < |list| ==> StatusRank(list[i].status) <= StatusRank(list[j].status)
    ensures list == CountsInOrder(ALL_STATUSES, counts)
  {
    CountsListed(ALL_STATUSES, counts);
    forall i, j | 0 <= i < j < |list| ensures StatusRank(list[i].status) < StatusRank(list[j].status) {
      AllStatuses(list[i].status);
      AllStatuses(list[j].status);
    }
    forall c ensures c in list <==> c in CountsInOrder(ALL_STATUSES, counts) {
      AllStatuses(c.status);
    }
    SortedUnique(list, CountsInOrder(ALL_STATUSES, counts), (c: StatusCount) => StatusRank(c.status));
  }

  function TotalOf(statuses: seq<JobStatus>, counts: map<JobStatus, nat>): nat {
    if statuses == [] then 0
    else TotalOf(statuses[..|statuses| - 1], counts) + CountOf(counts, statuses[|statuses| - 1])
  }

  lemma {:induction false} TotalListed(statuses: seq<JobStatus>, counts: map<JobStatus, nat>)
    ensures TotalRemoved(CountsInOrder(statuses, counts)) == TotalOf(statuses, counts)
  {
    if statuses != [] {
      var front, last := statuses[..|statuses| - 1], statuses[|statuses| - 1];
      TotalListed(front, counts);
      var list := CountsInOrder(front, counts);
      if last in counts {
        assert (list + [StatusCount(last, counts[last])])[..|list|] == list;
      } else {
        assert list + [] == list;
      }
    }
  }

  lemma TotalOfAll(counts: map<JobStatus, nat>)
    ensures TotalOf(ALL_STATUSES, counts) ==
            CountOf(counts, Queued) + CountOf(counts, Running) + CountOf(counts, Complete)
            + CountOf(counts, Failed) + CountOf(counts, Cancelled)
  {
    var s := ALL_STATUSES;
    assert s[..4][..3] == s[..3] && s[..3][..2] == s[..2] && s[..2][..1] == s[..1] && s[..1][..0] == [];
    hide CountOf;
    assert TotalOf(s[..1], counts) == CountOf(counts, Queued);
    assert TotalOf(s[..2], counts) == TotalOf(s[..1], counts) + CountOf(counts, Running);
    assert TotalOf(s[..3], counts) == TotalOf(s[..2], counts) + CountOf(counts, Complete);
    assert TotalOf(s[..4], counts) == TotalOf(s[..3], counts) + CountOf(counts, Failed);
  }

  /**
   Removed = the per-status counts together = the drop in the number of jobs, never above the limit; the counts are
   listed in rank order, a status exactly when a victim has it, and each with the number of victims that do.
   */
  lemma PruneReportExact(r: Registry, policy: RetentionPolicy, now: nat)
    requires WellFormed(r)
    ensures var (q, report) := Prune(r, policy, now); var list := report.byStatus;
      && report.removed == |r.jobs| - |q.jobs| <= policy.maxPruned
      && report.removed == TotalRemoved(list)
      && (forall i, j :: 0 <= i < j < |list| ==> StatusRank(list[i].status) < StatusRank(list[j].status))
      && (forall c :: c in list <==>
            && c.removed == |Filter(Victims(r, policy, now), StatusTest(r.jobs, c.status))|
            && exists id :: id in Victims(r, policy, now) && id in r.jobs && r.jobs[id].status == c.status)
  {
    var (q, victims) := (Prune(r, policy, now).0, Victims(r, policy, now));
    VictimsAre(r, policy, now);
    hide WellFormed, Victims, StatusCounts, CountsInOrder, TotalRemoved, StatusRank;
    RemovedCount(r.jobs, q.jobs, victims);
    CountsExact(r.jobs, victims);
  }

  /** The listed counts of these terminal jobs: in rank order, one for each status they have, together all of them. */
  lemma CountsExact(jobs: map<JobId, Job>, victims: seq<JobId>)
    requires forall id :: id in victims ==> id in jobs && jobs[id].status.Terminal()
    ensures var list := CountsInOrder(ALL_STATUSES, StatusCounts(jobs, victims));
      && TotalRemoved(list) == |victims|
      && (forall i, j :: 0 <= i < j < |list| ==> StatusRank(list[i].status) < StatusRank(list[j].status))
      && (forall c :: c in list <==>
            && c.removed == |Filter(victims, StatusTest(jobs, c.status))|
            && exists id :: id in victims && id in jobs && jobs[id].status == c.status)
  {
    var counts := StatusCounts(jobs, victims);
    CountsListed(ALL_STATUSES, counts);
    CountsTotal(jobs, victims);
    hide StatusCounts, CountsInOrder, TotalRemoved, StatusTest, Filter, StatusRank;
    forall c: StatusCount
      ensures c.status in ALL_STATUSES && CountOf(counts, c.status) == |Filter(victims, StatusTest(jobs, c.status))|
      ensures c.status in counts <==> exists id :: id in victims && id in jobs && jobs[id].status == c.status
    {
      StatusCountIs(jobs, victims, c.status);
      StatusListed(jobs, victims, c.status);
      AllStatuses(c.status);
    }
  }

  lemma CountsTotal(jobs: map<JobId, Job>, victims: seq<JobId>)
    requires forall id :: id in victims ==> id in jobs && jobs[id].status.Terminal()
    ensures TotalRemoved(CountsInOrder(ALL_STATUSES, StatusCounts(jobs, victims))) == |victims|
  {
    var counts := StatusCounts(jobs, victims);
    TotalListed(ALL_STATUSES, counts);
    TotalOfAll(counts);
    CountByStatus(jobs, victims);
    hide StatusCounts, CountsInOrder, TotalOf, TotalRemoved, StatusTest, Filter;
    StatusListed(jobs, victims, Queued);
    StatusListed(jobs, victims, Running);
    StatusCountIs(jobs, victims, Complete);
    StatusCountIs(jobs, victims, Failed);
    StatusCountIs(jobs, victims, Cancelled);
  }

  lemma {:induction false} StatusCountIs(jobs: map<JobId, Job>, ids: seq<JobId>, s: JobStatus)
    ensures CountOf(StatusCounts(jobs, ids), s) == |Filter(ids, StatusTest(jobs, s))|
  {
    if ids != [] {
      StatusCountIs(jobs, ids[..|ids| - 1], s);
    }
  }

  lemma {:induction false} StatusListed(jobs: map<JobId, Job>, ids: seq<JobId>, s: JobStatus)
    ensures s in StatusCounts(jobs, ids) <==> exists id :: id in ids && id in jobs && jobs[id].status == s
  {
    hide CountOf;
    if ids != [] {
      var front, last := ids[..|ids| - 1], ids[|ids| - 1];
      StatusListed(jobs, front, s);
      assert ids == front + [last];
    }
  }

  lemma RemovedCount(jobs: map<JobId, Job>, kept: map<JobId, Job>, victims: seq<JobId>)
    requires NoDuplicates(victims) && forall id :: id in victims ==> id in jobs
    requires forall id :: id in kept <==> id in jobs && id !in victims
    ensures |victims| == |jobs| - |kept|
  {
    CardinalityOfDistinct(victims);
    var gone := set id | id in victims;
    assert gone <= jobs.Keys;
    assert kept.Keys == jobs.Keys - gone;
    assert |kept| == |kept.Keys| && |jobs| == |jobs.Keys|;
  }

  lemma {:induction false} CountByStatus(jobs: map<JobId, Job>, ids: seq<JobId>)
    requires forall id :: id in ids ==> id in jobs && jobs[id].status.Terminal()
    ensures |Filter(ids, StatusTest(jobs, Complete))| + |Filter(ids, StatusTest(jobs, Failed))|
            + |Filter(ids, StatusTest(jobs, Cancelled))| == |ids|
  {
    if ids != [] {
      CountByStatus(jobs, ids[..|ids| - 1]);
      assert ids[|ids| - 1] in ids;
    }
  }

  /** What one prune scans is just enough to find its victims. */
  lemma {:induction false} ScanFindsVictims(r: Registry, policy: RetentionPolicy, now: nat, i: nat)
    requires i <= |r.order|
    requires |Filter(r.order[..i], PruneTest(r.jobs, policy, now))| <= policy.maxPruned
    ensures Filter(r.order[..ScanEnd(r, policy, now, i)], PruneTest(r.jobs, policy, now)) == Victims(r, policy, now)
    decreases |r.order| - i
  {
    hide Filter;
    var test := PruneTest(r.jobs, policy, now);
    if i < |r.order| && |Filter(r.order[..i], test)| < policy.maxPruned {
      FilterPrefix(r.order, i, test);
      ScanFindsVictims(r, policy, now, i + 1);
    } else {
      FilterOfPrefix(r.order, i, |r.order|, test);
      assert r.order[..|r.order|] == r.order;
    }
  }

  // ---------- Claim order ----------

  lemma LineMembers(r: Registry)
    requires WellFormed(r)
    ensures forall id :: id in r.queues.InClaimOrder() <==> id in r.jobs && r.jobs[id].status.Queued?
  {
    assert QueueOk(r, Realtime) && QueueOk(r, Batch) && QueueOk(r, Background);
  }

  lemma FirstClaimableIsFirst(r: Registry, w: WorkerProfile, pools: PoolPolicy)
    requires WellFormed(r)
    ensures var found, line := FirstClaimable(r, r.queues.InClaimOrder(), w, pools), r.queues.InClaimOrder();
      && (found.None? <==> forall id :: id in r.jobs ==> !Claimable(r.jobs[id], w, pools))
      && (found.Some? ==> found.value in line)
      && (found.Some? ==> forall k :: 0 <= k < IndexOf(line, found.value) ==>
            line[k] in r.jobs && !Claimable(r.jobs[line[k]], w, pools))
  {
    hide WellFormed;
    LineMembers(r);
    FirstClaimableIs(r, r.queues.InClaimOrder(), w, pools);
    var found, line := FirstClaimable(r, r.queues.InClaimOrder(), w, pools), r.queues.InClaimOrder();
    if found.Some? {
      forall k | 0 <= k < IndexOf(line, found.value) ensures line[k] in r.jobs {
        assert line[k] in line;
      }
    }
  }

  /** A claim takes the first job it may, in priority-then-queue order, and the rest of the queues keep their order. */
  lemma ClaimTakesTheFirst(r: Registry, w: WorkerProfile, pools: PoolPolicy, now: nat, duration: nat)
    requires WellFormed(r)
    ensures var (q, claimed) := Claim(r, w, pools, now, duration); var line := r.queues.InClaimOrder();
      && (claimed.None? <==> forall id :: id in r.jobs ==> !Claimable(r.jobs[id], w, pools))
      && (claimed.None? ==> q == r)
      && (claimed.Some? ==>
            var id := claimed.value.id;
            && id in line && id in r.jobs && Claimable(r.jobs[id], w, pools)
            && (forall k :: 0 <= k < IndexOf(line, id) ==> line[k] in r.jobs && !Claimable(r.jobs[line[k]], w, pools))
            && q.queues.InClaimOrder() == line[..IndexOf(line, id)] + line[IndexOf(line, id) + 1..])
  {
    hide WellFormed, FirstClaimable, IndexOf, RemoveFirst, Claimable;
    FirstClaimableIsFirst(r, w, pools);
    var found := FirstClaimable(r, r.queues.InClaimOrder(), w, pools);
    if found.Some? {
      OneJobOk(r, found.value);
      LineMembers(r);
      LineWithout(r, found.value);
    }
    hide JobOk, Issued;
  }

  lemma OwnQueueOnly(r: Registry, id: JobId)
    requires WellFormed(r) && id in r.jobs && r.jobs[id].status.Queued?
    ensures id in r.queues.realtime <==> r.jobs[id].priority == Realtime
    ensures id in r.queues.batch <==> r.jobs[id].priority == Batch
    ensures id in r.queues.background <==> r.jobs[id].priority == Background
  {
    assert QueueOk(r, Realtime) && QueueOk(r, Batch) && QueueOk(r, Background);
  }

  lemma LineWithout(r: Registry, id: JobId)
    requires WellFormed(r) && id in r.jobs && r.jobs[id].status.Queued?
    ensures id in r.queues.InClaimOrder()
    ensures var line, i := r.queues.InClaimOrder(), IndexOf(r.queues.InClaimOrder(), id);
      r.queues.Remove(r.jobs[id].priority, id).InClaimOrder() == line[..i] + line[i + 1..]
  {
    hide WellFormed, RemoveFirst, IndexOf, QueueOk, JobOk;
    var a, b, c := r.queues.realtime, r.queues.batch, r.queues.background;
    OwnQueueOnly(r, id);
    match r.jobs[id].priority
    case Realtime => IndexInFirst(a, b, c, id);
    case Batch => IndexInConcat(a, b, c, id);
    case Background => IndexInLast(a, b, c, id);
  }

  lemma IndexInFirst<T>(a: seq<T>, b: seq<T>, c: seq<T>, x: T)
    requires x in a
    ensures x in a + b + c
    ensures var i := IndexOf(a + b + c, x);
      (a + b + c)[..i] + (a + b + c)[i + 1..] == RemoveFirst(a, x) + b + c
  {
    hide IndexOf, RemoveFirst;
    IndexInConcat([], a, b + c, x);
    assert [] + a + (b + c) == a + b + c;
    assert [] + RemoveFirst(a, x) + (b + c) == RemoveFirst(a, x) + b + c;
  }

  lemma IndexInLast<T>(a: seq<T>, b: seq<T>, c: seq<T>, x: T)
    requires x !in a && x !in b && x in c
    ensures x in a + b + c
    ensures var i := IndexOf(a + b + c, x);
      (a + b + c)[..i] + (a + b + c)[i + 1..] == a + b + RemoveFirst(c, x)
  {
    hide IndexOf, RemoveFirst;
    IndexInConcat(a + b, c, [], x);
    assert (a + b) + c + [] == a + b + c;
    assert (a + b) + RemoveFirst(c, x) + [] == a + b + RemoveFirst(c, x);
  }

  lemma SlicesOfConcat<T>(a: seq<T>, b: seq<T>, c: seq<T>, k: nat)
    requires k < |b|
    ensures (a + b + c)[..|a| + k] + (a + b + c)[|a| + k + 1..] == a + (b[..k] + b[k + 1..]) + c
  {
    assert (a + b + c)[..|a| + k] == a + b[..k];
    assert (a + b + c)[|a| + k + 1..] == b[k + 1..] + c;
  }

  lemma FirstInConcat<T>(a: seq<T>, b: seq<T>, c: seq<T>, x: T)
    requires x !in a && x in b
    ensures x in a + b + c && IndexOf(a + b + c, x) == |a| + IndexOf(b, x)
  {
    var s, k := a + b + c, IndexOf(b, x);
    assert s[|a| + k] == b[k];
    forall m | 0 <= m < |a| + k ensures s[m] != x {
      if m < |a| {
        assert s[m] == a[m] && a[m] in a;
      } else {
        assert s[m] == b[..k][m - |a|] && b[..k][m - |a|] in b[..k];
      }
    }
    FirstIndex(s, |a| + k, x);
  }

  lemma RemoveFirstIs<T>(s: seq<T>, x: T)
    requires x in s
    ensures RemoveFirst(s, x) == s[..IndexOf(s, x)] + s[IndexOf(s, x) + 1..]
  {
  }

  lemma IndexInConcat<T>(a: seq<T>, b: seq<T>, c: seq<T>, x: T)
    requires x !in a && x in b
    ensures x in a + b + c
    ensures var i := IndexOf(a + b + c, x);
      (a + b + c)[..i] + (a + b + c)[i + 1..] == a + RemoveFirst(b, x) + c
  {
    hide IndexOf, RemoveFirst;
    FirstInConcat(a, b, c, x);
    RemoveFirstIs(b, x);
    SlicesOfConcat(a, b, c, IndexOf(b, x));
  }
}
