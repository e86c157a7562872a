/**
 Runs that go on through crashes and restarts. A restart is an expiry sweep that also takes the identifier counter back
 to the largest retained number; where the newest identifier is still retained it is no more than the sweep.
 */
module Restarts {
  import opened Collections
  import opened JobIds
  import opened JobModel
  import opened JobInvariant
  import opened JobExactness
  import opened JobRuns
  import opened JobStore

  datatype Life = Op(event: Event) | Restart(now: nat)

  function Lived(r: Registry, l: Life): Registry {
    match l
    case Op(e) => Apply(r, e)
    case Restart(now) => Restarted(r, now)
  }

  function Live(r: Registry, ls: seq<Life>): Registry {
    if ls == [] then r else Lived(Live(r, ls[..|ls| - 1]), ls[|ls| - 1])
  }

  /** No identifier was issued yet, or the newest one is retained. */
  predicate NewestRetained(r: Registry) { r.nextId == 0 || JobIdOf(r.nextId) in r.jobs }

  /** A restart is exactly a sweep where the newest identifier is retained, and only there. */
  lemma RestartIsSweepIffNewestRetained(r: Registry, now: nat)
    requires WellFormed(r) && r.nextId <= U64_MAX
    ensures WellFormed(Restarted(r, now)) && Restarted(r, now).nextId <= r.nextId
    ensures Restarted(r, now) == Sweep(r, now).0 <==> NewestRetained(r)
    ensures Restarted(r, now).nextId == r.nextId <==> NewestRetained(r)
  {
    var n := LargestIn(r.order);
    OrderIsOk(r);
    LargestIsUnique(r, n);
    RestoredWellFormed(r, n);
    NextIdSurvivesIffNewestRetained(r, n);
    SweepKeepsWellFormed(r.(nextId := n), now);
    hide WellFormed;
    if n == r.nextId {
      assert r.(nextId := n) == r;
    }
  }

  /** Every restart finds the newest identifier retained, and the counter within 64 bits. */
  ghost predicate RestartsKeepNewest(r: Registry, ls: seq<Life>) {
    forall n :: 0 <= n < |ls| && ls[n].Restart? ==>
      NewestRetained(Live(r, ls[..n])) && Live(r, ls[..n]).nextId <= U64_MAX
  }

  /** The same life with each restart a sweep. */
  function AsSweeps(ls: seq<Life>): seq<Event> {
    if ls == [] then []
    else
      var last := ls[|ls| - 1];
      AsSweeps(ls[..|ls| - 1]) + [if last.Op? then last.event else SweepLeases(last.now)]
  }

  /** Such a life is an ordinary run, so all that holds of runs holds of it. */
  lemma {:induction false} LifeIsRun(r: Registry, ls: seq<Life>)
    requires WellFormed(r) && RestartsKeepNewest(r, ls)
    ensures Live(r, ls) == Run(r, AsSweeps(ls)) && WellFormed(Live(r, ls))
  {
    hide WellFormed, NewestRetained, Apply, Restarted, Run;
    if ls == [] {
      assert Run(r, []) == r by {
        NothingRun(r);
      }
    } else {
      var front, last := ls[..|ls| - 1], ls[|ls| - 1];
      assert forall n :: 0 <= n < |front| ==> front[..n] == ls[..n];
      LifeIsRun(r, front);
      if last.Restart? {
        assert ls[|front|] == last && ls[..|front|] == front;
        RestartIsSweepIffNewestRetained(Live(r, front), last.now);
        assert Apply(Live(r, front), SweepLeases(last.now)) == Sweep(Live(r, front), last.now).0 by {
          SweepIsEvent(Live(r, front), last.now);
        }
      } else {
        ApplyKeepsWellFormed(Live(r, front), last.event);
      }
      OneMoreEvent(r, AsSweeps(front), if last.Op? then last.event else SweepLeases(last.now));
    }
  }

  lemma NothingRun(r: Registry)
    ensures Run(r, []) == r
  {
  }

  lemma OneMoreEvent(r: Registry, es: seq<Event>, e: Event)
    ensures Run(r, es + [e]) == Apply(Run(r, es), e)
  {
    assert (es + [e])[..|es|] == es;
  }

  lemma SweepIsEvent(r: Registry, now: nat)
    ensures Apply(r, SweepLeases(now)) == Sweep(r, now).0
  {
  }

  // ---------- One job across restarts ----------

  /** If the identifier was issued before a restart of this registry, it still counts as issued after it. */
  ghost predicate KeptBy(p: Registry, id: JobId) {
    p.nextId <= U64_MAX && (Issued(id, p.nextId) ==> Issued(id, LargestIn(p.order)))
  }

  /** Every restart of the life keeps this identifier's number. */
  ghost predicate NumberKept(r: Registry, ls: seq<Life>, id: JobId) {
    forall n :: 0 <= n < |ls| && ls[n].Restart? ==> KeptBy(Live(r, ls[..n]), id)
  }

  /** A job that is retained at a restart needs no further condition. */
  lemma RetainedIsKept(p: Registry, id: JobId)
    requires WellFormed(p) && p.nextId <= U64_MAX && id in p.jobs
    ensures KeptBy(p, id)
  {
    OrderIsOk(p);
    LargestIsUnique(p, LargestIn(p.order));
    RetainedNumbers(p, LargestIn(p.order), id);
  }

  /** A restart leaves the records as a sweep does, under a counter that is no higher. */
  lemma RestartOnJob(p: Registry, now: nat, id: JobId)
    requires WellFormed(p) && p.nextId <= U64_MAX
    ensures var q := Restarted(p, now);
      && WellFormed(q) && q.nextId == LargestIn(p.order) <= p.nextId
      && (id in q.jobs <==> id in p.jobs)
      && (id in p.jobs ==> Evolves(p.jobs[id], q.jobs[id]) && q.jobs[id] == Swept(p.jobs[id], now))
  {
    hide WellFormed, Sweep, Evolves, SweptJobs, LargestIn, JobAfter;
    RestartIsSweepIffNewestRetained(p, now);
    OneJobSwept(p.(nextId := LargestIn(p.order)), now, id);
    if id in p.jobs {
      OneJobOk(p, id);
      SweptEvolves(p.jobs[id], now);
    }
    hide NewestRetained, JobOk;
  }

  lemma SweptEvolves(j: Job, now: nat)
    requires JobOk(j)
    ensures Evolves(j, Swept(j, now))
  {
  }

  lemma OneJobSwept(p: Registry, now: nat, id: JobId)
    ensures var q := Sweep(p, now).0;
      q.nextId == p.nextId && (id in q.jobs <==> id in p.jobs)
          && (id in p.jobs ==> q.jobs[id] == Swept(p.jobs[id], now))
  {
  }

  /** One operation or restart as one job sees it. */
  lemma LifeStep(p: Registry, l: Life, id: JobId)
    requires WellFormed(p) && (l.Restart? ==> p.nextId <= U64_MAX)
    ensures var q := Lived(p, l);
      && WellFormed(q)
      && (id in p.jobs && id in q.jobs ==> Evolves(p.jobs[id], q.jobs[id]))
      && ((l.Restart? ==> KeptBy(p, id)) && Issued(id, p.nextId) ==>
            Issued(id, q.nextId) && (id !in p.jobs ==> id !in q.jobs))
  {
    hide WellFormed, Apply, Restarted, Evolves;
    match l
    case Op(e) =>
      ApplyKeepsWellFormed(p, e);
      if id in p.jobs && id in Apply(p, e).jobs {
        StepEvolves(p, e, id);
      }
      if Issued(id, p.nextId) {
        IssuedStays(p, e, id);
        if id !in p.jobs {
          GoneStaysGone(p, e, id);
        }
      }
    case Restart(now) => RestartOnJob(p, now, id);
  }

  ghost predicate CountersFit(r: Registry, ls: seq<Life>) {
    forall n :: 0 <= n < |ls| && ls[n].Restart? ==> Live(r, ls[..n]).nextId <= U64_MAX
  }

  lemma PrefixLives(r: Registry, ls: seq<Life>, id: JobId)
    requires ls != []
    ensures var front := ls[..|ls| - 1]; var last := ls[|ls| - 1];
      && (CountersFit(r, ls) ==> CountersFit(r, front) && (last.Restart? ==> Live(r, front).nextId <= U64_MAX))
      && (NumberKept(r, ls, id) ==> NumberKept(r, front, id) && (last.Restart? ==> KeptBy(Live(r, front), id)))
      && (NumberKept(r, front, id) && (last.Restart? ==> KeptBy(Live(r, front), id)) ==> NumberKept(r, ls, id))
      && (NumberKept(r, ls, id) ==> CountersFit(r, ls))
  {
    hide Live, KeptBy;
    var front := ls[..|ls| - 1];
    assert ls[..|front|] == front;
    assert forall n :: 0 <= n < |front| ==> front[..n] == ls[..n] && front[n] == ls[n];
    KeptFits(r, ls, id);
  }

  lemma KeptFits(r: Registry, ls: seq<Life>, id: JobId)
    ensures NumberKept(r, ls, id) ==> CountersFit(r, ls)
  {
  }

  lemma {:induction false} LivesKeepWellFormed(r: Registry, ls: seq<Life>)
    requires WellFormed(r) && CountersFit(r, ls)
    ensures WellFormed(Live(r, ls))
  {
    hide WellFormed, Lived;
    if ls != [] {
      PrefixLives(r, ls, "");
      LivesKeepWellFormed(r, ls[..|ls| - 1]);
      LifeStep(Live(r, ls[..|ls| - 1]), ls[|ls| - 1], "");
    }
  }

  ghost predicate StillFrozen(j: Job, p: Registry, id: JobId) { id in p.jobs ==> FrozenSince(j, p.jobs[id]) }

  /** A terminal record stays frozen through every life whose restarts keep its own number. */
  lemma {:induction false} TerminalAcrossRestarts(r: Registry, ls: seq<Life>, id: JobId)
    requires WellFormed(r) && NumberKept(r, ls, id) && id in r.jobs && r.jobs[id].status.Terminal()
    ensures StillFrozen(r.jobs[id], Live(r, ls), id)
    ensures WellFormed(Live(r, ls)) && Issued(id, Live(r, ls).nextId)
  {
    hide WellFormed, Lived, KeptBy;
    if ls == [] {
      OneJobOk(r, id);
    } else {
      PrefixLives(r, ls, id);
      TerminalAcrossRestarts(r, ls[..|ls| - 1], id);
      LifeStep(Live(r, ls[..|ls| - 1]), ls[|ls| - 1], id);
    }
  }

  /** Whatever operations follow, the record is still as it was. */
  ghost predicate FrozenHereafter(j: Job, p: Registry, id: JobId) {
    forall es: seq<Event> :: StillFrozen(j, Run(p, es), id)
  }

  // The other half: where the number is not kept, submissions bring the identifier back.

  function Blank(p: Priority): SubmitRequest { SubmitRequest(Cluster, p, "", None, None) }

  function Submissions(p: Priority, k: nat): seq<Event> { seq(k, _ => SubmitJob(Blank(p), 0)) }

  lemma {:induction false} SubmissionsCount(q: Registry, p: Priority, k: nat)
    ensures var t := Run(q, Submissions(p, k));
      t.nextId == q.nextId + k && forall o: Priority :: o != p ==> t.queues.Of(o) == q.queues.Of(o)
  {
    hide Run, Apply, Decimal;
    if k == 0 {
      assert Submissions(p, 0) == [];
      NothingRun(q);
    } else {
      assert Submissions(p, k) == Submissions(p, k - 1) + [SubmitJob(Blank(p), 0)];
      SubmissionsCount(q, p, k - 1);
      OneMoreEvent(q, Submissions(p, k - 1), SubmitJob(Blank(p), 0));
      BlankIsSubmitted(Run(q, Submissions(p, k - 1)), p);
    }
  }

  lemma BlankIsSubmitted(q: Registry, p: Priority)
    ensures var t := Apply(q, SubmitJob(Blank(p), 0)); var id := JobIdOf(q.nextId + 1);
      && t.nextId == q.nextId + 1 && id in t.jobs && t.jobs[id] == NewJob(id, Blank(p), 0)
      && t.queues == q.queues.Push(p, id)
  {
    hide Decimal;
  }

  /** Enough submissions, the last one at real-time priority, and job number m is a new one. */
  function BringBack(q: Registry, m: nat): seq<Event>
    requires m > q.nextId
  {
    Submissions(Background, m - q.nextId - 1) + [SubmitJob(Blank(Realtime), 0)]
  }

  lemma BroughtBack(q: Registry, m: nat)
    requires m > q.nextId
    ensures var t := Run(q, BringBack(q, m));
      && JobIdOf(m) in t.jobs && t.jobs[JobIdOf(m)] == NewJob(JobIdOf(m), Blank(Realtime), 0)
      && t.queues.realtime == q.queues.realtime + [JobIdOf(m)]
  {
    hide Run, Decimal, Apply, Submissions;
    var before := Submissions(Background, m - q.nextId - 1);
    SubmissionsCount(q, Background, m - q.nextId - 1);
    OneMoreEvent(q, before, SubmitJob(Blank(Realtime), 0));
    BlankIsSubmitted(Run(q, before), Realtime);
    assert q.queues.realtime == q.queues.Of(Realtime) == Run(q, before).queues.Of(Realtime);
  }

  /** A restart that does not keep an issued number leaves the identifier gone, to be given out again. */
  lemma LostNumber(p: Registry, now: nat, id: JobId) returns (m: nat)
    requires WellFormed(p) && p.nextId <= U64_MAX && !KeptBy(p, id)
    ensures id == JobIdOf(m) && m > Restarted(p, now).nextId && id !in Restarted(p, now).jobs
  {
    RestartOnJob(p, now, id);
    m :| 1 <= m <= p.nextId && id == JobIdOf(m);
    if id in p.jobs {
      RetainedIsKept(p, id);
    }
    assert m > LargestIn(p.order);
  }

  /** The first restart of the life that does not keep the number. */
  lemma {:induction false} FirstLoss(r: Registry, ls: seq<Life>, id: JobId) returns (n: nat)
    requires CountersFit(r, ls) && !NumberKept(r, ls, id)
    ensures n < |ls| && ls[n].Restart? && !KeptBy(Live(r, ls[..n]), id) && NumberKept(r, ls[..n], id)
    ensures Live(r, ls[..n]).nextId <= U64_MAX && Live(r, ls[..n + 1]) == Lived(Live(r, ls[..n]), ls[n])
  {
    hide Live, KeptBy, Lived;
    assert ls != [];
    var front := ls[..|ls| - 1];
    PrefixLives(r, ls, id);
    if NumberKept(r, front, id) {
      n := |front|;
      assert ls[..n] == front && ls[..n + 1] == front + [ls[n]];
      OneMoreLife(r, front, ls[n]);
    } else {
      n := FirstLoss(r, front, id);
      assert front[..n] == ls[..n] && front[..n + 1] == ls[..n + 1];
    }
  }

  lemma OperationsKeep(r: Registry, ls: seq<Life>, es: seq<Event>, id: JobId)
    requires WellFormed(Live(r, ls)) && id in r.jobs && StillFrozen(r.jobs[id], Live(r, ls), id)
    requires Issued(id, Live(r, ls).nextId) && r.jobs[id].status.Terminal()
    ensures StillFrozen(r.jobs[id], Run(Live(r, ls), es), id)
  {
    hide WellFormed, Run, Live;
    var p := Live(r, ls);
    RunIssued(p, es, id);
    if id in p.jobs {
      TerminalForever(p, es, id);
    }
  }

  /**
   A terminal record is safe at every point of a life, whatever operations might have followed there, if and only if
   every restart of the life keeps the number of its identifier.
   */
  lemma FrozenIffNumberKept(r: Registry, ls: seq<Life>, id: JobId)
    requires WellFormed(r) && CountersFit(r, ls) && id in r.jobs && r.jobs[id].status.Terminal()
    ensures NumberKept(r, ls, id) <==>
            forall n: nat :: n <= |ls| ==> FrozenHereafter(r.jobs[id], Live(r, ls[..n]), id)
  {
    hide WellFormed, Live, KeptBy, Run, Lived, StillFrozen;
    if NumberKept(r, ls, id) {
      forall n: nat, es: seq<Event> | n <= |ls| ensures StillFrozen(r.jobs[id], Run(Live(r, ls[..n]), es), id) {
        assert NumberKept(r, ls[..n], id) by {
          assert forall i :: 0 <= i < n ==> ls[..n][..i] == ls[..i];
        }
        TerminalAcrossRestarts(r, ls[..n], id);
        OperationsKeep(r, ls[..n], es, id);
      }
    } else {
      var n := FirstLoss(r, ls, id);
      ThawedAfterLoss(r, ls, id, n);
    }
  }

  lemma ThawedAfterLoss(r: Registry, ls: seq<Life>, id: JobId, n: nat)
    requires WellFormed(r) && id in r.jobs && r.jobs[id].status.Terminal()
    requires n < |ls| && ls[n].Restart? && NumberKept(r, ls[..n], id) && !KeptBy(Live(r, ls[..n]), id)
    requires Live(r, ls[..n]).nextId <= U64_MAX && Live(r, ls[..n + 1]) == Lived(Live(r, ls[..n]), ls[n])
    ensures !FrozenHereafter(r.jobs[id], Live(r, ls[..n + 1]), id)
  {
    hide WellFormed, Live, KeptBy, Run, Restarted, NumberKept;
    var p := Live(r, ls[..n]);
    TerminalAcrossRestarts(r, ls[..n], id);
    var m := LostNumber(p, ls[n].now, id);
    var q := Restarted(p, ls[n].now);
    BroughtBack(q, m);
    assert !StillFrozen(r.jobs[id], Run(q, BringBack(q, m)), id);
  }

  // ---------- Attempts across restarts ----------

  /** Every claim of a life, in order. */
  ghost function LifeClaims(r: Registry, ls: seq<Life>): seq<Grant> {
    if ls == [] then []
    else
      var front, last := ls[..|ls| - 1], ls[|ls| - 1];
      LifeClaims(r, front) + if last.Op? then NewGrant(Live(r, front), last.event) else []
  }

  ghost predicate LifeGranted(r: Registry, ls: seq<Life>, g: Grant) { HoldsLease(r, g) || g in LifeClaims(r, ls) }

  ghost predicate NeverGranted(r: Registry, ls: seq<Life>, id: JobId) {
    forall g :: LifeGranted(r, ls, g) ==> g.id != id
  }

  /** Every restart keeps this identifier's number, or finds that nothing was ever granted under it. */
  ghost predicate AttemptsKept(r: Registry, ls: seq<Life>, id: JobId) {
    forall n :: 0 <= n < |ls| && ls[n].Restart? ==>
      Live(r, ls[..n]).nextId <= U64_MAX && (KeptBy(Live(r, ls[..n]), id) || NeverGranted(r, ls[..n], id))
  }

  lemma PrefixAttempts(r: Registry, ls: seq<Life>, id: JobId)
    requires ls != []
    ensures var front := ls[..|ls| - 1]; var last := ls[|ls| - 1];
      AttemptsKept(r, ls, id) <==>
      && AttemptsKept(r, front, id)
      && (last.Restart? ==>
          Live(r, front).nextId <= U64_MAX && (KeptBy(Live(r, front), id) || NeverGranted(r, front, id)))
  {
    hide Live, KeptBy, NeverGranted;
    var front := ls[..|ls| - 1];
    assert ls[..|front|] == front;
    assert forall n :: 0 <= n < |front| ==> front[..n] == ls[..n] && front[n] == ls[n];
  }

  lemma AttemptsFit(r: Registry, ls: seq<Life>, id: JobId)
    requires AttemptsKept(r, ls, id)
    ensures CountersFit(r, ls)
  {
  }

  /** A granted attempt number stays at or below the count its job has reached, through every such life. */
  lemma {:induction false} GrantsBehindInLife(r: Registry, ls: seq<Life>, g: Grant)
    requires WellFormed(r) && AttemptsKept(r, ls, g.id) && LifeGranted(r, ls, g)
    ensures Behind(Live(r, ls), g)
  {
    hide WellFormed, Lived, KeptBy, NewGrant, HoldsLease;
    if ls == [] {
      HeldBehind(r, g);
    } else {
      var front, last := ls[..|ls| - 1], ls[|ls| - 1];
      PrefixAttempts(r, ls, g.id);
      AttemptsFit(r, front, g.id);
      LivesKeepWellFormed(r, front);
      if LifeGranted(r, front, g) {
        GrantsBehindInLife(r, front, g);
        LifeStep(Live(r, front), last, g.id);
      } else {
        NewGrantIsNew(Live(r, front), last.event, g);
        OpIsApply(Live(r, front), last.event);
      }
    }
  }

  lemma HeldBehind(r: Registry, g: Grant)
    requires WellFormed(r) && HoldsLease(r, g)
    ensures Behind(r, g)
  {
    OneJobOk(r, g.id);
  }

  lemma OpIsApply(p: Registry, e: Event)
    ensures Lived(p, Op(e)) == Apply(p, e)
  {
  }

  /** No two of these grants of the job, and none of them and a lease held at the start, share an attempt number. */
  ghost predicate IssuedOnceTo(r: Registry, c: seq<Grant>, id: JobId) {
    && (forall i, j :: 0 <= i < j < |c| && c[i].id == id && c[j].id == id ==> c[i].attempt != c[j].attempt)
    && (forall g, i :: HoldsLease(r, g) && 0 <= i < |c| && g.id == id && c[i].id == id ==> c[i].attempt != g.attempt)
  }

  lemma {:induction false} AttemptsAcrossRestarts(r: Registry, ls: seq<Life>, id: JobId)
    requires WellFormed(r) && AttemptsKept(r, ls, id)
    ensures IssuedOnceTo(r, LifeClaims(r, ls), id)
  {
    hide WellFormed, Live, KeptBy, HoldsLease, Apply;
    if ls != [] {
      var front, last := ls[..|ls| - 1], ls[|ls| - 1];
      PrefixAttempts(r, ls, id);
      AttemptsAcrossRestarts(r, front, id);
      AttemptsFit(r, front, id);
      LivesKeepWellFormed(r, front);
      var before, p := LifeClaims(r, front), Live(r, front);
      if last.Restart? || NewGrant(p, last.event) == [] {
        assert LifeClaims(r, ls) == before;
      } else {
        var h := NewGrant(p, last.event)[0];
        assert NewGrant(p, last.event) == [h] && LifeClaims(r, ls) == before + [h];
        hide NewGrant;
        NewGrantIsNew(p, last.event, h);
        forall g | LifeGranted(r, front, g) && g.id == id && h.id == id ensures g.attempt != h.attempt {
          GrantsBehindInLife(r, front, g);
        }
        PushIssuedOnceTo(r, before, h, id);
      }
    }
  }

  lemma PushIssuedOnceTo(r: Registry, c: seq<Grant>, h: Grant, id: JobId)
    requires IssuedOnceTo(r, c, id)
    requires forall g :: (HoldsLease(r, g) || g in c) && g.id == id && h.id == id ==> g.attempt != h.attempt
    ensures IssuedOnceTo(r, c + [h], id)
  {
    hide HoldsLease;
  }

  /** Every lease in force was granted in the life, or held at its start. */
  lemma {:induction false} LeaseWasGrantedInLife(r: Registry, ls: seq<Life>, g: Grant)
    requires WellFormed(r) && CountersFit(r, ls) && HoldsLease(Live(r, ls), g)
    ensures LifeGranted(r, ls, g)
  {
    hide WellFormed, Apply, Restarted, HoldsLease, NewGrant;
    if ls != [] {
      var front, last := ls[..|ls| - 1], ls[|ls| - 1];
      PrefixLives(r, ls, g.id);
      LivesKeepWellFormed(r, front);
      match last {
        case Op(e) => LeaseStep(Live(r, front), e, g);
        case Restart(now) => RestartStartsNone(Live(r, front), now, g);
      }
      if HoldsLease(Live(r, front), g) {
        LeaseWasGrantedInLife(r, front, g);
      }
    }
  }

  lemma RestartStartsNone(p: Registry, now: nat, g: Grant)
    requires WellFormed(p) && p.nextId <= U64_MAX && HoldsLease(Restarted(p, now), g)
    ensures HoldsLease(p, g)
  {
    hide WellFormed, Restarted;
    RestartOnJob(p, now, g.id);
    OneJobOk(p, g.id);
  }

  /**
   Attempt fencing across restarts: a report carrying attempt `a` changes anything only if `a` is the current attempt,
   was granted to the reporting worker and, in the whole life, to no other, and its lease has not expired.
   */
  lemma FencingAcrossRestarts(
    r: Registry, ls: seq<Life>, e: Event, id: JobId, worker: WorkerId, a: nat, now: nat)
    requires WellFormed(r) && AttemptsKept(r, ls, id)
    requires Reports(e, id, worker, Some(a), now) && Apply(Live(r, ls), e) != Live(r, ls)
    ensures var p := Live(r, ls);
      && HoldsLease(p, Grant(id, a, worker)) && p.jobs[id].attempts == a
      && now < p.jobs[id].lease.value.expiresAt
      && LifeGranted(r, ls, Grant(id, a, worker))
      && (forall g :: LifeGranted(r, ls, g) && g.id == id && g.attempt == a ==> g.worker == worker)
  {
    AttemptsFit(r, ls, id);
    LivesKeepWellFormed(r, ls);
    ReportStep(Live(r, ls), e, id, worker, a, now);
    hide WellFormed, Live, Apply, AttemptsKept;
    LeaseWasGrantedInLife(r, ls, Grant(id, a, worker));
    AttemptsAcrossRestarts(r, ls, id);
    forall g | LifeGranted(r, ls, g) && g.id == id && g.attempt == a ensures g.worker == worker {
      SamePairSameGrant(r, LifeClaims(r, ls), g, Grant(id, a, worker));
    }
  }

  lemma SamePairSameGrant(r: Registry, c: seq<Grant>, g: Grant, h: Grant)
    requires IssuedOnceTo(r, c, g.id) && g.id == h.id && g.attempt == h.attempt
    requires (HoldsLease(r, g) || g in c) && (HoldsLease(r, h) || h in c)
    ensures g == h
  {
    if g in c && h in c {
      var i :| 0 <= i < |c| && c[i] == g;
      var j :| 0 <= j < |c| && c[j] == h;
    }
  }

  // The other half: where the number of a granted job is lost, its first attempt can be granted again.

  function Ops(es: seq<Event>): seq<Life> { seq(|es|, i requires 0 <= i < |es| => Op(es[i])) }

  lemma OneMoreOp(r: Registry, ls: seq<Life>, e: Event)
    ensures Live(r, ls + [Op(e)]) == Apply(Live(r, ls), e)
    ensures LifeClaims(r, ls + [Op(e)]) == LifeClaims(r, ls) + NewGrant(Live(r, ls), e)
  {
    assert (ls + [Op(e)])[..|ls|] == ls;
  }

  lemma OneMoreClaim(r: Registry, es: seq<Event>, e: Event)
    ensures Claims(r, es + [e]) == Claims(r, es) + NewGrant(Run(r, es), e)
  {
    assert (es + [e])[..|es|] == es;
  }

  lemma {:induction false} OpsAreRun(r: Registry, ls: seq<Life>, es: seq<Event>)
    ensures Live(r, ls + Ops(es)) == Run(Live(r, ls), es)
    ensures LifeClaims(r, ls + Ops(es)) == LifeClaims(r, ls) + Claims(Live(r, ls), es)
  {
    hide Apply, NewGrant, Live, LifeClaims, Run;
    if es == [] {
      assert ls + Ops(es) == ls;
      NothingRun(Live(r, ls));
    } else {
      var front, e := es[..|es| - 1], es[|es| - 1];
      OpsAreRun(r, ls, front);
      assert ls + Ops(es) == (ls + Ops(front)) + [Op(e)] && es == front + [e];
      hide Claims;
      OneMoreOp(r, ls + Ops(front), e);
      OneMoreEvent(Live(r, ls), front, e);
      OneMoreClaim(Live(r, ls), front, e);
    }
  }

  ghost predicate FirstGranted(c: seq<Grant>, id: JobId) {
    exists i :: 0 <= i < |c| && c[i].id == id && c[i].attempt == 1
  }

  lemma FirstStaysGranted(c: seq<Grant>, more: seq<Grant>, id: JobId)
    requires FirstGranted(c, id)
    ensures FirstGranted(c + more, id)
  {
    var i :| 0 <= i < |c| && c[i].id == id && c[i].attempt == 1;
    assert (c + more)[i] == c[i];
  }

  lemma AttemptsBegin(p: Registry, e: Event, id: JobId)
    requires WellFormed(p) && id in Apply(p, e).jobs && Apply(p, e).jobs[id].attempts >= 1
    ensures (id in p.jobs && p.jobs[id].attempts >= 1) || FirstGranted(NewGrant(p, e), id)
  {
    ApplyOnJob(p, e, id);
    if id !in p.jobs {
      SubmitStartsUnattempted(p, e, id);
    } else if p.jobs[id].attempts == 0 {
      hide WellFormed, Apply, FirstClaimable;
      OnlyClaimsAttempt(p, e, id);
      assert NewGrant(p, e)[0].id == id;
    }
  }

  lemma SubmitStartsUnattempted(p: Registry, e: Event, id: JobId)
    requires WellFormed(p) && e.SubmitJob? && id !in p.jobs && id in Apply(p, e).jobs
    ensures Apply(p, e).jobs[id].attempts == 0
  {
  }

  lemma OnlyClaimsAttempt(p: Registry, e: Event, id: JobId)
    requires id in p.jobs && JobAfter(p, e, id).attempts > p.jobs[id].attempts
    ensures NewGrant(p, e) != [] && NewGrant(p, e)[0].id == id && NewGrant(p, e)[0].attempt == p.jobs[id].attempts + 1
  {
    hide FirstClaimable;
  }

  /** From nothing, a job that was ever granted was granted its first attempt. */
  lemma {:induction false} FirstAttemptFirst(ls: seq<Life>, id: JobId)
    requires CountersFit(EMPTY, ls)
    ensures id in Live(EMPTY, ls).jobs && Live(EMPTY, ls).jobs[id].attempts >= 1 ==>
            FirstGranted(LifeClaims(EMPTY, ls), id)
    ensures !NeverGranted(EMPTY, ls, id) ==> FirstGranted(LifeClaims(EMPTY, ls), id)
  {
    EmptyWellFormed();
    hide WellFormed, Apply, Restarted, FirstGranted;
    if ls != [] {
      var front, last := ls[..|ls| - 1], ls[|ls| - 1];
      PrefixLives(EMPTY, ls, id);
      LivesKeepWellFormed(EMPTY, front);
      FirstAttemptFirst(front, id);
      var before, p := LifeClaims(EMPTY, front), Live(EMPTY, front);
      match last {
        case Restart(now) =>
          RestartOnJob(p, now, id);
          assert LifeClaims(EMPTY, ls) == before;
        case Op(e) =>
          FirstAttemptStep(before, p, e, id);
      }
      if g :| LifeGranted(EMPTY, ls, g) && g.id == id && !LifeGranted(EMPTY, front, g) {
        GrantIsFirstOrLater(before, p, last.event, g);
      }
    }
  }

  lemma FirstAttemptStep(before: seq<Grant>, p: Registry, e: Event, id: JobId)
    requires WellFormed(p)
    requires id in p.jobs && p.jobs[id].attempts >= 1 ==> FirstGranted(before, id)
    ensures id in Apply(p, e).jobs && Apply(p, e).jobs[id].attempts >= 1 ==> FirstGranted(before + NewGrant(p, e), id)
    ensures FirstGranted(before, id) ==> FirstGranted(before + NewGrant(p, e), id)
  {
    hide WellFormed, Apply, NewGrant, FirstGranted;
    if FirstGranted(before, id) {
      FirstStaysGranted(before, NewGrant(p, e), id);
    } else if id in Apply(p, e).jobs && Apply(p, e).jobs[id].attempts >= 1 {
      AttemptsBegin(p, e, id);
      FirstIsLast(before, NewGrant(p, e), id);
    }
  }

  lemma FirstIsLast(c: seq<Grant>, more: seq<Grant>, id: JobId)
    requires FirstGranted(more, id)
    ensures FirstGranted(c + more, id)
  {
    var i :| 0 <= i < |more| && more[i].id == id && more[i].attempt == 1;
    assert (c + more)[|c| + i] == more[i];
  }

  lemma GrantIsFirstOrLater(before: seq<Grant>, p: Registry, e: Event, g: Grant)
    requires WellFormed(p) && g in NewGrant(p, e)
    requires g.id in p.jobs && p.jobs[g.id].attempts >= 1 ==> FirstGranted(before, g.id)
    ensures FirstGranted(before + NewGrant(p, e), g.id)
  {
    NewGrantIsNew(p, e, g);
    hide WellFormed, NewGrant;
    if g.attempt == 1 {
      FirstIsLast(before, NewGrant(p, e), g.id);
    } else {
      FirstStaysGranted(before, NewGrant(p, e), g.id);
    }
  }

  /** Cancelling what waits at real-time priority, one job after the other, empties that queue. */
  lemma {:induction false} ClearRealtime(q: Registry) returns (es: seq<Event>)
    requires WellFormed(q)
    ensures Run(q, es).queues.realtime == [] && Run(q, es).nextId == q.nextId
    decreases |q.queues.realtime|
  {
    hide Run, WellFormed;
    if q.queues.realtime == [] {
      es := [];
      NothingRun(q);
    } else {
      var e := CancelJob(q.queues.realtime[0], 0);
      CancelFirst(q);
      ApplyKeepsWellFormed(q, e);
      var rest := ClearRealtime(Apply(q, e));
      es := [e] + rest;
      RunAppend(q, [e], rest);
      OneMoreEvent(q, [], e);
      NothingRun(q);
      assert [] + [e] == [e];
    }
  }

  lemma CancelRemoves(q: Registry, id: JobId)
    requires id in q.jobs && !q.jobs[id].status.Terminal()
    ensures var t := Apply(q, CancelJob(id, 0));
      t.queues == q.queues.Remove(q.jobs[id].priority, id) && t.nextId == q.nextId
  {
  }

  lemma CancelFirst(q: Registry)
    requires WellFormed(q) && q.queues.realtime != []
    ensures var t := Apply(q, CancelJob(q.queues.realtime[0], 0));
      t.queues.realtime == q.queues.realtime[1..] && t.nextId == q.nextId
  {
    var id := q.queues.realtime[0];
    hide WellFormed, PrepareCallback, RemoveFirst, IndexOf;
    QueuesAreOk(q);
    assert id in q.queues.Of(Realtime);
    IndexOfUnique(q.queues.realtime, 0);
    RemoveFirstIs(q.queues.realtime, id);
    CancelRemoves(q, id);
  }

  const AGAIN := WorkerProfile("again", [Cluster], "")

  /** With the real-time queue cleared and the identifier brought back, a claim grants its first attempt. */
  lemma GrantedAgain(q: Registry, m: nat) returns (es: seq<Event>)
    requires WellFormed(q) && m > q.nextId
    ensures FirstGranted(Claims(q, es), JobIdOf(m))
  {
    var clear := ClearRealtime(q);
    hide WellFormed, Run, NewGrant, Decimal, BringBack, FirstGranted;
    var q1 := Run(q, clear);
    BroughtBack(q1, m);
    RunAppend(q, clear, BringBack(q1, m));
    var before := clear + BringBack(q1, m);
    var claim := ClaimJob(AGAIN, map[], 0, 0);
    var t := Run(q, before);
    FirstInLine(t, JobIdOf(m));
    es := before + [claim];
    assert es[..|es| - 1] == before;
    assert Claims(q, es) == Claims(q, before) + [Grant(JobIdOf(m), 1, "again")];
    assert [Grant(JobIdOf(m), 1, "again")][0] == Grant(JobIdOf(m), 1, "again");
    assert FirstGranted([Grant(JobIdOf(m), 1, "again")], JobIdOf(m)) by {
      OneFirst(JobIdOf(m), "again");
    }
    FirstIsLast(Claims(q, before), [Grant(JobIdOf(m), 1, "again")], JobIdOf(m));
  }

  lemma OneFirst(id: JobId, w: WorkerId)
    ensures FirstGranted([Grant(id, 1, w)], id)
  {
    assert [Grant(id, 1, w)][0].attempt == 1;
  }

  lemma FirstInLine(t: Registry, id: JobId)
    requires t.queues.realtime == [id] && id in t.jobs && t.jobs[id] == NewJob(id, Blank(Realtime), 0)
    ensures NewGrant(t, ClaimJob(AGAIN, map[], 0, 0)) == [Grant(id, 1, "again")]
  {
    assert t.queues.InClaimOrder()[0] == id;
  }

  /** Whatever operations follow this life, no attempt of the job is granted twice. */
  ghost predicate FencedHereafter(ls: seq<Life>, id: JobId) {
    forall es: seq<Event> :: IssuedOnceTo(EMPTY, LifeClaims(EMPTY, ls + Ops(es)), id)
  }

  /**
   From an empty registry, no attempt number of a job is ever granted twice, at any point of a life and whatever
   operations might have followed there, if and only if every restart keeps the job's number or finds it never granted.
   */
  lemma FencedIffAttemptsKept(ls: seq<Life>, id: JobId)
    requires CountersFit(EMPTY, ls)
    ensures AttemptsKept(EMPTY, ls, id) <==> forall n: nat :: n <= |ls| ==> FencedHereafter(ls[..n], id)
  {
    EmptyWellFormed();
    hide WellFormed, Live, KeptBy, Lived, NeverGranted, LifeClaims, IssuedOnceTo;
    if AttemptsKept(EMPTY, ls, id) {
      forall n: nat, es: seq<Event> | n <= |ls| ensures IssuedOnceTo(EMPTY, LifeClaims(EMPTY, ls[..n] + Ops(es)), id) {
        var all := ls[..n] + Ops(es);
        assert forall i :: 0 <= i < |all| && all[i].Restart? ==> i < n && all[i] == ls[i] && all[..i] == ls[..i];
        AttemptsAcrossRestarts(EMPTY, all, id);
      }
    } else {
      var n :| 0 <= n < |ls| && ls[n].Restart? && !KeptBy(Live(EMPTY, ls[..n]), id)
          && !NeverGranted(EMPTY, ls[..n], id);
      GrantedTwice(ls, id, n);
    }
  }

  lemma GrantedTwice(ls: seq<Life>, id: JobId, n: nat)
    requires CountersFit(EMPTY, ls) && n < |ls| && ls[n].Restart?
    requires !KeptBy(Live(EMPTY, ls[..n]), id) && !NeverGranted(EMPTY, ls[..n], id)
    ensures !FencedHereafter(ls[..n + 1], id)
  {
    EmptyWellFormed();
    hide WellFormed, KeptBy, Restarted, NeverGranted, IssuedOnceTo, FirstGranted;
    var front, after := ls[..n], ls[..n + 1];
    assert after == front + [ls[n]] && after[..|after| - 1] == front;
    assert CountersFit(EMPTY, front) by {
      assert forall i :: 0 <= i < n ==> front[..i] == ls[..i] && front[i] == ls[i];
    }
    LivesKeepWellFormed(EMPTY, front);
    FirstAttemptFirst(front, id);
    OneMoreLife(EMPTY, front, ls[n]);
    var p, q := Live(EMPTY, front), Live(EMPTY, after);
    RestartOnJob(p, ls[n].now, id);
    var m := LostNumber(p, ls[n].now, id);
    hide Live;
    var es := GrantedAgain(q, m);
    OpsAreRun(EMPTY, after, es);
    assert LifeClaims(EMPTY, after) == LifeClaims(EMPTY, front);
    TwiceFirst(LifeClaims(EMPTY, after), Claims(q, es), id);
  }

  lemma TwiceFirst(c: seq<Grant>, more: seq<Grant>, id: JobId)
    requires FirstGranted(c, id) && FirstGranted(more, id)
    ensures !IssuedOnceTo(EMPTY, c + more, id)
  {
    var i :| 0 <= i < |c| && c[i].id == id && c[i].attempt == 1;
    var j :| 0 <= j < |more| && more[j].id == id && more[j].attempt == 1;
    assert (c + more)[i] == c[i] && (c + more)[|c| + j] == more[j];
  }

  /**
   Where the newest identifier is not retained, and only there, the first job created after a restart is given an
   identifier that was issued before it.
   */
  lemma ReissuedIffNewestPruned(r: Registry, now: nat, q: SubmitRequest, later: nat)
    requires WellFormed(r) && r.nextId <= U64_MAX
    requires Submit(Restarted(r, now), q, later).0 != Restarted(r, now)
    ensures var (s, reply) := Submit(Restarted(r, now), q, later);
      reply.Ok? && (Issued(reply.value.id, r.nextId) <==> !NewestRetained(r))
  {
    RestartIsSweepIffNewestRetained(r, now);
    var p := Restarted(r, now);
    hide WellFormed, Restarted, NewestRetained;
    var reply := Submit(p, q, later).1;
    assert reply.Ok? && reply.value.id == JobIdOf(p.nextId + 1);
    if Issued(JobIdOf(p.nextId + 1), r.nextId) {
      var n: nat :| 1 <= n <= r.nextId && JobIdOf(p.nextId + 1) == JobIdOf(n);
      JobIdInjective(p.nextId + 1, n);
    } else {
      assert !(1 <= p.nextId + 1 <= r.nextId);
    }
  }

  // ---------- A life that loses the newest identifier ----------

  /** Submit, cancel and prune the only job, then crash. */
  function LosingLife(q: SubmitRequest): seq<Life> {
    [Op(SubmitJob(q, 0))] + [Op(CancelJob(JobIdOf(1), 0))] + [Op(PruneJobs(RetentionPolicy(0, 1), 0))] + [Restart(0)]
  }

  lemma OneMoreLife(r: Registry, ls: seq<Life>, l: Life)
    ensures Live(r, []) == r && Live(r, ls + [l]) == Lived(Live(r, ls), l)
  {
    assert (ls + [l])[..|ls|] == ls;
  }

  lemma OnlyJobSubmitted(q: SubmitRequest)
    requires Normalize(q).Ok? && q.callbackUrl.None?
    ensures var r := Submit(EMPTY, q, 0).0;
      && WellFormed(r) && r.nextId == 1 && r.order == [JobIdOf(1)]
      && r.jobs == map[JobIdOf(1) := NewJob(JobIdOf(1), Normalize(q).value, 0)]
      && Normalize(q).value.callbackUrl.None?
  {
    EmptyWellFormed();
    hide WellFormed, Decimal, NormalizeKey;
    SubmitKeepsWellFormed(EMPTY, q, 0);
  }

  lemma OnlyJobCancelled(q: SubmitRequest)
    requires Normalize(q).Ok? && q.callbackUrl.None?
    ensures var c := Cancel(Submit(EMPTY, q, 0).0, JobIdOf(1), 0).0;
      && WellFormed(c) && c.nextId == 1 && c.order == [JobIdOf(1)]
      && JobIdOf(1) in c.jobs && c.jobs[JobIdOf(1)].status.Cancelled?
      && Prunable(c.jobs[JobIdOf(1)], RetentionPolicy(0, 1), 0)
  {
    hide WellFormed, Decimal, Normalize, Submit, RemoveFirst;
    OnlyJobSubmitted(q);
    CancelKeepsWellFormed(Submit(EMPTY, q, 0).0, JobIdOf(1), 0);
  }

  lemma OnlyJobPruned(c: Registry)
    requires WellFormed(c) && c.nextId == 1 && c.order == [JobIdOf(1)]
    requires JobIdOf(1) in c.jobs && Prunable(c.jobs[JobIdOf(1)], RetentionPolicy(0, 1), 0)
    ensures Prune(c, RetentionPolicy(0, 1), 0).0 == EMPTY.(nextId := 1)
  {
    var policy := RetentionPolicy(0, 1);
    var p := Prune(c, policy, 0).0;
    OrderIsOk(c);
    PruneKeepsWellFormed(c, policy, 0);
    PruneTakesTheFirst(c, policy, 0, JobIdOf(1));
    PruneLeavesTheRest(c, policy, 0);
    hide Prune, Prunable, Victims;
    assert p.jobs == map[];
    NoJobsNothing(p);
  }

  lemma EmptyOrMember<T>(s: seq<T>)
    ensures s == [] || exists x :: x in s
  {
    assert s == [] || s[0] in s;
  }

  lemma NoJobsNothing(p: Registry)
    requires WellFormed(p) && p.jobs == map[]
    ensures p == EMPTY.(nextId := p.nextId)
  {
    assert QueueOk(p, Realtime) && QueueOk(p, Batch) && QueueOk(p, Background) && OrderOk(p) && KeysOk(p);
    hide WellFormed;
    forall q ensures p.queues.Of(q) == [] {
      EmptyOrMember(p.queues.Of(q));
    }
    assert p.queues.realtime == p.queues.Of(Realtime) && p.queues.batch == p.queues.Of(Batch);
    assert p.queues.background == p.queues.Of(Background);
    EmptyOrMember(p.order);
    assert p.keys == map[];
  }

  lemma EmptyRestarts()
    ensures Restarted(EMPTY.(nextId := 1), 0) == EMPTY
  {
    NothingExpired(EMPTY, 0);
    assert EMPTY.(nextId := 1).(nextId := 0) == EMPTY;
    hide Sweep;
  }

  /** Two operations, then the prune and the restart, one at a time. */
  lemma LosingLifeIs(q: SubmitRequest)
    ensures LosingLife(q)[..2] == [Op(SubmitJob(q, 0)), Op(CancelJob(JobIdOf(1), 0))]
    ensures Live(EMPTY, LosingLife(q)[..2]) == Cancel(Submit(EMPTY, q, 0).0, JobIdOf(1), 0).0
    ensures Live(EMPTY, LosingLife(q)) ==
            Restarted(Prune(Live(EMPTY, LosingLife(q)[..2]), RetentionPolicy(0, 1), 0).0, 0)
  {
    hide Live, Submit, Cancel, Prune, Restarted, Decimal;
    var submit, cancel := Op(SubmitJob(q, 0)), Op(CancelJob(JobIdOf(1), 0));
    var prune, restart := Op(PruneJobs(RetentionPolicy(0, 1), 0)), Restart(0);
    OneMoreLife(EMPTY, [], submit);
    OneMoreLife(EMPTY, [submit], cancel);
    OneMoreLife(EMPTY, [submit, cancel], prune);
    OneMoreLife(EMPTY, [submit, cancel, prune], restart);
    assert [] + [submit] == [submit] && [submit] + [cancel] == [submit, cancel];
    assert LosingLife(q) == [submit, cancel, prune] + [restart];
    assert [submit, cancel, prune] == [submit, cancel] + [prune];
  }

  /** The identifier comes back: the first job was cancelled under it, and the next submission runs under it again. */
  lemma PrunedIdComesBack(q: SubmitRequest)
    requires Normalize(q).Ok? && q.callbackUrl.None?
    ensures JobIdOf(1) in Live(EMPTY, LosingLife(q)[..2]).jobs
    ensures Live(EMPTY, LosingLife(q)[..2]).jobs[JobIdOf(1)].status.Cancelled?
    ensures Submit(Live(EMPTY, LosingLife(q)), q, 0).1 == Ok(NewJob(JobIdOf(1), Normalize(q).value, 0))
    ensures var p := Live(EMPTY, LosingLife(q) + [Op(SubmitJob(q, 0))]);
      JobIdOf(1) in p.jobs && p.jobs[JobIdOf(1)].status.Queued?
  {
    OneMoreLife(EMPTY, LosingLife(q), Op(SubmitJob(q, 0)));
    OnlyJobSubmitted(q);
    hide WellFormed, Prunable, Cancel, Prune, Decimal, Live, Restarted, Submit;
    LosingLifeIs(q);
    OnlyJobCancelled(q);
    OnlyJobPruned(Live(EMPTY, LosingLife(q)[..2]));
    EmptyRestarts();
    FirstOfAll(q);
  }

  lemma FirstOfAll(q: SubmitRequest)
    requires Normalize(q).Ok?
    ensures Submit(EMPTY, q, 0).1 == Ok(NewJob(JobIdOf(1), Normalize(q).value, 0))
  {
  }
}
