/**
 Callback delivery (src/callbacks.rs): dispatches, recovery passes, delivery tasks and registry operations
 interleaved in any order. A task is a loop of begin, post, record; each of its registry calls is one atomic step.
 */
module Callbacks {
  import opened Collections
  import opened JobIds
  import opened JobModel
  import opened JobInvariant
  import opened JobRuns
  import Jobs

  /** What came back from one post. */
  datatype Reply = Success(http: nat) | Refused(http: nat) | Error(message: string)

  /** About to begin an attempt, waiting for the reply to a post, out of the loop, finished. */
  datatype Pc = Starting | Posting | Leaving | Done

  datatype Task = Task(id: JobId, pc: Pc, posts: nat)

  datatype Entry = Began(id: JobId) | Succeeded(id: JobId) | Missed(id: JobId)

  datatype System = System(registry: Registry, inFlight: set<JobId>, tasks: seq<Task>, log: seq<Entry>)

  datatype Move =
    | Dispatch(id: JobId)
    | Work(task: nat, now: nat, reply: Reply)
    | Other(event: Event)

  predicate CallbackEvent(e: Event) {
    e.BeginCallbackAttempt? || e.RecordCallbackSuccess? || e.RecordCallbackFailure?
  }

  function RecordEvent(id: JobId, now: nat, reply: Reply): Event {
    match reply
    case Success(http) => RecordCallbackSuccess(id, http, now)
    case Refused(http) => RecordCallbackFailure(id, Some(http), None)
    case Error(message) => RecordCallbackFailure(id, None, Some(message))
  }

  /** One atomic step of task k. */
  function TaskStep(s: System, k: nat, now: nat, reply: Reply, limit: nat): System
    requires k < |s.tasks|
  {
    var t := s.tasks[k];
    match t.pc
    case Starting =>
      var begun := BeginCallback(s.registry, t.id, now);
      if begun.1.None? then s.(tasks := s.tasks[k := t.(pc := Leaving)])
      else
        s.(registry := begun.0, log := s.log + [Began(t.id)],
           tasks := s.tasks[k := if begun.1.value.callbackUrl.None? then t.(pc := Leaving)
                                 else t.(pc := Posting, posts := t.posts + 1)])
    case Posting =>
      var out := reply.Success? || t.posts == AtLeastOne(limit);
      s.(registry := Apply(s.registry, RecordEvent(t.id, now, reply)),
         log := s.log + [if reply.Success? then Succeeded(t.id) else Missed(t.id)],
         tasks := s.tasks[k := t.(pc := if out then Leaving else Starting)])
    case Leaving => s.(inFlight := s.inFlight - {t.id}, tasks := s.tasks[k := t.(pc := Done)])
    case Done => s
  }

  function Step(s: System, m: Move, limit: nat): System {
    match m
    case Dispatch(id) =>
      if id in s.inFlight then s
      else s.(inFlight := s.inFlight + {id}, tasks := s.tasks + [Task(id, Starting, 0)])
    case Work(k, now, reply) => if k < |s.tasks| then TaskStep(s, k, now, reply, limit) else s
    case Other(e) => if CallbackEvent(e) then s else s.(registry := Apply(s.registry, e))
  }

  function RunMoves(s: System, moves: seq<Move>, limit: nat): System {
    if moves == [] then s else Step(RunMoves(s, moves[..|moves| - 1], limit), moves[|moves| - 1], limit)
  }

  /** A process that has just started over this registry. */
  function Fresh(r: Registry): System { System(r, {}, [], []) }

  // ---------- The invariant ----------

  function CallbackAttempts(j: Job): nat { if j.callback.Some? then j.callback.value.attempts else 0 }

  function AttemptsIn(r: Registry, id: JobId): nat { if id in r.jobs then CallbackAttempts(r.jobs[id]) else 0 }

  predicate Delivered(j: Job) { j.callback.Some? && j.callback.value.status.Delivered? }

  function BegunCount(log: seq<Entry>, id: JobId): nat {
    if log == [] then 0 else BegunCount(log[..|log| - 1], id) + Count(log[|log| - 1] == Began(id))
  }

  /** A task that has not finished has its job marked, and is the only one for it; every mark is some task's. */
  ghost predicate OneTaskEach(s: System) {
    && (forall k :: 0 <= k < |s.tasks| && !s.tasks[k].pc.Done? ==> s.tasks[k].id in s.inFlight)
    && (forall i, k :: 0 <= i < k < |s.tasks| && !s.tasks[i].pc.Done? && !s.tasks[k].pc.Done? ==>
          s.tasks[i].id != s.tasks[k].id)
    && (forall id :: id in s.inFlight ==> exists k :: 0 <= k < |s.tasks| && !s.tasks[k].pc.Done? && s.tasks[k].id == id)
  }

  ghost predicate PostsBounded(s: System, limit: nat) {
    forall k :: 0 <= k < |s.tasks| ==>
      s.tasks[k].posts <= AtLeastOne(limit) && (s.tasks[k].pc.Starting? ==> s.tasks[k].posts < AtLeastOne(limit))
  }

  /** While a post is out its job is retained and still awaits delivery. */
  ghost predicate PostsAwait(s: System) {
    forall k :: 0 <= k < |s.tasks| && s.tasks[k].pc.Posting? ==>
      s.tasks[k].id in s.registry.jobs && AwaitsDelivery(s.registry.jobs[s.tasks[k].id])
  }

  /** A job's success is recorded once at most, and no attempt begins after it. */
  ghost predicate SuccessIsLast(log: seq<Entry>) {
    forall i, k :: 0 <= i < k < |log| && log[i].Succeeded? ==>
        log[k] != Succeeded(log[i].id) && log[k] != Began(log[i].id)
  }

  /** What the log says of a job: it is an issued one, and if retained its success shows. */
  ghost predicate LogShows(r: Registry, log: seq<Entry>) {
    forall x :: x in log ==> Issued(x.id, r.nextId) && (x.Succeeded? && x.id in r.jobs ==> Delivered(r.jobs[x.id]))
  }

  /** A retained job's attempt counter is where it started plus the attempts begun. */
  ghost predicate Counted(r0: Registry, r: Registry, log: seq<Entry>) {
    forall id :: id in r.jobs ==> CallbackAttempts(r.jobs[id]) == AttemptsIn(r0, id) + BegunCount(log, id)
  }

  ghost predicate RecordsOk(r0: Registry, r: Registry, log: seq<Entry>) {
    && WellFormed(r) && WellFormed(r0) && r0.nextId <= r.nextId
    && SuccessIsLast(log) && LogShows(r, log) && Counted(r0, r, log)
  }

  ghost predicate DeliveryOk(r0: Registry, s: System, limit: nat) {
    RecordsOk(r0, s.registry, s.log) && OneTaskEach(s) && PostsBounded(s, limit) && PostsAwait(s)
  }

  // ---------- The registry and the log ----------

  /** What is logged when the registry moves by this event. */
  function Logged(r: Registry, e: Event): seq<Entry> {
    if e.BeginCallbackAttempt? && e.id in r.jobs && AwaitsDelivery(r.jobs[e.id]) then [Began(e.id)]
    else if e.RecordCallbackSuccess? then [Succeeded(e.id)]
    else if e.RecordCallbackFailure? then [Missed(e.id)]
    else []
  }

  /** Results are only recorded for a job that is waiting for one. */
  predicate Expected(r: Registry, e: Event) {
    e.RecordCallbackSuccess? || e.RecordCallbackFailure? ==> e.id in r.jobs && AwaitsDelivery(r.jobs[e.id])
  }

  lemma JobAfterCounts(r: Registry, e: Event, id: JobId)
    requires id in r.jobs && JobOk(r.jobs[id])
    ensures CallbackAttempts(JobAfter(r, e, id)) == CallbackAttempts(r.jobs[id]) + Count(Began(id) in Logged(r, e))
    ensures Delivered(r.jobs[id]) ==> Delivered(JobAfter(r, e, id))
    ensures Succeeded(id) in Logged(r, e) && Expected(r, e) ==> Delivered(JobAfter(r, e, id))
  {
    hide FirstClaimable;
  }

  lemma NewJobUntouched(r: Registry, e: Event, id: JobId)
    requires WellFormed(r) && id !in r.jobs && id in Apply(r, e).jobs
    ensures !Issued(id, r.nextId) && CallbackAttempts(Apply(r, e).jobs[id]) == 0 && Logged(r, e) == []
  {
    ApplyOnJob(r, e, id);
    if Issued(id, r.nextId) {
      GoneStaysGone(r, e, id);
    }
  }

  /** What one event and its log entries do to what is known of one job. */
  lemma CountedUnder(r0: Registry, r: Registry, log: seq<Entry>, e: Event, id: JobId)
    requires RecordsOk(r0, r, log) && id in Apply(r, e).jobs
    ensures CallbackAttempts(Apply(r, e).jobs[id]) == AttemptsIn(r0, id) + BegunCount(log + Logged(r, e), id)
  {
    hide WellFormed, Apply, FirstClaimable, AwaitsDelivery;
    BegunCountAdds(log, Logged(r, e), id);
    if id in r.jobs {
      ApplyOnJob(r, e, id);
      OneJobOk(r, id);
      JobAfterCounts(r, e, id);
    } else {
      NewJobUntouched(r, e, id);
      NeverBegun(log, id, r);
      if id in r0.jobs {
        OneJobOk(r0, id);
        IssuedWithin(id, r0.nextId, r.nextId);
      }
    }
  }

  lemma IssuedWithin(id: JobId, m: nat, n: nat)
    requires Issued(id, m) && m <= n
    ensures Issued(id, n)
  {
  }

  lemma {:induction false} NeverBegun(log: seq<Entry>, id: JobId, r: Registry)
    requires LogShows(r, log) && !Issued(id, r.nextId)
    ensures BegunCount(log, id) == 0
  {
    if log != [] {
      assert log[|log| - 1] in log;
      NeverBegun(log[..|log| - 1], id, r);
    }
  }

  lemma BegunCountAdds(log: seq<Entry>, more: seq<Entry>, id: JobId)
    requires |more| <= 1
    ensures BegunCount(log + more, id) == BegunCount(log, id) + Count(Began(id) in more)
  {
    if more == [] {
      assert log + more == log;
    } else {
      assert (log + more)[..|log|] == log;
    }
  }

  lemma LogShowsUnder(r0: Registry, r: Registry, log: seq<Entry>, e: Event, x: Entry)
    requires RecordsOk(r0, r, log) && Expected(r, e) && x in log + Logged(r, e)
    ensures Issued(x.id, Apply(r, e).nextId)
    ensures x.Succeeded? && x.id in Apply(r, e).jobs ==> Delivered(Apply(r, e).jobs[x.id])
  {
    hide WellFormed, Apply, FirstClaimable, AwaitsDelivery;
    if x in Logged(r, e) {
      OneJobOk(r, x.id);
    }
    IssuedStays(r, e, x.id);
    if x.Succeeded? && x.id in Apply(r, e).jobs {
      ApplyOnJob(r, e, x.id);
      if x.id in r.jobs {
        OneJobOk(r, x.id);
        JobAfterCounts(r, e, x.id);
      } else {
        NewJobUntouched(r, e, x.id);
      }
    }
  }

  lemma SuccessStaysLast(r: Registry, log: seq<Entry>, e: Event)
    requires SuccessIsLast(log) && LogShows(r, log) && Expected(r, e)
    ensures SuccessIsLast(log + Logged(r, e))
  {
    var all := log + Logged(r, e);
    forall i, k | 0 <= i < k < |all| && all[i].Succeeded?
      ensures all[k] != Succeeded(all[i].id) && all[k] != Began(all[i].id)
    {
      assert all[i] in log;
    }
  }

  /** Every event, with what is logged of it, keeps counters and log in agreement. */
  lemma EventKeepsRecords(r0: Registry, r: Registry, log: seq<Entry>, e: Event)
    requires RecordsOk(r0, r, log) && Expected(r, e)
    ensures RecordsOk(r0, Apply(r, e), log + Logged(r, e))
  {
    hide WellFormed, Apply, Logged, Expected;
    ApplyKeepsWellFormed(r, e);
    SuccessStaysLast(r, log, e);
    forall id | id in Apply(r, e).jobs
      ensures CallbackAttempts(Apply(r, e).jobs[id]) == AttemptsIn(r0, id) + BegunCount(log + Logged(r, e), id)
    {
      CountedUnder(r0, r, log, e, id);
    }
    forall x | x in log + Logged(r, e)
      ensures Issued(x.id, Apply(r, e).nextId)
      ensures x.Succeeded? && x.id in Apply(r, e).jobs ==> Delivered(Apply(r, e).jobs[x.id])
    {
      LogShowsUnder(r0, r, log, e, x);
    }
    ApplyOnJob(r, e, "");
  }

  // ---------- The tasks ----------

  /** Posts that are out keep awaiting through every event but a success for their own job. */
  lemma EventKeepsPosts(s: System, e: Event)
    requires WellFormed(s.registry) && PostsAwait(s)
    requires e.RecordCallbackSuccess? ==> forall k :: 0 <= k < |s.tasks| && s.tasks[k].pc.Posting? ==>
            s.tasks[k].id != e.id
    ensures PostsAwait(s.(registry := Apply(s.registry, e)))
  {
    hide WellFormed, Apply, AwaitsDelivery;
    forall k | 0 <= k < |s.tasks| && s.tasks[k].pc.Posting?
      ensures s.tasks[k].id in Apply(s.registry, e).jobs && AwaitsDelivery(Apply(s.registry, e).jobs[s.tasks[k].id])
    {
      UndeliveredStep(s.registry, e, s.tasks[k].id);
    }
  }

  lemma DispatchKeeps(r0: Registry, s: System, id: JobId, limit: nat)
    requires DeliveryOk(r0, s, limit)
    ensures DeliveryOk(r0, Step(s, Dispatch(id), limit), limit)
  {
    hide WellFormed, RecordsOk, AwaitsDelivery;
    if id !in s.inFlight {
      var t := Step(s, Dispatch(id), limit);
      forall x | x in t.inFlight ensures exists k :: 0 <= k < |t.tasks| && !t.tasks[k].pc.Done? && t.tasks[k].id == x {
        if x == id {
          assert t.tasks[|s.tasks|].id == x;
        } else {
          var k :| 0 <= k < |s.tasks| && !s.tasks[k].pc.Done? && s.tasks[k].id == x;
          assert t.tasks[k].id == x;
        }
      }
    }
  }

  /** Moving one task forward within its life changes nothing of who is in flight. */
  lemma OneTaskStill(s: System, t: System, k: nat, task: Task)
    requires k < |s.tasks| && OneTaskEach(s) && !s.tasks[k].pc.Done? && !task.pc.Done? && task.id == s.tasks[k].id
    requires t.tasks == s.tasks[k := task] && t.inFlight == s.inFlight
    ensures OneTaskEach(t)
  {
    forall x | x in t.inFlight ensures exists i :: 0 <= i < |t.tasks| && !t.tasks[i].pc.Done? && t.tasks[i].id == x {
      var i :| 0 <= i < |s.tasks| && !s.tasks[i].pc.Done? && s.tasks[i].id == x;
      assert !t.tasks[i].pc.Done? && t.tasks[i].id == x;
    }
  }

  lemma LeavingKeeps(r0: Registry, s: System, k: nat, now: nat, reply: Reply, limit: nat)
    requires DeliveryOk(r0, s, limit) && k < |s.tasks| && s.tasks[k].pc.Leaving?
    ensures DeliveryOk(r0, TaskStep(s, k, now, reply, limit), limit)
  {
    hide WellFormed, RecordsOk, AwaitsDelivery;
    var t := TaskStep(s, k, now, reply, limit);
    forall x | x in t.inFlight ensures exists i :: 0 <= i < |t.tasks| && !t.tasks[i].pc.Done? && t.tasks[i].id == x {
      var i :| 0 <= i < |s.tasks| && !s.tasks[i].pc.Done? && s.tasks[i].id == x;
      assert !t.tasks[i].pc.Done? && t.tasks[i].id == x;
    }
  }

  /** Beginning an attempt: refused, nothing moves; granted, the job awaits delivery while its post is out. */
  lemma BeginIs(r: Registry, id: JobId, now: nat)
    requires WellFormed(r)
    ensures var begun := BeginCallback(r, id, now); var e := BeginCallbackAttempt(id, now);
      && begun.0 == Apply(r, e)
      && (begun.1.None? ==> begun.0 == r)
      && (begun.1.Some? ==> Logged(r, e) == [Began(id)] && begun.1.value.callbackUrl.Some?)
      && (begun.1.Some? ==> id in begun.0.jobs && AwaitsDelivery(begun.0.jobs[id]))
  {
  }

  lemma StartingKeeps(r0: Registry, s: System, k: nat, now: nat, reply: Reply, limit: nat)
    requires DeliveryOk(r0, s, limit) && k < |s.tasks| && s.tasks[k].pc.Starting?
    ensures DeliveryOk(r0, TaskStep(s, k, now, reply, limit), limit)
  {
    hide WellFormed, RecordsOk, AwaitsDelivery, OneTaskEach, BeginCallback, Apply, Logged;
    var t, id := TaskStep(s, k, now, reply, limit), s.tasks[k].id;
    RecordsWellFormed(r0, s.registry, s.log);
    BeginIs(s.registry, id, now);
    OneTaskStill(s, t, k, t.tasks[k]);
    if BeginCallback(s.registry, id, now).1.Some? {
      var e := BeginCallbackAttempt(id, now);
      EventKeepsRecords(r0, s.registry, s.log, e);
      EventKeepsPosts(s, e);
    }
  }

  lemma RecordsWellFormed(r0: Registry, r: Registry, log: seq<Entry>)
    requires RecordsOk(r0, r, log)
    ensures WellFormed(r)
  {
  }

  lemma PostingKeeps(r0: Registry, s: System, k: nat, now: nat, reply: Reply, limit: nat)
    requires DeliveryOk(r0, s, limit) && k < |s.tasks| && s.tasks[k].pc.Posting?
    ensures DeliveryOk(r0, TaskStep(s, k, now, reply, limit), limit)
  {
    hide WellFormed, RecordsOk, AwaitsDelivery, Apply;
    var t, id := TaskStep(s, k, now, reply, limit), s.tasks[k].id;
    var e := RecordEvent(id, now, reply);
    RecordsWellFormed(r0, s.registry, s.log);
    OneTaskStill(s, t, k, t.tasks[k]);
    EventKeepsRecords(r0, s.registry, s.log, e);
    var others := s.(tasks := t.tasks);
    EventKeepsPosts(others, e);
  }

  lemma StepKeepsDelivery(r0: Registry, s: System, m: Move, limit: nat)
    requires DeliveryOk(r0, s, limit)
    ensures DeliveryOk(r0, Step(s, m, limit), limit)
  {
    hide DeliveryOk, TaskStep, Apply;
    match m
    case Dispatch(id) => DispatchKeeps(r0, s, id, limit);
    case Work(k, now, reply) =>
      if k < |s.tasks| {
        match s.tasks[k].pc
        case Starting => StartingKeeps(r0, s, k, now, reply, limit);
        case Posting => PostingKeeps(r0, s, k, now, reply, limit);
        case Leaving => LeavingKeeps(r0, s, k, now, reply, limit);
        case Done => FinishedStays(s, k, now, reply, limit);
      }
    case Other(e) =>
      if !CallbackEvent(e) {
        OtherKeeps(r0, s, e, limit);
      }
  }

  lemma FinishedStays(s: System, k: nat, now: nat, reply: Reply, limit: nat)
    requires k < |s.tasks| && s.tasks[k].pc.Done?
    ensures TaskStep(s, k, now, reply, limit) == s
  {
  }

  lemma OtherKeeps(r0: Registry, s: System, e: Event, limit: nat)
    requires DeliveryOk(r0, s, limit) && !CallbackEvent(e)
    ensures DeliveryOk(r0, s.(registry := Apply(s.registry, e)), limit)
  {
    hide WellFormed, RecordsOk, AwaitsDelivery, Apply;
    RecordsWellFormed(r0, s.registry, s.log);
    EventKeepsRecords(r0, s.registry, s.log, e);
    assert s.log + Logged(s.registry, e) == s.log;
    EventKeepsPosts(s, e);
  }

  /** From any system in order, every further sequence of moves keeps it in order. */
  lemma {:induction false} MovesKeepDelivery(r0: Registry, s: System, moves: seq<Move>, limit: nat)
    requires DeliveryOk(r0, s, limit)
    ensures DeliveryOk(r0, RunMoves(s, moves, limit), limit)
  {
    hide Step, DeliveryOk;
    if moves != [] {
      MovesKeepDelivery(r0, s, moves[..|moves| - 1], limit);
      StepKeepsDelivery(r0, RunMoves(s, moves[..|moves| - 1], limit), moves[|moves| - 1], limit);
    }
  }

  lemma RunKeepsDelivery(r: Registry, moves: seq<Move>, limit: nat)
    requires WellFormed(r)
    ensures DeliveryOk(r, RunMoves(Fresh(r), moves, limit), limit)
  {
    FreshOk(r, limit);
    MovesKeepDelivery(r, Fresh(r), moves, limit);
  }

  lemma FreshOk(r: Registry, limit: nat)
    requires WellFormed(r)
    ensures DeliveryOk(r, Fresh(r), limit)
  {
    hide WellFormed;
    assert forall id :: BegunCount([], id) == 0;
  }

  // ---------- What every interleaving guarantees ----------

  /** One unfinished delivery task per job at most, and no task posts more than max(1, max_attempts) times. */
  lemma OneTaskPerJob(r: Registry, moves: seq<Move>, limit: nat, i: nat, k: nat)
    requires WellFormed(r)
    requires var s := RunMoves(Fresh(r), moves, limit); i < |s.tasks| && k < |s.tasks|
    ensures var s := RunMoves(Fresh(r), moves, limit);
      && (i != k && !s.tasks[i].pc.Done? && !s.tasks[k].pc.Done? ==> s.tasks[i].id != s.tasks[k].id)
      && s.tasks[k].posts <= AtLeastOne(limit)
  {
    hide WellFormed, RecordsOk, RunMoves;
    RunKeepsDelivery(r, moves, limit);
  }

  /** A retained job's attempt counter has grown by exactly the attempts begun for it. */
  lemma AttemptsAreCounted(r: Registry, moves: seq<Move>, limit: nat, id: JobId)
    requires WellFormed(r) && id in RunMoves(Fresh(r), moves, limit).registry.jobs
    ensures var s := RunMoves(Fresh(r), moves, limit);
      CallbackAttempts(s.registry.jobs[id]) == AttemptsIn(r, id) + BegunCount(s.log, id)
  {
    hide WellFormed, RunMoves, OneTaskEach;
    RunKeepsDelivery(r, moves, limit);
  }

  /** A job's success is recorded at most once, and no attempt begins for it afterwards. */
  lemma SuccessRecordedOnce(r: Registry, moves: seq<Move>, limit: nat, i: nat, k: nat)
    requires WellFormed(r)
    requires var s := RunMoves(Fresh(r), moves, limit); i < k < |s.log| && s.log[i].Succeeded?
    ensures var s := RunMoves(Fresh(r), moves, limit);
      s.log[k] != Succeeded(s.log[i].id) && s.log[k] != Began(s.log[i].id)
  {
    hide WellFormed, RunMoves, OneTaskEach;
    RunKeepsDelivery(r, moves, limit);
  }

  /** While a post is out its job is retained, terminal and undelivered: no prune and no other delivery intervenes. */
  lemma PostedJobAwaits(r: Registry, moves: seq<Move>, limit: nat, k: nat)
    requires WellFormed(r)
    requires var s := RunMoves(Fresh(r), moves, limit); k < |s.tasks| && s.tasks[k].pc.Posting?
    ensures var s := RunMoves(Fresh(r), moves, limit);
      s.tasks[k].id in s.registry.jobs && AwaitsDelivery(s.registry.jobs[s.tasks[k].id])
  {
    hide WellFormed, RunMoves, OneTaskEach, RecordsOk;
    RunKeepsDelivery(r, moves, limit);
  }

  // ---------- The dispatcher and its tasks ----------

  /** None of these moves is a step of the task `mine`. */
  predicate Others(moves: seq<Move>, mine: Option<nat>) {
    forall i :: 0 <= i < |moves| && moves[i].Work? ==> mine != Some(moves[i].task)
  }

  /** The registry and the dispatcher hold what this system says. */
  ghost predicate Backs(registry: Jobs.JobRegistry, dispatcher: CallbackDispatcher, s: System)
    reads registry, registry.Disk(), dispatcher
  {
    registry.Valid() && registry.State() == s.registry && dispatcher.inFlight == s.inFlight
  }

  lemma {:induction false} MovesAppend(s: System, moves: seq<Move>, more: seq<Move>, limit: nat)
    ensures RunMoves(s, moves + more, limit) == RunMoves(RunMoves(s, moves, limit), more, limit)
  {
    hide Step;
    if more == [] {
      assert moves + more == moves;
    } else {
      var all := moves + more;
      assert all[..|all| - 1] == moves + more[..|more| - 1];
      MovesAppend(s, moves, more[..|more| - 1], limit);
    }
  }

  lemma OneMoreMove(s: System, moves: seq<Move>, m: Move, limit: nat)
    ensures RunMoves(s, moves + [m], limit) == Step(RunMoves(s, moves, limit), m, limit)
  {
    assert (moves + [m])[..|moves|] == moves;
  }

  /** What others do leaves a task where it stands. */
  lemma {:induction false} OthersLeaveTask(s: System, moves: seq<Move>, k: nat, limit: nat)
    requires k < |s.tasks| && Others(moves, Some(k))
    ensures var t := RunMoves(s, moves, limit); k < |t.tasks| && t.tasks[k] == s.tasks[k]
  {
    hide Apply, BeginCallback;
    if moves != [] {
      OthersLeaveTask(s, moves[..|moves| - 1], k, limit);
    }
  }

  /** After these moves the objects back the system, and task k stands here. */
  ghost predicate Stands(
    registry: Jobs.JobRegistry, dispatcher: CallbackDispatcher, s: System, moves: seq<Move>, limit: nat, k: nat,
    task: Task)
    reads registry, registry.Disk(), dispatcher
  {
    var t := RunMoves(s, moves, limit);
    Backs(registry, dispatcher, t) && k < |t.tasks| && t.tasks[k] == task
  }

  /** Whatever else happens between two steps: any moves of the system but those of the task `mine`. */
  method OtherMoves(
    registry: Jobs.JobRegistry, dispatcher: CallbackDispatcher, ghost s: System, ghost mine: Option<nat>,
    ghost limit: nat)
    returns (ghost moves: seq<Move>)
    requires Backs(registry, dispatcher, s)
    modifies registry, registry.Disk(), dispatcher
    ensures Others(moves, mine) && Backs(registry, dispatcher, RunMoves(s, moves, limit))
  {
    moves := [];
  }

  /** One task lets the others go ahead and stays where it is. */
  method LetOthers(
    registry: Jobs.JobRegistry, dispatcher: CallbackDispatcher, ghost s: System, ghost before: seq<Move>,
    ghost limit: nat, ghost k: nat, ghost task: Task)
    returns (ghost moves: seq<Move>)
    requires Stands(registry, dispatcher, s, before, limit, k, task)
    modifies registry, registry.Disk(), dispatcher
    ensures Stands(registry, dispatcher, s, moves, limit, k, task)
  {
    ghost var more := OtherMoves(registry, dispatcher, RunMoves(s, before, limit), Some(k), limit);
    OthersLeaveTask(RunMoves(s, before, limit), more, k, limit);
    MovesAppend(s, before, more, limit);
    moves := before + more;
  }

  lemma BeginIsStep(s: System, k: nat, id: JobId, posts: nat, now: nat, limit: nat)
    requires k < |s.tasks| && s.tasks[k] == Task(id, Starting, posts)
    ensures var t, begun := Step(s, Work(k, now, Error("")), limit), BeginCallback(s.registry, id, now);
      && t.registry == begun.0 && t.inFlight == s.inFlight && |t.tasks| == |s.tasks|
      && t.tasks[k] == if begun.1.None? || begun.1.value.callbackUrl.None? then Task(id, Leaving, posts)
                       else Task(id, Posting, posts + 1)
  {
  }

  lemma RecordIsStep(s: System, k: nat, id: JobId, posts: nat, now: nat, reply: Reply, limit: nat)
    requires k < |s.tasks| && s.tasks[k] == Task(id, Posting, posts)
    ensures var t := Step(s, Work(k, now, reply), limit);
      && t.registry == Apply(s.registry, RecordEvent(id, now, reply)) && t.inFlight == s.inFlight
          && |t.tasks| == |s.tasks|
      && t.tasks[k] == Task(id, if reply.Success? || posts == AtLeastOne(limit) then Leaving else Starting, posts)
  {
  }

  method Record(registry: Jobs.JobRegistry, id: JobId, reply: Reply, now: nat)
    requires registry.Valid()
    modifies registry, registry.Disk()
    ensures registry.Valid()
    ensures registry.State() == Apply(old(registry.State()), RecordEvent(id, now, reply))
  {
    match reply
    case Success(http) =>
      var _ := registry.RecordCallbackSuccess(id, http, now);
    case Refused(http) =>
      var _ := registry.RecordCallbackFailure(id, Some(http), None);
    case Error(message) =>
      var _ := registry.RecordCallbackFailure(id, None, Some(message));
  }

  /**
   One delivery task, task k of the system s. replies(n) answers its n-th post and clock(n) is the time of its n-th look
   at the clock. However the other moves of the system interleave, it posts at most max(1, max_attempts) times, only the
   last post may have succeeded, and registry and dispatcher end where the interleaved system ends.
   */
  method DeliverCallback(
    registry: Jobs.JobRegistry, dispatcher: CallbackDispatcher, ghost s: System, ghost k: nat, id: JobId,
    maxAttempts: nat, replies: nat -> Reply, clock: nat -> nat)
    returns (posts: nat, ghost moves: seq<Move>)
    requires Stands(registry, dispatcher, s, [], maxAttempts, k, Task(id, Starting, 0))
    modifies registry, registry.Disk(), dispatcher
    ensures posts <= AtLeastOne(maxAttempts)
    ensures forall n: nat :: n < posts - 1 ==> !replies(n).Success?
    ensures Stands(registry, dispatcher, s, moves, maxAttempts, k, Task(id, Leaving, posts))
  {
    hide WellFormed, RecordEvent, Apply, BeginCallback, Step, RunMoves;
    posts, moves := 0, [];
    while true
      invariant posts < AtLeastOne(maxAttempts)
      invariant forall n: nat :: n < posts ==> !replies(n).Success?
      invariant Stands(registry, dispatcher, s, moves, maxAttempts, k, Task(id, Starting, posts))
      decreases AtLeastOne(maxAttempts) - posts
    {
      moves := LetOthers(registry, dispatcher, s, moves, maxAttempts, k, Task(id, Starting, posts));
      var now := clock(2 * posts);
      ghost var t := RunMoves(s, moves, maxAttempts);
      BeginIsStep(t, k, id, posts, now, maxAttempts);
      var job := registry.BeginCallbackAttempt(id, now);
      OneMoreMove(s, moves, Work(k, now, Error("")), maxAttempts);
      moves := moves + [Work(k, now, Error(""))];
      if job.None? || job.value.callbackUrl.None? {
        return;
      }
      var reply := replies(posts);
      now := clock(2 * posts + 1);
      posts := posts + 1;
      moves := LetOthers(registry, dispatcher, s, moves, maxAttempts, k, Task(id, Posting, posts));
      t := RunMoves(s, moves, maxAttempts);
      RecordIsStep(t, k, id, posts, now, reply, maxAttempts);
      Record(registry, id, reply, now);
      OneMoreMove(s, moves, Work(k, now, reply), maxAttempts);
      moves := moves + [Work(k, now, reply)];
      if reply.Success? || posts == AtLeastOne(maxAttempts) {
        return;
      }
    }
  }

  /** The shared set of jobs whose callback is being delivered. */
  class CallbackDispatcher {
    var inFlight: set<JobId>

    constructor ()
      ensures inFlight == {}
    {
      inFlight := {};
    }

    method MarkInFlight(id: JobId) returns (inserted: bool)
      modifies this
      ensures inserted == (id !in old(inFlight)) && inFlight == old(inFlight) + {id}
    {
      inserted := id !in inFlight;
      inFlight := inFlight + {id};
    }

    method ClearInFlight(id: JobId)
      modifies this
      ensures inFlight == old(inFlight) - {id}
    {
      inFlight := inFlight - {id};
    }

    /** A dispatch is the system's dispatch: it spawns a task exactly when the job was not in flight. */
    method Dispatch(id: JobId, ghost s: System, ghost limit: nat) returns (spawned: bool)
      requires inFlight == s.inFlight
      modifies this
      ensures var t := Step(s, Move.Dispatch(id), limit);
        && inFlight == t.inFlight && t.registry == s.registry
        && t.tasks == s.tasks + if spawned then [Task(id, Starting, 0)] else []
    {
      spawned := MarkInFlight(id);
      assert !spawned ==> s.inFlight + {id} == s.inFlight;
    }

    /** A spawned task: deliver, then leave the set. */
    method RunTask(
      registry: Jobs.JobRegistry, ghost s: System, ghost k: nat, id: JobId, maxAttempts: nat, replies: nat -> Reply,
      clock: nat -> nat)
      returns (posts: nat, ghost moves: seq<Move>)
      requires Stands(registry, this, s, [], maxAttempts, k, Task(id, Starting, 0))
      modifies registry, registry.Disk(), this
      ensures posts <= AtLeastOne(maxAttempts)
      ensures Stands(registry, this, s, moves, maxAttempts, k, Task(id, Done, posts))
    {
      hide WellFormed, RunMoves;
      posts, moves := DeliverCallback(registry, this, s, k, id, maxAttempts, replies, clock);
      moves := LetOthers(registry, this, s, moves, maxAttempts, k, Task(id, Leaving, posts));
      ClearInFlight(id);
      OneMoreMove(s, moves, Work(k, 0, Error("")), maxAttempts);
      moves := moves + [Work(k, 0, Error(""))];
    }

    /** One recovery pass: every job then awaiting delivery is dispatched, whatever happens in between. */
    method DispatchPending(registry: Jobs.JobRegistry, ghost s: System, ghost limit: nat)
        returns (ghost moves: seq<Move>)
      requires Backs(registry, this, s)
      modifies registry, registry.Disk(), this
      ensures Backs(registry, this, RunMoves(s, moves, limit))
      ensures forall id :: id in PendingCallbacks(s.registry) ==> Move.Dispatch(id) in moves
    {
      hide WellFormed, Step, RunMoves;
      var pending := registry.PendingCallbackJobs();
      moves := [];
      assert RunMoves(s, [], limit) == s by {
        NothingMoved(s, limit);
      }
      for i := 0 to |pending|
        invariant Backs(registry, this, RunMoves(s, moves, limit))
        invariant forall j :: 0 <= j < i ==> Move.Dispatch(pending[j]) in moves
      {
        ghost var t := RunMoves(s, moves, limit);
        ghost var more := OtherMoves(registry, this, t, None, limit);
        MovesAppend(s, moves, more, limit);
        moves := moves + more;
        var _ := Dispatch(pending[i], RunMoves(s, moves, limit), limit);
        OneMoreMove(s, moves, Move.Dispatch(pending[i]), limit);
        moves := moves + [Move.Dispatch(pending[i])];
      }
    }
  }

  lemma NothingMoved(s: System, limit: nat)
    ensures RunMoves(s, [], limit) == s
  {
  }
}
