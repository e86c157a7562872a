/**
 Callback delivery in plain fields (src/callbacks.rs): what each step of a task does to the record of its job, and what
 a whole delivery leaves behind when nothing else happens: how often it posts, and what it records.
 */
module DeliveryRuns {
  import opened Collections
  import opened JobIds
  import opened JobModel
  import opened JobRuns
  import opened Callbacks

  /** Ended, with a URL and its callback pending: the jobs a post may be made for. */
  predicate Postable(r: Registry, id: JobId) {
    && id in r.jobs && r.jobs[id].callbackUrl.Some? && r.jobs[id].status in {Complete, Failed, Cancelled}
    && r.jobs[id].callback.Some? && r.jobs[id].callback.value.status == Pending
  }

  function WithCallback(r: Registry, id: JobId, c: CallbackState): Registry
    requires id in r.jobs
  {
    r.(jobs := r.jobs[id := r.jobs[id].(callback := Some(c))])
  }

  /** A task about to post does so exactly for a postable job, whose attempt is counted and stamped; else it leaves. */
  lemma BeginsPost(s: System, k: nat, id: JobId, posts: nat, now: nat, reply: Reply, limit: nat)
    requires k < |s.tasks| && s.tasks[k] == Task(id, Starting, posts)
    ensures Step(s, Work(k, now, reply), limit) ==
      if Postable(s.registry, id) then
        var c := s.registry.jobs[id].callback.value;
        System(WithCallback(s.registry, id, c.(attempts := c.attempts + 1, lastAttemptAt := Some(now))), s.inFlight,
               s.tasks[k := Task(id, Posting, posts + 1)], s.log + [Began(id)])
      else s.(tasks := s.tasks[k := Task(id, Leaving, posts)])
  {
  }

  /** What a reply leaves in the callback of a job that still awaits it. */
  function Recorded(c: CallbackState, reply: Reply, now: nat): CallbackState {
    match reply
    case Success(http) => CallbackState(Delivered, c.attempts, c.lastAttemptAt, Some(now), Some(http), None)
    case Refused(http) => CallbackState(Pending, c.attempts, c.lastAttemptAt, c.deliveredAt, Some(http), None)
    case Error(message) => CallbackState(Pending, c.attempts, c.lastAttemptAt, c.deliveredAt, None, Some(message))
  }

  /**
   The reply to a post is recorded as what it was, and the task leaves after a success or after its last attempt: the
   `limit`-th, or the first if the limit is 0.
   */
  lemma RecordsReply(s: System, k: nat, id: JobId, posts: nat, now: nat, reply: Reply, limit: nat)
    requires k < |s.tasks| && s.tasks[k] == Task(id, Posting, posts) && posts > 0 && Postable(s.registry, id)
    ensures Step(s, Work(k, now, reply), limit) ==
      System(WithCallback(s.registry, id, Recorded(s.registry.jobs[id].callback.value, reply, now)), s.inFlight,
             s.tasks[k := Task(id, if reply.Success? || posts == limit || (limit == 0 && posts == 1) then Leaving
                                   else Starting, posts)],
             s.log + [if reply.Success? then Succeeded(id) else Missed(id)])
  {
  }

  lemma Leaves(s: System, k: nat, id: JobId, posts: nat, now: nat, reply: Reply, limit: nat)
    requires k < |s.tasks| && s.tasks[k] == Task(id, Leaving, posts)
    ensures Step(s, Work(k, now, reply), limit) ==
            s.(inFlight := s.inFlight - {id}, tasks := s.tasks[k := Task(id, Done, posts)])
  {
  }

  /**
   A dispatch starts a task for a job that is not in flight and does nothing for one that is; every operation but those
   of the tasks themselves may be made by others at any time.
   */
  lemma OtherMovesMean(s: System, id: JobId, e: Event, limit: nat)
    ensures Step(s, Move.Dispatch(id), limit) ==
            if id in s.inFlight then s
            else System(s.registry, s.inFlight + {id}, s.tasks + [Task(id, Starting, 0)], s.log)
    ensures Step(s, Other(e), limit) ==
            if e.BeginCallbackAttempt? || e.RecordCallbackSuccess? || e.RecordCallbackFailure? then s
            else s.(registry := Apply(s.registry, e))
  {
  }

  // ---------- A whole delivery ----------

  /**
   The steps of task k that make its first n posts: each begun at clock(2m), and its reply recorded at clock(2m+1).
   */
  function Posts(k: nat, clock: nat -> nat, replies: nat -> Reply, n: nat): seq<Move> {
    if n == 0 then []
    else
      Posts(k, clock, replies, n - 1)
      + [Work(k, clock(2 * n - 2), replies(n - 1))] + [Work(k, clock(2 * n - 1), replies(n - 1))]
  }

  /** The callback after n posts, of which only the last may have succeeded. */
  function AfterPosts(c: CallbackState, clock: nat -> nat, replies: nat -> Reply, n: nat): CallbackState {
    if n == 0 then c
    else
      var begun := c.(attempts := c.attempts + n, lastAttemptAt := Some(clock(2 * n - 2)));
      Recorded(begun, replies(n - 1), clock(2 * n - 1))
  }

  function LogOf(id: JobId, replies: nat -> Reply, n: nat): seq<Entry> {
    if n == 0 then []
    else LogOf(id, replies, n - 1) + [Began(id)] + [if replies(n - 1).Success? then Succeeded(id) else Missed(id)]
  }

  /** The system after n posts of task k. */
  function Posted(s: System, k: nat, id: JobId, clock: nat -> nat, replies: nat -> Reply, n: nat, pc: Pc): System
    requires k < |s.tasks| && Postable(s.registry, id)
  {
    System(WithCallback(s.registry, id, AfterPosts(s.registry.jobs[id].callback.value, clock, replies, n)), s.inFlight,
           s.tasks[k := Task(id, pc, n)], s.log + LogOf(id, replies, n))
  }

  lemma NoPosts(s: System, k: nat, id: JobId, clock: nat -> nat, replies: nat -> Reply)
    requires k < |s.tasks| && s.tasks[k] == Task(id, Starting, 0) && Postable(s.registry, id)
    ensures Posted(s, k, id, clock, replies, 0, Starting) == s
  {
    assert s.registry.jobs[id := s.registry.jobs[id]] == s.registry.jobs;
    assert s.tasks[k := s.tasks[k]] == s.tasks && s.log + [] == s.log;
  }

  /** With the n-th post just begun, all before it having failed. */
  function PostOut(s: System, k: nat, id: JobId, clock: nat -> nat, replies: nat -> Reply, n: nat): System
    requires k < |s.tasks| && Postable(s.registry, id)
  {
    var c := AfterPosts(s.registry.jobs[id].callback.value, clock, replies, n);
    System(WithCallback(s.registry, id, c.(attempts := c.attempts + 1, lastAttemptAt := Some(clock(2 * n)))),
           s.inFlight, s.tasks[k := Task(id, Posting, n + 1)], s.log + LogOf(id, replies, n) + [Began(id)])
  }

  lemma PostBegins(
    s: System, k: nat, id: JobId, clock: nat -> nat, replies: nat -> Reply, n: nat, limit: nat)
    requires k < |s.tasks| && Postable(s.registry, id) && (n > 0 ==> !replies(n - 1).Success?)
    ensures Step(Posted(s, k, id, clock, replies, n, Starting), Work(k, clock(2 * n), replies(n)), limit) ==
            PostOut(s, k, id, clock, replies, n)
  {
    var c := AfterPosts(s.registry.jobs[id].callback.value, clock, replies, n);
    assert c.status == Pending;
    hide Step, Postable, WithCallback, LogOf, AfterPosts;
    var before := Posted(s, k, id, clock, replies, n, Starting);
    WithCallbackIs(s.registry, id, c);
    BeginsPost(before, k, id, n, clock(2 * n), replies(n), limit);
    SetTwice(s.registry, id, c, c.(attempts := c.attempts + 1, lastAttemptAt := Some(clock(2 * n))));
    assert before.tasks[k := Task(id, Posting, n + 1)] == s.tasks[k := Task(id, Posting, n + 1)];
  }

  lemma PostEnds(
    s: System, k: nat, id: JobId, clock: nat -> nat, replies: nat -> Reply, n: nat, limit: nat)
    requires k < |s.tasks| && Postable(s.registry, id) && (n > 0 ==> !replies(n - 1).Success?)
    ensures Step(PostOut(s, k, id, clock, replies, n), Work(k, clock(2 * n + 1), replies(n)), limit) ==
            Posted(s, k, id, clock, replies, n + 1, AfterReply(replies, n + 1, limit))
  {
    var first := s.registry.jobs[id].callback.value;
    var c0 := AfterPosts(first, clock, replies, n);
    var c := c0.(attempts := c0.attempts + 1, lastAttemptAt := Some(clock(2 * n)));
    assert c.status == Pending;
    assert Recorded(c, replies(n), clock(2 * n + 1)) == AfterPosts(first, clock, replies, n + 1);
    hide Step, Postable, WithCallback, AfterPosts, Recorded;
    var begun, pc := PostOut(s, k, id, clock, replies, n), AfterReply(replies, n + 1, limit);
    WithCallbackIs(s.registry, id, c);
    RecordsReply(begun, k, id, n + 1, clock(2 * n + 1), replies(n), limit);
    SetTwice(s.registry, id, c, Recorded(c, replies(n), clock(2 * n + 1)));
    assert begun.tasks[k := Task(id, pc, n + 1)] == s.tasks[k := Task(id, pc, n + 1)];
    assert s.log + LogOf(id, replies, n + 1)
        == begun.log + [if replies(n).Success? then Succeeded(id) else Missed(id)];
  }

  /** Where a task goes with the reply to its n-th post: on to another, or out. */
  function AfterReply(replies: nat -> Reply, n: nat, limit: nat): Pc
    requires n > 0
  {
    if replies(n - 1).Success? || n == limit || (limit == 0 && n == 1) then Leaving else Starting
  }

  lemma WithCallbackIs(r: Registry, id: JobId, c: CallbackState)
    requires Postable(r, id)
    ensures Postable(WithCallback(r, id, c), id) <==> c.status == Pending
    ensures id in WithCallback(r, id, c).jobs && WithCallback(r, id, c).jobs[id].callback == Some(c)
  {
  }

  lemma SetTwice(r: Registry, id: JobId, a: CallbackState, b: CallbackState)
    requires id in r.jobs
    ensures id in WithCallback(r, id, a).jobs && WithCallback(WithCallback(r, id, a), id, b) == WithCallback(r, id, b)
  {
    var x, y := r.jobs[id].(callback := Some(a)), r.jobs[id].(callback := Some(b));
    assert r.jobs[id := x][id := y] == r.jobs[id := y];
  }

  lemma {:induction false} AllButLastFail(
    s: System, k: nat, id: JobId, clock: nat -> nat, replies: nat -> Reply, n: nat, limit: nat)
    requires k < |s.tasks| && s.tasks[k] == Task(id, Starting, 0) && Postable(s.registry, id)
    requires n > 0 && (n <= limit || n == 1) && forall m: nat :: m < n - 1 ==> !replies(m).Success?
    ensures RunMoves(s, Posts(k, clock, replies, n), limit) ==
            Posted(s, k, id, clock, replies, n, AfterReply(replies, n, limit))
  {
    hide Step, RunMoves, Posted, PostOut, Postable;
    var before := Posts(k, clock, replies, n - 1);
    if n == 1 {
      NoPosts(s, k, id, clock, replies);
      NothingMoved(s, limit);
    } else {
      AllButLastFail(s, k, id, clock, replies, n - 1, limit);
    }
    PostBegins(s, k, id, clock, replies, n - 1, limit);
    PostEnds(s, k, id, clock, replies, n - 1, limit);
    OneMoreMove(s, before, Work(k, clock(2 * n - 2), replies(n - 1)), limit);
    OneMoreMove(s, before + [Work(k, clock(2 * n - 2), replies(n - 1))], Work(k, clock(2 * n - 1), replies(n - 1)),
                limit);
  }

  /**
   A delivery with nobody else about posts until a post succeeds or max(1, limit) have been made, counts every one of
   them, and leaves what the last reply was on the record; then its job is no longer in flight.
   */
  lemma DeliveryAlone(
    s: System, k: nat, id: JobId, clock: nat -> nat, replies: nat -> Reply, n: nat, limit: nat)
    requires k < |s.tasks| && s.tasks[k] == Task(id, Starting, 0) && Postable(s.registry, id)
    requires n > 0 && (n <= limit || n == 1) && forall m: nat :: m < n - 1 ==> !replies(m).Success?
    requires replies(n - 1).Success? || n == limit || (limit == 0 && n == 1)
    ensures var c := s.registry.jobs[id].callback.value; var at, end := Some(clock(2 * n - 2)), Some(clock(2 * n - 1));
      RunMoves(s, Posts(k, clock, replies, n) + [Work(k, clock(2 * n), replies(n))], limit) ==
      System(WithCallback(s.registry, id,
               match replies(n - 1)
               case Success(http) => CallbackState(Delivered, c.attempts + n, at, end, Some(http), None)
               case Refused(http) => CallbackState(Pending, c.attempts + n, at, c.deliveredAt, Some(http), None)
               case Error(message) => CallbackState(Pending, c.attempts + n, at, c.deliveredAt, None, Some(message))),
             s.inFlight - {id}, s.tasks[k := Task(id, Done, n)], s.log + LogOf(id, replies, n))
  {
    hide Step, RunMoves;
    var t := Posted(s, k, id, clock, replies, n, Leaving);
    AllButLastFail(s, k, id, clock, replies, n, limit);
    OneMoreMove(s, Posts(k, clock, replies, n), Work(k, clock(2 * n), replies(n)), limit);
    Leaves(t, k, id, n, clock(2 * n), replies(n), limit);
    assert t.tasks[k := Task(id, Done, n)] == s.tasks[k := Task(id, Done, n)];
  }
}
