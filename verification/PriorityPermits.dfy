/**
 Priority permits (src/priority.rs). Taking a permit is two atomic steps, on the semaphore and then on the
 in-flight counter; giving it back is two more, in the opposite order. Callers interleave between any two.
 */
module PriorityPermits {
  import opened Collections
  import opened JobModel

  /** The range of the atomic counter; adding and subtracting wrap around in it. */
  const USIZE: nat := 0x1_0000_0000_0000_0000

  datatype Bucket = Bucket(limit: nat, available: nat, inFlight: nat) {
    function Taken(): Bucket { if available > 0 then this.(available := available - 1) else this }

    function Incremented(): Bucket { this.(inFlight := (inFlight + 1) % USIZE) }

    function Decremented(): Bucket { this.(inFlight := if inFlight == 0 then USIZE - 1 else inFlight - 1) }

    function Returned(): Bucket { this.(available := available + 1) }
  }

  function FreshBucket(limit: nat): Bucket { Bucket(limit, limit, 0) }

  datatype Limiter = Limiter(realtime: Bucket, batch: Bucket, background: Bucket) {
    function Of(p: Priority): Bucket {
      match p
      case Realtime => realtime
      case Batch => batch
      case Background => background
    }

    function With(p: Priority, b: Bucket): Limiter {
      match p
      case Realtime => this.(realtime := b)
      case Batch => this.(batch := b)
      case Background => this.(background := b)
    }
  }

  /** Before the semaphore, refused, holding a permit (not yet counted, counted, no longer counted), done. */
  datatype Phase = Trying | Refused | Acquired | Counted | Uncounted | Gone {
    predicate Holding() { Acquired? || Counted? || Uncounted? }
  }

  datatype System = System(limiter: Limiter, priorities: seq<Priority>, phases: seq<Phase>)

  /** The next atomic step of caller i. */
  function Step(s: System, i: nat): System
    requires |s.priorities| == |s.phases|
  {
    if i >= |s.phases| then s
    else
      var p := s.priorities[i];
      var b := s.limiter.Of(p);
      match s.phases[i]
      case Trying =>
        s.(limiter := s.limiter.With(p, b.Taken()),
            phases := s.phases[i := if b.available > 0 then Acquired else Refused])
      case Acquired => s.(limiter := s.limiter.With(p, b.Incremented()), phases := s.phases[i := Counted])
      case Counted => s.(limiter := s.limiter.With(p, b.Decremented()), phases := s.phases[i := Uncounted])
      case Uncounted => s.(limiter := s.limiter.With(p, b.Returned()), phases := s.phases[i := Gone])
      case _ => s
  }

  /** Any interleaving: the callers in the order in which they make their steps. */
  function Run(s: System, schedule: seq<nat>): (t: System)
    requires |s.priorities| == |s.phases|
    ensures t.priorities == s.priorities && |t.phases| == |s.phases|
  {
    if schedule == [] then s else Step(Run(s, schedule[..|schedule| - 1]), schedule[|schedule| - 1])
  }

  function Start(realtime: nat, batch: nat, background: nat, priorities: seq<Priority>): System {
    System(Limiter(FreshBucket(realtime), FreshBucket(batch), FreshBucket(background)),
           priorities, seq(|priorities|, _ => Trying))
  }

  lemma OneMoreStep(s: System, schedule: seq<nat>, i: nat)
    requires |s.priorities| == |s.phases|
    ensures Run(s, schedule + [i]) == Step(Run(s, schedule), i)
  {
    assert (schedule + [i])[..|schedule|] == schedule;
  }

  lemma {:induction false} RunAppends(s: System, schedule: seq<nat>, more: seq<nat>)
    requires |s.priorities| == |s.phases|
    ensures Run(s, schedule + more) == Run(Run(s, schedule), more)
  {
    if more == [] {
      assert schedule + more == schedule;
    } else {
      var all := schedule + more;
      assert all[..|all| - 1] == schedule + more[..|more| - 1];
      RunAppends(s, schedule, more[..|more| - 1]);
    }
  }

  lemma {:induction false} OthersLeaveCaller(s: System, schedule: seq<nat>, i: nat)
    requires |s.priorities| == |s.phases| && i < |s.phases| && i !in schedule
    ensures Run(s, schedule).phases[i] == s.phases[i]
  {
    if schedule != [] {
      OthersLeaveCaller(s, schedule[..|schedule| - 1], i);
    }
  }

  /** The two shared cells of a bucket, their atomic operations, and the two procedures made of them. */
  class PriorityBucket {
    const limit: nat
    var available: nat
    var inFlight: nat

    function View(): Bucket
      reads this
    {
      Bucket(limit, available, inFlight)
    }

    constructor (limit: nat)
      ensures View() == FreshBucket(limit)
    {
      this.limit, available, inFlight := limit, limit, 0;
    }

    method TryAcquireOwned() returns (ok: bool)
      modifies this
      ensures ok == (old(available) > 0) && View() == old(View()).Taken()
    {
      ok := available > 0;
      if ok {
        available := available - 1;
      }
    }

    method FetchAdd()
      modifies this
      ensures View() == old(View()).Incremented()
    {
      inFlight := (inFlight + 1) % USIZE;
    }

    method FetchSub()
      modifies this
      ensures View() == old(View()).Decremented()
    {
      inFlight := if inFlight == 0 then USIZE - 1 else inFlight - 1;
    }

    method ReturnPermit()
      modifies this
      ensures View() == old(View()).Returned()
    {
      available := available + 1;
    }

    /**
     Caller i asks for a permit and counts itself. Between the two steps, and before them, any others may take theirs;
     the bucket ends where the interleaved system ends, with i counted or refused.
     */
    method TryAcquire(ghost s: System, ghost i: nat) returns (ok: bool, ghost schedule: seq<nat>)
      requires |s.priorities| == |s.phases| && i < |s.phases| && s.phases[i].Trying?
      requires View() == s.limiter.Of(s.priorities[i])
      modifies this
      ensures At(s, schedule, i, if ok then Counted else Refused)
    {
      schedule := LetOthers(s, [], i, Trying);
      OneMoreStep(s, schedule, i);
      ok := TryAcquireOwned();
      schedule := schedule + [i];
      if ok {
        schedule := LetOthers(s, schedule, i, Acquired);
        OneMoreStep(s, schedule, i);
        FetchAdd();
        schedule := schedule + [i];
      }
    }

    /** A counted caller drops its permit: the counter first, then the semaphore. */
    method Drop(ghost s: System, ghost i: nat) returns (ghost schedule: seq<nat>)
      requires |s.priorities| == |s.phases| && i < |s.phases| && s.phases[i].Counted?
      requires View() == s.limiter.Of(s.priorities[i])
      modifies this
      ensures At(s, schedule, i, Gone)
    {
      schedule := LetOthers(s, [], i, Counted);
      OneMoreStep(s, schedule, i);
      FetchSub();
      schedule := LetOthers(s, schedule + [i], i, Uncounted);
      OneMoreStep(s, schedule, i);
      ReturnPermit();
      schedule := schedule + [i];
    }

    /** After this schedule the bucket backs the system's bucket of caller i, and i stands here. */
    ghost predicate At(s: System, schedule: seq<nat>, i: nat, phase: Phase)
      requires |s.priorities| == |s.phases|
      reads this
    {
      var t := Run(s, schedule);
      i < |t.phases| && t.phases[i] == phase && View() == t.limiter.Of(t.priorities[i])
    }

    /** Whatever other callers do to the bucket: any steps of theirs. */
    method OtherCallers(ghost s: System, ghost i: nat) returns (ghost schedule: seq<nat>)
      requires |s.priorities| == |s.phases| && i < |s.phases| && View() == s.limiter.Of(s.priorities[i])
      modifies this
      ensures i !in schedule && View() == Run(s, schedule).limiter.Of(s.priorities[i])
    {
      schedule := [];
    }

    method LetOthers(ghost s: System, ghost before: seq<nat>, ghost i: nat, ghost phase: Phase)
      returns (ghost schedule: seq<nat>)
      requires |s.priorities| == |s.phases| && At(s, before, i, phase)
      modifies this
      ensures At(s, schedule, i, phase)
    {
      ghost var more := OtherCallers(Run(s, before), i);
      OthersLeaveCaller(Run(s, before), more, i);
      RunAppends(s, before, more);
      schedule := before + more;
    }
  }

  // ---------- What every interleaving keeps ----------

  function Holders(s: System, p: Priority): set<nat>
    requires |s.priorities| == |s.phases|
  {
    set i: nat | 0 <= i < |s.phases| && s.priorities[i] == p && s.phases[i].Holding()
  }

  function CountedCallers(s: System, p: Priority): set<nat>
    requires |s.priorities| == |s.phases|
  {
    set i: nat | 0 <= i < |s.phases| && s.priorities[i] == p && s.phases[i].Counted?
  }

  predicate BucketOk(s: System, p: Priority)
    requires |s.priorities| == |s.phases|
  {
    && s.limiter.Of(p).limit < USIZE
    && s.limiter.Of(p).available + |Holders(s, p)| == s.limiter.Of(p).limit
    && s.limiter.Of(p).inFlight == |CountedCallers(s, p)|
  }

  ghost predicate PermitsOk(s: System) {
    |s.priorities| == |s.phases| && forall p: Priority :: BucketOk(s, p)
  }

  /** One caller at one priority moves; the other priorities see nothing of it. */
  lemma SetsAfterStep(s: System, i: nat, p: Priority)
    requires |s.priorities| == |s.phases| && i < |s.phases|
    ensures var t := Step(s, i);
      if s.priorities[i] != p then
        Holders(t, p) == Holders(s, p) && CountedCallers(t, p) == CountedCallers(s, p)
      else
        && Holders(t, p) == (if t.phases[i].Holding() then Holders(s, p) + {i} else Holders(s, p) - {i})
        && CountedCallers(t, p) ==
            (if t.phases[i].Counted? then CountedCallers(s, p) + {i} else CountedCallers(s, p) - {i})
  {
  }

  lemma SizesAfterStep(s: System, i: nat, p: Priority)
    requires |s.priorities| == |s.phases| && i < |s.phases| && s.priorities[i] == p
    ensures var t := Step(s, i);
      && |Holders(t, p)| + Count(s.phases[i].Holding()) == |Holders(s, p)| + Count(t.phases[i].Holding())
      && |CountedCallers(t, p)| + Count(s.phases[i].Counted?) == |CountedCallers(s, p)| + Count(t.phases[i].Counted?)
    ensures s.phases[i].Acquired? ==> |CountedCallers(s, p)| < |Holders(s, p)|
  {
    SetsAfterStep(s, i, p);
    CountedHold(s, p);
    assert i in Holders(s, p) <==> s.phases[i].Holding();
    assert i in CountedCallers(s, p) <==> s.phases[i].Counted?;
    if s.phases[i].Acquired? {
      SubsetSize(CountedCallers(s, p) + {i}, Holders(s, p));
    }
    hide Holders, CountedCallers, Step;
  }

  lemma StepKeepsPermits(s: System, i: nat)
    requires PermitsOk(s)
    ensures PermitsOk(Step(s, i))
  {
    hide BucketOk;
    if i < |s.phases| {
      forall p: Priority ensures BucketOk(Step(s, i), p) {
        StepKeepsBucket(s, i, p);
      }
    }
  }

  lemma StepKeepsBucket(s: System, i: nat, p: Priority)
    requires |s.priorities| == |s.phases| && i < |s.phases| && BucketOk(s, p)
    ensures BucketOk(Step(s, i), p)
  {
    hide Holders, CountedCallers;
    if s.priorities[i] == p {
      SizesAfterStep(s, i, p);
    } else {
      SetsAfterStep(s, i, p);
    }
  }

  lemma CountedHold(s: System, p: Priority)
    requires |s.priorities| == |s.phases|
    ensures CountedCallers(s, p) <= Holders(s, p) && |CountedCallers(s, p)| <= |Holders(s, p)|
  {
    SubsetSize(CountedCallers(s, p), Holders(s, p));
  }

  lemma {:induction false} RunKeepsPermits(s: System, schedule: seq<nat>)
    requires PermitsOk(s)
    ensures PermitsOk(Run(s, schedule))
  {
    if schedule != [] {
      RunKeepsPermits(s, schedule[..|schedule| - 1]);
      StepKeepsPermits(Run(s, schedule[..|schedule| - 1]), schedule[|schedule| - 1]);
    }
  }

  lemma StartOk(realtime: nat, batch: nat, background: nat, priorities: seq<Priority>)
    requires realtime < USIZE && batch < USIZE && background < USIZE
    ensures PermitsOk(Start(realtime, batch, background, priorities))
  {
    var s := Start(realtime, batch, background, priorities);
    forall p: Priority ensures Holders(s, p) == {} == CountedCallers(s, p) {
    }
  }

  /** After any interleaving: counted callers are no more than permits held, and those no more than the limit. */
  lemma LimitHolds(realtime: nat, batch: nat, background: nat, priorities: seq<Priority>, schedule: seq<nat>,
      p: Priority)
    requires realtime < USIZE && batch < USIZE && background < USIZE
    ensures var s := Start(realtime, batch, background, priorities);
      var t := Run(s, schedule);
      t.limiter.Of(p).inFlight <= |Holders(t, p)| <= t.limiter.Of(p).limit == s.limiter.Of(p).limit
  {
    var s := Start(realtime, batch, background, priorities);
    StartOk(realtime, batch, background, priorities);
    RunKeepsPermits(s, schedule);
    CountedHold(Run(s, schedule), p);
    assert BucketOk(Run(s, schedule), p);
    LimitsNeverChange(s, schedule, p);
  }

  lemma {:induction false} LimitsNeverChange(s: System, schedule: seq<nat>, p: Priority)
    requires |s.priorities| == |s.phases|
    ensures Run(s, schedule).limiter.Of(p).limit == s.limiter.Of(p).limit
  {
    if schedule != [] {
      LimitsNeverChange(s, schedule[..|schedule| - 1], p);
    }
  }

  /** The counter never wraps: a caller about to count finds room, a caller about to uncount finds itself counted. */
  lemma CounterNeverWraps(s: System, i: nat)
    requires PermitsOk(s) && i < |s.phases|
    ensures var b := s.limiter.Of(s.priorities[i]);
      && (s.phases[i].Acquired? ==> Step(s, i).limiter.Of(s.priorities[i]).inFlight == b.inFlight + 1)
      && (s.phases[i].Counted? ==> Step(s, i).limiter.Of(s.priorities[i]).inFlight == b.inFlight - 1)
  {
    var p := s.priorities[i];
    StepKeepsPermits(s, i);
    SizesAfterStep(s, i, p);
    assert BucketOk(s, p) && BucketOk(Step(s, i), p);
  }

  /** A caller is refused exactly when its own bucket has as many holders as its limit. */
  lemma RefusedIffFull(s: System, i: nat)
    requires PermitsOk(s) && i < |s.phases| && s.phases[i].Trying?
    ensures Step(s, i).phases[i].Refused? <==> |Holders(s, s.priorities[i])| == s.limiter.Of(s.priorities[i]).limit
  {
    var p := s.priorities[i];
    assert BucketOk(s, p);
  }

  /** Once nobody holds a permit every bucket is as new. */
  lemma DrainedIsFresh(s: System, p: Priority)
    requires PermitsOk(s) && forall i :: 0 <= i < |s.phases| && s.priorities[i] == p ==> !s.phases[i].Holding()
    ensures s.limiter.Of(p) == FreshBucket(s.limiter.Of(p).limit)
  {
    assert BucketOk(s, p) && Holders(s, p) == {} == CountedCallers(s, p);
  }

  // ---------- Independence ----------

  /** Two systems that a caller of priority p cannot tell apart. */
  ghost predicate SameFor(s: System, t: System, p: Priority) {
    && s.priorities == t.priorities && |s.priorities| == |s.phases| == |t.phases|
    && s.limiter.Of(p) == t.limiter.Of(p)
    && forall i :: 0 <= i < |s.phases| && s.priorities[i] == p ==> s.phases[i] == t.phases[i]
  }

  function HasPriority(priorities: seq<Priority>, p: Priority): nat -> bool {
    (i: nat) => i < |priorities| && priorities[i] == p
  }

  /** What a bucket and its callers go through is decided by the steps of its own callers alone. */
  lemma {:induction false} BucketsAreIndependent(s: System, schedule: seq<nat>, p: Priority)
    requires |s.priorities| == |s.phases|
    ensures SameFor(Run(s, schedule), Run(s, Filter(schedule, HasPriority(s.priorities, p))), p)
  {
    hide Step, SameFor;
    if schedule == [] {
      SameAsItself(s, p);
    } else {
      var front, i := schedule[..|schedule| - 1], schedule[|schedule| - 1];
      var own := Filter(front, HasPriority(s.priorities, p));
      BucketsAreIndependent(s, front, p);
      assert front + [i] == schedule;
      FilterPush(front, i, HasPriority(s.priorities, p));
      if HasPriority(s.priorities, p)(i) {
        assert (own + [i])[..|own|] == own;
        SameStep(Run(s, front), Run(s, own), i, p);
      } else {
        assert Filter(schedule, HasPriority(s.priorities, p)) == own;
        OtherStep(Run(s, front), Run(s, own), i, p);
      }
    }
  }

  lemma SameStep(s: System, t: System, i: nat, p: Priority)
    requires SameFor(s, t, p) && i < |s.phases| && s.priorities[i] == p
    ensures SameFor(Step(s, i), Step(t, i), p)
  {
  }

  lemma OtherStep(s: System, t: System, i: nat, p: Priority)
    requires SameFor(s, t, p) && (i < |s.phases| ==> s.priorities[i] != p)
    ensures SameFor(Step(s, i), t, p)
  {
  }

  lemma SameAsItself(s: System, p: Priority)
    requires |s.priorities| == |s.phases|
    ensures SameFor(s, s, p)
  {
  }
}
