/**
 Synchronous proxying (src/proxy/mod.rs): which backends a route may use, the choice over the ordered pools of
 a workload, and the loop that sends a request until one backend answers. The circuits are shared with other
 requests, which may act between any two steps of this one.
 */
module Proxy {
  import opened Collections
  import opened Circuit
  import opened Selector
  import JobModel

  datatype BackendPool = AnyPool | Named(name: string) {
    predicate Allows(pool: string) { Named? ==> pool == name }
  }

  datatype Route = Route(kind: string, backendPool: BackendPool, retryServerErrors: bool)

  /** What the resource reports say: backends that do not fit, and the rank of those that do. */
  datatype Resources = Resources(ineligible: seq<nat>, ranks: seq<Option<ResourceRank>>)

  datatype Request = Request(
    route: Route, pools: JobModel.PoolPolicy, preferred: Option<nat>, origin: Option<string>, resources: Resources)
  {
    /** The pools to try in turn, or `None` when any pool will do. */
    function PoolsToTry(): Option<seq<string>> {
      if route.kind in pools then Some(pools[route.kind]) else None
    }

    function Ask(attempted: seq<nat>, ineligible: seq<nat>): Query {
      Query(preferred, origin, attempted, ineligible, resources.ranks)
    }
  }

  predicate RouteAllows(b: Backend, q: Request) {
    && q.route.backendPool.Allows(b.pool)
    && JobModel.Allows(q.pools, q.route.kind, b.pool)
    && q.route.kind in b.workloads
  }

  function RouteIneligible(backends: seq<Backend>, q: Request): seq<nat> {
    Filter(Range(|backends|), (i: nat) => i < |backends| && !RouteAllows(backends[i], q))
  }

  function OutsidePool(backends: seq<Backend>, pool: string): seq<nat> {
    Filter(Range(|backends|), (i: nat) => i < |backends| && backends[i].pool != pool)
  }

  lemma IneligibleMembers(backends: seq<Backend>, q: Request, pool: string, i: nat)
    ensures i in RouteIneligible(backends, q) <==> i < |backends| && !RouteAllows(backends[i], q)
    ensures i in OutsidePool(backends, pool) <==> i < |backends| && backends[i].pool != pool
  {
    InRange(|backends|, i);
  }

  // ---------- Resource fitness ----------

  /** A fresh report for this backend with enough free memory, if there is one. */
  function Fitness(b: Backend, reports: map<(string, string), ResourceRank>, required: nat): Option<ResourceRank> {
    if b.nodeId.Some? && (b.nodeId.value, b.id) in reports
        && reports[(b.nodeId.value, b.id)].availableVramMb >= required
    then Some(reports[(b.nodeId.value, b.id)]) else None
  }

  method ResourceSelection(
    backends: seq<Backend>, enabled: bool, required: nat, reports: map<(string, string), ResourceRank>)
    returns (s: Resources)
    ensures |s.ranks| == |backends|
    ensures forall i: nat :: i < |backends| ==>
              s.ranks[i] == if enabled then Fitness(backends[i], reports, required) else None
    ensures forall i: nat :: i in s.ineligible <==>
              enabled && i < |backends| && Fitness(backends[i], reports, required).None?
  {
    var ineligible: seq<nat>, ranks: seq<Option<ResourceRank>> := [], seq(|backends|, _ => None);
    if enabled {
      for idx := 0 to |backends|
        invariant |ranks| == |backends|
        invariant forall i: nat :: i < |backends| ==>
                    ranks[i] == if i < idx then Fitness(backends[i], reports, required) else None
        invariant forall i: nat :: i in ineligible <==> i < idx && Fitness(backends[i], reports, required).None?
      {
        var b := backends[idx];
        if b.nodeId.None? || (b.nodeId.value, b.id) !in reports {
          ineligible := ineligible + [idx];
          continue;
        }
        var report := reports[(b.nodeId.value, b.id)];
        if report.availableVramMb < required {
          ineligible := ineligible + [idx];
          continue;
        }
        ranks := ranks[idx := Some(report)];
      }
    }
    s := Resources(ineligible, ranks);
  }

  // ---------- Unions of the exclusion lists ----------

  method SelectionIneligible(route: seq<nat>, more: seq<nat>) returns (s: seq<nat>)
    ensures route <= s
    ensures forall i: nat :: i in s <==> i in route || i in more
    ensures NoDuplicates(route) ==> NoDuplicates(s)
  {
    s := route;
    for k := 0 to |more|
      invariant route <= s
      invariant forall i: nat :: i in s <==> i in route || i in more[..k]
      invariant NoDuplicates(route) ==> NoDuplicates(s)
    {
      assert more[..k + 1] == more[..k] + [more[k]];
      if more[k] !in s {
        s := s + [more[k]];
      }
    }
    assert more[..|more|] == more;
  }

  method SelectionIneligibleWithPool(route: seq<nat>, resource: seq<nat>, pool: seq<nat>) returns (s: seq<nat>)
    ensures forall i: nat :: i in s <==> i in route || i in resource || i in pool
  {
    s := SelectionIneligible(route, resource);
    s := SelectionIneligible(s, pool);
  }

  // ---------- The declarative choice ----------

  predicate Usable(backends: seq<Backend>, q: Request, i: nat) {
    i < |backends| && RouteAllows(backends[i], q) && i !in q.resources.ineligible
  }

  /** A backend this request may still be sent to, whose circuit lets it through. */
  predicate Ready(backends: seq<Backend>, views: seq<Breaker>, q: Request, attempted: seq<nat>, now: nat, i: nat) {
    Usable(backends, q, i) && i !in attempted && i < |views| && views[i].Available(now)
  }

  /** The place of the backend's pool in the order in which pools are tried. */
  function PoolRank(backends: seq<Backend>, q: Request, i: nat): nat {
    if q.PoolsToTry().Some? && i < |backends| && backends[i].pool in q.PoolsToTry().value
    then IndexOf(q.PoolsToTry().value, backends[i].pool) else 0
  }

  /** Earlier pool first; within a pool as the selector prefers. */
  predicate Preferable(backends: seq<Backend>, q: Request, i: nat, j: nat) {
    || PoolRank(backends, q, i) < PoolRank(backends, q, j)
    || (PoolRank(backends, q, i) == PoolRank(backends, q, j) && Better(backends, q.Ask([], []), i, j))
  }

  ghost predicate RouteBest(
    backends: seq<Backend>, views: seq<Breaker>, q: Request, attempted: seq<nat>, now: nat, r: Option<nat>)
  {
    if r.Some? then
      && Ready(backends, views, q, attempted, now, r.value)
      && forall j: nat :: Ready(backends, views, q, attempted, now, j) && j != r.value ==>
        Preferable(backends, q, r.value, j)
    else
      forall j: nat :: !Ready(backends, views, q, attempted, now, j)
  }

  lemma RouteBestIsUnique(
    backends: seq<Backend>, views: seq<Breaker>, q: Request, attempted: seq<nat>, now: nat, r: Option<nat>,
    s: Option<nat>)
    requires RouteBest(backends, views, q, attempted, now, r) && RouteBest(backends, views, q, attempted, now, s)
    ensures r == s
  {
    if r.Some? && s.Some? {
      BeforeIsStrictTotalOrder(q.resources.ranks, r.value, s.value, r.value);
    }
  }

  /** The circuits a choice with outcome r asks: every usable one in the pools and tiers down to where it chose. */
  function AskedForRoute(backends: seq<Backend>, q: Request, attempted: seq<nat>, r: Option<nat>): set<nat> {
    set j: nat | 0 <= j < |backends| && Usable(backends, q, j) && j !in attempted &&
      (r.Some? ==>
        || PoolRank(backends, q, j) < PoolRank(backends, q, r.value)
        || (PoolRank(backends, q, j) == PoolRank(backends, q, r.value) &&
            Tier(backends, q.Ask([], []), j) <= Tier(backends, q.Ask([], []), r.value)))
  }

  // ---------- The choice as it is made ----------

  /** What is recorded of one pool's turn; the pool is empty when the workload has no pool list. */
  datatype Decision = Decision(pool: string, selected: Option<nat>, candidates: nat, blocked: nat)

  /** The route allows it, this request has not tried it, and it is in the pool whose turn it is. */
  predicate InTurn(backends: seq<Backend>, q: Request, attempted: seq<nat>, pool: Option<string>, i: nat) {
    i < |backends| && i !in attempted && RouteAllows(backends[i], q) && (pool.Some? ==> backends[i].pool == pool.value)
  }

  function Turn(
    backends: seq<Backend>, q: Request, attempted: seq<nat>, pool: Option<string>, fit: bool, n: nat): set<nat>
  {
    set i: nat | 0 <= i < n && InTurn(backends, q, attempted, pool, i) && (fit <==> i !in q.resources.ineligible)
  }

  lemma TurnStep(backends: seq<Backend>, q: Request, attempted: seq<nat>, pool: Option<string>, fit: bool, n: nat)
    ensures var before, after := Turn(backends, q, attempted, pool, fit, n),
            Turn(backends, q, attempted, pool, fit, n + 1);
      if InTurn(backends, q, attempted, pool, n) && (fit <==> n !in q.resources.ineligible)
      then |after| == |before| + 1 else after == before
  {
    hide InTurn;
    var before, after := Turn(backends, q, attempted, pool, fit, n), Turn(backends, q, attempted, pool, fit, n + 1);
    if InTurn(backends, q, attempted, pool, n) && (fit <==> n !in q.resources.ineligible) {
      assert after == before + {n} && n !in before;
    } else {
      assert after == before;
    }
  }

  method CandidateCounts(
    backends: seq<Backend>, q: Request, attempted: seq<nat>, routeIneligible: seq<nat>, pool: Option<string>)
    returns (candidates: nat, blocked: nat)
    requires routeIneligible == RouteIneligible(backends, q)
    ensures candidates == |Turn(backends, q, attempted, pool, true, |backends|)|
    ensures blocked == |Turn(backends, q, attempted, pool, false, |backends|)|
  {
    hide Turn, RouteIneligible, RouteAllows;
    candidates, blocked := 0, 0;
    NoTurns(backends, q, attempted, pool);
    for idx := 0 to |backends|
      invariant candidates == |Turn(backends, q, attempted, pool, true, idx)|
      invariant blocked == |Turn(backends, q, attempted, pool, false, idx)|
    {
      IneligibleMembers(backends, q, "", idx);
      TurnStep(backends, q, attempted, pool, true, idx);
      TurnStep(backends, q, attempted, pool, false, idx);
      if idx in attempted || idx in routeIneligible || (pool.Some? && backends[idx].pool != pool.value) {
        continue;
      }
      if idx in q.resources.ineligible {
        blocked := blocked + 1;
      } else {
        candidates := candidates + 1;
      }
    }
  }

  lemma NoTurns(backends: seq<Backend>, q: Request, attempted: seq<nat>, pool: Option<string>)
    ensures Turn(backends, q, attempted, pool, true, 0) == {} == Turn(backends, q, attempted, pool, false, 0)
  {
  }

  /** The selector has been asked for exactly the usable, unattempted backends of this pool. */
  ghost predicate AsksFor(
    backends: seq<Backend>, q: Request, attempted: seq<nat>, pool: Option<string>, ineligible: seq<nat>)
  {
    forall i: nat :: i < |backends| ==>
      (q.Ask(attempted, ineligible).Eligible(i) <==>
       Usable(backends, q, i) && i !in attempted && (pool.Some? ==> backends[i].pool == pool.value))
  }

  lemma UnionAsksFor(backends: seq<Backend>, q: Request, attempted: seq<nat>, pool: Option<string>,
      ineligible: seq<nat>)
    requires forall i: nat :: i in ineligible <==>
               || i in RouteIneligible(backends, q) || i in q.resources.ineligible
               || (pool.Some? && i in OutsidePool(backends, pool.value))
    ensures AsksFor(backends, q, attempted, pool, ineligible)
  {
    forall i: nat | i < |backends|
      ensures q.Ask(attempted, ineligible).Eligible(i) <==>
              Usable(backends, q, i) && i !in attempted && (pool.Some? ==> backends[i].pool == pool.value)
    {
      IneligibleMembers(backends, q, if pool.Some? then pool.value else "", i);
    }
  }

  /** Every ready backend lies in the pools from the k-th on. */
  ghost predicate FromPool(backends: seq<Backend>, views: seq<Breaker>, q: Request, attempted: seq<nat>, now: nat,
      k: nat)
  {
    forall j: nat :: Ready(backends, views, q, attempted, now, j) ==> PoolRank(backends, q, j) >= k
  }

  lemma TierIgnoresExclusions(backends: seq<Backend>, q: Request, attempted: seq<nat>, ineligible: seq<nat>, i: nat,
      j: nat)
    ensures Tier(backends, q.Ask(attempted, ineligible), i) == Tier(backends, q.Ask([], []), i)
    ensures Better(backends, q.Ask(attempted, ineligible), i, j) == Better(backends, q.Ask([], []), i, j)
  {
  }

  /** One pool: if it has an answer that is the choice, and otherwise nothing has changed and the next pool is due. */
  lemma PoolDecides(
    backends: seq<Backend>, views: seq<Breaker>, q: Request, attempted: seq<nat>, ineligible: seq<nat>, now: nat,
    k: nat,
    r: Option<nat>)
    requires |views| == |backends| && q.PoolsToTry().Some? && k < |q.PoolsToTry().value|
    requires AsksFor(backends, q, attempted, Some(q.PoolsToTry().value[k]), ineligible)
    requires FromPool(backends, views, q, attempted, now, k)
    requires Best(backends, views, q.Ask(attempted, ineligible), now, r)
    ensures r.Some? ==> RouteBest(backends, views, q, attempted, now, r)
    ensures r.Some? ==>
              ProbedAt(views, Asked(backends, q.Ask(attempted, ineligible), r), now)
              == ProbedAt(views, AskedForRoute(backends, q, attempted, r), now)
    ensures r.None? ==> FromPool(backends, views, q, attempted, now, k + 1)
    ensures r.None? ==> ProbedAt(views, Asked(backends, q.Ask(attempted, ineligible), r), now) == views
  {
    hide Tier, Better;
    var ps, sq := q.PoolsToTry().value, q.Ask(attempted, ineligible);
    forall j: nat
      ensures Candidate(views, sq, now, j) <==>
              Ready(backends, views, q, attempted, now, j) && backends[j].pool == ps[k]
      ensures Ready(backends, views, q, attempted, now, j) ==>
                backends[j].pool in ps && ps[PoolRank(backends, q, j)] == backends[j].pool
      ensures Ready(backends, views, q, attempted, now, j) && PoolRank(backends, q, j) == k ==>
              Candidate(views, sq, now, j)
    {
    }
    if r.None? {
      FailedSelectionChangesNothing(backends, views, sq, now);
    } else {
      forall j: nat ensures Better(backends, sq, r.value, j) == Better(backends, q.Ask([], []), r.value, j) {
        TierIgnoresExclusions(backends, q, attempted, ineligible, r.value, j);
      }
      forall j: nat | j < |views|
        ensures ProbedAt(views, Asked(backends, sq, r), now)[j]
             == ProbedAt(views, AskedForRoute(backends, q, attempted, r), now)[j]
      {
        TierIgnoresExclusions(backends, q, attempted, ineligible, j, j);
        TierIgnoresExclusions(backends, q, attempted, ineligible, r.value, j);
        if (j in Asked(backends, sq, r)) != (j in AskedForRoute(backends, q, attempted, r)) {
          assert !Ready(backends, views, q, attempted, now, j);
        }
      }
    }
  }

  lemma AnyPoolDecides(
    backends: seq<Backend>, views: seq<Breaker>, q: Request, attempted: seq<nat>, ineligible: seq<nat>, now: nat,
    r: Option<nat>)
    requires |views| == |backends| && q.PoolsToTry().None?
    requires AsksFor(backends, q, attempted, None, ineligible)
    requires Best(backends, views, q.Ask(attempted, ineligible), now, r)
    ensures RouteBest(backends, views, q, attempted, now, r)
    ensures Asked(backends, q.Ask(attempted, ineligible), r) == AskedForRoute(backends, q, attempted, r)
  {
    hide Tier, Better;
    var sq := q.Ask(attempted, ineligible);
    forall j: nat ensures Candidate(views, sq, now, j) <==> Ready(backends, views, q, attempted, now, j) {
    }
    forall j: nat, i: nat
      ensures Better(backends, sq, i, j) == Better(backends, q.Ask([], []), i, j)
    {
      TierIgnoresExclusions(backends, q, attempted, ineligible, i, j);
    }
    forall j: nat
      ensures j in Asked(backends, sq, r) <==> j in AskedForRoute(backends, q, attempted, r)
    {
      TierIgnoresExclusions(backends, q, attempted, ineligible, j, j);
      if r.Some? {
        TierIgnoresExclusions(backends, q, attempted, ineligible, r.value, r.value);
      }
    }
  }

  lemma NoPoolLeft(backends: seq<Backend>, views: seq<Breaker>, q: Request, attempted: seq<nat>, now: nat)
    requires |views| == |backends| && q.PoolsToTry().Some?
    requires FromPool(backends, views, q, attempted, now, |q.PoolsToTry().value|)
    ensures RouteBest(backends, views, q, attempted, now, None)
    ensures ProbedAt(views, AskedForRoute(backends, q, attempted, None), now) == views
  {
    forall j: nat ensures !Ready(backends, views, q, attempted, now, j) {
    }
    forall j: nat | j < |views|
      ensures ProbedAt(views, AskedForRoute(backends, q, attempted, None), now)[j] == views[j]
    {
      assert !Ready(backends, views, q, attempted, now, j);
    }
  }

  predicate CountedIn(backends: seq<Backend>, q: Request, attempted: seq<nat>, pool: Option<string>, d: Decision) {
    && d.pool == (if pool.Some? then pool.value else "")
    && d.candidates == |Turn(backends, q, attempted, pool, true, |backends|)|
    && d.blocked == |Turn(backends, q, attempted, pool, false, |backends|)|
  }

  /** The first pools in turn, each without a backend to offer. */
  ghost predicate PassedOver(backends: seq<Backend>, q: Request, attempted: seq<nat>, decisions: seq<Decision>) {
    && q.PoolsToTry().Some? && |decisions| <= |q.PoolsToTry().value|
    && forall k :: 0 <= k < |decisions| ==>
      decisions[k].selected.None? && CountedIn(backends, q, attempted, Some(q.PoolsToTry().value[k]), decisions[k])
  }

  /** One decision for each pool whose turn came, in order; only the last may have found a backend. */
  ghost predicate Recorded(
    backends: seq<Backend>, q: Request, attempted: seq<nat>, r: Option<nat>, decisions: seq<Decision>)
  {
    if q.PoolsToTry().None? then
      |decisions| == 1 && decisions[0].selected == r && CountedIn(backends, q, attempted, None, decisions[0])
    else if r.None? then
      |decisions| == |q.PoolsToTry().value| && PassedOver(backends, q, attempted, decisions)
    else
      && decisions != []
      && var k := |decisions| - 1;
      && PassedOver(backends, q, attempted, decisions[..k]) && k < |q.PoolsToTry().value|
      && decisions[k].selected == r && CountedIn(backends, q, attempted, Some(q.PoolsToTry().value[k]), decisions[k])
  }

  lemma TurnRecorded(backends: seq<Backend>, q: Request, attempted: seq<nat>, decisions: seq<Decision>, d: Decision)
    requires PassedOver(backends, q, attempted, decisions) && |decisions| < |q.PoolsToTry().value|
    requires CountedIn(backends, q, attempted, Some(q.PoolsToTry().value[|decisions|]), d)
    ensures d.selected.None? ==> PassedOver(backends, q, attempted, decisions + [d])
    ensures d.selected.Some? ==> Recorded(backends, q, attempted, d.selected, decisions + [d])
  {
    assert (decisions + [d])[..|decisions|] == decisions;
  }

  /** One pool's turn: whom the selector was told to leave out, and what it asked. */
  datatype PoolTurn = PoolTurn(ineligible: seq<nat>, log: seq<Answer>)

  ghost predicate TurnChosen(
    backends: seq<Backend>, q: Request, attempted: seq<nat>, pool: Option<string>, t: PoolTurn, r: Option<nat>)
  {
    && AsksFor(backends, q, attempted, pool, t.ineligible)
    && Chosen(backends, q.Ask(attempted, t.ineligible), t.log, r)
  }

  /** The first pools in turn, each asked in full and refused. */
  ghost predicate PoolsRefused(backends: seq<Backend>, q: Request, attempted: seq<nat>, turns: seq<PoolTurn>) {
    && q.PoolsToTry().Some? && |turns| <= |q.PoolsToTry().value|
    && forall k :: 0 <= k < |turns| ==>
      TurnChosen(backends, q, attempted, Some(q.PoolsToTry().value[k]), turns[k], None)
  }

  /**
   A selection for a route, whatever others did between its questions: the pools in order, each before the last asked
   in full and refused; in the last the selector's choice, or none once every pool has refused.
   */
  ghost predicate RouteChosen(
    backends: seq<Backend>, q: Request, attempted: seq<nat>, turns: seq<PoolTurn>, r: Option<nat>)
  {
    if q.PoolsToTry().None? then
      |turns| == 1 && TurnChosen(backends, q, attempted, None, turns[0], r)
    else if r.None? then
      |turns| == |q.PoolsToTry().value| && PoolsRefused(backends, q, attempted, turns)
    else
      && turns != []
      && var k := |turns| - 1;
      && PoolsRefused(backends, q, attempted, turns[..k]) && k < |q.PoolsToTry().value|
      && TurnChosen(backends, q, attempted, Some(q.PoolsToTry().value[k]), turns[k], r)
  }

  lemma TurnAdded(
    backends: seq<Backend>, q: Request, attempted: seq<nat>, turns: seq<PoolTurn>, t: PoolTurn, r: Option<nat>)
    requires PoolsRefused(backends, q, attempted, turns) && |turns| < |q.PoolsToTry().value|
    requires TurnChosen(backends, q, attempted, Some(q.PoolsToTry().value[|turns|]), t, r)
    ensures r.None? ==> PoolsRefused(backends, q, attempted, turns + [t])
    ensures r.Some? ==> RouteChosen(backends, q, attempted, turns + [t], r)
  {
    hide TurnChosen;
    assert (turns + [t])[..|turns|] == turns;
  }

  /** Everything asked, in order. */
  function All(turns: seq<PoolTurn>): seq<Answer> {
    if turns == [] then [] else All(turns[..|turns| - 1]) + turns[|turns| - 1].log
  }

  lemma AllPush(turns: seq<PoolTurn>, t: PoolTurn)
    ensures All(turns + [t]) == All(turns) + t.log
  {
    assert (turns + [t])[..|turns|] == turns;
  }

  lemma {:induction false} TurnInAll(turns: seq<PoolTurn>, k: nat, a: Answer)
    requires k < |turns| && a in turns[k].log
    ensures a in All(turns)
  {
    if k < |turns| - 1 {
      TurnInAll(turns[..|turns| - 1], k, a);
    }
  }

  /** In a pool that was passed over every usable, unattempted backend was asked and refused. */
  lemma PassedPoolRefused(
    backends: seq<Backend>, q: Request, attempted: seq<nat>, turns: seq<PoolTurn>, k: nat, j: nat)
    requires PoolsRefused(backends, q, attempted, turns) && k < |turns|
    requires Usable(backends, q, j) && j !in attempted && backends[j].pool == q.PoolsToTry().value[k]
    ensures exists a :: a in turns[k].log && a.index == j && !a.Yes()
  {
    assert TurnChosen(backends, q, attempted, Some(q.PoolsToTry().value[k]), turns[k], None);
    EarlierTiersRefused(backends, q.Ask(attempted, turns[k].ineligible), turns[k].log, None, j);
  }

  /**
   The choice is usable, not attempted before, and answered that it is available; there is none exactly when every
   usable, unattempted backend was asked and refused.
   */
  lemma RouteChoiceMeans(backends: seq<Backend>, q: Request, attempted: seq<nat>, turns: seq<PoolTurn>, r: Option<nat>)
    requires RouteChosen(backends, q, attempted, turns, r)
    ensures r.Some? ==> Usable(backends, q, r.value) && r.value !in attempted
    ensures r.Some? ==> exists a :: a in All(turns) && a.index == r.value && a.Yes()
    ensures r.None? ==>
      forall j: nat :: Usable(backends, q, j) && j !in attempted ==>
        exists a :: a in All(turns) && a.index == j && !a.Yes()
  {
    hide All, Tier, Better;
    if r.Some? {
      var k := |turns| - 1;
      var t := turns[k];
      YesesAreAsked(t.log);
      assert r.value in Yeses(t.log) && r.value in Asked(backends, q.Ask(attempted, t.ineligible), r);
      var a :| a in t.log && a.Yes() && a.index == r.value;
      TurnInAll(turns, k, a);
    } else {
      forall j: nat | Usable(backends, q, j) && j !in attempted
        ensures exists a :: a in All(turns) && a.index == j && !a.Yes()
      {
        AllRefused(backends, q, attempted, turns, j);
      }
    }
  }

  lemma AllRefused(backends: seq<Backend>, q: Request, attempted: seq<nat>, turns: seq<PoolTurn>, j: nat)
    requires RouteChosen(backends, q, attempted, turns, None) && Usable(backends, q, j) && j !in attempted
    ensures exists a :: a in All(turns) && a.index == j && !a.Yes()
  {
    hide All, Chosen;
    var k: nat;
    if q.PoolsToTry().None? {
      k := 0;
      EarlierTiersRefused(backends, q.Ask(attempted, turns[0].ineligible), turns[0].log, None, j);
    } else {
      k :| 0 <= k < |q.PoolsToTry().value| && q.PoolsToTry().value[k] == backends[j].pool;
      PassedPoolRefused(backends, q, attempted, turns, k, j);
    }
    var a :| a in turns[k].log && a.index == j && !a.Yes();
    TurnInAll(turns, k, a);
  }

  /**
   The pools of the workload in order, or all backends when it has no list, other requests going ahead between any
   two questions.
   */
  method SelectForRoute(
    backends: seq<Backend>, q: Request, attempted: seq<nat>, routeIneligible: seq<nat>, quiet: bool)
    returns (r: Option<nat>, decisions: seq<Decision>, ghost turns: seq<PoolTurn>)
    requires DistinctCircuits(backends) && routeIneligible == RouteIneligible(backends, q)
    modifies Circuits(backends)
    ensures RouteChosen(backends, q, attempted, turns, r)
    ensures Recorded(backends, q, attempted, r, decisions)
    ensures quiet ==> Flows(old(Views(backends)), All(turns), Views(backends))
  {
    hide Chosen, AsksFor, DistinctCircuits, RouteIneligible, OutsidePool, Turn, Flows, All;
    ghost var start := Views(backends);
    NothingFlows(start);
    ghost var log: seq<Answer>;
    decisions, turns := [], [];
    if q.PoolsToTry().Some? {
      var pools := q.PoolsToTry().value;
      for k := 0 to |pools|
        invariant |turns| == k && PoolsRefused(backends, q, attempted, turns)
        invariant quiet ==> Flows(start, All(turns), Views(backends))
        invariant |decisions| == k && PassedOver(backends, q, attempted, decisions)
      {
        var candidates, blocked := CandidateCounts(backends, q, attempted, routeIneligible, Some(pools[k]));
        var ineligible := SelectionIneligibleWithPool(
          routeIneligible, q.resources.ineligible, OutsidePool(backends, pools[k]));
        UnionAsksFor(backends, q, attempted, Some(pools[k]), ineligible);
        ghost var mid := Views(backends);
        r, log := SelectBackend(backends, q.Ask(attempted, ineligible), quiet);
        ghost var t := PoolTurn(ineligible, log);
        TurnAdded(backends, q, attempted, turns, t, r);
        AllPush(turns, t);
        if quiet {
          FlowsJoin(start, All(turns), mid, log, Views(backends));
        }
        turns := turns + [t];
        var d := Decision(pools[k], r, candidates, blocked);
        TurnRecorded(backends, q, attempted, decisions, d);
        decisions := decisions + [d];
        if r.Some? {
          return;
        }
      }
      return None, decisions, turns;
    }
    var candidates, blocked := CandidateCounts(backends, q, attempted, routeIneligible, None);
    var ineligible := SelectionIneligible(routeIneligible, q.resources.ineligible);
    UnionAsksFor(backends, q, attempted, None, ineligible);
    r, log := SelectBackend(backends, q.Ask(attempted, ineligible), quiet);
    AllPush([], PoolTurn(ineligible, log));
    assert All([]) + log == log && [] + [PoolTurn(ineligible, log)] == [PoolTurn(ineligible, log)];
    turns := [PoolTurn(ineligible, log)];
    decisions := [Decision("", r, candidates, blocked)];
  }

  lemma NothingFlows(start: seq<Breaker>)
    ensures Flows(start, [], start) && All([]) == []
  {
  }

  // ---------- One instant, nobody else about ----------

  /** Pools refused one after the other at one instant leave every circuit as it was, and the next pool is due. */
  lemma {:induction false} RefusedAtOnce(
    backends: seq<Backend>, views: seq<Breaker>, q: Request, attempted: seq<nat>, turns: seq<PoolTurn>,
    end: seq<Breaker>, now: nat)
    requires |views| == |backends| && PoolsRefused(backends, q, attempted, turns) && Flows(views, All(turns), end)
    requires forall a :: a in All(turns) ==> a.at == now
    ensures end == views && FromPool(backends, views, q, attempted, now, |turns|)
  {
    hide Chosen, AsksFor, FromPool, Best, Flows, Asked;
    if turns == [] {
      AllPoolsDue(backends, views, q, attempted, now);
      NothingFlowed(views, end);
    } else {
      var front, last := turns[..|turns| - 1], turns[|turns| - 1];
      var k := |turns| - 1;
      assert All(turns) == All(front) + last.log;
      var mid := FlowsSplit(views, All(front), last.log, end);
      RefusedAtOnce(backends, views, q, attempted, front, mid, now);
      assert TurnChosen(backends, q, attempted, Some(q.PoolsToTry().value[k]), last, None);
      InstantIsBest(backends, views, q.Ask(attempted, last.ineligible), last.log, None, end, now);
      PoolDecides(backends, views, q, attempted, last.ineligible, now, k, None);
    }
  }

  lemma NothingFlowed(start: seq<Breaker>, end: seq<Breaker>)
    requires Flows(start, [], end)
    ensures end == start
  {
  }

  lemma {:induction false} FlowsSplit(start: seq<Breaker>, log: seq<Answer>, more: seq<Answer>, end: seq<Breaker>)
    returns (mid: seq<Breaker>)
    requires Flows(start, log + more, end)
    ensures Flows(start, log, mid) && Flows(mid, more, end)
  {
    if more == [] {
      assert log + more == log;
      mid := end;
    } else {
      var front, last := more[..|more| - 1], more[|more| - 1];
      assert (log + more)[..|log + more| - 1] == log + front;
      mid := FlowsSplit(start, log, front, last.before);
    }
  }

  /**
   At a fixed instant the choice is the least ready backend under pool, tier, rank and index, or none if there is none,
   and its only effect is that the circuits asked on the way may go from open to half-open.
   */
  lemma InstantRouteIsBest(
    backends: seq<Backend>, views: seq<Breaker>, q: Request, attempted: seq<nat>, turns: seq<PoolTurn>, r: Option<nat>,
    end: seq<Breaker>, now: nat)
    requires |views| == |backends| && RouteChosen(backends, q, attempted, turns, r) && Flows(views, All(turns), end)
    requires forall a :: a in All(turns) ==> a.at == now
    ensures RouteBest(backends, views, q, attempted, now, r)
    ensures end == ProbedAt(views, AskedForRoute(backends, q, attempted, r), now)
  {
    hide Chosen, AsksFor, FromPool, Best, RouteBest, Flows, Asked, AskedForRoute;
    if q.PoolsToTry().None? {
      var t := turns[0];
      assert turns[..0] == [] && All(turns) == [] + t.log == t.log;
      InstantIsBest(backends, views, q.Ask(attempted, t.ineligible), t.log, r, end, now);
      AnyPoolDecides(backends, views, q, attempted, t.ineligible, now, r);
    } else if r.None? {
      RefusedAtOnce(backends, views, q, attempted, turns, end, now);
      NoPoolLeft(backends, views, q, attempted, now);
    } else {
      var k := |turns| - 1;
      var front, t := turns[..k], turns[k];
      assert All(turns) == All(front) + t.log;
      var mid := FlowsSplit(views, All(front), t.log, end);
      RefusedAtOnce(backends, views, q, attempted, front, mid, now);
      InstantIsBest(backends, views, q.Ask(attempted, t.ineligible), t.log, r, end, now);
      PoolDecides(backends, views, q, attempted, t.ineligible, now, k, r);
    }
  }

  lemma AllPoolsDue(backends: seq<Backend>, views: seq<Breaker>, q: Request, attempted: seq<nat>, now: nat)
    ensures FromPool(backends, views, q, attempted, now, 0)
  {
  }

  // ---------- The retry loop ----------

  datatype Reply = ConnectionError | Answered(status: nat)

  datatype Outcome = NoBackends | PriorityLimited | Unavailable(reason: string)
                   | Failed(last: Reply) | Completed(status: nat, retried: bool)

  /** The request goes on to another backend after this reply. */
  predicate Failing(q: Request, reply: Reply) {
    reply.ConnectionError? || (q.route.retryServerErrors && 500 <= reply.status < 600)
  }

  function UnavailableReason(routeIneligible: seq<nat>, resourceIneligible: seq<nat>, backendCount: nat): string {
    if backendCount > 0 && |routeIneligible| == backendCount then "unsupported_workload"
    else if resourceIneligible != [] then "resource_unavailable"
    else "unavailable"
  }

  /** The reason says "unsupported" exactly when there are backends and the route allows none of them. */
  lemma UnsupportedIffNoneAllowed(backends: seq<Backend>, q: Request)
    ensures UnavailableReason(RouteIneligible(backends, q), q.resources.ineligible, |backends|) ==
            "unsupported_workload"
            <==> backends != [] && forall i :: 0 <= i < |backends| ==> !RouteAllows(backends[i], q)
  {
    var out := RouteIneligible(backends, q);
    forall i: nat ensures i in out <==> i < |backends| && !RouteAllows(backends[i], q) {
      IneligibleMembers(backends, q, "", i);
    }
    FilterNoDuplicates(Range(|backends|), (i: nat) => i < |backends| && !RouteAllows(backends[i], q));
    if i: nat :| i < |backends| && RouteAllows(backends[i], q) {
      DistinctBelow(out + [i], |backends|);
    } else {
      forall i | 0 <= i < |backends| ensures Range(|backends|)[i] in out {
      }
      FilterAll(Range(|backends|), (i: nat) => i < |backends| && !RouteAllows(backends[i], q));
    }
  }

  /** One selection by this request: the circuits before and after, the pools' turns, and the choice. */
  datatype Choice = Choice(before: seq<Breaker>, after: seq<Breaker>, turns: seq<PoolTurn>, chosen: Option<nat>)

  /** One result reported to a circuit by this request. */
  datatype Mark = Mark(index: nat, before: seq<Breaker>, after: seq<Breaker>, at: nat)

  ghost predicate ChoiceOk(backends: seq<Backend>, q: Request, attempted: seq<nat>, c: Choice) {
    RouteChosen(backends, q, attempted, c.turns, c.chosen)
  }

  /** The k-th selection was made with the first k sends excluded, and the k-th send went where it said. */
  ghost predicate ChoicesOk(backends: seq<Backend>, q: Request, sends: seq<nat>, choices: seq<Choice>) {
    && |sends| <= |choices| <= |sends| + 1
    && (forall k :: 0 <= k < |choices| ==> ChoiceOk(backends, q, sends[..k], choices[k]))
    && (forall k :: 0 <= k < |sends| ==> choices[k].chosen == Some(sends[k]))
  }

  /** No backend is tried twice and each suits the route and the resource policy. */
  ghost predicate SendsOk(backends: seq<Backend>, q: Request, sends: seq<nat>) {
    && NoDuplicates(sends)
    && |sends| <= |backends|
    && forall k :: 0 <= k < |sends| ==> Usable(backends, q, sends[k])
  }

  predicate MarksFailure(m: Mark, i: nat) {
    m.index == i < |m.before| && m.after == m.before[i := m.before[i].FailedAt(m.at)]
  }

  predicate MarksSuccess(m: Mark, i: nat) {
    m.index == i < |m.before| && m.after == m.before[i := m.before[i].Succeeded()]
  }

  /** The first sends failed, and each told its own circuit so once. */
  ghost predicate FailuresOk(q: Request, upstream: nat -> Reply, sends: seq<nat>, failures: seq<Mark>) {
    && |failures| <= |sends|
    && forall k: nat :: k < |failures| ==> Failing(q, upstream(k)) && MarksFailure(failures[k], sends[k])
  }

  /** Selections and failures alternate, each finding the circuits as the one before left them, up to `end`. */
  ghost predicate Chained(start: seq<Breaker>, end: seq<Breaker>, choices: seq<Choice>, failures: seq<Mark>,
      chosen: bool)
    decreases |choices| + |failures|
  {
    if chosen then
      && choices != []
      && var last := choices[|choices| - 1];
      && end == last.after && Flows(last.before, All(last.turns), end)
      && Chained(start, last.before, choices[..|choices| - 1], failures, false)
    else if failures == [] then choices == [] && end == start
    else
      var last := failures[|failures| - 1];
      end == last.after && Chained(start, last.before, choices, failures[..|failures| - 1], true)
  }

  /** With nobody else about, the circuits end where this request's own steps bring them. */
  ghost predicate Alone(
    start: seq<Breaker>, end: seq<Breaker>, choices: seq<Choice>, failures: seq<Mark>, successes: seq<Mark>)
  {
    if choices == [] then end == start && failures == [] && successes == []
    else if successes == [] then Chained(start, end, choices, failures, true)
    else |successes| == 1 && end == successes[0].after && Chained(start, successes[0].before, choices, failures, true)
  }

  lemma NobodyAsked(start: seq<Breaker>)
    ensures Alone(start, start, [], [], [])
  {
  }

  lemma NothingChained(start: seq<Breaker>)
    ensures Chained(start, start, [], [], false)
  {
  }

  lemma ChoiceChains(start: seq<Breaker>, end: seq<Breaker>, choices: seq<Choice>, failures: seq<Mark>, c: Choice)
    requires Chained(start, end, choices, failures, false) && c.before == end
    requires Flows(c.before, All(c.turns), c.after)
    ensures Chained(start, c.after, choices + [c], failures, true)
  {
    assert (choices + [c])[..|choices|] == choices;
  }

  lemma AloneWithoutSuccess(start: seq<Breaker>, end: seq<Breaker>, choices: seq<Choice>, failures: seq<Mark>)
    requires Chained(start, end, choices, failures, true)
    ensures Alone(start, end, choices, failures, [])
  {
  }

  lemma AloneWithSuccess(start: seq<Breaker>, choices: seq<Choice>, failures: seq<Mark>, m: Mark)
    requires Chained(start, m.before, choices, failures, true)
    ensures Alone(start, m.after, choices, failures, [m])
  {
  }

  lemma FailureChains(start: seq<Breaker>, end: seq<Breaker>, choices: seq<Choice>, failures: seq<Mark>, m: Mark)
    requires Chained(start, end, choices, failures, true) && m.before == end
    ensures Chained(start, m.after, choices, failures + [m], false)
  {
    assert (failures + [m])[..|failures|] == failures;
  }

  /** All that one admitted request does. */
  ghost predicate Answers(
    backends: seq<Backend>, q: Request, upstream: nat -> Reply, keyed: bool, outcome: Outcome, sends: seq<nat>,
    recorded: Option<nat>, choices: seq<Choice>, failures: seq<Mark>, successes: seq<Mark>)
  {
    && SendsOk(backends, q, sends)
    && ChoicesOk(backends, q, sends, choices)
    && FailuresOk(q, upstream, sends, failures)
    && if |choices| == |sends| then
         && sends != [] && |failures| == |sends| - 1
         && var last := sends[|sends| - 1];
         && var reply := upstream(|sends| - 1);
         && !Failing(q, reply) && outcome == Completed(reply.status, |sends| > 1)
         && |successes| == 1 && MarksSuccess(successes[0], last)
         && recorded == if keyed then Some(last) else None
       else
         && choices[|sends|].chosen.None? && |failures| == |sends| && successes == [] && recorded.None?
         && outcome == if sends == []
                       then Unavailable(UnavailableReason(RouteIneligible(backends, q), q.resources.ineligible,
                           |backends|))
                       else Failed(upstream(|sends| - 1))
  }

  /** Between two sends, all sends so far having failed. */
  ghost predicate Underway(
    backends: seq<Backend>, q: Request, upstream: nat -> Reply, sends: seq<nat>, choices: seq<Choice>,
    failures: seq<Mark>)
  {
    && SendsOk(backends, q, sends) && ChoicesOk(backends, q, sends, choices) && FailuresOk(q, upstream, sends, failures)
    && |choices| == |sends| == |failures|
  }

  /** The next send is to i. */
  ghost predicate About(
    backends: seq<Backend>, q: Request, upstream: nat -> Reply, sends: seq<nat>, choices: seq<Choice>,
    failures: seq<Mark>, i: nat)
  {
    && SendsOk(backends, q, sends) && ChoicesOk(backends, q, sends, choices) && FailuresOk(q, upstream, sends, failures)
    && |choices| == |sends| + 1 && |failures| == |sends|
    && choices[|sends|].chosen == Some(i) && i < |backends|
  }

  lemma Begins(backends: seq<Backend>, q: Request, upstream: nat -> Reply)
    ensures Underway(backends, q, upstream, [], [], [])
  {
  }

  lemma ChoiceMade(
    backends: seq<Backend>, q: Request, upstream: nat -> Reply, keyed: bool, sends: seq<nat>, choices: seq<Choice>,
    failures: seq<Mark>, c: Choice)
    requires Underway(backends, q, upstream, sends, choices, failures) && ChoiceOk(backends, q, sends, c)
    ensures c.chosen.Some? ==> About(backends, q, upstream, sends, choices + [c], failures, c.chosen.value)
    ensures c.chosen.None? ==>
      var outcome := if sends == []
        then Unavailable(UnavailableReason(RouteIneligible(backends, q), q.resources.ineligible, |backends|))
        else Failed(upstream(|sends| - 1));
      Answers(backends, q, upstream, keyed, outcome, sends, None, choices + [c], failures, [])
  {
    hide SendsOk, ChoicesOk, FailuresOk, RouteIneligible, ChoiceOk;
    ChoiceAdded(backends, q, sends, choices, c);
  }

  lemma ChoiceAdded(backends: seq<Backend>, q: Request, sends: seq<nat>, choices: seq<Choice>, c: Choice)
    requires ChoicesOk(backends, q, sends, choices) && |choices| == |sends| && ChoiceOk(backends, q, sends, c)
    ensures ChoicesOk(backends, q, sends, choices + [c])
    ensures c.chosen.Some? ==> c.chosen.value < |backends|
  {
    hide ChoiceOk;
    assert sends[..|sends|] == sends;
    ChosenExists(backends, q, sends, c);
  }

  lemma ChosenExists(backends: seq<Backend>, q: Request, attempted: seq<nat>, c: Choice)
    requires ChoiceOk(backends, q, attempted, c)
    ensures c.chosen.Some? ==> Usable(backends, q, c.chosen.value) && c.chosen.value !in attempted
  {
    RouteChoiceMeans(backends, q, attempted, c.turns, c.chosen);
  }

  /** The chosen backend is new and usable, so there is room for it among the sends. */
  lemma SendAdded(backends: seq<Backend>, q: Request, sends: seq<nat>, choices: seq<Choice>, i: nat)
    requires ChoicesOk(backends, q, sends, choices) && |choices| == |sends| + 1 && SendsOk(backends, q, sends)
    requires choices[|sends|].chosen == Some(i)
    ensures ChoicesOk(backends, q, sends + [i], choices) && SendsOk(backends, q, sends + [i])
  {
    hide ChoiceOk, RouteAllows;
    assert sends[..|sends|] == sends;
    ChosenExists(backends, q, sends, choices[|sends|]);
    forall k | 0 <= k < |choices| ensures (sends + [i])[..k] == sends[..k] {
    }
    DistinctBelow(sends + [i], |backends|);
  }

  lemma ReplyFailed(
    backends: seq<Backend>, q: Request, upstream: nat -> Reply, sends: seq<nat>, choices: seq<Choice>,
    failures: seq<Mark>, i: nat, m: Mark)
    requires About(backends, q, upstream, sends, choices, failures, i)
    requires Failing(q, upstream(|sends|)) && MarksFailure(m, i)
    ensures Underway(backends, q, upstream, sends + [i], choices, failures + [m]) && |sends| < |backends|
  {
    hide SendsOk, ChoicesOk;
    SendAdded(backends, q, sends, choices, i);
    assert |sends + [i]| <= |backends| by { SendsFit(backends, q, sends + [i]); }
  }

  lemma SendsFit(backends: seq<Backend>, q: Request, sends: seq<nat>)
    requires SendsOk(backends, q, sends)
    ensures |sends| <= |backends|
  {
  }

  lemma ReplyAccepted(
    backends: seq<Backend>, q: Request, upstream: nat -> Reply, keyed: bool, sends: seq<nat>, choices: seq<Choice>,
    failures: seq<Mark>, i: nat, m: Mark)
    requires About(backends, q, upstream, sends, choices, failures, i)
    requires !Failing(q, upstream(|sends|)) && MarksSuccess(m, i)
    ensures Answers(backends, q, upstream, keyed, Completed(upstream(|sends|).status, sends != []), sends + [i],
                    if keyed then Some(i) else None, choices, failures, [m])
  {
    hide SendsOk, ChoicesOk, MarksFailure;
    SendAdded(backends, q, sends, choices, i);
  }

  method MarkFailure(backends: seq<Backend>, i: nat) returns (ghost m: Mark)
    requires DistinctCircuits(backends) && i < |backends|
    modifies Circuits(backends)
    ensures m.before == old(Views(backends)) && m.after == Views(backends) && MarksFailure(m, i)
  {
    assert backends[i] in backends;
    ghost var before := Views(backends);
    var now := ReadClock();
    backends[i].circuit.RecordFailure(now);
    m := Mark(i, before, Views(backends), now);
  }

  method MarkSuccess(backends: seq<Backend>, i: nat) returns (ghost m: Mark)
    requires DistinctCircuits(backends) && i < |backends|
    modifies Circuits(backends)
    ensures m.before == old(Views(backends)) && m.after == Views(backends) && MarksSuccess(m, i)
  {
    assert backends[i] in backends;
    ghost var before := Views(backends);
    var now := ReadClock();
    backends[i].circuit.RecordSuccess();
    m := Mark(i, before, Views(backends), now);
  }

  method Choose(backends: seq<Backend>, q: Request, attempted: seq<nat>, routeIneligible: seq<nat>, quiet: bool)
    returns (r: Option<nat>, ghost c: Choice)
    requires DistinctCircuits(backends) && routeIneligible == RouteIneligible(backends, q)
    modifies Circuits(backends)
    ensures c.chosen == r && c.before == old(Views(backends)) && c.after == Views(backends)
    ensures ChoiceOk(backends, q, attempted, c)
    ensures quiet ==> Flows(c.before, All(c.turns), c.after)
  {
    hide Flows, RouteChosen;
    ghost var before := Views(backends);
    var decisions;
    ghost var turns;
    r, decisions, turns := SelectForRoute(backends, q, attempted, routeIneligible, quiet);
    c := Choice(before, Views(backends), turns, r);
  }

  /**
   One request. upstream(k) is the reply to its k-th send; permit says whether its priority had room. choices, failures
   and successes record its own steps on the circuits. Other requests may act between any two of them, and between any
   two questions of one selection.
   */
  method Forward(
    backends: seq<Backend>, q: Request, keyed: bool, permit: bool, upstream: nat -> Reply, quiet: bool)
    returns (outcome: Outcome, sends: seq<nat>, recorded: Option<nat>,
             ghost choices: seq<Choice>, ghost failures: seq<Mark>, ghost successes: seq<Mark>)
    requires DistinctCircuits(backends)
    modifies Circuits(backends)
    ensures (backends == [] || !permit) ==>
      && outcome == (if backends == [] then NoBackends else PriorityLimited)
      && sends == [] && recorded.None? && choices == [] && failures == [] && successes == []
      && Views(backends) == old(Views(backends))
    ensures (backends != [] && permit) ==>
      Answers(backends, q, upstream, keyed, outcome, sends, recorded, choices, failures, successes)
    ensures quiet ==> Alone(old(Views(backends)), Views(backends), choices, failures, successes)
  {
    hide DistinctCircuits, Circuits, ChoiceOk, RouteIneligible, MarksFailure, MarksSuccess;
    hide Underway, About, Answers, Chained, Alone, Flows;
    outcome, sends, recorded := NoBackends, [], None;
    choices, failures, successes := [], [], [];
    ghost var start := Views(backends);
    NobodyAsked(start);
    if backends == [] {
      return;
    }
    if !permit {
      outcome := PriorityLimited;
      return;
    }
    var attempted: seq<nat>, next: Option<nat> := [], None;
    var routeIneligible := RouteIneligible(backends, q);
    Begins(backends, q, upstream);
    NothingChained(start);
    while true
      invariant attempted == sends && recorded.None? && successes == []
      invariant quiet ==> Chained(start, Views(backends), choices, failures, next.Some?)
      invariant next.None? ==> sends == [] && Underway(backends, q, upstream, sends, choices, failures)
      invariant next.Some? ==> About(backends, q, upstream, sends, choices, failures, next.value)
      decreases |backends| - |sends|
    {
      OtherRequests(backends, quiet);
      ghost var c: Choice;
      if next.None? {
        next, c := Choose(backends, q, attempted, routeIneligible, quiet);
        ChoiceMade(backends, q, upstream, keyed, sends, choices, failures, c);
        if quiet {
          ChoiceChains(start, c.before, choices, failures, c);
        }
        choices := choices + [c];
        if next.None? {
          if quiet {
            AloneWithoutSuccess(start, Views(backends), choices, failures);
          }
          // A selection after a failed send that finds nothing returns below, so here nothing was attempted.
          outcome := Unavailable(UnavailableReason(routeIneligible, q.resources.ineligible, |backends|));
          return;
        }
      }
      var idx := next.value;
      next := None;
      Within(backends, q, upstream, sends, choices, failures, idx);
      var reply := upstream(|sends|);
      OtherRequests(backends, quiet);
      ghost var m: Mark;
      if Failing(q, reply) {
        m := MarkFailure(backends, idx);
        ReplyFailed(backends, q, upstream, sends, choices, failures, idx, m);
        if quiet {
          FailureChains(start, m.before, choices, failures, m);
        }
        sends, failures, attempted := sends + [idx], failures + [m], attempted + [idx];
        OtherRequests(backends, quiet);
        next, c := Choose(backends, q, attempted, routeIneligible, quiet);
        ChoiceMade(backends, q, upstream, keyed, sends, choices, failures, c);
        if quiet {
          ChoiceChains(start, c.before, choices, failures, c);
        }
        choices := choices + [c];
        if next.Some? {
          continue;
        }
        if quiet {
          AloneWithoutSuccess(start, Views(backends), choices, failures);
        }
        outcome := Failed(reply);
        return;
      }
      m := MarkSuccess(backends, idx);
      if quiet {
        AloneWithSuccess(start, choices, failures, m);
      }
      ReplyAccepted(backends, q, upstream, keyed, sends, choices, failures, idx, m);
      outcome := Completed(reply.status, attempted != []);
      sends, successes := sends + [idx], [m];
      if keyed {
        recorded := Some(idx);
      }
      return;
    }
  }

  lemma Within(
    backends: seq<Backend>, q: Request, upstream: nat -> Reply, sends: seq<nat>, choices: seq<Choice>,
    failures: seq<Mark>, i: nat)
    requires About(backends, q, upstream, sends, choices, failures, i)
    ensures i < |backends|
  {
  }
}
