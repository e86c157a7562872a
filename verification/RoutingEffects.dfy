/**
 Routing said in plain fields: which backend a selection may take and in what order of tier, load, memory and index,
 which backends a route allows, and what one proxied request sends, retries, reports and remembers.
 */
module RoutingEffects {
  import opened Collections
  import opened Circuit
  import opened Selector
  import opened Proxy
  import JobModel

  // ---------- One selection ----------

  /** The tiers: on the node of origin, else preferred, else the rest. */
  lemma TierMeans(backends: seq<Backend>, q: Query, i: nat)
    requires i < |backends|
    ensures Tier(backends, q, i) == 0 <==> q.origin.Some? && backends[i].nodeId == q.origin
    ensures Tier(backends, q, i) == 1 <==> (q.origin.None? || backends[i].nodeId != q.origin) && q.preferred == Some(i)
    ensures Tier(backends, q, i) <= 2
  {
  }

  /** A circuit says yes unless it is open and its cooldown has not passed. */
  lemma YesMeans(n: nat, log: seq<Answer>, a: Answer)
    requires AnswersOk(n, log) && a in log
    ensures a.Yes() <==>
            match a.before[a.index].state
            case Open(since) => a.at >= since + a.before[a.index].cooldown || a.before[a.index].cooldown == 0
            case Closed => true
            case HalfOpen => true
  {
  }

  /**
   Whom a selection chooses among those that said yes: an earlier tier beats a later one, and within a tier a ranked
   backend beats an unranked one, a known load beats an unknown one, then the lower load, then the larger free memory,
   then the lower index.
   */
  lemma ChosenByRank(backends: seq<Backend>, q: Query, log: seq<Answer>, r: nat, j: nat)
    requires Chosen(backends, q, log, Some(r)) && j in Yeses(log) && j != r
    ensures r < |backends| && r !in q.excluded && r !in q.ineligible && r in Yeses(log) && j < |backends|
    ensures Tier(backends, q, r) <= Tier(backends, q, j)
    ensures Tier(backends, q, r) == Tier(backends, q, j) && j < |q.ranks| && q.ranks[j].Some? ==>
      && r < |q.ranks| && q.ranks[r].Some?
      && var (x, y) := (q.ranks[r].value, q.ranks[j].value);
      && (y.currentLoad.Some? ==> x.currentLoad.Some? && x.currentLoad.value <= y.currentLoad.value)
      && (x.currentLoad == y.currentLoad ==> x.availableVramMb >= y.availableVramMb)
      && (x == y ==> r < j)
    ensures (Tier(backends, q, r) == Tier(backends, q, j)
             && (r >= |q.ranks| || q.ranks[r].None?) && (j >= |q.ranks| || q.ranks[j].None?)) ==> r < j
  {
    hide Tier;
    YesesAreAsked(log);
    assert r in Yeses(log) && r in Asked(backends, q, Some(r)) && j in Asked(backends, q, Some(r));
    assert Better(backends, q, r, j);
  }

  /** Whom a selection asks: every backend that is neither excluded nor ineligible, down to the tier it chose from. */
  lemma AskedMeans(backends: seq<Backend>, q: Query, log: seq<Answer>, r: Option<nat>, j: nat)
    requires Chosen(backends, q, log, r)
    ensures (exists a :: a in log && a.index == j) <==>
            && j < |backends| && j !in q.excluded && j !in q.ineligible
            && (r.Some? ==> Tier(backends, q, j) <= Tier(backends, q, r.value))
  {
    hide Tier;
    assert j in Indexes(log) <==> j in Asked(backends, q, r);
  }

  // ---------- What a route allows ----------

  /** Usable for a request: the route's pool, the workload's pools and the backend's workloads allow it, and it fits. */
  lemma UsableMeans(backends: seq<Backend>, q: Request, i: nat)
    ensures Usable(backends, q, i) <==>
            && i < |backends| && i !in q.resources.ineligible
            && (q.route.backendPool == AnyPool || q.route.backendPool == Named(backends[i].pool))
            && (q.route.kind in q.pools ==> backends[i].pool in q.pools[q.route.kind])
            && q.route.kind in backends[i].workloads
  {
  }

  /** A backend has a rank exactly when a report for its node and id says there is enough free memory. */
  lemma FitnessMeans(b: Backend, reports: map<(string, string), ResourceRank>, required: nat)
    ensures var fit := Fitness(b, reports, required);
      && (fit.Some? <==>
            && b.nodeId.Some? && (b.nodeId.value, b.id) in reports
            && required <= reports[(b.nodeId.value, b.id)].availableVramMb)
      && (fit.Some? ==> b.nodeId.Some? && (b.nodeId.value, b.id) in reports.Keys
                        && fit.value == reports[(b.nodeId.value, b.id)])
  {
  }

  /** The counts of a pool's turn: allowed and untried backends of the pool, by whether they fit. */
  lemma TurnMeans(backends: seq<Backend>, q: Request, attempted: seq<nat>, pool: Option<string>, i: nat)
    ensures i in Turn(backends, q, attempted, pool, true, |backends|) <==>
            Usable(backends, q, i) && i !in attempted && (pool.Some? ==> backends[i].pool == pool.value)
    ensures i in Turn(backends, q, attempted, pool, false, |backends|) <==>
            && i < |backends| && i in q.resources.ineligible && i !in attempted
            && (q.route.backendPool == AnyPool || q.route.backendPool == Named(backends[i].pool))
            && (q.route.kind in q.pools ==> backends[i].pool in q.pools[q.route.kind])
            && q.route.kind in backends[i].workloads
            && (pool.Some? ==> backends[i].pool == pool.value)
  {
  }

  /**
   Whom a request is sent to: it lies in the last pool that had its turn, where it beats every other backend that said
   yes, by the request's own origin and preference, and then by the ranks its resource reports give.
   */
  lemma RouteChoiceByRank(
    backends: seq<Backend>, q: Request, attempted: seq<nat>, turns: seq<PoolTurn>, r: nat, j: nat)
    requires RouteChosen(backends, q, attempted, turns, Some(r)) && j in Yeses(turns[|turns| - 1].log) && j != r
    ensures Usable(backends, q, r) && r !in attempted && Usable(backends, q, j) && j !in attempted
    ensures q.route.kind in q.pools ==>
              && |turns| <= |q.pools[q.route.kind]|
              && backends[r].pool == q.pools[q.route.kind][|turns| - 1] == backends[j].pool
    ensures q.origin.Some? && backends[j].nodeId == q.origin ==> backends[r].nodeId == q.origin
    ensures q.preferred == Some(j) ==> q.origin.Some? && backends[r].nodeId == q.origin
    ensures var ranks := q.resources.ranks;
      && (q.origin.None? || ((backends[r].nodeId == q.origin) <==> (backends[j].nodeId == q.origin)))
      && q.preferred != Some(r) ==>
        && (j < |ranks| && ranks[j].Some? ==>
              && r < |ranks| && ranks[r].Some?
              && var (x, y) := (ranks[r].value, ranks[j].value);
              && (y.currentLoad.Some? ==> x.currentLoad.Some? && x.currentLoad.value <= y.currentLoad.value)
              && (x.currentLoad == y.currentLoad ==> x.availableVramMb >= y.availableVramMb)
              && (x == y ==> r < j))
        && ((r >= |ranks| || ranks[r].None?) && (j >= |ranks| || ranks[j].None?) ==> r < j)
  {
    var k := |turns| - 1;
    var t := turns[k];
    var pool := if q.PoolsToTry().None? then None else Some(q.PoolsToTry().value[k]);
    assert TurnChosen(backends, q, attempted, pool, t, Some(r));
    var asked := q.Ask(attempted, t.ineligible);
    hide Tier, RouteChosen, TurnChosen, RouteAllows, Chosen;
    ChosenByRank(backends, asked, t.log, r, j);
    TierMeans(backends, asked, r);
    TierMeans(backends, asked, j);
    YesEligible(backends, asked, t.log, r, j);
  }

  lemma YesEligible(backends: seq<Backend>, q: Query, log: seq<Answer>, r: nat, j: nat)
    requires Chosen(backends, q, log, Some(r)) && j in Yeses(log)
    ensures r < |backends| && q.Eligible(r) && j < |backends| && q.Eligible(j)
  {
    YesesAreAsked(log);
    assert r in Yeses(log) && r in Asked(backends, q, Some(r)) && j in Asked(backends, q, Some(r));
  }

  /** Why no backend could be tried: the route allows none there is, else some do not fit, else none is available. */
  lemma ReasonMeans(backends: seq<Backend>, q: Request)
    ensures var reason := UnavailableReason(RouteIneligible(backends, q), q.resources.ineligible, |backends|);
      reason ==
      if backends != [] && forall i: nat :: i < |backends| ==> !RouteAllows(backends[i], q) then "unsupported_workload"
      else if q.resources.ineligible != [] then "resource_unavailable"
      else "unavailable"
  {
    hide RouteIneligible;
    UnsupportedIffNoneAllowed(backends, q);
    assert (forall i: nat :: i < |backends| ==> !RouteAllows(backends[i], q))
           <==> (forall i :: 0 <= i < |backends| ==> !RouteAllows(backends[i], q));
    ReasonsDiffer();
  }

  lemma ReasonsDiffer()
    ensures "resource_unavailable" != "unsupported_workload" && "unavailable" != "unsupported_workload"
  {
    assert "resource_unavailable"[0] == 'r' && "unsupported_workload"[0] == 'u';
    assert "unavailable"[2] == 'a' && "unsupported_workload"[2] == 's';
  }

  // ---------- One proxied request ----------

  /**
   The k-th send of a request whose backend could not be reached, or that answered 500 to 599 on a route that retries
   such answers: its circuit counts one failure for it, no success, and the request goes on if it can.
   */
  lemma FailedSend(
    backends: seq<Backend>, q: Request, upstream: nat -> Reply, keyed: bool, outcome: Outcome, sends: seq<nat>,
    recorded: Option<nat>, choices: seq<Choice>, failures: seq<Mark>, successes: seq<Mark>, k: nat)
    requires Answers(backends, q, upstream, keyed, outcome, sends, recorded, choices, failures, successes)
    requires k < |sends|
    requires upstream(k) == ConnectionError || (q.route.retryServerErrors && 500 <= upstream(k).status < 600)
    ensures k < |failures| && failures[k].index == sends[k] < |failures[k].before|
    ensures var m := failures[k]; var b := m.before[sends[k]];
      m.after == m.before[sends[k] :=
        Breaker(if b.failures + 1 >= b.threshold then Open(m.at) else b.state, b.failures + 1, b.threshold, b.cooldown)]
    ensures forall other :: 0 <= other < |failures| && other != k ==> failures[other].index != sends[k]
    ensures forall m :: m in successes ==> m.index != sends[k]
    ensures k == |sends| - 1 ==> outcome == Failed(upstream(k)) && recorded.None? && successes == []
  {
    hide ChoicesOk, Usable;
  }

  /**
   The k-th send of a request whose backend answered, and not with 500 to 599 on a retrying route: it is the last send,
   its answer is the outcome, its circuit alone is told of a success, and the affinity key now belongs to it.
   */
  lemma AnsweredSend(
    backends: seq<Backend>, q: Request, upstream: nat -> Reply, keyed: bool, outcome: Outcome, sends: seq<nat>,
    recorded: Option<nat>, choices: seq<Choice>, failures: seq<Mark>, successes: seq<Mark>, k: nat)
    requires Answers(backends, q, upstream, keyed, outcome, sends, recorded, choices, failures, successes)
    requires k < |sends| && upstream(k).Answered?
    requires !q.route.retryServerErrors || upstream(k).status < 500 || 600 <= upstream(k).status
    ensures k == |sends| - 1 && outcome == Completed(upstream(k).status, k > 0)
    ensures |successes| == 1 && successes[0].index == sends[k] < |successes[0].before|
    ensures var m := successes[0]; var b := m.before[sends[k]];
      m.after == m.before[sends[k] := Breaker(Closed, 0, b.threshold, b.cooldown)]
    ensures |failures| == k && forall m :: m in failures ==> m.index != sends[k]
    ensures recorded == if keyed then Some(sends[k]) else None
  {
    hide ChoicesOk, Usable;
  }

  /** What each outcome of an admitted request says of its sends. */
  lemma OutcomeMeans(
    backends: seq<Backend>, q: Request, upstream: nat -> Reply, keyed: bool, outcome: Outcome, sends: seq<nat>,
    recorded: Option<nat>, choices: seq<Choice>, failures: seq<Mark>, successes: seq<Mark>)
    requires Answers(backends, q, upstream, keyed, outcome, sends, recorded, choices, failures, successes)
    ensures outcome.Completed? && q.route.retryServerErrors ==> outcome.status < 500 || 600 <= outcome.status
    ensures outcome.Completed? <==>
            && sends != [] && upstream(|sends| - 1).Answered?
            && (!q.route.retryServerErrors || upstream(|sends| - 1).status < 500 || 600 <= upstream(|sends| - 1).status)
    ensures outcome.Unavailable? <==> sends == []
    ensures outcome.Completed? || outcome.Unavailable? || outcome.Failed?
    ensures !outcome.Completed? ==> successes == [] && recorded.None? && |failures| == |sends|
    ensures |successes| <= 1
  {
    hide SendsOk, ChoicesOk, MarksSuccess, MarksFailure;
  }

  /** A request gives up only when no backend it may still use lets it through. */
  lemma GivesUpWhenAllRefuse(
    backends: seq<Backend>, q: Request, upstream: nat -> Reply, keyed: bool, outcome: Outcome, sends: seq<nat>,
    recorded: Option<nat>, choices: seq<Choice>, failures: seq<Mark>, successes: seq<Mark>, j: nat)
    requires Answers(backends, q, upstream, keyed, outcome, sends, recorded, choices, failures, successes)
    requires !outcome.Completed? && Usable(backends, q, j) && j !in sends
    ensures |choices| == |sends| + 1
    ensures exists a :: a in All(choices[|sends|].turns) && a.index == j && !a.Yes()
  {
    hide SendsOk, FailuresOk, Usable, RouteChosen, All;
    assert sends[..|sends|] == sends;
    assert ChoiceOk(backends, q, sends[..|sends|], choices[|sends|]);
    RouteChoiceMeans(backends, q, sends, choices[|sends|].turns, None);
  }
}
