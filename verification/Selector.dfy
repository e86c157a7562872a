/**
 Backend selection (src/router/fallback.rs): origin-local backends first, then
 the preferred one, then the rest, each tier by resource rank; checking a
 backend may half-open its circuit.
 */
module Selector {
  import opened Collections
  import opened Circuit

  datatype Backend = Backend(
    id: string, nodeId: Option<string>, pool: string, workloads: seq<string>, circuit: CircuitBreaker)

  datatype ResourceRank = ResourceRank(currentLoad: Option<real>, availableVramMb: nat)

  datatype Ordering = Less | Equal | Greater {
    function ThenWith(o: Ordering): Ordering { if Equal? then o else this }
  }

  function CompareNat(a: nat, b: nat): Ordering { if a < b then Less else if a == b then Equal else Greater }

  function CompareLoad(a: Option<real>, b: Option<real>): Ordering {
    match (a, b)
    case (Some(x), Some(y)) => if x < y then Less else if x == y then Equal else Greater
    case (Some(_), None) => Less
    case (None, Some(_)) => Greater
    case (None, None) => Equal
  }

  /** Lower load first, then more free memory. */
  function CompareRankValues(a: ResourceRank, b: ResourceRank): Ordering {
    CompareLoad(a.currentLoad, b.currentLoad).ThenWith(CompareNat(b.availableVramMb, a.availableVramMb))
  }

  function RankAt(ranks: seq<Option<ResourceRank>>, i: nat): Option<ResourceRank> {
    if i < |ranks| then ranks[i] else None
  }

  /** Ranked backends before unranked ones, ties by index. */
  function CompareRank(ranks: seq<Option<ResourceRank>>, a: nat, b: nat): Ordering {
    match (RankAt(ranks, a), RankAt(ranks, b))
    case (Some(x), Some(y)) => CompareRankValues(x, y).ThenWith(CompareNat(a, b))
    case (Some(_), None) => Less
    case (None, Some(_)) => Greater
    case (None, None) => CompareNat(a, b)
  }

  predicate Before(ranks: seq<Option<ResourceRank>>, a: nat, b: nat) { CompareRank(ranks, a, b).Less? }

  /** The comparison is a strict total order on indexes, and agrees with itself both ways round. */
  lemma BeforeIsStrictTotalOrder(ranks: seq<Option<ResourceRank>>, a: nat, b: nat, c: nat)
    ensures !Before(ranks, a, a)
    ensures a != b ==> (Before(ranks, a, b) <==> !Before(ranks, b, a))
    ensures Before(ranks, a, b) && Before(ranks, b, c) ==> Before(ranks, a, c)
    ensures CompareRank(ranks, a, b).Greater? <==> Before(ranks, b, a)
  {
  }

  // ---------- The declarative optimum ----------

  /** What a selection is asked for: affinity, locality, the two exclusion lists and the ranks. */
  datatype Query = Query(
    preferred: Option<nat>,
    origin: Option<string>,
    excluded: seq<nat>,
    ineligible: seq<nat>,
    ranks: seq<Option<ResourceRank>>
  ) {
    predicate Eligible(i: nat) { i !in excluded && i !in ineligible }
  }

  /** Origin-local backends come first, then the preferred one, then the rest. */
  function Tier(backends: seq<Backend>, q: Query, i: nat): nat {
    if i < |backends| && q.origin.Some? && backends[i].nodeId == q.origin then 0
    else if q.preferred == Some(i) then 1
    else 2
  }

  predicate Better(backends: seq<Backend>, q: Query, i: nat, j: nat) {
    || Tier(backends, q, i) < Tier(backends, q, j)
    || (Tier(backends, q, i) == Tier(backends, q, j) && Before(q.ranks, i, j))
  }

  predicate Candidate(views: seq<Breaker>, q: Query, now: nat, i: nat) {
    i < |views| && q.Eligible(i) && views[i].Available(now)
  }

  /** r is the least available eligible index, or `None` when there is none. */
  ghost predicate Best(backends: seq<Backend>, views: seq<Breaker>, q: Query, now: nat, r: Option<nat>) {
    if r.Some? then
      && Candidate(views, q, now, r.value)
      && forall j: nat :: Candidate(views, q, now, j) && j != r.value ==> Better(backends, q, r.value, j)
    else
      forall j: nat :: !Candidate(views, q, now, j)
  }

  /** There is one optimum and no more. */
  lemma BestIsUnique(backends: seq<Backend>, views: seq<Breaker>, q: Query, now: nat, r: Option<nat>, s: Option<nat>)
    requires Best(backends, views, q, now, r) && Best(backends, views, q, now, s)
    ensures r == s
  {
    if r.Some? && s.Some? {
      BeforeIsStrictTotalOrder(q.ranks, r.value, s.value, r.value);
    }
  }

  /** The circuits whose availability a selection with outcome r asks: the tiers down to the one it chose from. */
  function Asked(backends: seq<Backend>, q: Query, r: Option<nat>): set<nat> {
    set j: nat | 0 <= j < |backends| && q.Eligible(j)
        && (r.Some? ==> Tier(backends, q, j) <= Tier(backends, q, r.value))
  }

  // ---------- Circuits behind the backends ----------

  ghost predicate DistinctCircuits(backends: seq<Backend>) {
    forall i, j :: 0 <= i < j < |backends| ==> backends[i].circuit != backends[j].circuit
  }

  ghost function Circuits(backends: seq<Backend>): set<CircuitBreaker> { set b | b in backends :: b.circuit }

  ghost function Views(backends: seq<Backend>): (views: seq<Breaker>)
    reads Circuits(backends)
    ensures |views| == |backends| && forall i :: 0 <= i < |views| ==> views[i] == backends[i].circuit.View()
  {
    seq(|backends|, i requires 0 <= i < |backends| reads Circuits(backends) =>
      assert backends[i] in backends; backends[i].circuit.View())
  }

  /** The views once the circuits at these indexes have been asked. */
  function ProbedAt(views: seq<Breaker>, asked: set<nat>, now: nat): (after: seq<Breaker>)
    ensures |after| == |views|
    ensures forall i: nat :: i < |views| ==> after[i] == if i in asked then views[i].Probed(now) else views[i]
  {
    seq(|views|, i requires 0 <= i < |views| => if i in asked then views[i].Probed(now) else views[i])
  }

  /** Asking again at the same instant gives the same answer, and only a circuit past its cooldown is changed. */
  lemma ProbeTwice(b: Breaker, now: nat)
    ensures b.Probed(now).Available(now) == b.Available(now) && b.Probed(now).Probed(now) == b.Probed(now)
    ensures b.Probed(now) != b <==> b.state.Open? && SaturatingSub(now, b.state.since) >= b.cooldown
    ensures b.Probed(now) != b ==> b.Probed(now) == b.(state := HalfOpen)
  {
  }

  // ---------- Asking, with other requests in between ----------

  /** One circuit asked whether it is available: all circuits before and after, and when. */
  datatype Answer = Answer(index: nat, before: seq<Breaker>, after: seq<Breaker>, at: nat) {
    predicate Yes() { index < |before| && before[index].Available(at) }
  }

  ghost predicate AnswersOk(n: nat, log: seq<Answer>) {
    forall a :: a in log ==> a.index < n == |a.before| && a.after == a.before[a.index := a.before[a.index].Probed(a.at)]
  }

  /** No circuit is asked twice. */
  ghost predicate AskedOnce(log: seq<Answer>) {
    forall i, j :: 0 <= i < j < |log| ==> log[i].index != log[j].index
  }

  function Indexes(log: seq<Answer>): set<nat> { set a | a in log :: a.index }

  /** The backends whose circuits answered that they are available. */
  function Yeses(log: seq<Answer>): set<nat> { set a | a in log && a.Yes() :: a.index }

  /** Each answer finds the circuits as the one before left them: nobody else was about. */
  ghost predicate Flows(start: seq<Breaker>, log: seq<Answer>, end: seq<Breaker>) {
    if log == [] then end == start
    else
      var last := log[|log| - 1];
      end == last.after && Flows(start, log[..|log| - 1], last.before)
  }

  lemma FlowsOn(start: seq<Breaker>, log: seq<Answer>, a: Answer)
    requires Flows(start, log, a.before)
    ensures Flows(start, log + [a], a.after)
  {
    assert (log + [a])[..|log|] == log;
  }

  lemma {:induction false} FlowsJoin(
    start: seq<Breaker>, log: seq<Answer>, mid: seq<Breaker>, more: seq<Answer>, end: seq<Breaker>)
    requires Flows(start, log, mid) && Flows(mid, more, end)
    ensures Flows(start, log + more, end)
  {
    if more == [] {
      assert log + more == log;
    } else {
      var last := more[|more| - 1];
      FlowsJoin(start, log, mid, more[..|more| - 1], last.before);
      assert log + more == (log + more[..|more| - 1]) + [last];
      FlowsOn(start, log + more[..|more| - 1], last);
    }
  }

  /** A circuit that refuses is left as it was. */
  lemma RefusalChangesNothing(n: nat, log: seq<Answer>, a: Answer)
    requires AnswersOk(n, log) && a in log && !a.Yes()
    ensures a.after == a.before
  {
  }

  /**
   Whatever other requests do to the shared circuits between two steps of this one: nothing is promised,
   except that when quiet there are none.
   */
  method OtherRequests(backends: seq<Backend>, quiet: bool)
    modifies Circuits(backends)
    ensures quiet ==> Views(backends) == old(Views(backends))
  {
  }

  /** A look at the clock, which may show any time. */
  method ReadClock() returns (now: nat) {
    now := *;
  }

  /** Others may go ahead; then one circuit is asked, under its lock. */
  method AskCircuit(backends: seq<Backend>, i: nat, quiet: bool) returns (ok: bool, ghost a: Answer)
    requires DistinctCircuits(backends) && i < |backends|
    modifies Circuits(backends)
    ensures a.index == i && ok == a.Yes() && AnswersOk(|backends|, [a])
    ensures a.after == Views(backends) && (quiet ==> a.before == old(Views(backends)))
  {
    OtherRequests(backends, quiet);
    assert backends[i] in backends;
    var now := ReadClock();
    ghost var before := Views(backends);
    ok := backends[i].circuit.IsAvailable(now);
    a := Answer(i, before, Views(backends), now);
    assert a.after == before[i := before[i].Probed(now)];
  }

  // ---------- The best of a list ----------

  /** The least of these indexes, or `None` when there are none. */
  ghost predicate LeastOf(yes: set<nat>, ranks: seq<Option<ResourceRank>>, best: Option<nat>) {
    if best.Some? then best.value in yes && forall c :: c in yes && c != best.value ==> Before(ranks, best.value, c)
    else yes == {}
  }

  function Members(s: seq<nat>, n: nat): set<nat> { set i | i in s && i < n }

  /** What asking these candidates amounts to. */
  ghost predicate AsksAll(n: nat, candidates: seq<nat>, log: seq<Answer>) {
    && AnswersOk(n, log)
    && Indexes(log) == Members(candidates, n)
    && (NoDuplicates(candidates) ==> AskedOnce(log))
  }

  lemma AskNext(n: nat, candidates: seq<nat>, log: seq<Answer>, c: nat, a: Answer)
    requires AsksAll(n, candidates, log) && c < n && a.index == c && AnswersOk(n, [a])
    ensures AsksAll(n, candidates + [c], log + [a])
    ensures Yeses(log + [a]) == Yeses(log) + if a.Yes() then {c} else {}
  {
    assert a in [a];
    var all, more := candidates + [c], log + [a];
    assert Members(all, n) == Members(candidates, n) + {c};
    assert Indexes(more) == Indexes(log) + {c};
    if NoDuplicates(all) {
      assert NoDuplicates(candidates) by {
        assert forall i :: 0 <= i < |candidates| ==> all[i] == candidates[i];
      }
      assert c !in candidates by {
        assert all[|candidates|] == c && forall i :: 0 <= i < |candidates| ==> all[i] == candidates[i];
      }
      forall i | 0 <= i < |log| ensures log[i].index != c {
        assert log[i] in log && log[i].index in Indexes(log);
      }
    }
  }

  lemma SkipNext(n: nat, candidates: seq<nat>, log: seq<Answer>, c: nat)
    requires AsksAll(n, candidates, log) && c >= n
    ensures AsksAll(n, candidates + [c], log)
  {
    var all := candidates + [c];
    assert Members(all, n) == Members(candidates, n);
    if NoDuplicates(all) {
      assert forall i :: 0 <= i < |candidates| ==> all[i] == candidates[i];
    }
  }

  /** The indexes of the list whose circuits answer that they are available, in order. */
  method AvailableOf(backends: seq<Backend>, candidates: seq<nat>, quiet: bool)
    returns (available: seq<nat>, ghost log: seq<Answer>)
    requires DistinctCircuits(backends)
    modifies Circuits(backends)
    ensures AsksAll(|backends|, candidates, log)
    ensures forall c: nat :: c in available <==> c in Yeses(log)
    ensures quiet ==> Flows(old(Views(backends)), log, Views(backends))
  {
    hide AsksAll, Yeses, Flows, AnswersOk, DistinctCircuits;
    ghost var start := Views(backends);
    available, log := [], [];
    NothingAsked(|backends|, start);
    for k := 0 to |candidates|
      invariant AsksAll(|backends|, candidates[..k], log)
      invariant forall c: nat :: c in available <==> c in Yeses(log)
      invariant quiet ==> Flows(start, log, Views(backends))
    {
      var c := candidates[k];
      assert candidates[..k + 1] == candidates[..k] + [c];
      if c >= |backends| {
        SkipNext(|backends|, candidates[..k], log, c);
      } else {
        var ok, a := AskCircuit(backends, c, quiet);
        AskNext(|backends|, candidates[..k], log, c, a);
        if quiet {
          FlowsOn(start, log, a);
        }
        log := log + [a];
        if ok {
          available := available + [c];
        }
      }
    }
    assert candidates[..|candidates|] == candidates;
  }

  lemma NothingAsked(n: nat, start: seq<Breaker>)
    ensures AsksAll(n, [], []) && Yeses([]) == {} && Indexes([]) == {} && Flows(start, [], start)
  {
  }

  /** The minimum of a list under the rank order. */
  method MinByRank(available: seq<nat>, ranks: seq<Option<ResourceRank>>) returns (best: Option<nat>)
    ensures best.None? <==> available == []
    ensures best.Some? ==> best.value in available
    ensures best.Some? ==> forall c: nat :: c in available && c != best.value ==> Before(ranks, best.value, c)
  {
    best := None;
    for k := 0 to |available|
      invariant best.None? <==> k == 0
      invariant best.Some? ==> best.value in available[..k]
      invariant best.Some? ==> forall c: nat :: c in available[..k] && c != best.value ==> Before(ranks, best.value, c)
    {
      var next := available[k];
      assert available[..k + 1] == available[..k] + [next];
      if best.None? {
        best := Some(next);
      } else if CompareRank(ranks, best.value, next).Greater? {
        forall c: nat | c in available[..k] && c != next ensures Before(ranks, next, c) {
          BeforeIsStrictTotalOrder(ranks, best.value, next, c);
          BeforeIsStrictTotalOrder(ranks, next, best.value, c);
        }
        best := Some(next);
      } else {
        BeforeIsStrictTotalOrder(ranks, best.value, next, best.value);
      }
    }
    assert available[..|available|] == available;
  }

  /** Ask every candidate, then take the least of those available. */
  method BestAvailable(backends: seq<Backend>, candidates: seq<nat>, ranks: seq<Option<ResourceRank>>, quiet: bool)
    returns (best: Option<nat>, ghost log: seq<Answer>)
    requires DistinctCircuits(backends)
    modifies Circuits(backends)
    ensures AsksAll(|backends|, candidates, log) && LeastOf(Yeses(log), ranks, best)
    ensures quiet ==> Flows(old(Views(backends)), log, Views(backends))
  {
    hide AsksAll, Yeses, Flows;
    var available;
    available, log := AvailableOf(backends, candidates, quiet);
    best := MinByRank(available, ranks);
    assert best.None? ==> forall c: nat :: c !in available;
  }

  // ---------- The tiered selector ----------

  /** r is the least of the backends that answered yes, or `None` when none did. */
  ghost predicate BestAmong(backends: seq<Backend>, q: Query, yes: set<nat>, r: Option<nat>) {
    if r.Some? then r.value in yes && forall j :: j in yes && j != r.value ==> Better(backends, q, r.value, j)
    else yes == {}
  }

  /**
   A selection, whatever others did between its questions: each eligible backend of the tiers down to the one it chose
   from was asked, once, and no other; it chose the best of those that answered yes, or nothing if none did.
   */
  ghost predicate Chosen(backends: seq<Backend>, q: Query, log: seq<Answer>, r: Option<nat>) {
    && AnswersOk(|backends|, log) && AskedOnce(log)
    && Indexes(log) == Asked(backends, q, r)
    && BestAmong(backends, q, Yeses(log), r)
  }

  /** In particular every eligible backend of an earlier tier was asked and refused. */
  lemma EarlierTiersRefused(backends: seq<Backend>, q: Query, log: seq<Answer>, r: Option<nat>, j: nat)
    requires Chosen(backends, q, log, r) && j < |backends| && q.Eligible(j)
    requires r.Some? ==> Tier(backends, q, j) < Tier(backends, q, r.value)
    ensures exists a :: a in log && a.index == j && !a.Yes()
  {
    assert j in Asked(backends, q, r) && j in Indexes(log);
    var a :| a in log && a.index == j;
    assert j !in Yeses(log);
  }

  /** The eligible backends above tier k. */
  function Above(backends: seq<Backend>, q: Query, k: nat): set<nat> {
    set j: nat | 0 <= j < |backends| && q.Eligible(j) && Tier(backends, q, j) < k
  }

  ghost predicate IsTier(backends: seq<Backend>, q: Query, k: nat, list: seq<nat>) {
    && NoDuplicates(list)
    && forall i: nat :: i in list <==> i < |backends| && q.Eligible(i) && Tier(backends, q, i) == k
  }

  /** The tiers above k were asked and refused. */
  ghost predicate Refused(backends: seq<Backend>, q: Query, k: nat, log: seq<Answer>) {
    AnswersOk(|backends|, log) && AskedOnce(log) && Indexes(log) == Above(backends, q, k) && Yeses(log) == {}
  }

  lemma JoinAnswers(n: nat, log: seq<Answer>, more: seq<Answer>)
    requires AnswersOk(n, log) && AnswersOk(n, more) && AskedOnce(log) && AskedOnce(more)
    requires Indexes(log) !! Indexes(more)
    ensures AnswersOk(n, log + more) && AskedOnce(log + more)
    ensures Indexes(log + more) == Indexes(log) + Indexes(more) && Yeses(log + more) == Yeses(log) + Yeses(more)
  {
    var all := log + more;
    forall i, j | 0 <= i < j < |all| ensures all[i].index != all[j].index {
      if i < |log| <= j {
        assert log[i] in log && more[j - |log|] in more;
        assert log[i].index in Indexes(log) && more[j - |log|].index in Indexes(more);
      }
    }
  }

  /** One tier: the least of those that said yes is chosen, and if none did the next tier is due. */
  lemma TierDecides(
    backends: seq<Backend>, q: Query, k: nat, next: nat, list: seq<nat>, log: seq<Answer>, more: seq<Answer>,
    r: Option<nat>)
    requires next == k + 1
    requires Refused(backends, q, k, log) && IsTier(backends, q, k, list)
    requires AsksAll(|backends|, list, more) && LeastOf(Yeses(more), q.ranks, r)
    ensures r.Some? ==> Chosen(backends, q, log + more, r)
    ensures r.None? ==> Refused(backends, q, next, log + more)
  {
    hide Tier, Before;
    assert Indexes(more) == set j: nat | 0 <= j < |backends| && q.Eligible(j) && Tier(backends, q, j) == k;
    JoinAnswers(|backends|, log, more);
    assert Indexes(log + more) == Above(backends, q, k + 1);
    YesesAreAsked(more);
    if r.Some? {
      assert r.value in Indexes(more);
      assert Asked(backends, q, r) == Above(backends, q, k + 1);
    }
  }

  lemma YesesAreAsked(log: seq<Answer>)
    ensures Yeses(log) <= Indexes(log)
  {
  }

  lemma TiersEnd(backends: seq<Backend>, q: Query, log: seq<Answer>)
    requires Refused(backends, q, 3, log)
    ensures Chosen(backends, q, log, None)
  {
    assert Above(backends, q, 3) == Asked(backends, q, None);
  }

  /**
   The three tiers in turn, other requests going ahead between any two questions. The result is the best of the
   backends that answered yes, every eligible one of an earlier tier having refused.
   */
  method SelectBackend(backends: seq<Backend>, q: Query, quiet: bool) returns (r: Option<nat>, ghost log: seq<Answer>)
    requires DistinctCircuits(backends)
    modifies Circuits(backends)
    ensures Chosen(backends, q, log, r)
    ensures quiet ==> Flows(old(Views(backends)), log, Views(backends))
  {
    hide Chosen, Refused, AsksAll, Asked, LeastOf, DistinctCircuits, IsTier, Tier, PreferredTier, Flows, AnswersOk;
    ghost var start := Views(backends);
    log := [];
    NothingAsked(|backends|, start);
    FirstTierIsDue(backends, q);
    var checked: seq<nat> := [];
    ghost var more: seq<Answer>;
    if q.origin.Some? {
      var candidates := Filter(Range(|backends|), OriginTest(backends, q));
      LocalTier(backends, q);
      checked := checked + candidates;
      assert checked == candidates;
      r, more := BestAvailable(backends, candidates, q.ranks, quiet);
      TierDecides(backends, q, 0, 1, candidates, log, more, r);
      log := log + more;
      assert log == more;
      if r.Some? {
        return;
      }
    } else {
      NoLocalTier(backends, q);
    }
    ghost var local := checked;
    SecondTier(backends, q, local);
    ghost var mid := Views(backends);
    if q.preferred.Some? && q.preferred.value !in checked && q.Eligible(q.preferred.value)
       && q.preferred.value < |backends| {
      var i := q.preferred.value;
      checked := checked + [i];
      var ok, a := AskCircuit(backends, i, quiet);
      r := if ok then Some(i) else None;
      OneAsked(|backends|, i, q.ranks, a, r);
      TierDecides(backends, q, 1, 2, [i], log, [a], r);
      if quiet {
        FlowsOn(start, log, a);
      }
      log := log + [a];
      if ok {
        return;
      }
    } else {
      NoneAsked(|backends|, q.ranks);
      TierDecides(backends, q, 1, 2, [], log, [], None);
      assert log + [] == log;
    }
    mid := Views(backends);
    var candidates := Filter(Range(|backends|), RestTest(checked, q));
    RestTier(backends, q, local, checked);
    r, more := BestAvailable(backends, candidates, q.ranks, quiet);
    TierDecides(backends, q, 2, 3, candidates, log, more, r);
    if quiet {
      FlowsJoin(start, log, mid, more, Views(backends));
    }
    log := log + more;
    if r.None? {
      TiersEnd(backends, q, log);
    }
  }

  function OriginTest(backends: seq<Backend>, q: Query): nat -> bool {
    (i: nat) => i < |backends| && q.Eligible(i) && backends[i].nodeId == q.origin
  }

  function RestTest(checked: seq<nat>, q: Query): nat -> bool {
    (i: nat) => i !in checked && q.Eligible(i)
  }

  lemma LocalTier(backends: seq<Backend>, q: Query)
    requires q.origin.Some?
    ensures IsTier(backends, q, 0, Filter(Range(|backends|), OriginTest(backends, q)))
  {
    var local := Filter(Range(|backends|), OriginTest(backends, q));
    RangeIsDistinct(|backends|);
    FilterNoDuplicates(Range(|backends|), OriginTest(backends, q));
    forall i: nat
      ensures i in local <==> i < |backends| && q.Eligible(i) && Tier(backends, q, i) == 0
    {
      InRange(|backends|, i);
    }
  }

  lemma RestTier(backends: seq<Backend>, q: Query, first: seq<nat>, checked: seq<nat>)
    requires IsTier(backends, q, 0, first)
    requires checked == first + PreferredTier(backends, q)
    ensures IsTier(backends, q, 2, Filter(Range(|backends|), RestTest(checked, q)))
  {
    var rest := Filter(Range(|backends|), RestTest(checked, q));
    RangeIsDistinct(|backends|);
    FilterNoDuplicates(Range(|backends|), RestTest(checked, q));
    forall i: nat
      ensures i in rest <==> i < |backends| && q.Eligible(i) && Tier(backends, q, i) == 2
    {
      InRange(|backends|, i);
      assert i in checked <==> i in first || i in PreferredTier(backends, q);
    }
  }

  /** The preferred backend when it forms a tier of its own. */
  function PreferredTier(backends: seq<Backend>, q: Query): (tier: seq<nat>)
    ensures IsTier(backends, q, 1, tier)
  {
    if q.preferred.Some? && q.preferred.value < |backends| && q.Eligible(q.preferred.value) &&
       Tier(backends, q, q.preferred.value) == 1
    then [q.preferred.value] else []
  }

  lemma RangeIsDistinct(n: nat)
    ensures NoDuplicates(Range(n))
  {
  }

  lemma FirstTierIsDue(backends: seq<Backend>, q: Query)
    ensures Refused(backends, q, 0, [])
  {
  }

  lemma NoLocalTier(backends: seq<Backend>, q: Query)
    requires q.origin.None?
    ensures IsTier(backends, q, 0, []) && Refused(backends, q, 1, [])
  {
  }

  /** The preferred backend forms the second tier unless it was asked as a local one, is excluded or does not exist. */
  lemma SecondTier(backends: seq<Backend>, q: Query, local: seq<nat>)
    requires IsTier(backends, q, 0, local)
    ensures PreferredTier(backends, q) ==
            if q.preferred.Some? && q.preferred.value !in local && q.Eligible(q.preferred.value)
                && q.preferred.value < |backends|
            then [q.preferred.value] else []
  {
  }

  lemma OneAsked(n: nat, i: nat, ranks: seq<Option<ResourceRank>>, a: Answer, r: Option<nat>)
    requires i < n && a.index == i && AnswersOk(n, [a]) && r == if a.Yes() then Some(i) else None
    ensures AsksAll(n, [i], [a]) && LeastOf(Yeses([a]), ranks, r)
  {
    NothingAsked(n, []);
    AskNext(n, [], [], i, a);
    assert [] + [i] == [i] && [] + [a] == [a];
  }

  lemma NoneAsked(n: nat, ranks: seq<Option<ResourceRank>>)
    ensures AsksAll(n, [], []) && LeastOf(Yeses([]), ranks, None)
  {
  }

  // ---------- One instant, nobody else about ----------

  lemma FailedSelectionChangesNothing(backends: seq<Backend>, views: seq<Breaker>, q: Query, now: nat)
    requires |views| == |backends| && Best(backends, views, q, now, None)
    ensures ProbedAt(views, Asked(backends, q, None), now) == views
  {
    forall j: nat | j < |views| ensures ProbedAt(views, Asked(backends, q, None), now)[j] == views[j] {
      assert !Candidate(views, q, now, j);
    }
  }

  lemma LastAnswer(n: nat, log: seq<Answer>)
    requires log != [] && AnswersOk(n, log) && AskedOnce(log)
    ensures var front := log[..|log| - 1]; var last := log[|log| - 1];
      && AnswersOk(n, front) && AskedOnce(front) && AnswersOk(n, [last])
      && last.index !in Indexes(front) && Indexes(log) == Indexes(front) + {last.index}
      && (forall a :: a in log <==> a in front || a == last)
  {
    var front, last := log[..|log| - 1], log[|log| - 1];
    assert log == front + [last] && last in log;
    assert forall i :: 0 <= i < |front| ==> front[i] == log[i];
  }

  lemma AnswerAtOnce(views: seq<Breaker>, asked: set<nat>, a: Answer, now: nat)
    requires AnswersOk(|views|, [a]) && a.before == ProbedAt(views, asked, now) && a.index !in asked && a.at == now
    ensures a.after == ProbedAt(views, asked + {a.index}, now)
    ensures a.Yes() <==> views[a.index].Available(now)
  {
    assert a in [a];
  }

  /** Asked one after the other at one instant, each circuit answers as it stood, and all go where asking sends them. */
  lemma {:induction false} AnswersAtOnce(views: seq<Breaker>, log: seq<Answer>, end: seq<Breaker>, now: nat)
    requires AnswersOk(|views|, log) && AskedOnce(log) && Flows(views, log, end)
    requires forall a :: a in log ==> a.at == now
    ensures end == ProbedAt(views, Indexes(log), now)
    ensures forall a :: a in log ==> (a.Yes() <==> views[a.index].Available(now))
  {
    hide ProbedAt, AnswersOk;
    if log == [] {
      assert Indexes(log) == {};
    } else {
      var front, last := log[..|log| - 1], log[|log| - 1];
      LastAnswer(|views|, log);
      AnswersAtOnce(views, front, last.before, now);
      AnswerAtOnce(views, Indexes(front), last, now);
    }
  }

  /**
   The tiered selector at a fixed instant: it returns the least available eligible index under tier, rank and index,
   or none if there is none, and its only effect is that the circuits asked may go from open to half-open.
   */
  lemma InstantIsBest(
    backends: seq<Backend>, views: seq<Breaker>, q: Query, log: seq<Answer>, r: Option<nat>, end: seq<Breaker>,
    now: nat)
    requires |views| == |backends| && Chosen(backends, q, log, r) && Flows(views, log, end)
    requires forall a :: a in log ==> a.at == now
    ensures Best(backends, views, q, now, r)
    ensures end == ProbedAt(views, Asked(backends, q, r), now)
  {
    hide Tier, Before, ProbedAt;
    AnswersAtOnce(views, log, end, now);
    YesesAreAsked(log);
    forall j: nat ensures j in Yeses(log) <==> j in Asked(backends, q, r) && Candidate(views, q, now, j) {
      if j in Asked(backends, q, r) {
        var a :| a in log && a.index == j;
      }
    }
  }
}
