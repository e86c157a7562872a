/** The circuit breaker (src/router/circuit.rs), and the function of its history that it computes. */
module Circuit {
  import opened Collections

  datatype CircuitState = Closed | Open(since: nat) | HalfOpen

  /** A breaker as a value. */
  datatype Breaker = Breaker(state: CircuitState, failures: nat, threshold: nat, cooldown: nat) {
    predicate Available(now: nat) {
      match state
      case Open(since) => SaturatingSub(now, since) >= cooldown
      case _ => true
    }

    /** After an availability check. */
    function Probed(now: nat): Breaker {
      if state.Open? && Available(now) then this.(state := HalfOpen) else this
    }

    function Succeeded(): Breaker { this.(failures := 0, state := Closed) }

    function FailedAt(now: nat): Breaker {
      var b := this.(failures := failures + 1);
      if b.failures >= threshold then b.(state := Open(now)) else b
    }
  }

  class CircuitBreaker {
    var state: CircuitState
    var consecutiveFailures: nat
    const failureThreshold: nat
    const cooldown: nat

    function View(): Breaker
      reads this
    {
      Breaker(state, consecutiveFailures, failureThreshold, cooldown)
    }

    constructor (failureThreshold: nat, cooldown: nat)
      ensures View() == Breaker(Closed, 0, failureThreshold, cooldown)
    {
      state, consecutiveFailures := Closed, 0;
      this.failureThreshold, this.cooldown := failureThreshold, cooldown;
    }

    method IsAvailable(now: nat) returns (ok: bool)
      modifies this
      ensures ok == old(View()).Available(now) && View() == old(View()).Probed(now)
    {
      if !state.Open? {
        return true;
      }
      if SaturatingSub(now, state.since) < cooldown {
        return false;
      }
      state := HalfOpen;
      return true;
    }

    method RecordSuccess()
      modifies this
      ensures View() == old(View()).Succeeded()
    {
      consecutiveFailures := 0;
      state := Closed;
    }

    method RecordFailure(now: nat)
      modifies this
      ensures View() == old(View()).FailedAt(now)
    {
      consecutiveFailures := consecutiveFailures + 1;
      if consecutiveFailures >= failureThreshold {
        state := Open(now);
      }
    }
  }

  // ---------- History ----------

  datatype Call = Success(at: nat) | Failure(at: nat) | Check(at: nat)

  function Replay(h: seq<Call>, threshold: nat, cooldown: nat): Breaker {
    if h == [] then Breaker(Closed, 0, threshold, cooldown)
    else
      var b := Replay(h[..|h| - 1], threshold, cooldown);
      match h[|h| - 1]
      case Success(_) => b.Succeeded()
      case Failure(at) => b.FailedAt(at)
      case Check(at) => b.Probed(at)
  }

  ghost predicate Monotone(h: seq<Call>, now: nat) {
    && (forall i, j :: 0 <= i < j < |h| ==> h[i].at <= h[j].at)
    && (forall i :: 0 <= i < |h| ==> h[i].at <= now)
  }

  /** Failures since the last success, checks not counting. */
  function TrailingFailures(h: seq<Call>): nat {
    if h == [] then 0
    else
      match h[|h| - 1]
      case Success(_) => 0
      case Failure(_) => TrailingFailures(h[..|h| - 1]) + 1
      case Check(_) => TrailingFailures(h[..|h| - 1])
  }

  /** When the last failure happened; 0 if there was none. */
  function LastFailure(h: seq<Call>): nat {
    if h == [] then 0
    else if h[|h| - 1].Failure? then h[|h| - 1].at
    else LastFailure(h[..|h| - 1])
  }

  /** What each state says about the history. */
  ghost predicate Explains(b: Breaker, h: seq<Call>, now: nat) {
    && b.failures == TrailingFailures(h)
    && (b.state.Closed? <==> b.failures < AtLeastOne(b.threshold))
    && (b.state.Open? ==> b.state.since == LastFailure(h))
    && (b.state.HalfOpen? ==> LastFailure(h) + b.cooldown <= now)
  }

  lemma {:induction false} ReplayExplained(h: seq<Call>, threshold: nat, cooldown: nat, now: nat)
    requires Monotone(h, now)
    ensures Explains(Replay(h, threshold, cooldown), h, now) && LastFailure(h) <= now
    ensures var b := Replay(h, threshold, cooldown); b.threshold == threshold && b.cooldown == cooldown
  {
    if h != [] {
      ReplayExplained(h[..|h| - 1], threshold, cooldown, h[|h| - 1].at);
    }
  }

  /**
   With a monotone clock, for every sequence of calls: a backend is available exactly when fewer failures
   than max(1, threshold) trail its last success, or the cooldown has passed since its last failure.
   */
  lemma AvailabilityIsHistory(h: seq<Call>, threshold: nat, cooldown: nat, now: nat)
    requires Monotone(h, now)
    ensures Replay(h, threshold, cooldown).Available(now) <==>
            TrailingFailures(h) < AtLeastOne(threshold) || LastFailure(h) + cooldown <= now
  {
    ReplayExplained(h, threshold, cooldown, now);
  }
}
