/**
 * The circuit breaker every provider client builds for itself: trip once
 * consecutive failures exceed 5, stay Open for 30 s, then admit at most 2
 * trial requests in HalfOpen; the Closed-state failure count is reset every
 * 60 s. Time is a natural-number clock in seconds that only moves forward.
 *
 * How many HalfOpen successes close the breaker again is decided inside the
 * breaker library; here it is the parameter `successesToClose`.
 */
module Breaker {

  const MaxRequests: nat := 2  // trial requests admitted while HalfOpen
  const Interval: nat := 60    // Closed-state failure count window, in seconds
  const Timeout: nat := 30     // how long Open lasts, in seconds
  const TripAbove: nat := 5    // trip when consecutive failures exceed this

  datatype CircuitState = Closed | Open | HalfOpen

  /** The outcome of asking the breaker to run a request. */
  datatype Gate = Pass | RejectOpen | RejectTooMany

  /** The breaker's whole state, as a value. */
  datatype Snapshot = Snapshot(
    state: CircuitState,
    consecutiveFailures: nat,
    openedAt: nat,           // when the breaker last entered Open
    halfOpenRequests: nat,   // requests admitted since entering HalfOpen
    halfOpenSuccesses: nat,  // successes since entering HalfOpen
    windowStart: nat,        // when the current Closed-state count window began
    clock: nat)

  /** The trip predicate the clients configure. */
  function ReadyToTrip(consecutiveFailures: nat): bool
  {
    consecutiveFailures > TripAbove
  }

  /** A Closed breaker with a new count window starting now. */
  function ClosedAt(now: nat): Snapshot
  {
    Snapshot(Closed, 0, 0, 0, 0, now, now)
  }

  /** The breaker just tripped (or re-tripped) at `now`. */
  function OpenedAt(now: nat): Snapshot
  {
    Snapshot(Open, 0, now, 0, 0, now, now)
  }

  /** What always holds of a breaker's state. */
  ghost predicate Inv(b: Snapshot)
  {
    && b.windowStart <= b.clock
    && b.openedAt <= b.clock
    && (b.state == Closed ==> b.consecutiveFailures <= TripAbove)
    && (b.state == Open ==> b.consecutiveFailures == 0)
    && (b.state == HalfOpen ==> b.consecutiveFailures == 0 && b.halfOpenSuccesses <= b.halfOpenRequests <= MaxRequests)
  }

  function Tick(b: Snapshot, elapsed: nat): Snapshot
  {
    b.(clock := b.clock + elapsed)
  }

  /** The time-driven transitions, applied before a request is considered. */
  function Refresh(b: Snapshot): Snapshot
  {
    match b.state
    case Closed =>
      if b.clock >= b.windowStart + Interval then b.(consecutiveFailures := 0, windowStart := b.clock) else b
    case Open =>
      if b.clock >= b.openedAt + Timeout then b.(state := HalfOpen, halfOpenRequests := 0, halfOpenSuccesses := 0) else b
    case HalfOpen => b
  }

  function GateOf(b: Snapshot): Gate
  {
    match b.state
    case Closed => Pass
    case Open => RejectOpen
    case HalfOpen => if b.halfOpenRequests < MaxRequests then Pass else RejectTooMany
  }

  /** Counts an admitted request (only HalfOpen keeps that count). */
  function Admit(b: Snapshot): Snapshot
  {
    if b.state == HalfOpen then b.(halfOpenRequests := b.halfOpenRequests + 1) else b
  }

  /** Records the outcome of an admitted request. */
  function Record(successesToClose: nat, b: Snapshot, failed: bool): Snapshot
  {
    if failed then
      if b.state == Closed then
        var n := b.consecutiveFailures + 1;
        if ReadyToTrip(n) then OpenedAt(b.clock) else b.(consecutiveFailures := n)
      else
        OpenedAt(b.clock)
    else
      if b.state == HalfOpen then
        var s := b.halfOpenSuccesses + 1;
        if s >= successesToClose then ClosedAt(b.clock) else b.(halfOpenSuccesses := s)
      else
        b.(consecutiveFailures := 0)
  }

  /**
   * One request offered to the breaker at its current clock; `failed` is
   * whether the wrapped request would fail. A rejected request never runs,
   * so `failed` is then ignored.
   */
  function Step(successesToClose: nat, b: Snapshot, failed: bool): (r: (Snapshot, Gate))
    ensures Inv(b) ==> Inv(r.0)
    ensures r.0.clock == b.clock
    ensures r.1 != Pass ==> r.0 == Refresh(b)
  {
    var b' := Refresh(b);
    var gate := GateOf(b');
    if gate == Pass then (Record(successesToClose, Admit(b'), failed), Pass) else (b', gate)
  }

  /** Consecutive failures, each after the given elapsed time. */
  function Failures(successesToClose: nat, b: Snapshot, waits: seq<nat>): Snapshot
    decreases |waits|
  {
    if waits == [] then b
    else Failures(successesToClose, Step(successesToClose, Tick(b, waits[0]), true).0, waits[1..])
  }

  function Sum(xs: seq<nat>): nat
    decreases |xs|
  {
    if xs == [] then 0 else xs[0] + Sum(xs[1..])
  }

  /**
   * Within one count window, failures that keep the count at or below the
   * threshold only add to it: the breaker stays Closed.
   */
  lemma {:induction false} FailuresAccumulate(k: nat, b: Snapshot, waits: seq<nat>)
    requires b.state == Closed
    requires b.consecutiveFailures + |waits| <= TripAbove
    requires b.clock + Sum(waits) < b.windowStart + Interval
    ensures Failures(k, b, waits) == b.(consecutiveFailures := b.consecutiveFailures + |waits|, clock := b.clock + Sum(waits))
    decreases |waits|
  {
    if waits != [] {
      var b1 := Step(k, Tick(b, waits[0]), true).0;
      assert b1 == b.(consecutiveFailures := b.consecutiveFailures + 1, clock := b.clock + waits[0]);
      FailuresAccumulate(k, b1, waits[1..]);
    }
  }

  /**
   * From a fresh breaker, five consecutive failures inside the first count
   * window leave it Closed; the sixth trips it Open at that instant.
   */
  lemma SixthFailureTrips(k: nat, now: nat, waits: seq<nat>)
    requires |waits| == TripAbove + 1
    requires Sum(waits) < Interval
    ensures Failures(k, ClosedAt(now), waits[..TripAbove]).state == Closed
    ensures Failures(k, ClosedAt(now), waits[..TripAbove]).consecutiveFailures == TripAbove
    ensures Failures(k, ClosedAt(now), waits) == OpenedAt(now + Sum(waits))
  {
    var five := waits[..TripAbove];
    SumSplit(five, waits[TripAbove..]);
    assert five + waits[TripAbove..] == waits;
    FailuresAccumulate(k, ClosedAt(now), five);
    FailuresSplit(k, ClosedAt(now), five, waits[TripAbove..]);
  }

  lemma {:induction false} SumSplit(xs: seq<nat>, ys: seq<nat>)
    ensures Sum(xs + ys) == Sum(xs) + Sum(ys)
    decreases |xs|
  {
    if xs == [] {
      assert xs + ys == ys;
    } else {
      assert (xs + ys)[1..] == xs[1..] + ys;
      SumSplit(xs[1..], ys);
    }
  }

  lemma {:induction false} FailuresSplit(k: nat, b: Snapshot, xs: seq<nat>, ys: seq<nat>)
    ensures Failures(k, b, xs + ys) == Failures(k, Failures(k, b, xs), ys)
    decreases |xs|
  {
    if xs == [] {
      assert xs + ys == ys;
    } else {
      assert (xs + ys)[1..] == xs[1..] + ys;
      FailuresSplit(k, Step(k, Tick(b, xs[0]), true).0, xs[1..], ys);
    }
  }

  /**
   * While Open and before the 30 s cooldown has elapsed, every request is
   * rejected and nothing but the clock moves; the request's outcome plays no
   * part.
   */
  lemma OpenRejects(k: nat, b: Snapshot, failed: bool)
    requires b.state == Open && b.clock < b.openedAt + Timeout
    ensures Step(k, b, failed) == (b, RejectOpen)
  {
  }

  /**
   * Once the cooldown has elapsed the breaker is HalfOpen and admits the
   * request: a failure re-opens it at once, a success is counted.
   */
  lemma CooldownAdmits(k: nat, b: Snapshot, failed: bool)
    requires b.state == Open && b.clock >= b.openedAt + Timeout
    ensures Step(k, b, failed).1 == Pass
    ensures failed ==> Step(k, b, failed).0 == OpenedAt(b.clock)
    ensures !failed && k > 1 ==> Step(k, b, failed).0.state == HalfOpen && Step(k, b, failed).0.halfOpenRequests == 1
    ensures !failed && k <= 1 ==> Step(k, b, failed).0 == ClosedAt(b.clock)
  {
  }

  /**
   * HalfOpen admits a request only while fewer than 2 have been admitted;
   * a failure among them sends the breaker back to Open, and enough
   * successes close it.
   */
  lemma HalfOpenTrials(k: nat, b: Snapshot, failed: bool)
    requires b.state == HalfOpen
    ensures Step(k, b, failed).1 == Pass <==> b.halfOpenRequests < MaxRequests
    ensures b.halfOpenRequests >= MaxRequests ==> Step(k, b, failed) == (b, RejectTooMany)
    ensures b.halfOpenRequests < MaxRequests && failed ==> Step(k, b, failed).0 == OpenedAt(b.clock)
    ensures b.halfOpenRequests < MaxRequests && !failed && b.halfOpenSuccesses + 1 >= k ==>
      Step(k, b, failed).0 == ClosedAt(b.clock)
    ensures b.halfOpenRequests < MaxRequests && !failed && b.halfOpenSuccesses + 1 < k ==>
      Step(k, b, failed) == (b.(halfOpenRequests := b.halfOpenRequests + 1, halfOpenSuccesses := b.halfOpenSuccesses + 1), Pass)
  {
  }

  /**
   * After the cooldown, successful trials close the breaker again: the first
   * one when a single success suffices, otherwise the second one, whenever
   * it comes.
   */
  lemma TrialSuccessesClose(k: nat, b: Snapshot, w: nat)
    requires 1 <= k <= MaxRequests
    requires b.state == Open && b.clock >= b.openedAt + Timeout
    ensures k == 1 ==> Step(k, b, false) == (ClosedAt(b.clock), Pass)
    ensures k == 2 ==> Step(k, Tick(Step(k, b, false).0, w), false) == (ClosedAt(b.clock + w), Pass)
  {
  }

  /**
   * Once 60 s have passed since the Closed count window began, the count is
   * reset before the request is considered: a new window starts now and
   * only this request's outcome is counted.
   */
  lemma WindowRollover(k: nat, b: Snapshot, failed: bool)
    requires b.state == Closed && b.clock >= b.windowStart + Interval
    ensures Step(k, b, failed).1 == Pass
    ensures Step(k, b, failed).0 == b.(consecutiveFailures := if failed then 1 else 0, windowStart := b.clock)
  {
  }

  /** Outside a window rollover, a success while Closed clears the failure count. */
  lemma SuccessResetsCount(k: nat, b: Snapshot)
    requires b.state == Closed
    ensures Step(k, b, false).1 == Pass
    ensures Step(k, b, false).0.state == Closed && Step(k, b, false).0.consecutiveFailures == 0
    ensures b.clock < b.windowStart + Interval ==> Step(k, b, false) == (b.(consecutiveFailures := 0), Pass)
  {
  }

  /**
   * The breaker a client owns. Its methods keep `View()` equal to the
   * specification above.
   */
  class CircuitBreaker {
    const successesToClose: nat
    var state: CircuitState
    var consecutiveFailures: nat
    var openedAt: nat
    var halfOpenRequests: nat
    var halfOpenSuccesses: nat
    var windowStart: nat
    var clock: nat

    function View(): Snapshot
      reads this
    {
      Snapshot(state, consecutiveFailures, openedAt, halfOpenRequests, halfOpenSuccesses, windowStart, clock)
    }

    /** A new breaker is Closed with its first count window starting now. */
    constructor (successesToClose: nat, now: nat)
      ensures this.successesToClose == successesToClose
      ensures View() == ClosedAt(now) && Inv(View())
    {
      this.successesToClose := successesToClose;
      state := Closed;
      consecutiveFailures := 0;
      openedAt := 0;
      halfOpenRequests := 0;
      halfOpenSuccesses := 0;
      windowStart := now;
      clock := now;
    }

    /** Time passes. */
    method Advance(elapsed: nat)
      modifies this
      ensures View() == Tick(old(View()), elapsed)
    {
      clock := clock + elapsed;
    }

    method ToOpen()
      modifies this
      ensures View() == OpenedAt(old(clock))
    {
      state := Open;
      consecutiveFailures := 0;
      openedAt := clock;
      halfOpenRequests := 0;
      halfOpenSuccesses := 0;
      windowStart := clock;
    }

    /**
     * Offers a request; when admitted, records whether it failed. Only the
     * outcome of the wrapped request is seen, so callers decide what counts
     * as a failure.
     */
    method Execute(failed: bool) returns (gate: Gate)
      modifies this
      ensures (View(), gate) == Step(successesToClose, old(View()), failed)
    {
      if state == Closed && clock >= windowStart + Interval {
        consecutiveFailures := 0;
        windowStart := clock;
      } else if state == Open && clock >= openedAt + Timeout {
        state := HalfOpen;
        halfOpenRequests := 0;
        halfOpenSuccesses := 0;
      }
      if state == Open {
        return RejectOpen;
      }
      if state == HalfOpen {
        if halfOpenRequests >= MaxRequests {
          return RejectTooMany;
        }
        halfOpenRequests := halfOpenRequests + 1;
      }
      gate := Pass;
      if failed {
        if state == Closed {
          consecutiveFailures := consecutiveFailures + 1;
          if ReadyToTrip(consecutiveFailures) {
            ToOpen();
          }
        } else {
          ToOpen();
        }
      } else if state == HalfOpen {
        halfOpenSuccesses := halfOpenSuccesses + 1;
        if halfOpenSuccesses >= successesToClose {
          state := Closed;
          consecutiveFailures := 0;
          openedAt := 0;
          halfOpenRequests := 0;
          halfOpenSuccesses := 0;
          windowStart := clock;
        }
      } else {
        consecutiveFailures := 0;
      }
    }
  }
}
