/**
  The circuit breaker (crates/messaging/src/circuit_breaker.rs) used by one task at a time, with
  the clock passed in. `BreakerTasks.dfy` runs the same operations concurrently.
 */
module Breaker {
  import opened Types

  datatype CircuitState = Closed | Open | HalfOpen

  datatype Policy = Policy(failureThreshold: U32, resetTimeout: nat)

  datatype View = View(
    state: CircuitState,
    failureCount: U32,
    successCount: U32,
    lastFailure: Option<nat>,
    totalTrips: U64)

  datatype Op = Allow(now: nat) | Success | Failure(now: nat) | Reset

  const INITIAL := View(Closed, 0, 0, None, 0)

  /** Relaxed atomics wrap at their width. */
  function Bump32(x: U32): U32 {
    (x + 1) % U32_RANGE
  }

  function Bump64(x: U64): U64 {
    (x + 1) % U64_RANGE
  }

  /** `Instant::elapsed` answers zero for an instant in the future. */
  function Elapsed(since: nat, now: nat): nat {
    if now < since then 0 else now - since
  }

  predicate TimedOut(policy: Policy, lastFailure: Option<nat>, now: nat) {
    lastFailure.Some? && Elapsed(lastFailure.value, now) >= policy.resetTimeout
  }

  predicate Allowed(policy: Policy, b: View, now: nat) {
    b.state != Open || TimedOut(policy, b.lastFailure, now)
  }

  function After(policy: Policy, b: View, op: Op): View {
    match op
    case Allow(now) => if b.state == Open && TimedOut(policy, b.lastFailure, now) then b.(state := HalfOpen) else b
    case Success =>
      var counted := b.(successCount := Bump32(b.successCount));
      if b.state == HalfOpen then counted.(state := Closed, failureCount := 0) else counted
    case Failure(now) =>
      var counted := b.(failureCount := Bump32(b.failureCount), lastFailure := Some(now));
      if b.state == HalfOpen || (b.state == Closed && counted.failureCount >= policy.failureThreshold) then
        counted.(state := Open, totalTrips := Bump64(b.totalTrips))
      else counted
    case Reset => b.(state := Closed, failureCount := 0)
  }

  class CircuitBreaker {
    const policy: Policy
    var state: CircuitState
    var failureCount: U32
    var successCount: U32
    var lastFailureTime: Option<nat>
    var totalTrips: U64

    function Now(): View
      reads this
    {
      View(state, failureCount, successCount, lastFailureTime, totalTrips)
    }

    constructor (failureThreshold: U32, resetTimeout: nat)
      ensures policy == Policy(failureThreshold, resetTimeout) && Now() == INITIAL
    {
      policy := Policy(failureThreshold, resetTimeout);
      state, failureCount, successCount, lastFailureTime, totalTrips := Closed, 0, 0, None, 0;
    }

    method AllowRequest(now: nat) returns (allowed: bool)
      modifies this`state
      ensures allowed == Allowed(policy, old(Now()), now) && Now() == After(policy, old(Now()), Allow(now))
      ensures old(state) != Open ==> allowed && state == old(state)
      ensures old(state) == Open && lastFailureTime.None? ==> !allowed && state == Open
      ensures old(state) == Open && lastFailureTime.Some? ==>
                && (allowed <==> policy.resetTimeout == 0 || now >= lastFailureTime.value + policy.resetTimeout)
                && state == (if allowed then HalfOpen else Open)
    {
      match state
      case Closed => return true;
      case HalfOpen => return true;
      case Open =>
        match lastFailureTime
        case None => return false;
        case Some(t) =>
          if Elapsed(t, now) >= policy.resetTimeout {
            state := HalfOpen;
            return true;
          }
          return false;
    }

    method RecordSuccess()
      modifies this
      ensures Now() == After(policy, old(Now()), Op.Success)
    {
      successCount := Bump32(successCount);
      if state == HalfOpen {
        state := Closed;
        failureCount := 0;
      }
    }

    method RecordFailure(now: nat)
      modifies this
      ensures Now() == After(policy, old(Now()), Failure(now))
    {
      failureCount := Bump32(failureCount);
      var count := failureCount;
      lastFailureTime := Some(now);
      match state
      case HalfOpen =>
        state := Open;
        totalTrips := Bump64(totalTrips);
      case Closed =>
        if count >= policy.failureThreshold {
          state := Open;
          totalTrips := Bump64(totalTrips);
        }
      case Open =>
    }

    method Reset()
      modifies this
      ensures Now() == After(policy, old(Now()), Op.Reset)
    {
      state := Closed;
      failureCount := 0;
    }
  }

  // ---------------------------------------------------------------------------------------------
  // What the calls do
  // ---------------------------------------------------------------------------------------------

  /** The wait is not over: `now` is before the failure or less than the timeout after it. A timeout of zero is over at once. */
  predicate WithinTimeout(policy: Policy, failure: nat, now: nat) {
    policy.resetTimeout > 0 && now < failure + policy.resetTimeout
  }

  /** An Open breaker admits from `resetTimeout` after the latest failure on, and none without a failure. */
  lemma OpenAnswersExactly(policy: Policy, b: View, now: nat)
    requires b.state == Open
    ensures b.lastFailure.None? ==> !Allowed(policy, b, now)
    ensures b.lastFailure.Some? ==>
              (Allowed(policy, b, now) <==> policy.resetTimeout == 0 || now >= b.lastFailure.value + policy.resetTimeout)
  {}

  /** Every call, as the list of what it changes and of what it leaves as it was. */
  lemma CallsChangeExactly(policy: Policy, b: View, op: Op)
    ensures var b' := After(policy, b, op);
            match op
            case Allow(now) =>
              && b' == b.(state := b'.state)
              && (b'.state != b.state <==> b.state == Open && Allowed(policy, b, now))
              && (b'.state != b.state ==> b'.state == HalfOpen)
            case Success =>
              && b'.successCount == (if b.successCount == U32_RANGE - 1 then 0 else b.successCount + 1)
              && b'.lastFailure == b.lastFailure && b'.totalTrips == b.totalTrips
              && (b.state == HalfOpen ==> b'.state == Closed && b'.failureCount == 0)
              && (b.state != HalfOpen ==> b'.state == b.state && b'.failureCount == b.failureCount)
            case Failure(now) =>
              && b'.failureCount == (if b.failureCount == U32_RANGE - 1 then 0 else b.failureCount + 1)
              && b'.lastFailure == Some(now) && b'.successCount == b.successCount
              && (b'.state != b.state ==> b'.state == Open)
              && (b'.state != b.state <==>
                    b.state == HalfOpen || (b.state == Closed && b'.failureCount >= policy.failureThreshold))
              && (b'.state == b.state ==> b'.totalTrips == b.totalTrips)
              && (b'.state != b.state ==> b'.totalTrips == (if b.totalTrips == U64_RANGE - 1 then 0 else b.totalTrips + 1))
            case Reset => b' == b.(state := Closed, failureCount := 0)
  {}

  // ---------------------------------------------------------------------------------------------
  // Amortised accounting over a history of calls
  // ---------------------------------------------------------------------------------------------

  /** What an observer counts who sees only the calls and the state before and after each. */
  datatype Book = Book(
    now: View,
    failures: nat,
    sinceClosing: nat,
    tripsFromClosed: nat,
    tripsFromHalfOpen: nat,
    latestFailure: Option<nat>)

  function Enter(policy: Policy, before: Book, op: Op): Book {
    var b, b' := before.now, After(policy, before.now, op);
    var closing := op.Reset? || (b.state != Closed && b'.state == Closed);
    Book(b',
         before.failures + Indicator(op.Failure?),
         if closing then 0 else before.sinceClosing + Indicator(op.Failure?),
         before.tripsFromClosed + Indicator(b.state == Closed && b'.state == Open),
         before.tripsFromHalfOpen + Indicator(b.state == HalfOpen && b'.state == Open),
         if op.Failure? then Some(op.now) else before.latestFailure)
  }

  function Observe(policy: Policy, ops: seq<Op>): Book {
    if ops == [] then Book(INITIAL, 0, 0, 0, 0, None)
    else Enter(policy, Observe(policy, ops[..|ops| - 1]), ops[|ops| - 1])
  }

  /** While Closed the counter is the failures since the last closing, and below the threshold. */
  ghost predicate ClosedMeansFew(policy: Policy, book: Book) {
    book.now.state == Closed ==>
      book.now.failureCount == book.sinceClosing && book.sinceClosing < policy.failureThreshold
  }

  lemma {:induction false} ClosedCountsFailures(policy: Policy, ops: seq<Op>)
    requires policy.failureThreshold >= 1
    ensures ClosedMeansFew(policy, Observe(policy, ops))
  {
    if ops != [] {
      ClosedCountsFailures(policy, ops[..|ops| - 1]);
    }
  }

  /** From Closed, a failure trips the breaker exactly when it is the threshold-th since the last closing. */
  lemma TripsExactlyAtThreshold(policy: Policy, ops: seq<Op>, now: nat)
    requires policy.failureThreshold >= 1 && Observe(policy, ops).now.state == Closed
    ensures Observe(policy, ops + [Failure(now)]).now.state == Open <==>
            Observe(policy, ops).sinceClosing + 1 == policy.failureThreshold
  {
    ClosedCountsFailures(policy, ops);
    assert (ops + [Failure(now)])[..|ops|] == ops;
  }

  /** The i-th call takes the breaker from one state to another. */
  ghost predicate PassesAt(policy: Policy, ops: seq<Op>, i: nat, from: CircuitState, to: CircuitState) {
    && i < |ops|
    && var before := Observe(policy, ops[..i]).now;
       before.state == from && After(policy, before, ops[i]).state == to
  }

  ghost function Passages(policy: Policy, ops: seq<Op>, from: CircuitState, to: CircuitState): set<nat> {
    set i: nat | i < |ops| && PassesAt(policy, ops, i, from, to)
  }

  ghost function Failures(ops: seq<Op>): set<nat> {
    set i: nat | i < |ops| && ops[i].Failure?
  }

  lemma OneMoreCounted(before: set<nat>, all: set<nat>, last: nat)
    requires forall i :: i in before ==> i < last
    requires forall i :: i in all ==> i <= last
    requires forall i: nat :: i < last ==> (i in before <==> i in all)
    ensures |all| == |before| + Indicator(last in all)
  {
    if last in all {
      assert all == before + {last};
    } else {
      assert all == before;
    }
  }

  lemma PassesAtFront(policy: Policy, ops: seq<Op>, i: nat, from: CircuitState, to: CircuitState)
    requires i < |ops| - 1
    ensures PassesAt(policy, ops[..|ops| - 1], i, from, to) <==> PassesAt(policy, ops, i, from, to)
  {
    assert ops[..|ops| - 1][..i] == ops[..i];
  }

  lemma PassagesNext(policy: Policy, ops: seq<Op>, from: CircuitState, to: CircuitState)
    requires ops != []
    ensures var front, last := ops[..|ops| - 1], |ops| - 1;
            |Passages(policy, ops, from, to)| ==
            |Passages(policy, front, from, to)| + Indicator(PassesAt(policy, ops, last, from, to))
  {
    var front, last := ops[..|ops| - 1], |ops| - 1;
    var before, all := Passages(policy, front, from, to), Passages(policy, ops, from, to);
    forall i: nat | i < last ensures i in before <==> i in all {
      PassesAtFront(policy, ops, i, from, to);
    }
    assert last in all <==> PassesAt(policy, ops, last, from, to);
    OneMoreCounted(before, all, last);
  }

  lemma FailuresNext(ops: seq<Op>)
    requires ops != []
    ensures |Failures(ops)| == |Failures(ops[..|ops| - 1])| + Indicator(ops[|ops| - 1].Failure?)
  {
    var front, last := ops[..|ops| - 1], |ops| - 1;
    var before, all := Failures(front), Failures(ops);
    forall i: nat | i < last ensures i in before <==> i in all {
      assert front[i] == ops[i];
    }
    OneMoreCounted(before, all, last);
  }

  /** The book counts what it says: the failures, and the passages to Open from either side. */
  lemma {:induction false} BookCounts(policy: Policy, ops: seq<Op>)
    ensures var book := Observe(policy, ops);
            && book.failures == |Failures(ops)|
            && book.tripsFromClosed == |Passages(policy, ops, Closed, Open)|
            && book.tripsFromHalfOpen == |Passages(policy, ops, HalfOpen, Open)|
  {
    if ops == [] {
      assert Failures(ops) == {} && Passages(policy, ops, Closed, Open) == {} && Passages(policy, ops, HalfOpen, Open) == {};
    } else {
      BookCounts(policy, ops[..|ops| - 1]);
      FailuresNext(ops);
      PassagesNext(policy, ops, Closed, Open);
      PassagesNext(policy, ops, HalfOpen, Open);
    }
  }

  function Owed(policy: Policy, book: Book): nat {
    policy.failureThreshold * book.tripsFromClosed + book.tripsFromHalfOpen
    + (if book.now.state == Closed then book.sinceClosing else 0)
  }

  lemma OneMoreTrip(threshold: nat, trips: nat)
    ensures threshold * (trips + 1) == threshold * trips + threshold
  {}

  lemma OwedStep(policy: Policy, before: Book, op: Op)
    requires ClosedMeansFew(policy, before) && before.failures >= Owed(policy, before)
    ensures Enter(policy, before, op).failures >= Owed(policy, Enter(policy, before, op))
  {
    OneMoreTrip(policy.failureThreshold, before.tripsFromClosed);
  }

  /** Each trip from Closed is paid for by a full threshold of failures of its own, each other trip by one. */
  lemma {:induction false} AmortisedTrips(policy: Policy, ops: seq<Op>)
    requires policy.failureThreshold >= 1
    ensures var book := Observe(policy, ops);
            book.failures >= policy.failureThreshold * book.tripsFromClosed + book.tripsFromHalfOpen
            + (if book.now.state == Closed then book.sinceClosing else 0)
  {
    if ops != [] {
      AmortisedTrips(policy, ops[..|ops| - 1]);
      ClosedCountsFailures(policy, ops[..|ops| - 1]);
      OwedStep(policy, Observe(policy, ops[..|ops| - 1]), ops[|ops| - 1]);
    } else {
      assert policy.failureThreshold * 0 == 0;
    }
  }

  /** The trip counter is the number of trips, at its 64-bit width, and nothing else ever opens the breaker. */
  lemma {:induction false} TripsAreCounted(policy: Policy, ops: seq<Op>)
    ensures var book := Observe(policy, ops);
            && book.now.totalTrips == (book.tripsFromClosed + book.tripsFromHalfOpen) % U64_RANGE
            && book.now.lastFailure == book.latestFailure
            && (book.now.state != Closed ==> book.latestFailure.Some?)
  {
    if ops != [] {
      var before := Observe(policy, ops[..|ops| - 1]);
      TripsAreCounted(policy, ops[..|ops| - 1]);
      WrappedSuccessor(before.tripsFromClosed + before.tripsFromHalfOpen);
    }
  }

  lemma WrappedSuccessor(n: nat)
    ensures (n % U64_RANGE + 1) % U64_RANGE == (n + 1) % U64_RANGE
  {
    var q := n / U64_RANGE;
    assert n == U64_RANGE * q + n % U64_RANGE;
    if n % U64_RANGE + 1 == U64_RANGE {
      assert n + 1 == U64_RANGE * (q + 1);
    } else {
      assert n + 1 == U64_RANGE * q + (n % U64_RANGE + 1);
    }
  }

  function Played(policy: Policy, b: View, ops: seq<Op>): View {
    if ops == [] then b else After(policy, Played(policy, b, ops[..|ops| - 1]), ops[|ops| - 1])
  }

  /** When the latest failure was, for an observer who last saw one at `since`. */
  function LatestFailure(since: nat, ops: seq<Op>): nat {
    if ops == [] then since
    else
      var last := ops[|ops| - 1];
      if last.Failure? then last.now else LatestFailure(since, ops[..|ops| - 1])
  }

  /** Nobody resets, and every request comes within `resetTimeout` of the latest failure before it. */
  ghost predicate AllWithinTimeout(policy: Policy, since: nat, ops: seq<Op>) {
    forall k :: 0 <= k < |ops| ==>
                  && !ops[k].Reset?
                  && (ops[k].Allow? ==> WithinTimeout(policy, LatestFailure(since, ops[..k]), ops[k].now))
  }

  lemma WithinTimeoutBefore(policy: Policy, since: nat, ops: seq<Op>)
    requires ops != [] && AllWithinTimeout(policy, since, ops)
    ensures AllWithinTimeout(policy, since, ops[..|ops| - 1])
  {
    var front := ops[..|ops| - 1];
    forall k | 0 <= k < |front|
      ensures !front[k].Reset?
      ensures front[k].Allow? ==> WithinTimeout(policy, LatestFailure(since, front[..k]), front[k].now)
    {
      assert front[k] == ops[k] && front[..k] == ops[..k];
    }
  }

  /**
    Open stays Open, whatever is called but `reset`, as long as each request comes within `resetTimeout`
    of the latest failure before it; and then a request is refused exactly within `resetTimeout` of the
    latest failure of all. Failures while Open push the moment out.
   */
  lemma {:induction false} OpenRefusesUntilTimeout(policy: Policy, b: View, ops: seq<Op>, openedAt: nat)
    requires b.state == Open && b.lastFailure == Some(openedAt)
    requires AllWithinTimeout(policy, openedAt, ops)
    ensures var b' := Played(policy, b, ops);
            && b'.state == Open
            && b'.lastFailure == Some(LatestFailure(openedAt, ops))
            && forall now :: Allowed(policy, b', now) <==> !WithinTimeout(policy, LatestFailure(openedAt, ops), now)
  {
    if ops != [] {
      WithinTimeoutBefore(policy, openedAt, ops);
      OpenRefusesUntilTimeout(policy, b, ops[..|ops| - 1], openedAt);
    }
  }

  /** With a timeout of zero an Open breaker never refuses. */
  lemma ZeroTimeoutNeverRefuses(policy: Policy, ops: seq<Op>, now: nat)
    requires policy.resetTimeout == 0
    ensures Allowed(policy, Observe(policy, ops).now, now)
  {
    TripsAreCounted(policy, ops);
  }

  /** How many of the requests among `ops` are admitted. */
  function Admitted(policy: Policy, b: View, ops: seq<Op>): nat {
    if ops == [] then 0
    else
      var last := ops[|ops| - 1];
      Admitted(policy, b, ops[..|ops| - 1])
      + Indicator(last.Allow? && Allowed(policy, Played(policy, b, ops[..|ops| - 1]), last.now))
  }

  /** HalfOpen is not limited to a single probe: it admits any number of requests, and stays as it is. */
  lemma {:induction false} HalfOpenAdmitsAll(policy: Policy, b: View, ops: seq<Op>)
    requires b.state == HalfOpen && forall k :: 0 <= k < |ops| ==> ops[k].Allow?
    ensures Admitted(policy, b, ops) == |ops| && Played(policy, b, ops) == b
  {
    if ops != [] {
      HalfOpenAdmitsAll(policy, b, ops[..|ops| - 1]);
    }
  }

  /** And from then on the first request is let through as a probe. */
  lemma OpenProbesAfterTimeout(policy: Policy, ops: seq<Op>, now: nat)
    requires Observe(policy, ops).now.state == Open
    ensures Observe(policy, ops).latestFailure.Some?
    ensures Allowed(policy, Observe(policy, ops).now, now) <==>
            policy.resetTimeout == 0 || now >= Observe(policy, ops).latestFailure.value + policy.resetTimeout
    ensures Allowed(policy, Observe(policy, ops).now, now) <==>
            After(policy, Observe(policy, ops).now, Allow(now)).state == HalfOpen
  {
    TripsAreCounted(policy, ops);
  }
}
