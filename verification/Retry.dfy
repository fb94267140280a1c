/**
  Retry with exponential backoff (crates/messaging/src/retry.rs). A duration is an exact number of
  seconds, and the operation is the function from attempt numbers to its outcomes.
 */
module Retry {
  import opened Types

  type Duration = d: real | d >= 0.0 witness 0.0

  datatype RetryPolicy = RetryPolicy(maxRetries: U32, initialBackoff: Duration, maxBackoff: Duration, multiplier: Duration)

  function Min(x: real, y: real): real {
    if x <= y then x else y
  }

  function Power(m: Duration, k: nat): Duration {
    if k == 0 then 1.0 else Times(Power(m, k - 1), m)
  }

  function Times(x: Duration, y: Duration): Duration {
    x * y
  }

  function Grown(policy: RetryPolicy, backoff: Duration): Duration {
    Min(Times(backoff, policy.multiplier), policy.maxBackoff)
  }

  /** The k-th sleep: each is the one before times the multiplier, capped. The first is never capped. */
  function Sleep(policy: RetryPolicy, k: nat): Duration {
    if k == 0 then policy.initialBackoff
    else Grown(policy, Sleep(policy, k - 1))
  }

  /** The first successful attempt, or the last one. */
  ghost predicate IsLastAttempt<T, E>(policy: RetryPolicy, operation: nat -> Result<T, E>, last: nat) {
    && last <= policy.maxRetries
    && (forall k :: 0 <= k < last ==> operation(k).Err?)
    && (operation(last).Ok? || last == policy.maxRetries)
  }

  lemma ScaleMonotone(x: real, y: real, m: Duration)
    requires x <= y
    ensures x * m <= y * m
  {
    assert (y - x) * m >= 0.0;
  }

  /** Capping before a growth step makes no difference once the step is capped as well. */
  lemma CappedGrowth(uncapped: Duration, m: Duration, cap: Duration)
    requires m >= 1.0
    ensures Min(Times(Min(uncapped, cap), m), cap) == Min(Times(uncapped, m), cap)
  {
    if uncapped > cap {
      ScaleMonotone(cap, uncapped, m);
      ScaleMonotone(1.0, m, cap);
    }
  }

  lemma TimesAssociates(x: Duration, y: Duration, z: Duration)
    ensures Times(Times(x, y), z) == Times(x, Times(y, z))
  {}

  lemma CapIsLast(policy: RetryPolicy, k: nat)
    requires policy.multiplier >= 1.0
    requires Sleep(policy, k) == Min(Times(policy.initialBackoff, Power(policy.multiplier, k)), policy.maxBackoff)
    ensures Sleep(policy, k + 1) == Min(Times(policy.initialBackoff, Power(policy.multiplier, k + 1)), policy.maxBackoff)
  {
    CappedGrowth(Times(policy.initialBackoff, Power(policy.multiplier, k)), policy.multiplier, policy.maxBackoff);
    TimesAssociates(policy.initialBackoff, Power(policy.multiplier, k), policy.multiplier);
  }

  /** The recurrence in closed form, as long as the multiplier does not shrink the sleeps. */
  lemma {:induction false} SleepClosedForm(policy: RetryPolicy, k: nat)
    requires policy.multiplier >= 1.0
    ensures Sleep(policy, 0) == policy.initialBackoff
    ensures Sleep(policy, k + 1) == Min(Times(policy.initialBackoff, Power(policy.multiplier, k + 1)), policy.maxBackoff)
  {
    if k == 0 {
      assert Times(1.0, policy.multiplier) == policy.multiplier;
      assert Power(policy.multiplier, 1) == Times(Power(policy.multiplier, 0), policy.multiplier);
    } else {
      SleepClosedForm(policy, k - 1);
      CapIsLast(policy, k);
    }
  }

  /**
    The operation is called with exactly 0, 1, ..., up to the first success or the last retry; its
    outcome there is the answer; and between the calls the loop sleeps exactly as the recurrence says.
   */
  method RetryWithBackoff<T, E>(policy: RetryPolicy, operation: nat -> Result<T, E>)
    returns (r: Result<T, E>, calls: seq<nat>, sleeps: seq<Duration>)
    ensures calls != [] && IsLastAttempt(policy, operation, |calls| - 1)
    ensures forall k :: 0 <= k < |calls| ==> calls[k] == k
    ensures r == operation(|calls| - 1)
    ensures |sleeps| == |calls| - 1
    ensures forall k :: 0 <= k < |sleeps| ==> sleeps[k] == Sleep(policy, k)
  {
    var backoff := policy.initialBackoff;
    var lastErr: Option<E> := None;
    calls, sleeps := [], [];
    for attempt := 0 to policy.maxRetries + 1
      invariant |calls| == attempt && forall k :: 0 <= k < |calls| ==> calls[k] == k
      invariant forall k :: 0 <= k < attempt ==> operation(k).Err?
      invariant attempt > 0 ==> lastErr.Some? && operation(attempt - 1) == Err(lastErr.value)
      invariant |sleeps| == if attempt <= policy.maxRetries then attempt else policy.maxRetries
      invariant attempt <= policy.maxRetries ==> backoff == Sleep(policy, attempt)
      invariant forall k :: 0 <= k < |sleeps| ==> sleeps[k] == Sleep(policy, k)
    {
      calls := calls + [attempt];
      match operation(attempt)
      case Ok(value) => return Ok(value), calls, sleeps;
      case Err(e) =>
        if attempt < policy.maxRetries {
          sleeps := sleeps + [backoff];
          backoff := Grown(policy, backoff);
        }
        lastErr := Some(e);
    }
    r := Err(lastErr.value);
  }

  /** There is only one way to be the last attempt. */
  lemma LastAttemptUnique<T, E>(policy: RetryPolicy, operation: nat -> Result<T, E>, i: nat, j: nat)
    requires IsLastAttempt(policy, operation, i) && IsLastAttempt(policy, operation, j)
    ensures i == j
  {}

  /** The first attempt that succeeds. */
  ghost predicate IsFirstSuccess<T, E>(operation: nat -> Result<T, E>, j: nat) {
    operation(j).Ok? && forall k :: 0 <= k < j ==> operation(k).Err?
  }

  /** How many calls are made: up to the first success if the retries reach it, and all of them otherwise. */
  lemma LastAttemptExact<T, E>(policy: RetryPolicy, operation: nat -> Result<T, E>, last: nat)
    ensures IsLastAttempt(policy, operation, last) <==>
            || (last <= policy.maxRetries && IsFirstSuccess(operation, last))
            || (last == policy.maxRetries && forall k :: 0 <= k <= policy.maxRetries ==> operation(k).Err?)
    ensures forall other :: IsLastAttempt(policy, operation, last) && IsLastAttempt(policy, operation, other) ==> other == last
  {
    forall other | IsLastAttempt(policy, operation, last) && IsLastAttempt(policy, operation, other)
      ensures other == last
    {
      LastAttemptUnique(policy, operation, last, other);
    }
  }

  ghost predicate SleepsWithinCap(policy: RetryPolicy, n: nat) {
    forall k :: 0 <= k < n ==> Sleep(policy, k) <= policy.maxBackoff
  }

  /** No sleep is longer than `maxBackoff` exactly when there is none, or the first is not. */
  lemma SleepsWithinCapExactly(policy: RetryPolicy, n: nat)
    ensures SleepsWithinCap(policy, n) <==> n == 0 || policy.initialBackoff <= policy.maxBackoff
  {
    var first := 0;
    assert Sleep(policy, first) == policy.initialBackoff;
    forall k | 1 <= k < n ensures Sleep(policy, k) <= policy.maxBackoff {
      LaterSleepsCapped(policy, k);
    }
  }

  lemma MinChooses(x: real, cap: real)
    ensures x <= cap ==> Min(x, cap) == x
    ensures x > cap ==> Min(x, cap) == cap
  {}

  /** The uncapped sleep after k growth steps. */
  function Uncapped(policy: RetryPolicy, k: nat): (sleep: Duration)
    ensures sleep == policy.initialBackoff * Power(policy.multiplier, k)
  {
    Times(policy.initialBackoff, Power(policy.multiplier, k))
  }

  /** The closed form in so many words: the first sleep as it is, every other the grown one while that is below the cap. */
  lemma SleepExactly(policy: RetryPolicy, k: nat)
    requires policy.multiplier >= 1.0
    ensures Sleep(policy, 0) == policy.initialBackoff
    ensures Uncapped(policy, k + 1) <= policy.maxBackoff ==> Sleep(policy, k + 1) == Uncapped(policy, k + 1)
    ensures Uncapped(policy, k + 1) > policy.maxBackoff ==> Sleep(policy, k + 1) == policy.maxBackoff
  {
    SleepClosedForm(policy, k);
    MinChooses(Uncapped(policy, k + 1), policy.maxBackoff);
  }

  /** Powers multiply as powers do. */
  lemma {:induction false} PowerAdds(m: Duration, j: nat, k: nat)
    ensures Power(m, 0) == 1.0 && Power(m, 1) == m
    ensures Power(m, j + k) == Power(m, j) * Power(m, k)
    decreases k
  {
    assert Power(m, 1) == Times(Power(m, 0), m);
    if k > 0 {
      PowerAdds(m, j, k - 1);
      TimesAssociates(Power(m, j), Power(m, k - 1), m);
    }
  }

  function TotalWait(policy: RetryPolicy, n: nat): Duration {
    if n == 0 then 0.0 else TotalWait(policy, n - 1) + Sleep(policy, n - 1)
  }

  lemma {:induction false} SleepAtMostDoubled(policy: RetryPolicy, k: nat)
    requires policy.multiplier == 2.0
    ensures Sleep(policy, k) <= policy.initialBackoff * Power(2.0, k)
  {
    if k > 0 {
      SleepAtMostDoubled(policy, k - 1);
      assert policy.initialBackoff * (Power(2.0, k - 1) * 2.0) == (policy.initialBackoff * Power(2.0, k - 1)) * 2.0;
    }
  }

  lemma Distribute(x: real, p: real)
    ensures x * (p - 1.0) + x * p == x * (p * 2.0 - 1.0)
  {}

  /** With the doubling that `RetryPolicy::new` fixes, n sleeps wait no longer than the uncapped geometric sum. */
  lemma {:induction false} WaitAtMostGeometric(policy: RetryPolicy, n: nat)
    requires policy.multiplier == 2.0
    ensures TotalWait(policy, n) <= policy.initialBackoff * (Power(2.0, n) - 1.0)
  {
    if n > 0 {
      WaitAtMostGeometric(policy, n - 1);
      SleepAtMostDoubled(policy, n - 1);
      Distribute(policy.initialBackoff, Power(2.0, n - 1));
    }
  }

  function SumOf(sleeps: seq<Duration>): Duration {
    if sleeps == [] then 0.0 else SumOf(sleeps[..|sleeps| - 1]) + sleeps[|sleeps| - 1]
  }

  /** The total of the sleeps the loop makes. */
  lemma {:induction false} SleepsAddUp(policy: RetryPolicy, sleeps: seq<Duration>)
    requires forall k :: 0 <= k < |sleeps| ==> sleeps[k] == Sleep(policy, k)
    ensures SumOf(sleeps) == TotalWait(policy, |sleeps|)
  {
    if sleeps != [] {
      SleepsAddUp(policy, sleeps[..|sleeps| - 1]);
    }
  }

  lemma PowersGrow(k: nat)
    ensures Power(2.0, k) <= Power(2.0, k + 1)
  {
    assert Power(2.0, k + 1) == Times(Power(2.0, k), 2.0);
  }

  lemma UncappedGrows(policy: RetryPolicy, k: nat)
    requires policy.multiplier == 2.0
    ensures Uncapped(policy, k) <= Uncapped(policy, k + 1)
  {
    PowersGrow(k);
    ScaleMonotone(Power(2.0, k), Power(2.0, k + 1), policy.initialBackoff);
  }

  lemma OneMoreSleep(policy: RetryPolicy, total: Duration, n: nat)
    requires policy.multiplier == 2.0 && total == policy.initialBackoff * (Power(2.0, n) - 1.0)
    ensures total + Uncapped(policy, n) == policy.initialBackoff * (Power(2.0, n + 1) - 1.0)
  {
    Distribute(policy.initialBackoff, Power(2.0, n));
    assert Power(2.0, n + 1) == Times(Power(2.0, n), 2.0);
  }

  lemma TotalNext(policy: RetryPolicy, n: nat)
    ensures TotalWait(policy, n + 1) == TotalWait(policy, n) + Sleep(policy, n)
  {}

  lemma FirstWait(policy: RetryPolicy)
    ensures TotalWait(policy, 1) == policy.initialBackoff && Power(2.0, 1) == 2.0
  {
    TotalNext(policy, 0);
    assert Power(2.0, 1) == Times(Power(2.0, 0), 2.0);
  }

  /** While the cap is not reached the geometric bound is the exact total. */
  lemma {:induction false} WaitIsGeometricBelowCap(policy: RetryPolicy, n: nat)
    requires policy.multiplier == 2.0 && Uncapped(policy, n) <= policy.maxBackoff
    ensures TotalWait(policy, n + 1) == policy.initialBackoff * (Power(2.0, n + 1) - 1.0)
  {
    if n == 0 {
      FirstWait(policy);
    } else {
      var before := n - 1;
      UncappedGrows(policy, before);
      WaitIsGeometricBelowCap(policy, before);
      SleepExactly(policy, before);
      TotalNext(policy, n);
      OneMoreSleep(policy, TotalWait(policy, n), n);
    }
  }

  lemma LaterSleepsCapped(policy: RetryPolicy, k: nat)
    requires k >= 1
    ensures Sleep(policy, k) <= policy.maxBackoff
  {}

  lemma OneMore(k: nat, x: Duration)
    ensures Times((k + 1) as real, x) == Times(k as real, x) + x
  {}

  /** And no longer than the first sleep plus the cap for each of the others. */
  lemma {:induction false} WaitAtMostCapped(policy: RetryPolicy, n: nat)
    ensures TotalWait(policy, n + 1) <= policy.initialBackoff + Times(n as real, policy.maxBackoff)
  {
    if n > 0 {
      WaitAtMostCapped(policy, n - 1);
      OneMore(n - 1, policy.maxBackoff);
      LaterSleepsCapped(policy, n);
    } else {
      assert TotalWait(policy, 1) == TotalWait(policy, 0) + Sleep(policy, 0);
    }
  }
}
