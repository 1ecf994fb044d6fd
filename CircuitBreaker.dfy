/**
 * The AI service circuit breaker: CLOSED lets every request through and opens
 * after ten consecutive failures; OPEN rejects requests until five minutes have
 * passed and then moves to HALF_OPEN; HALF_OPEN closes after three successes and
 * reopens on any failure. The clock is an explicit parameter in milliseconds.
 */
module CircuitBreaker {
  import opened Common

  const FailureThreshold := 10
  const OpenDurationMillis := 300000
  const HalfOpenSuccessThreshold := 3
  const HalfOpenMaxAttempts := 5

  datatype State = Closed | Open | HalfOpen

  datatype Breaker = Breaker(state: State, failures: nat, successes: nat, openedTime: Option<int>)

  const Initial := Breaker(Closed, 0, 0, None)

  /** The states the breaker can reach from its initial state. */
  predicate Valid(b: Breaker)
  {
    match b.state
    case Closed => b.failures < FailureThreshold && b.successes == 0 && b.openedTime.None?
    case Open => b.failures == 0 && b.successes == 0 && b.openedTime.Some?
    case HalfOpen => b.failures == 0 && b.successes < HalfOpenSuccessThreshold && b.openedTime.Some?
  }

  function ToClosed(b: Breaker): Breaker { Breaker(Closed, 0, 0, None) }
  function ToOpen(b: Breaker, now: int): Breaker { Breaker(Open, 0, 0, Some(now)) }
  function ToHalfOpen(b: Breaker): Breaker { Breaker(HalfOpen, 0, 0, b.openedTime) }

  /** shouldAttemptReset: the breaker has been open for at least OPEN_DURATION. */
  predicate ShouldAttemptReset(b: Breaker, now: int)
  {
    b.openedTime.Some? && now - b.openedTime.value >= OpenDurationMillis
  }

  datatype Decision = Decision(allowed: bool, next: Breaker)

  /** allowRequest: whether the call may go out, and the breaker afterwards. */
  function Allow(b: Breaker, now: int): Decision
  {
    match b.state
    case Closed => Decision(true, b)
    case Open =>
      if ShouldAttemptReset(b, now) then Decision(true, ToHalfOpen(b)) else Decision(false, b)
    case HalfOpen => Decision(b.failures + b.successes < HalfOpenMaxAttempts, b)
  }

  function AfterSuccess(b: Breaker): Breaker
  {
    match b.state
    case Closed => b.(failures := 0)
    case HalfOpen =>
      var successes := b.successes + 1;
      if successes >= HalfOpenSuccessThreshold then ToClosed(b) else b.(successes := successes)
    case Open => b
  }

  function AfterFailure(b: Breaker, now: int): Breaker
  {
    match b.state
    case Closed =>
      var failures := b.failures + 1;
      if failures >= FailureThreshold then ToOpen(b, now) else b.(failures := failures)
    case HalfOpen => ToOpen(b, now)
    case Open => b
  }

  /** Every operation keeps the breaker in a reachable state. */
  lemma OperationsPreserveValid(b: Breaker, now: int)
    requires Valid(b)
    ensures Valid(Allow(b, now).next)
    ensures Valid(AfterSuccess(b))
    ensures Valid(AfterFailure(b, now))
    ensures Valid(ToClosed(b)) && Valid(ToOpen(b, now))
  {
  }

  /** CLOSED lets every request through; OPEN lets one through exactly when the open period is over, entering HALF_OPEN. */
  lemma AllowRequestByState(b: Breaker, now: int)
    ensures b.state == Closed ==> Allow(b, now) == Decision(true, b)
    ensures b.state == Open ==>
      (Allow(b, now).allowed <==> b.openedTime.Some? && now - b.openedTime.value >= OpenDurationMillis)
    ensures b.state == Open && Allow(b, now).allowed ==>
      Allow(b, now).next == Breaker(HalfOpen, 0, 0, b.openedTime)
    ensures b.state == Open && !Allow(b, now).allowed ==> Allow(b, now).next == b
    ensures b.state == HalfOpen ==>
      Allow(b, now) == Decision(b.failures + b.successes < HalfOpenMaxAttempts, b)
  {
  }

  /**
   * Requests let through in HALF_OPEN are not counted, and a failure there
   * reopens at once, so in every reachable HALF_OPEN state the attempt limit of
   * five is never reached and every request is allowed.
   */
  lemma HalfOpenNeverRejects(b: Breaker, now: int)
    requires Valid(b) && b.state == HalfOpen
    ensures Allow(b, now) == Decision(true, b)
  {
  }

  /** The breaker after `n` consecutive failures. */
  function Failures(b: Breaker, n: nat, now: int): Breaker
    decreases n
  {
    if n == 0 then b else Failures(AfterFailure(b, now), n - 1, now)
  }

  /** From a CLOSED breaker with k recorded failures, the (10 - k)-th further failure opens it and no earlier one does. */
  lemma {:induction false} ConsecutiveFailuresOpen(b: Breaker, n: nat, now: int)
    requires Valid(b) && b.state == Closed
    ensures n < FailureThreshold - b.failures ==> Failures(b, n, now) == b.(failures := b.failures + n)
    ensures n == FailureThreshold - b.failures ==> Failures(b, n, now) == Breaker(Open, 0, 0, Some(now))
    decreases n
  {
    if n > 0 {
      var b' := AfterFailure(b, now);
      if b.failures + 1 < FailureThreshold {
        ConsecutiveFailuresOpen(b', n - 1, now);
      } else {
        assert n == 1 ==> Failures(b, n, now) == Failures(b', 0, now);
      }
    }
  }

  /** In CLOSED a success clears the failure run; in OPEN successes and failures change nothing. */
  lemma RecordOutcomeByState(b: Breaker, now: int)
    ensures b.state == Closed ==> AfterSuccess(b) == b.(failures := 0)
    ensures b.state == Open ==> AfterSuccess(b) == b && AfterFailure(b, now) == b
    ensures b.state == HalfOpen ==> AfterFailure(b, now) == Breaker(Open, 0, 0, Some(now))
  {
  }

  /** The breaker after `n` consecutive successes. */
  function Successes(b: Breaker, n: nat): Breaker
    decreases n
  {
    if n == 0 then b else Successes(AfterSuccess(b), n - 1)
  }

  /** A freshly half-opened breaker closes on its third success and not before. */
  lemma {:induction false} HalfOpenSuccessesClose(b: Breaker, n: nat)
    requires Valid(b) && b.state == HalfOpen
    ensures n < HalfOpenSuccessThreshold - b.successes ==> Successes(b, n) == b.(successes := b.successes + n)
    ensures n == HalfOpenSuccessThreshold - b.successes ==> Successes(b, n) == Breaker(Closed, 0, 0, None)
    decreases n
  {
    if n > 0 {
      var b' := AfterSuccess(b);
      if b.successes + 1 < HalfOpenSuccessThreshold {
        HalfOpenSuccessesClose(b', n - 1);
      } else {
        assert n == 1 ==> Successes(b, n) == Successes(b', 0);
      }
    }
  }

  /** Every state change zeroes both counters. */
  lemma TransitionsZeroCounters(b: Breaker, now: int)
    ensures var c := AfterFailure(b, now); c.state != b.state ==> c.failures == 0 && c.successes == 0
    ensures var c := AfterSuccess(b); c.state != b.state ==> c.failures == 0 && c.successes == 0
    ensures var c := Allow(b, now).next; c.state != b.state ==> c.failures == 0 && c.successes == 0
  {
  }

  /** The breaker as a mutable component, with the clock passed to the operations that read it. */
  class AiCircuitBreaker {
    var state: State
    var failureCount: nat
    var successCount: nat
    var openedTime: Option<int>

    function Model(): Breaker
      reads this
    {
      Breaker(state, failureCount, successCount, openedTime)
    }

    constructor ()
      ensures Model() == Initial && Valid(Model())
    {
      state, failureCount, successCount, openedTime := Closed, 0, 0, None;
    }

    method TransitionToClosed()
      modifies this
      ensures Model() == ToClosed(old(Model()))
    {
      state := Closed;
      failureCount := 0;
      successCount := 0;
      openedTime := None;
    }

    method TransitionToOpen(now: int)
      modifies this
      ensures Model() == ToOpen(old(Model()), now)
    {
      state := Open;
      openedTime := Some(now);
      failureCount := 0;
      successCount := 0;
    }

    method TransitionToHalfOpen()
      modifies this
      ensures Model() == ToHalfOpen(old(Model()))
    {
      state := HalfOpen;
      failureCount := 0;
      successCount := 0;
    }

    method AllowRequest(now: int) returns (allowed: bool)
      modifies this
      ensures Decision(allowed, Model()) == Allow(old(Model()), now)
    {
      match state {
        case Closed =>
          allowed := true;
        case Open =>
          if openedTime.Some? && now - openedTime.value >= OpenDurationMillis {
            TransitionToHalfOpen();
            allowed := true;
          } else {
            allowed := false;
          }
        case HalfOpen =>
          var attempts := failureCount + successCount;
          allowed := attempts < HalfOpenMaxAttempts;
      }
    }

    method RecordSuccess()
      modifies this
      ensures Model() == AfterSuccess(old(Model()))
    {
      match state {
        case Closed =>
          failureCount := 0;
        case HalfOpen =>
          successCount := successCount + 1;
          if successCount >= HalfOpenSuccessThreshold {
            TransitionToClosed();
          }
        case Open =>
      }
    }

    method RecordFailure(now: int)
      modifies this
      ensures Model() == AfterFailure(old(Model()), now)
    {
      match state {
        case Closed =>
          failureCount := failureCount + 1;
          if failureCount >= FailureThreshold {
            TransitionToOpen(now);
          }
        case HalfOpen =>
          TransitionToOpen(now);
        case Open =>
      }
    }

    /** Manual reset by an administrator. */
    method Reset()
      modifies this
      ensures Model() == Initial
    {
      TransitionToClosed();
    }

    /** Manual opening for maintenance. */
    method ForceOpen(now: int)
      modifies this
      ensures Model() == Breaker(Open, 0, 0, Some(now))
    {
      TransitionToOpen(now);
    }
  }
}
