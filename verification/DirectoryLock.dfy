/** Waiting for a lock that is a directory: `mkdir` takes it, and an existing directory means someone holds it. */
module DirectoryLock {

  datatype Mkdir = Made | Exists | Refused      // Refused: any error other than EEXIST

  datatype Outcome = Acquired | TimedOut | Failed

  /** What one pass of the retry loop decides, given the clock at its deadline test. */
  datatype Verdict = Stop(outcome: Outcome) | Retry

  function Judge(result: Mkdir, now: int, deadline: int): Verdict {
    match result
    case Made => Stop(Acquired)
    case Refused => Stop(Failed)
    case Exists => if now > deadline then Stop(TimedOut) else Retry
  }

  /** The most `mkdir` calls one waiter can make when every delay lasts at least `pause`. */
  function MaxAttempts(timeout: nat, pause: nat): nat
    requires pause > 0
  {
    timeout / pause + 2
  }

  /** A waiter with `attempts` calls behind it may still try: its last look at the clock was before the deadline. */
  ghost predicate MayTry(attempts: nat, earliest: int, start: int, timeout: nat, pause: nat) {
    && earliest >= start + pause * attempts
    && (attempts > 0 ==> pause * (attempts - 1) <= timeout)
  }

  lemma QuotientBound(n: nat, timeout: nat, pause: nat)
    requires pause > 0 && pause * n <= timeout
    ensures n <= timeout / pause
  {
    var q := timeout / pause;
    assert pause * n == pause * q + pause * (n - q);
    MulGrows(pause, n - q);
  }

  lemma MulGrows(pause: nat, k: int)
    ensures k >= 1 ==> pause * k >= pause
  {
  }

  lemma AttemptBound(attempts: nat, earliest: int, start: int, timeout: nat, pause: nat)
    requires pause > 0 && MayTry(attempts, earliest, start, timeout, pause)
    ensures attempts + 1 <= MaxAttempts(timeout, pause)
  {
    if attempts > 0 {
      QuotientBound(attempts - 1, timeout, pause);
    }
  }

  lemma RetryMayTry(attempts: nat, now: int, start: int, timeout: nat, pause: nat)
    requires MayTry(attempts, now, start, timeout, pause) && now <= start + timeout
    ensures MayTry(attempts + 1, now + pause, start, timeout, pause)
  {
  }

  /**
   * The retry loop of `withReportLock` and `withInssaAuthStateLock`: call k finds `result(k)`, and the deadline
   * test after it reads the clock as `clock(k)`.
   */
  method WaitForLock(result: nat -> Mkdir, clock: nat -> int, start: int, timeout: nat, pause: nat)
    returns (outcome: Outcome, attempts: nat)
    requires pause > 0 && clock(0) >= start && forall k: nat :: clock(k + 1) >= clock(k) + pause
    ensures 0 < attempts <= MaxAttempts(timeout, pause)
    ensures Judge(result(attempts - 1), clock(attempts - 1), start + timeout) == Stop(outcome)
    ensures forall k: nat :: k < attempts - 1 ==> Judge(result(k), clock(k), start + timeout) == Retry
  {
    var deadline := start + timeout;
    attempts := 0;
    while true
      invariant MayTry(attempts, clock(attempts), start, timeout, pause)
      invariant forall k: nat :: k < attempts ==> Judge(result(k), clock(k), deadline) == Retry
      decreases timeout - pause * attempts + pause
    {
      AttemptBound(attempts, clock(attempts), start, timeout, pause);
      attempts := attempts + 1;
      match result(attempts - 1)
      case Made => return Acquired, attempts;
      case Refused => return Failed, attempts;
      case Exists =>
        if clock(attempts - 1) > deadline {
          return TimedOut, attempts;
        }
        RetryMayTry(attempts - 1, clock(attempts - 1), start, timeout, pause);
    }
  }
}
