/** The blocking connect loop of the client: try, sleep 20 ms after a failure, give up once the
    whole-second clock says the timeout has passed. */
module ConnectLoop {
  import opened Basics

  /** One attempt: whether it succeeded, and how many milliseconds it and the sleep after it
      took. */
  datatype Attempt = Attempt(ok: bool, ms: nat)

  datatype Outcome = Connected(failures: nat) | Threw(failures: nat)

  /** A failed attempt includes the 20 ms sleep. */
  ghost predicate Sleeps(attempts: nat -> Attempt)
  {
    forall i :: !attempts(i).ok ==> attempts(i).ms >= 20
  }

  /** Milliseconds spent on the first k attempts. */
  function Spent(attempts: nat -> Attempt, k: nat): nat
  {
    if k == 0 then 0 else Spent(attempts, k - 1) + attempts(k - 1).ms
  }

  ghost predicate FirstFail(attempts: nat -> Attempt, k: nat)
  {
    forall i: nat :: i < k ==> !attempts(i).ok
  }

  /** The clock test after the k-th failure. */
  predicate TimedOut(timeout: int, start: nat, attempts: nat -> Attempt, k: nat)
  {
    Secs(start + Spent(attempts, k)) - Secs(start) >= timeout
  }

  ghost predicate NotTimedOutBefore(timeout: int, start: nat, attempts: nat -> Attempt, k: nat)
  {
    forall j: nat :: 0 < j < k ==> !TimedOut(timeout, start, attempts, j)
  }

  function Limit(timeout: int): nat { if timeout <= 0 then 1 else 50 * timeout }

  lemma {:induction false} SpentGrows(attempts: nat -> Attempt, k: nat)
    requires Sleeps(attempts) && FirstFail(attempts, k)
    ensures Spent(attempts, k) >= 20 * k
  {
    if k > 0 {
      SpentGrows(attempts, k - 1);
    }
  }

  /** After as many failures as the limit the clock test has come true. */
  lemma LimitTimesOut(timeout: int, start: nat, attempts: nat -> Attempt, k: nat)
    requires Sleeps(attempts) && FirstFail(attempts, k) && k >= Limit(timeout)
    ensures TimedOut(timeout, start, attempts, k)
  {
    SpentGrows(attempts, k);
  }

  /** Connecting at the first success, unless the clock test comes true before it; throwing at the
      first failure after which the test is true. */
  ghost predicate Allowed(timeout: int, start: nat, attempts: nat -> Attempt, r: Outcome)
  {
    && FirstFail(attempts, r.failures)
    && NotTimedOutBefore(timeout, start, attempts, r.failures)
    && (r.Connected? ==> attempts(r.failures).ok
                         && (r.failures > 0 ==> !TimedOut(timeout, start, attempts, r.failures)))
    && (r.Threw? ==> r.failures > 0 && TimedOut(timeout, start, attempts, r.failures))
  }

  /** There is only one allowed outcome. */
  lemma OutcomeIsDetermined(timeout: int, start: nat, attempts: nat -> Attempt, r: Outcome, q: Outcome)
    requires Allowed(timeout, start, attempts, r) && Allowed(timeout, start, attempts, q)
    ensures r == q
  {
  }

  /** The loop ends, with the allowed outcome. It throws after at most max(1, 50 * timeout)
      failures, and never before more than timeout - 1 seconds have passed. */
  method Connect(timeout: int, start: nat, attempts: nat -> Attempt) returns (r: Outcome)
    requires Sleeps(attempts)
    ensures Allowed(timeout, start, attempts, r)
    ensures r.Connected? ==> r.failures < Limit(timeout)
    ensures r.Threw? ==> r.failures <= Limit(timeout) && Spent(attempts, r.failures) > 1000 * (timeout - 1)
  {
    var now, failures: nat := start, 0;
    while true
      invariant FirstFail(attempts, failures) && now == start + Spent(attempts, failures)
      invariant NotTimedOutBefore(timeout, start, attempts, failures + 1) && failures < Limit(timeout)
      decreases Limit(timeout) - failures
    {
      var a := attempts(failures);
      if a.ok {
        return Connected(failures);
      }
      now := now + a.ms;
      failures := failures + 1;
      if Secs(now) - Secs(start) >= timeout {
        return Threw(failures);
      }
      if failures >= Limit(timeout) {
        LimitTimesOut(timeout, start, attempts, failures);
      }
    }
  }
}
