/**
 * The specification of `createSessionWithRetry`. A connection attempt's
 * outcome is taken from a script: attempt `i` (counting from zero) succeeds
 * when `script[i]` is true; attempts past the end of the script fail.
 */
module ConnectRetry {
  import opened Wrappers

  /** `connectRetryDelay`: the configured delay in milliseconds, clamped at zero. */
  function ClampDelay(millis: int): (d: nat)
    ensures millis <= d
    ensures d == millis || d == 0
  {
    if millis < 0 then 0 else millis
  }

  predicate Succeeds(script: seq<bool>, i: nat) {
    i < |script| && script[i]
  }

  /** The index of the first attempt that succeeds, if any does. */
  function FirstSuccess(script: seq<bool>): (first: Option<nat>)
    ensures first.Some? ==> Succeeds(script, first.value) && forall i :: 0 <= i < first.value ==> !Succeeds(script, i)
    ensures first.None? ==> forall i: nat :: !Succeeds(script, i)
  {
    if script == [] then None
    else if script[0] then Some(0)
    else
      var rest := FirstSuccess(script[1..]);
      assert forall i: nat :: 0 < i && Succeeds(script, i) ==> Succeeds(script[1..], i - 1);
      if rest.None? then None else Some(rest.value + 1)
  }

  /** What the retry loop returns. */
  datatype Outcome =
    | Connected(attempt: nat)  // the session of that attempt is returned
    | NoSession                // null is returned and the session job completes exceptionally
    | Exhausted                // the session job completes exceptionally and the call throws

  /**
   * One run of the retry loop: its outcome, the final value of `retryTimes`,
   * how many times connect was called, and the delays waited, in order.
   */
  datatype RetryRun = RetryRun(outcome: Outcome, retryTimes: nat, attempts: nat, delays: seq<nat>)

  function Repeat(d: nat, n: nat): (s: seq<nat>)
    ensures |s| == n && forall i :: 0 <= i < n ==> s[i] == d
  {
    seq(n, _ => d)
  }

  /**
   * The run of the retry loop with maximum `maxRetry` and delay `d`, stated
   * in closed form from the first successful attempt.
   */
  function Expected(maxRetry: int, d: nat, script: seq<bool>): (run: RetryRun)
    // the loop makes at most maximum + 1 attempts, and waits a delay only between attempts
    ensures run.attempts <= (if maxRetry < 0 then 0 else maxRetry + 1)
    ensures |run.delays| <= run.attempts
    // a returned session is the first successful attempt, with an index below the maximum
    ensures run.outcome.Connected? ==>
              && run.outcome.attempt < maxRetry && Succeeds(script, run.outcome.attempt)
              && run.attempts == run.outcome.attempt + 1
    // the throw comes only after all maximum + 1 attempts have failed
    ensures run.outcome.Exhausted? ==>
              && maxRetry > 0 && run.retryTimes == run.attempts == maxRetry + 1
              && forall i :: 0 <= i <= maxRetry ==> !Succeeds(script, i)
  {
    var first := FirstSuccess(script);
    if maxRetry < 0 then RetryRun(NoSession, 0, 0, [])
    else if first.Some? && first.value < maxRetry then
      RetryRun(Connected(first.value), first.value, first.value + 1, Repeat(d, first.value))
    else if first.Some? && first.value == maxRetry then
      RetryRun(NoSession, maxRetry, maxRetry + 1, Repeat(d, maxRetry))
    else if maxRetry == 0 then
      RetryRun(NoSession, 1, 1, [d])
    else
      RetryRun(Exhausted, maxRetry + 1, maxRetry + 1, Repeat(d, maxRetry))
  }

  /** With N > 0 and every attempt failing: N + 1 attempts, a delay after each of the first N failures, then the throw. */
  lemma AlwaysFailingExhausts(n: int, d: nat, script: seq<bool>)
    requires n > 0
    requires forall i :: 0 <= i <= n ==> !Succeeds(script, i)
    ensures Expected(n, d, script) == RetryRun(Exhausted, n + 1, n + 1, Repeat(d, n))
  {
  }

  /** With N > 0 and a first success after k < N failures: that connection, after exactly k delays. */
  lemma ConnectsAfterFailures(n: int, d: nat, script: seq<bool>, k: nat)
    requires k < n
    requires Succeeds(script, k) && forall i :: 0 <= i < k ==> !Succeeds(script, i)
    ensures Expected(n, d, script) == RetryRun(Connected(k), k, k + 1, Repeat(d, k))
  {
    FirstSuccessIsUnique(script, k);
  }

  /** A first success after exactly N failures is reported as no session. */
  lemma SuccessAtLastRetryIsNull(n: int, d: nat, script: seq<bool>)
    requires n >= 0
    requires Succeeds(script, n) && forall i :: 0 <= i < n ==> !Succeeds(script, i)
    ensures Expected(n, d, script) == RetryRun(NoSession, n, n + 1, Repeat(d, n))
  {
    FirstSuccessIsUnique(script, n);
  }

  /** A maximum of zero makes exactly one attempt and never yields a connection, even when that attempt succeeds. */
  lemma ZeroMaximumNeverConnects(d: nat, script: seq<bool>)
    ensures var run := Expected(0, d, script);
      && run.outcome == NoSession
      && run.attempts == 1
      && run.delays == if Succeeds(script, 0) then [] else [d]
  {
    if Succeeds(script, 0) {
      FirstSuccessIsUnique(script, 0);
    }
  }

  /** A negative maximum makes no attempt at all. */
  lemma NegativeMaximumMakesNoAttempt(n: int, d: nat, script: seq<bool>)
    requires n < 0
    ensures Expected(n, d, script) == RetryRun(NoSession, 0, 0, [])
  {
  }

  /** A connection is returned exactly when the maximum is positive and an attempt before the N-th retry succeeds. */
  lemma ConnectedIff(n: int, d: nat, script: seq<bool>)
    ensures Expected(n, d, script).outcome.Connected? <==> exists k :: 0 <= k < n && Succeeds(script, k)
  {
    var first := FirstSuccess(script);
    if k :| 0 <= k < n && Succeeds(script, k) {
      assert first.Some? && first.value <= k;
    }
  }

  /** Every delay waited equals the clamped configured delay, and there is at most one per failed attempt. */
  lemma DelaysAreTheClampedDelay(n: int, millis: int, script: seq<bool>)
    ensures var run := Expected(n, ClampDelay(millis), script);
      && |run.delays| <= run.attempts
      && forall i :: 0 <= i < |run.delays| ==> run.delays[i] == if millis < 0 then 0 else millis
  {
  }

  lemma FirstSuccessIsUnique(script: seq<bool>, k: nat)
    requires Succeeds(script, k) && forall i :: 0 <= i < k ==> !Succeeds(script, i)
    ensures FirstSuccess(script) == Some(k)
  {
  }
}
