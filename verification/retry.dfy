/** The retry executor of `LLMTrackerSDK.withRetry` (src/client.ts).

    The wrapped operation is replaced by the finite sequence of outcomes its
    successive attempts would produce; sleeping is replaced by recording the
    requested duration. A run reports how it ended, how many attempts it
    consumed and the sleeps it took, in order. */
module Retry {
  import opened Wrappers
  import opened Text
  import opened Types

  /** The policy used when neither the call nor the configuration names one. */
  const DefaultRetry := RetryConfig(3, 1000.0, 10000.0, 2.0)

  /** `retryConfig ?? this.config.retry ?? this.defaultRetry`. */
  function ResolvePolicy(explicit: Option<RetryConfig>, configured: Option<RetryConfig>): (p: RetryConfig)
    ensures explicit.Some? ==> p == explicit.value
    ensures explicit.None? && configured.Some? ==> p == configured.value
    ensures explicit.None? && configured.None? ==> p == DefaultRetry
  {
    explicit.GetOr(configured.GetOr(DefaultRetry))
  }

  // ---------------------------------------------------------------------------
  // Error classification
  // ---------------------------------------------------------------------------

  /** The markers of a transient failure, all lower case. */
  const RetryMarkers: seq<string> :=
    ["rate limit", "timeout", "503", "502", "429", "econnreset", "network"]

  /** `isRetryableError`: the lower-cased message mentions a marker. */
  function IsRetryableError(message: string): bool {
    var m := AsciiLower(message);
    || Includes(m, "rate limit")
    || Includes(m, "timeout")
    || Includes(m, "503")
    || Includes(m, "502")
    || Includes(m, "429")
    || Includes(m, "econnreset")
    || Includes(m, "network")
  }

  /** A message is retryable exactly when one of the markers occurs somewhere
      in its lower-cased form. */
  lemma RetryableIffMarker(message: string)
    ensures IsRetryableError(message) <==>
            exists k :: 0 <= k < |RetryMarkers| && Includes(AsciiLower(message), RetryMarkers[k])
  {
    var m := AsciiLower(message);
    assert RetryMarkers[0] == "rate limit" && RetryMarkers[1] == "timeout";
    assert RetryMarkers[2] == "503" && RetryMarkers[3] == "502" && RetryMarkers[4] == "429";
    assert RetryMarkers[5] == "econnreset" && RetryMarkers[6] == "network";
  }

  /** The classification ignores ASCII case. */
  lemma RetryableIgnoresCase(message: string)
    ensures IsRetryableError(AsciiLower(message)) == IsRetryableError(message)
  {
    AsciiLowerIdempotent(message);
  }

  /** Every marker has one of the characters t, 5, 4 or c, so a message
      without any of them in either case, such as "invalid api key", is not
      retried. */
  lemma NotRetryableWithoutMarkerChars(message: string)
    requires var l := AsciiLower(message); 't' !in l && '5' !in l && '4' !in l && 'c' !in l
    ensures !IsRetryableError(message)
  {
    var l := AsciiLower(message);
    MissingCharExcludes(l, "rate limit", 2);
    MissingCharExcludes(l, "timeout", 0);
    MissingCharExcludes(l, "503", 0);
    MissingCharExcludes(l, "502", 0);
    MissingCharExcludes(l, "429", 0);
    MissingCharExcludes(l, "econnreset", 1);
    MissingCharExcludes(l, "network", 2);
  }

  /** A marker is found whatever the case it is written in and whatever
      surrounds it: any message containing "TIMEOUT" is retried. */
  lemma UpperCaseTimeoutRetryable(before: string, after: string)
    ensures IsRetryableError(before + "TIMEOUT" + after)
  {
    var s := before + "TIMEOUT" + after;
    var m := AsciiLower(s);
    var n := |before|;
    assert s[n..n + 7] == "TIMEOUT";
    assert m[n..n + 7] == "timeout" by {
      forall j | 0 <= j < 7
        ensures m[n + j] == "timeout"[j]
      {
        assert s[n + j] == "TIMEOUT"[j];
      }
    }
    assert OccursAt(m, "timeout", n);
  }

  // ---------------------------------------------------------------------------
  // Backoff
  // ---------------------------------------------------------------------------

  function Min(a: real, b: real): real {
    if a <= b then a else b
  }

  /** `Math.min(delay * backoffMultiplier, maxDelayMs)`: the grown delay,
      unless that passes the cap. */
  function NextDelay(p: RetryConfig, delay: real): (d: real)
    ensures d <= p.maxDelayMs && d <= delay * p.backoffMultiplier
    ensures d == p.maxDelayMs || d == delay * p.backoffMultiplier
  {
    Min(delay * p.backoffMultiplier, p.maxDelayMs)
  }

  /** The sleep taken after the failed attempt number `k` (0-based). */
  function Delay(p: RetryConfig, k: nat): (d: real)
    ensures p.initialDelayMs >= 0.0 && p.backoffMultiplier >= 0.0 && p.maxDelayMs >= 0.0 ==> d >= 0.0
  {
    if k == 0 then p.initialDelayMs else NextDelay(p, Delay(p, k - 1))
  }

  /** The first `k` sleeps of a run. */
  function Delays(p: RetryConfig, k: nat): (r: seq<real>)
    ensures |r| == k
  {
    seq(k, j requires 0 <= j < k => Delay(p, j))
  }

  /** `a * m^n`, the uncapped geometric delay. */
  function Geometric(a: real, m: real, n: nat): real {
    if n == 0 then a else Geometric(a, m, n - 1) * m
  }

  lemma ScaleUp(a: real, m: real)
    requires a >= 0.0 && m >= 1.0
    ensures a * m >= a
  {
    assert a * m - a == a * (m - 1.0);
  }

  /** With a multiplier of at least one, every sleep is the geometric delay
      `initialDelayMs * backoffMultiplier^k` capped at `maxDelayMs` (the first
      one, uncapped, excepted): capping early never changes a later value. */
  lemma {:induction false} DelayClosedForm(p: RetryConfig, k: nat)
    requires p.backoffMultiplier >= 1.0 && p.maxDelayMs >= 0.0
    requires k >= 1
    ensures Delay(p, k) == Min(Geometric(p.initialDelayMs, p.backoffMultiplier, k), p.maxDelayMs)
  {
    var m := p.backoffMultiplier;
    var cap := p.maxDelayMs;
    if k > 1 {
      DelayClosedForm(p, k - 1);
      var g := Geometric(p.initialDelayMs, m, k - 1);
      if g > cap {
        ScaleUp(cap, m);
        ScaleUp(g, m);
      }
    }
  }

  /** No sleep after the first exceeds `maxDelayMs`. */
  lemma DelayCapped(p: RetryConfig, k: nat)
    requires k >= 1
    ensures Delay(p, k) <= p.maxDelayMs
  {
  }

  /** Under the default policy the sleeps are 1000, 2000, 4000, 8000, then
      10000 from there on. */
  lemma DefaultSchedule()
    ensures Delays(DefaultRetry, 6) == [1000.0, 2000.0, 4000.0, 8000.0, 10000.0, 10000.0]
  {
    var p := DefaultRetry;
    assert Delay(p, 0) == 1000.0;
    assert Delay(p, 1) == 2000.0;
    assert Delay(p, 2) == 4000.0;
    assert Delay(p, 3) == 8000.0;
    assert Delay(p, 4) == 10000.0;
    assert Delay(p, 5) == 10000.0;
  }

  // ---------------------------------------------------------------------------
  // Runs
  // ---------------------------------------------------------------------------

  /** What one call of the wrapped operation produced. */
  datatype Attempt<T> = Ok(value: T) | Err(message: string)

  /** How `withRetry` ended. `Threw(None)` is the `throw null` of a policy
      with a negative `maxRetries`, where no attempt is made at all. */
  datatype Ending<T> = Returned(value: T) | Threw(error: Option<string>)

  datatype RetryRun<T> = RetryRun(ending: Ending<T>, attempts: nat, sleeps: seq<real>)

  /** Attempt number `j` failed with a retryable error. */
  predicate FailedRetryably<T>(outcomes: seq<Attempt<T>>, j: int) {
    0 <= j < |outcomes| && outcomes[j].Err? && IsRetryableError(outcomes[j].message)
  }

  /** Attempts `from` up to (excluding) `to` all failed with a retryable error. */
  predicate RetriedBetween<T>(outcomes: seq<Attempt<T>>, from: nat, to: nat) {
    forall j :: from <= j < to ==> FailedRetryably(outcomes, j)
  }

  /** `run` is what the loop does when it starts at attempt number `from`:
      every attempt before the last one failed retryably and was followed by
      its sleep, and the last one either succeeded, or failed for good because
      the budget was spent or the error is not retryable. */
  ghost predicate IsRunFrom<T>(p: RetryConfig, outcomes: seq<Attempt<T>>, from: nat, run: RetryRun<T>)
    requires p.maxRetries < |outcomes|
  {
    && from < run.attempts <= p.maxRetries + 1
    && RetriedBetween(outcomes, from, run.attempts - 1)
    && |run.sleeps| == run.attempts - 1 - from
    && (forall j :: 0 <= j < |run.sleeps| ==> run.sleeps[j] == Delay(p, from + j))
    && match outcomes[run.attempts - 1]
       case Ok(v) => run.ending == Returned(v)
       case Err(m) =>
         && run.ending == Threw(Some(m))
         && (run.attempts - 1 == p.maxRetries || !IsRetryableError(m))
  }

  /** The behaviour of `withRetry` as a whole. */
  ghost predicate IsRunOf<T>(p: RetryConfig, outcomes: seq<Attempt<T>>, run: RetryRun<T>)
    requires p.maxRetries < |outcomes|
  {
    if p.maxRetries < 0 then run == RetryRun(Threw(None), 0, [])
    else IsRunFrom(p, outcomes, 0, run)
  }

  /** The loop of `withRetry` from attempt number `attempt` on. */
  function Attempts<T>(p: RetryConfig, outcomes: seq<Attempt<T>>, attempt: nat): (run: RetryRun<T>)
    requires attempt <= p.maxRetries < |outcomes|
    ensures IsRunFrom(p, outcomes, attempt, run)
    decreases p.maxRetries - attempt
  {
    match outcomes[attempt]
    case Ok(v) => RetryRun(Returned(v), attempt + 1, [])
    case Err(m) =>
      if attempt == p.maxRetries || !IsRetryableError(m) then
        RetryRun(Threw(Some(m)), attempt + 1, [])
      else
        var rest := Attempts(p, outcomes, attempt + 1);
        RetryStep(p, outcomes, attempt, rest);
        RetryRun(rest.ending, rest.attempts, [Delay(p, attempt)] + rest.sleeps)
  }

  /** A retryable failure, its sleep, then a run from the next attempt, is
      a run from this attempt. */
  lemma RetryStep<T>(p: RetryConfig, outcomes: seq<Attempt<T>>, attempt: nat, rest: RetryRun<T>)
    requires attempt < p.maxRetries < |outcomes|
    requires FailedRetryably(outcomes, attempt)
    requires IsRunFrom(p, outcomes, attempt + 1, rest)
    ensures IsRunFrom(p, outcomes, attempt, RetryRun(rest.ending, rest.attempts, [Delay(p, attempt)] + rest.sleeps))
  {
    var sleeps := [Delay(p, attempt)] + rest.sleeps;
    forall j | 0 <= j < |sleeps|
      ensures sleeps[j] == Delay(p, attempt + j)
    {
      if j > 0 {
        assert sleeps[j] == rest.sleeps[j - 1];
      }
    }
  }

  /** `withRetry(fn, policy)`: the attempts needed are the outcomes `0..maxRetries`. */
  function WithRetry<T>(p: RetryConfig, outcomes: seq<Attempt<T>>): (run: RetryRun<T>)
    requires p.maxRetries < |outcomes|
    ensures IsRunOf(p, outcomes, run)
  {
    if p.maxRetries < 0 then RetryRun(Threw(None), 0, []) else Attempts(p, outcomes, 0)
  }

  /** The description `IsRunOf` admits exactly one run. */
  lemma RunUnique<T>(p: RetryConfig, outcomes: seq<Attempt<T>>, r1: RetryRun<T>, r2: RetryRun<T>)
    requires p.maxRetries < |outcomes|
    requires IsRunOf(p, outcomes, r1) && IsRunOf(p, outcomes, r2)
    ensures r1 == r2
  {
    if p.maxRetries >= 0 {
      var a1 := r1.attempts - 1;
      var a2 := r2.attempts - 1;
      assert a1 < a2 ==> FailedRetryably(outcomes, a1);
      assert a2 < a1 ==> FailedRetryably(outcomes, a2);
      assert a1 == a2;
    }
  }

  /** The loop of `withRetry` as written: `attempt` counts from 0 to
      `maxRetries`, the budget check comes before the retryability check, and
      the delay is multiplied and capped after each sleep. */
  method RunWithRetry<T>(p: RetryConfig, outcomes: seq<Attempt<T>>) returns (run: RetryRun<T>)
    requires p.maxRetries < |outcomes|
    ensures IsRunOf(p, outcomes, run)
    ensures run == WithRetry(p, outcomes)
  {
    var lastError: Option<string> := None;
    var delay := p.initialDelayMs;
    var sleeps: seq<real> := [];
    var attempt: nat := 0;
    while attempt <= p.maxRetries
      invariant attempt <= p.maxRetries || attempt == 0
      invariant attempt == 0 ==> lastError == None
      invariant delay == Delay(p, attempt)
      invariant sleeps == Delays(p, attempt)
      invariant attempt <= |outcomes| && RetriedBetween(outcomes, 0, attempt)
    {
      match outcomes[attempt] {
        case Ok(v) =>
          run := RetryRun(Returned(v), attempt + 1, sleeps);
          assert IsRunOf(p, outcomes, run);
          RunUnique(p, outcomes, run, WithRetry(p, outcomes));
          return;
        case Err(m) =>
          lastError := Some(m);
          if attempt == p.maxRetries || !IsRetryableError(m) {
            run := RetryRun(Threw(lastError), attempt + 1, sleeps);
            assert IsRunOf(p, outcomes, run);
            RunUnique(p, outcomes, run, WithRetry(p, outcomes));
            return;
          }
          sleeps := sleeps + [delay];
          delay := NextDelay(p, delay);
      }
      attempt := attempt + 1;
    }
    run := RetryRun(Threw(lastError), attempt, sleeps);
  }

  // ---------------------------------------------------------------------------
  // Counting properties
  // ---------------------------------------------------------------------------

  /** The first success ends the loop: after `k` retryable failures, a
      success at attempt `k` is returned with `k` sleeps taken. */
  lemma ReturnsFirstSuccess<T>(p: RetryConfig, outcomes: seq<Attempt<T>>, k: nat)
    requires k <= p.maxRetries < |outcomes|
    requires RetriedBetween(outcomes, 0, k) && outcomes[k].Ok?
    ensures WithRetry(p, outcomes) == RetryRun(Returned(outcomes[k].value), k + 1, Delays(p, k))
  {
    var run := WithRetry(p, outcomes);
    assert run.attempts - 1 < k ==> FailedRetryably(outcomes, run.attempts - 1);
    assert k < run.attempts - 1 ==> FailedRetryably(outcomes, k);
  }

  /** An operation that always fails retryably is attempted exactly
      `maxRetries + 1` times, sleeps exactly `maxRetries` times, and the last
      error is the one thrown. */
  lemma ExhaustsBudget<T>(p: RetryConfig, outcomes: seq<Attempt<T>>)
    requires 0 <= p.maxRetries < |outcomes|
    requires forall j :: 0 <= j <= p.maxRetries ==> outcomes[j].Err? && IsRetryableError(outcomes[j].message)
    ensures WithRetry(p, outcomes)
         == RetryRun(Threw(Some(outcomes[p.maxRetries].message)), p.maxRetries + 1, Delays(p, p.maxRetries))
  {
    var run := WithRetry(p, outcomes);
    assert run.attempts - 1 < p.maxRetries ==> FailedRetryably(outcomes, run.attempts - 1);
  }

  /** A non-retryable error ends the loop at once, with budget left or not:
      no sleep follows it and it is the error thrown. */
  lemma StopsOnFatalError<T>(p: RetryConfig, outcomes: seq<Attempt<T>>, k: nat)
    requires k <= p.maxRetries < |outcomes|
    requires RetriedBetween(outcomes, 0, k)
    requires outcomes[k].Err? && !IsRetryableError(outcomes[k].message)
    ensures WithRetry(p, outcomes) == RetryRun(Threw(Some(outcomes[k].message)), k + 1, Delays(p, k))
  {
    var run := WithRetry(p, outcomes);
    assert run.attempts - 1 < k ==> FailedRetryably(outcomes, run.attempts - 1);
    assert k < run.attempts - 1 ==> FailedRetryably(outcomes, k);
  }

  /** A run sleeps once between consecutive attempts and never after the last. */
  lemma SleepsBetweenAttempts<T>(p: RetryConfig, outcomes: seq<Attempt<T>>)
    requires p.maxRetries < |outcomes|
    ensures |WithRetry(p, outcomes).sleeps| == if p.maxRetries < 0 then 0 else WithRetry(p, outcomes).attempts - 1
  {
  }
}
