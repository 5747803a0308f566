/** The attempt loop of `with_timeout_and_retry` and the defaulting of
    `with_configurable_timeout_and_retry` (webhook-listener/src/timeout_utils.py).

    What attempt `k` (counting from 0) does is the parameter `attempt(k)`: it comes
    back with a value, times out, or raises. The sleep between attempts is counted,
    not timed. */
module Retry {
  import opened Wrappers

  const DefaultTimeout: int := 30
  const DefaultMaxRetries: int := 2

  datatype Failure<E> = TimedOut | Raised(error: E)

  datatype Attempt<T, E> = Completed(value: T) | Failed(failure: Failure<E>)

  /** How the wrapper ends: with a value, by re-raising the last attempt's failure,
      or, when `range(max_retries + 1)` is empty, by falling off the end (`None`). */
  datatype Outcome<T, E> = Returned(value: T) | Reraised(failure: Failure<E>) | FellThrough

  /** The first of attempts `0 .. n-1` that completes. */
  function FirstCompleted<T, E>(attempt: nat -> Attempt<T, E>, n: nat): (k: Option<nat>)
    ensures k.Some? ==> k.value < n && attempt(k.value).Completed?
                        && forall j :: 0 <= j < k.value ==> attempt(j).Failed?
    ensures k.None? ==> forall j :: 0 <= j < n ==> attempt(j).Failed?
  {
    if n == 0 then None
    else match FirstCompleted(attempt, n - 1)
      case Some(k) => Some(k)
      case None => if attempt(n - 1).Completed? then Some(n - 1) else None
  }

  /** The number of attempts `range(max_retries + 1)` allows. */
  function AttemptBudget(maxRetries: int): nat {
    if maxRetries < 0 then 0 else maxRetries + 1
  }

  /** The loop: an attempt that completes is returned at once; a failure sleeps and
      goes on unless it was the last attempt, which re-raises it. */
  method WithTimeoutAndRetry<T, E>(maxRetries: int, attempt: nat -> Attempt<T, E>)
    returns (r: Outcome<T, E>, attempts: nat, sleeps: nat)
    ensures attempts <= AttemptBudget(maxRetries)
    ensures sleeps == if attempts == 0 then 0 else attempts - 1
    ensures match FirstCompleted(attempt, AttemptBudget(maxRetries))
      case Some(k) => r == Returned(attempt(k).value) && attempts == k + 1
      case None =>
        && attempts == AttemptBudget(maxRetries)
        && (if attempts == 0 then r == FellThrough else r == Reraised(attempt(attempts - 1).failure))
  {
    attempts, sleeps := 0, 0;
    var k: nat := 0;
    while k < AttemptBudget(maxRetries)
      invariant k <= AttemptBudget(maxRetries)
      invariant attempts == k && sleeps == k && (k > 0 ==> k <= maxRetries)
      invariant FirstCompleted(attempt, k).None?
    {
      var a := attempt(k);
      attempts := attempts + 1;
      if a.Completed? {
        return Returned(a.value), attempts, sleeps;
      }
      if k == maxRetries {
        return Reraised(a.failure), attempts, sleeps;
      }
      sleeps := sleeps + 1;
      k := k + 1;
    }
    return FellThrough, attempts, sleeps;
  }

  /** `getattr(settings, name, default)` over the settings' defined fields. */
  function Setting(settings: map<string, int>, name: string, default: int): (v: int)
    ensures name in settings ==> v == settings[name]
    ensures name !in settings ==> v == default
  {
    if name in settings then settings[name] else default
  }

  /** `with_configurable_timeout_and_retry`: the timeout and the retry count it hands
      to the loop. */
  function ConfiguredLimits(settings: map<string, int>, timeoutSetting: string, retriesSetting: string)
    : (limits: (int, int))
    ensures timeoutSetting !in settings ==> limits.0 == DefaultTimeout
    ensures retriesSetting !in settings ==> limits.1 == DefaultMaxRetries
    ensures timeoutSetting in settings ==> limits.0 == settings[timeoutSetting]
    ensures retriesSetting in settings ==> limits.1 == settings[retriesSetting]
  {
    (Setting(settings, timeoutSetting, DefaultTimeout), Setting(settings, retriesSetting, DefaultMaxRetries))
  }

  // ---------------------------------------------------------------------------

  /** With the defaults, an operation that never completes is tried three times and
      slept after twice, and its last failure comes back. */
  method AlwaysFailingDefault<E>(failure: Failure<E>) returns (r: Outcome<int, E>, attempts: nat, sleeps: nat)
    ensures r == Reraised(failure) && attempts == 3 && sleeps == 2
  {
    r, attempts, sleeps := WithTimeoutAndRetry(DefaultMaxRetries, (k: nat) => Failed(failure));
  }

  /** An operation that succeeds on its second try is called exactly twice. */
  method SecondTimeLucky<E>(value: int, first: Failure<E>) returns (r: Outcome<int, E>, attempts: nat, sleeps: nat)
    ensures r == Returned(value) && attempts == 2 && sleeps == 1
  {
    var attempt := (k: nat) => if k == 0 then Failed(first) else Completed(value);
    assert FirstCompleted(attempt, 3) == Some(1) by {
      assert FirstCompleted(attempt, 1) == None;
      assert FirstCompleted(attempt, 2) == Some(1);
    }
    r, attempts, sleeps := WithTimeoutAndRetry(DefaultMaxRetries, attempt);
  }

  /** Timeouts and exceptions are retried alike: the outcome depends only on which
      attempts complete and what the last failure was. */
  lemma {:induction false} FailureKindIrrelevant<T, E>(a: nat -> Attempt<T, E>, b: nat -> Attempt<T, E>, n: nat)
    requires forall k :: 0 <= k < n ==> (a(k).Completed? <==> b(k).Completed?)
    requires forall k :: 0 <= k < n && a(k).Completed? ==> a(k) == b(k)
    ensures FirstCompleted(a, n) == FirstCompleted(b, n)
  {
    if n > 0 {
      FailureKindIrrelevant(a, b, n - 1);
    }
  }

  /** A settings object without the two fields (the listener's has neither) gives
      the defaults 30 and 2. */
  lemma ListenerDefaults(settings: map<string, int>)
    requires "webhook_startup_timeout" !in settings && "webhook_startup_retries" !in settings
    ensures ConfiguredLimits(settings, "webhook_startup_timeout", "webhook_startup_retries") == (30, 2)
  {
  }
}
