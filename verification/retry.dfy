/** The retry decorator: a bounded loop that calls an operation again only
    when it raised one of the checked exception classes, waiting a delay that
    is multiplied by `backoff` after every caught failure.

    The decorated coroutine is an attempt-indexed function `op`: `op(i)` is
    what the `i`-th call (counting from 0) returns or raises, so a flaky
    dependency is any function of the call number. Waits are recorded as the
    list of delays handed to the IOLoop timer, not slept. */
module Retry {
  import opened Wrappers
  import opened Errors

  datatype RetryRun<T> = RetryRun(result: Outcome<T>, calls: nat, waits: seq<real>)

  function Pow(b: real, k: nat): real {
    if k == 0 then 1.0 else b * Pow(b, k - 1)
  }

  /** The outcome is caught by `except exception_to_check`. */
  predicate Caught<T>(r: Outcome<T>, checked: set<Kind>) {
    r.Failure? && r.error.kind in checked
  }

  /** How many calls the loop allows at most: the loop runs while more than one
      try is left, and the last call is made after it, so `max(tries, 1)`. */
  function Bound(tries: int): nat {
    if tries > 1 then tries else 1
  }

  /** One pass of `while number_of_tries > 1` per call, then the final call
      outside the `try`; `i` is the number of calls already made. The contract
      pins the run down completely: every call before the last was caught, the
      last call's outcome is returned or raised unchanged, the loop stops early
      only on an outcome it does not catch, and the k-th wait is
      `delay * backoff^k`. */
  function Attempts<T>(op: nat -> Outcome<T>, checked: set<Kind>, numberOfTries: int,
                       delaySeconds: real, backoff: real, i: nat): (run: RetryRun<T>)
    ensures 1 <= run.calls <= Bound(numberOfTries)
    ensures |run.waits| == run.calls - 1
    ensures run.result == op(i + run.calls - 1)
    ensures forall j :: i <= j < i + run.calls - 1 ==> Caught(op(j), checked)
    ensures run.calls < Bound(numberOfTries) ==> !Caught(run.result, checked)
    ensures Geometric(run.waits, delaySeconds, backoff)
    decreases if numberOfTries > 1 then numberOfTries else 0
  {
    if numberOfTries > 1 then
      var r := op(i);
      if Caught(r, checked) then
        var next := delaySeconds * backoff;
        var rest := Attempts(op, checked, numberOfTries - 1, next, backoff, i + 1);
        GeometricPrepend(delaySeconds, backoff, next, rest.waits);
        RetryRun(rest.result, rest.calls + 1, [delaySeconds] + rest.waits)
      else
        RetryRun(r, 1, [])
    else
      RetryRun(op(i), 1, [])
  }

  /** The k-th wait is `d * b^k`. */
  predicate Geometric(waits: seq<real>, d: real, b: real) {
    forall k :: 0 <= k < |waits| ==> waits[k] == d * Pow(b, k)
  }

  lemma MulAssociates(x: real, y: real, z: real)
    ensures (x * y) * z == x * (y * z)
  {
  }

  /** Waiting `d` before a geometric series that starts at `d * b` extends the series by one term. */
  lemma GeometricPrepend(d: real, b: real, next: real, rest: seq<real>)
    requires next == d * b
    requires Geometric(rest, next, b)
    ensures Geometric([d] + rest, d, b)
  {
    forall k | 0 <= k < |rest| + 1
      ensures ([d] + rest)[k] == d * Pow(b, k)
    {
      if k > 0 {
        var p := Pow(b, k - 1);
        assert Pow(b, k) == b * p;
        calc {
          ([d] + rest)[k];
          rest[k - 1];
          next * p;
          (d * b) * p;
          { MulAssociates(d, b, p); }
          d * (b * p);
          d * Pow(b, k);
        }
      }
    }
  }

  /** `retry(exception_to_check, tries, delay, backoff)(function)()`. */
  function Retry<T>(op: nat -> Outcome<T>, checked: set<Kind>, tries: int, delay: real, backoff: real): (run: RetryRun<T>)
    ensures 1 <= run.calls <= Bound(tries)
    ensures run.result == op(run.calls - 1)
    ensures forall j :: 0 <= j < run.calls - 1 ==> Caught(op(j), checked)
    ensures run.calls < Bound(tries) ==> !Caught(run.result, checked)
    ensures |run.waits| == run.calls - 1
    ensures forall k :: 0 <= k < |run.waits| ==> run.waits[k] == delay * Pow(backoff, k)
  {
    Attempts(op, checked, tries, delay, backoff, 0)
  }

  /** With one try or fewer the loop is skipped: exactly one call, whose outcome is the wrapper's. */
  lemma SingleTry<T>(op: nat -> Outcome<T>, checked: set<Kind>, tries: int, delay: real, backoff: real)
    requires tries <= 1
    ensures Retry(op, checked, tries, delay, backoff) == RetryRun(op(0), 1, [])
  {
  }

  /** A successful call returns at once: no further call and no further wait. */
  lemma SuccessStops<T>(op: nat -> Outcome<T>, checked: set<Kind>, tries: int, delay: real, backoff: real, n: nat)
    requires n < Bound(tries)
    requires forall j :: 0 <= j < n ==> Caught(op(j), checked)
    requires op(n).Success?
    ensures Retry(op, checked, tries, delay, backoff).calls == n + 1
    ensures Retry(op, checked, tries, delay, backoff).result == op(n)
    ensures |Retry(op, checked, tries, delay, backoff).waits| == n
  {
    var run := Retry(op, checked, tries, delay, backoff);
    var last: nat := run.calls - 1;
    assert !Caught(op(n), checked);
    assert op(last) == run.result;
  }

  /** One caught failure followed by an outcome the decorator does not
      catch: two calls, one wait of `delay`, and the second call's outcome. */
  lemma RetriedOnce<T>(op: nat -> Outcome<T>, checked: set<Kind>, tries: int, delay: real, backoff: real)
    requires tries > 1
    requires Caught(op(0), checked) && !Caught(op(1), checked)
    ensures Retry(op, checked, tries, delay, backoff) == RetryRun(op(1), 2, [delay])
  {
    var rest := Attempts(op, checked, tries - 1, delay * backoff, backoff, 1);
    assert rest.calls == 1;
  }

  /** An exception the decorator does not check escapes from the call that
      raised it, with no wait and no retry. */
  lemma UncheckedEscapes<T>(op: nat -> Outcome<T>, checked: set<Kind>, tries: int, delay: real, backoff: real)
    requires op(0).Failure? && op(0).error.kind !in checked
    ensures Retry(op, checked, tries, delay, backoff) == RetryRun(op(0), 1, [])
  {
  }

  /** When every call is caught the loop runs out: exactly `max(tries, 1)`
      calls, `max(tries, 1) - 1` waits, and the final call's outcome, caught
      kind or not, is what the wrapper raises. */
  lemma Exhausted<T>(op: nat -> Outcome<T>, checked: set<Kind>, tries: int, delay: real, backoff: real)
    requires forall j :: 0 <= j < Bound(tries) - 1 ==> Caught(op(j), checked)
    ensures Retry(op, checked, tries, delay, backoff).calls == Bound(tries)
    ensures Retry(op, checked, tries, delay, backoff).result == op(Bound(tries) - 1)
    ensures |Retry(op, checked, tries, delay, backoff).waits| == Bound(tries) - 1
  {
    var run := Retry(op, checked, tries, delay, backoff);
    var last: nat := run.calls - 1;
    assert op(last) == run.result;
  }

  /** With zero delay (the NEXTBUS_SERVICE_RETRIES_DELAY setting) every wait is zero. */
  lemma ZeroDelayNeverWaits<T>(op: nat -> Outcome<T>, checked: set<Kind>, tries: int, backoff: real)
    ensures forall k :: 0 <= k < |Retry(op, checked, tries, 0.0, backoff).waits| ==>
      Retry(op, checked, tries, 0.0, backoff).waits[k] == 0.0
  {
    var run := Retry(op, checked, tries, 0.0, backoff);
    assert Geometric(run.waits, 0.0, backoff);
  }

  const TemporarilyOnly: set<Kind> := {ExternalProviderUnavailableTemporarily}

  /** The operation of test_retry_if_exception_to_check: the first two calls
      raise ExternalProviderUnavailableTemporarily, the third returns. */
  function FlakyTwice(i: nat): Outcome<()> {
    if i < 2 then Raise(ExternalProviderUnavailableTemporarily, "some error") else Success(())
  }

  /** The decorated call succeeds after exactly three calls, having waited 0.1 s and then 0.01 s. */
  lemma RetryScenario()
    ensures Retry(FlakyTwice, TemporarilyOnly, 3, 0.1, 0.1) == RetryRun(Success(()), 3, [0.1, 0.01])
  {
    var run := Retry(FlakyTwice, TemporarilyOnly, 3, 0.1, 0.1);
    SuccessStops(FlakyTwice, TemporarilyOnly, 3, 0.1, 0.1, 2);
    assert run.waits[0] == 0.1 * Pow(0.1, 0);
    assert run.waits[1] == 0.1 * Pow(0.1, 1);
  }
}
