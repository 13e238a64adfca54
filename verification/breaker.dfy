/** The circuit breaker guarding the NextBus dependency: a closed / open /
    half-open machine over an injected clock, and the set of breakers keyed by
    dependency name.

    The clock is a parameter: every operation that reads `clock()` takes the
    reading `now` (seconds, exact reals). Only the behaviour the breaker's own
    scenarios pin down is proved; where they are silent the model makes one
    fixed choice, named at the operation. */
module CircuitBreaker {
  import opened Wrappers
  import opened Errors

  datatype State = Closed | Open | HalfOpen

  /** `maxfail`, `reset_timeout` and `time_unit` of `CircuitBreaker(...)`. */
  datatype Config = Config(maxFail: nat, resetTimeout: real, timeUnit: real)

  /** `errors` is the list of clock readings of the recorded errors;
      `openedAt` is the reading taken when the breaker last opened. */
  datatype Breaker = Breaker(config: Config, handled: set<Kind>, state: State,
                             errors: seq<real>, openedAt: real)

  function Fresh(config: Config, handled: set<Kind>): Breaker {
    Breaker(config, handled, Closed, [], 0.0)
  }

  /** How many recorded errors are strictly younger than `timeUnit` at `now`. */
  function RecentCount(errors: seq<real>, now: real, timeUnit: real): (n: nat)
    ensures n <= |errors|
  {
    if |errors| == 0 then 0
    else RecentCount(errors[..|errors| - 1], now, timeUnit)
         + (if now - errors[|errors| - 1] < timeUnit then 1 else 0)
  }

  /** `error()`: the reading is appended to the error list. A closed breaker
      opens, with `openedAt = now`, as soon as more than `maxFail` recorded
      errors are strictly younger than `timeUnit`. Unpinned by the scenarios
      and fixed here: an error while half-open re-opens the breaker, and an
      error while open leaves it open. */
  function RecordError(b: Breaker, now: real): (r: Breaker)
    ensures r.config == b.config && r.handled == b.handled
    ensures r.errors == b.errors + [now]
    ensures b.state == Closed ==>
      (r.state == Open <==> RecentCount(r.errors, now, b.config.timeUnit) > b.config.maxFail)
    ensures r.state == Closed || r.state == Open
    ensures r.state == Open && b.state != Open ==> r.openedAt == now
  {
    var errors := b.errors + [now];
    match b.state
    case Closed =>
      if RecentCount(errors, now, b.config.timeUnit) > b.config.maxFail
      then b.(state := Open, errors := errors, openedAt := now)
      else b.(errors := errors)
    case HalfOpen => b.(state := Open, errors := errors, openedAt := now)
    case Open => b.(errors := errors)
  }

  /** `success()`: the breaker closes and forgets its errors. */
  function RecordSuccess(b: Breaker): (r: Breaker)
    ensures r.state == Closed && r.errors == []
    ensures r.config == b.config && r.handled == b.handled
  {
    b.(state := Closed, errors := [])
  }

  /** `test()`: returns the state name, or raises CircuitOpenError while the
      breaker is open and less than `resetTimeout` has elapsed; once it has
      elapsed the breaker becomes half-open. The breaker is returned with the
      answer because `test()` may move it. */
  function Test(b: Breaker, now: real): (r: Result<(State, Breaker), Exc>)
    ensures r.Failure? <==> b.state == Open && now - b.openedAt < b.config.resetTimeout
    ensures r.Failure? ==> r.error.kind == CircuitOpenError
    ensures r.Success? ==> r.value.0 == r.value.1.state && r.value.1 == b.(state := r.value.0)
    ensures r.Success? ==> (r.value.0 == HalfOpen <==> b.state != Closed)
  {
    match b.state
    case Closed => Success((Closed, b))
    case HalfOpen => Success((HalfOpen, b))
    case Open =>
      if now - b.openedAt < b.config.resetTimeout
      then Failure(Exc(CircuitOpenError, "circuit is open"))
      else Success((HalfOpen, b.(state := HalfOpen)))
  }

  /** What `with breaker:` did: the outcome seen by the caller, the breaker
      afterwards, and whether the body ran at all. */
  datatype GuardRun<T> = GuardRun(result: Outcome<T>, breaker: Breaker, ran: bool)

  /** `with breaker: body`. On entry `test()` is called (`enteredAt`); if it
      raises, the body does not run. On exit (`exitedAt`) a body that raised a
      handled kind is recorded with `error()`, one that raised any other kind
      passes through untouched, and one that returned calls `success()`. The
      body's own exception is always re-raised unchanged. */
  function Guarded<T>(b: Breaker, enteredAt: real, body: Outcome<T>, exitedAt: real): (g: GuardRun<T>)
    ensures g.ran <==> Test(b, enteredAt).Success?
    ensures !g.ran ==> g.result.Failure? && g.result.error.kind == CircuitOpenError && g.breaker == b
    ensures g.ran ==> g.result == body
    ensures g.ran && body.Success? ==> g.breaker.state == Closed
    ensures g.ran && body.Failure? && body.error.kind in b.handled ==>
      g.breaker.errors == b.errors + [exitedAt]
    ensures g.ran && body.Failure? && body.error.kind !in b.handled ==>
      g.breaker.errors == b.errors
  {
    match Test(b, enteredAt)
    case Failure(e) => GuardRun(Failure(e), b, false)
    case Success((_, entered)) =>
      if body.Success? then GuardRun(body, RecordSuccess(entered), true)
      else if body.error.kind in b.handled then GuardRun(body, RecordError(entered, exitedAt), true)
      else GuardRun(body, entered, true)
  }

  /** Applying `error()` once at each reading, in order. */
  function ErrorsAt(b: Breaker, times: seq<real>): (r: Breaker)
    ensures r.config == b.config && r.handled == b.handled
    ensures |r.errors| == |b.errors| + |times|
  {
    if |times| == 0 then b else RecordError(ErrorsAt(b, times[..|times| - 1]), times[|times| - 1])
  }

  /** An unhandled exception inside the guard passes through and the breaker records nothing. */
  lemma UnhandledPassesThrough<T>(b: Breaker, enteredAt: real, body: Outcome<T>, exitedAt: real)
    requires b.state == Closed
    requires body.Failure? && body.error.kind !in b.handled
    ensures Guarded(b, enteredAt, body, exitedAt) == GuardRun(body, b, true)
  {
  }

  /** A handled exception inside the guard is recorded exactly once and re-raised unchanged. */
  lemma HandledRecordedOnce<T>(b: Breaker, enteredAt: real, body: Outcome<T>, exitedAt: real)
    requires b.state == Closed
    requires body.Failure? && body.error.kind in b.handled
    ensures Guarded(b, enteredAt, body, exitedAt).result == body
    ensures |Guarded(b, enteredAt, body, exitedAt).breaker.errors| == |b.errors| + 1
  {
  }

  /** Leaving the guard normally while half-open closes the breaker. */
  lemma HalfOpenSuccessCloses<T>(b: Breaker, enteredAt: real, value: T, exitedAt: real)
    requires b.state == HalfOpen
    ensures Guarded(b, enteredAt, Success(value), exitedAt).breaker.state == Closed
    ensures Guarded(b, enteredAt, Success(value), exitedAt).result == Success(value)
  {
  }

  /** An open breaker refuses until `resetTimeout` has elapsed, then answers
      half-open, and after `success()` answers closed. */
  lemma OpenThenHalfOpenThenClosed(b: Breaker, early: real, late: real, later: real)
    requires b.state == Open
    requires early - b.openedAt < b.config.resetTimeout
    requires late - b.openedAt >= b.config.resetTimeout
    ensures Test(b, early).Failure? && Test(b, early).error.kind == CircuitOpenError
    ensures Test(b, late).Success? && Test(b, late).value.0 == HalfOpen
    ensures Test(RecordSuccess(Test(b, late).value.1), later) == Success((Closed, RecordSuccess(Test(b, late).value.1)))
  {
  }

  /** Errors recorded from a fresh breaker are kept in order. */
  lemma {:induction false} ErrorsAtRecords(c: Config, h: set<Kind>, times: seq<real>)
    ensures ErrorsAt(Fresh(c, h), times).errors == times
  {
    if |times| > 0 {
      ErrorsAtRecords(c, h, times[..|times| - 1]);
      assert times[..|times| - 1] + [times[|times| - 1]] == times;
    }
  }

  /** No more than `maxFail` errors never open a fresh breaker. */
  lemma {:induction false} FewErrorsStayClosed(c: Config, h: set<Kind>, times: seq<real>)
    requires |times| <= c.maxFail
    ensures ErrorsAt(Fresh(c, h), times).state == Closed
  {
    if |times| > 0 {
      var init := times[..|times| - 1];
      FewErrorsStayClosed(c, h, init);
      ErrorsAtRecords(c, h, init);
      var prev := ErrorsAt(Fresh(c, h), init);
      var next := RecordError(prev, times[|times| - 1]);
      assert ErrorsAt(Fresh(c, h), times) == next;
      assert |next.errors| == |times|;
    }
  }

  /** Every reading is younger than `timeUnit` at `now`, so every one counts. */
  lemma {:induction false} AllRecent(errors: seq<real>, now: real, timeUnit: real)
    requires forall j :: 0 <= j < |errors| ==> now - errors[j] < timeUnit
    ensures RecentCount(errors, now, timeUnit) == |errors|
  {
    if |errors| > 0 {
      AllRecent(errors[..|errors| - 1], now, timeUnit);
    }
  }

  /** Readings before index `m` are all at least `timeUnit` old, so at most
      the `|errors| - m` later ones count. */
  lemma {:induction false} OldDoNotCount(errors: seq<real>, now: real, timeUnit: real, m: nat)
    requires m <= |errors|
    requires forall j :: 0 <= j < m ==> now - errors[j] >= timeUnit
    ensures RecentCount(errors, now, timeUnit) <= |errors| - m
  {
    if |errors| > 0 {
      var init := errors[..|errors| - 1];
      if m == |errors| {
        OldDoNotCount(init, now, timeUnit, m - 1);
      } else {
        OldDoNotCount(init, now, timeUnit, m);
      }
    }
  }

  /** A burst of `maxFail + 1` errors, all within `timeUnit` of the last one,
      opens a fresh breaker. */
  lemma BurstOpens(c: Config, h: set<Kind>, times: seq<real>)
    requires |times| == c.maxFail + 1
    requires forall j :: 0 <= j < |times| ==> times[|times| - 1] - times[j] < c.timeUnit
    ensures ErrorsAt(Fresh(c, h), times).state == Open
  {
    var init := times[..|times| - 1];
    FewErrorsStayClosed(c, h, init);
    ErrorsAtRecords(c, h, times);
    AllRecent(times, times[|times| - 1], c.timeUnit);
    var prev := ErrorsAt(Fresh(c, h), init);
    assert ErrorsAt(Fresh(c, h), times) == RecordError(prev, times[|times| - 1]);
  }

  /** Consecutive readings are at least `d` apart. */
  predicate Spaced(times: seq<real>, d: real) {
    forall i :: 0 < i < |times| ==> times[i] - times[i - 1] >= d
  }

  lemma SpacedPrefix(times: seq<real>, d: real, n: nat)
    requires Spaced(times, d) && n <= |times|
    ensures Spaced(times[..n], d)
  {
    forall i | 0 < i < n ensures times[..n][i] - times[..n][i - 1] >= d {
      assert times[..n][i] == times[i] && times[..n][i - 1] == times[i - 1];
    }
  }

  /** Readings at least `d` apart are at least `(k - j) * d` apart over `k - j` steps. */
  lemma {:induction false} SpacedChain(times: seq<real>, d: real, j: nat, k: nat)
    requires j <= k < |times|
    requires Spaced(times, d)
    ensures times[k] - times[j] >= (k - j) as real * d
  {
    if k > j {
      SpacedChain(times, d, j, k - 1);
      assert (k - j) as real * d == (k - 1 - j) as real * d + d;
    }
  }

  lemma ScaleMonotone(a: nat, b: nat, d: real)
    requires a <= b && d >= 0.0
    ensures a as real * d <= b as real * d
  {
  }

  /** With gaps of at least `d` and `maxFail * d >= timeUnit`, every reading
      more than `maxFail - 1` places before the `k`-th is `timeUnit` old at it. */
  lemma SpacedOld(times: seq<real>, d: real, maxFail: nat, timeUnit: real, k: nat)
    requires d > 0.0
    requires maxFail as real * d >= timeUnit
    requires Spaced(times, d)
    requires maxFail <= k < |times|
    ensures forall j :: 0 <= j <= k - maxFail ==> times[k] - times[j] >= timeUnit
  {
    forall j | 0 <= j <= k - maxFail ensures times[k] - times[j] >= timeUnit {
      SpacedChain(times, d, j, k);
      ScaleMonotone(maxFail, k - j, d);
    }
  }

  /** At most `maxFail` of the readings up to a spaced reading are younger than `timeUnit` at it. */
  lemma SpacedFewRecent(times: seq<real>, d: real, maxFail: nat, timeUnit: real)
    requires d > 0.0
    requires maxFail as real * d >= timeUnit
    requires Spaced(times, d)
    requires |times| > 0
    ensures RecentCount(times, times[|times| - 1], timeUnit) <= maxFail
  {
    var k := |times| - 1;
    if k >= maxFail {
      SpacedOld(times, d, maxFail, timeUnit, k);
      OldDoNotCount(times, times[k], timeUnit, k - maxFail + 1);
    }
  }

  /** A closed breaker stays closed on an error while no more than
      `maxFail` recorded errors are recent. */
  lemma ClosedStaysClosed(b: Breaker, now: real)
    requires b.state == Closed
    requires RecentCount(b.errors + [now], now, b.config.timeUnit) <= b.config.maxFail
    ensures RecordError(b, now).state == Closed
  {
  }

  /** At every error, no more than `maxFail` of the errors so far are
      younger than `timeUnit`. */
  predicate FewRecent(c: Config, times: seq<real>) {
    forall k :: 0 <= k < |times| ==> RecentCount(times[..k + 1], times[k], c.timeUnit) <= c.maxFail
  }

  /** Dropping the last error keeps the property for the ones before it. */
  lemma FewRecentPrefix(c: Config, times: seq<real>)
    requires |times| > 0
    requires FewRecent(c, times)
    ensures FewRecent(c, times[..|times| - 1])
  {
    var init := times[..|times| - 1];
    forall j | 0 <= j < |init| ensures RecentCount(init[..j + 1], init[j], c.timeUnit) <= c.maxFail {
      assert init[..j + 1] == times[..j + 1];
      assert init[j] == times[j];
    }
  }

  /** The last error of a run with few recent errors does not open a
      closed breaker that holds the errors before it. */
  lemma LastErrorKeepsClosed(c: Config, prev: Breaker, times: seq<real>)
    requires |times| > 0
    requires FewRecent(c, times)
    requires prev.state == Closed && prev.config == c
    requires prev.errors == times[..|times| - 1]
    ensures RecordError(prev, times[|times| - 1]).state == Closed
  {
    var k := |times| - 1;
    assert RecentCount(times[..k + 1], times[k], c.timeUnit) <= c.maxFail;
    assert prev.errors + [times[k]] == times[..k + 1];
    ClosedStaysClosed(prev, times[k]);
  }

  /** A fresh breaker that never sees more than `maxFail` recent errors
      stays closed. */
  lemma {:induction false} FewRecentStayClosed(c: Config, h: set<Kind>, times: seq<real>)
    requires FewRecent(c, times)
    ensures ErrorsAt(Fresh(c, h), times).state == Closed
  {
    if |times| > 0 {
      var init := times[..|times| - 1];
      FewRecentPrefix(c, times);
      FewRecentStayClosed(c, h, init);
      ErrorsAtRecords(c, h, init);
      LastErrorKeepsClosed(c, ErrorsAt(Fresh(c, h), init), times);
    }
  }

  /** Errors spaced at least `d` apart never open a fresh breaker when
      `maxFail` of those gaps already span `timeUnit`: at any error, only the
      last `maxFail` readings can be younger than `timeUnit`. */
  lemma SpacedErrorsStayClosed(c: Config, h: set<Kind>, times: seq<real>, d: real)
    requires d > 0.0
    requires c.maxFail as real * d >= c.timeUnit
    requires Spaced(times, d)
    ensures ErrorsAt(Fresh(c, h), times).state == Closed
  {
    forall k | 0 <= k < |times| ensures RecentCount(times[..k + 1], times[k], c.timeUnit) <= c.maxFail {
      SpacedPrefix(times, d, k + 1);
      SpacedFewRecent(times[..k + 1], d, c.maxFail, c.timeUnit);
    }
    FewRecentStayClosed(c, h, times);
  }

  /** The clock of `test_allows_unfrequent_errors`: ten errors, 30 s apart. */
  function EveryThirtySeconds(n: nat): (times: seq<real>)
    ensures |times| == n
    ensures forall i :: 0 <= i < n ==> times[i] == 30.0 * i as real
  {
    seq(n, i => 30.0 * i as real)
  }

  /** The breaker of the scenarios: `maxfail` 2, `reset_timeout` 10, `time_unit` 60, handling IOError. */
  const ScenarioConfig := Config(2, 10.0, 60.0)
  const ScenarioHandled: set<Kind> := {IOError}

  /** Three errors at the same instant open the scenario breaker. */
  lemma ThreeErrorsOpen()
    ensures ErrorsAt(Fresh(ScenarioConfig, ScenarioHandled), [0.0, 0.0, 0.0]).state == Open
  {
    BurstOpens(ScenarioConfig, ScenarioHandled, [0.0, 0.0, 0.0]);
  }

  /** Ten errors 30 s apart leave the scenario breaker closed. */
  lemma InfrequentErrorsStayClosed()
    ensures ErrorsAt(Fresh(ScenarioConfig, ScenarioHandled), EveryThirtySeconds(10)).state == Closed
  {
    var times := EveryThirtySeconds(10);
    forall i | 0 < i < |times| ensures times[i] - times[i - 1] >= 30.0 {
      assert times[i] == 30.0 * i as real && times[i - 1] == 30.0 * (i - 1) as real;
    }
    SpacedErrorsStayClosed(ScenarioConfig, ScenarioHandled, times, 30.0);
  }

  /** The set of breakers keyed by dependency name (`CircuitBreakerSet`).
      A breaker is created closed, with the set's configuration and handled
      kinds, the first time its name is asked for. */
  datatype Registry = Registry(config: Config, handled: set<Kind>, breakers: map<string, Breaker>)

  /** `handle_errors(kinds)`. */
  function HandleErrors(reg: Registry, kinds: set<Kind>): (r: Registry)
    ensures r.handled == kinds && r.breakers == reg.breakers && r.config == reg.config
  {
    reg.(handled := kinds)
  }

  /** The breaker `context(name)` hands out. */
  function BreakerFor(reg: Registry, name: string): (b: Breaker)
    ensures name in reg.breakers ==> b == reg.breakers[name]
    ensures name !in reg.breakers ==> b == Fresh(reg.config, reg.handled)
  {
    if name in reg.breakers then reg.breakers[name] else Fresh(reg.config, reg.handled)
  }

  /** `with circuit_breaker_set.context(name): body`: the named breaker guards
      the body and is kept under its name; no other breaker changes. */
  function Context<T>(reg: Registry, name: string, enteredAt: real, body: Outcome<T>, exitedAt: real)
    : (r: (GuardRun<T>, Registry))
    ensures r.0 == Guarded(BreakerFor(reg, name), enteredAt, body, exitedAt)
    ensures r.1.breakers == reg.breakers[name := r.0.breaker]
    ensures r.1.config == reg.config && r.1.handled == reg.handled
  {
    var g := Guarded(BreakerFor(reg, name), enteredAt, body, exitedAt);
    (g, reg.(breakers := reg.breakers[name := g.breaker]))
  }

  /** The name the domain layer guards the NextBus calls under. */
  const NextBus := "next_bus"

  /** The application's set: it handles the two provider-unavailable kinds. */
  function ApplicationRegistry(config: Config): (reg: Registry)
    ensures reg.handled == {ExternalProviderUnavailableTemporarily, ExternalProviderUnavailablePermanently}
    ensures reg.breakers == map[]
  {
    HandleErrors(Registry(config, {}, map[]), {ExternalProviderUnavailableTemporarily, ExternalProviderUnavailablePermanently})
  }

  /** Breakers under other names are not touched by a guarded call. */
  lemma ContextIsolated<T>(reg: Registry, name: string, other: string, enteredAt: real, body: Outcome<T>, exitedAt: real)
    requires other != name
    ensures BreakerFor(Context(reg, name, enteredAt, body, exitedAt).1, other) == BreakerFor(reg, other)
  {
  }
}
