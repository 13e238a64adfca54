/** The cache-aside shape shared by `Service.get_agencies` and the five
    `Agency.get_route*` operations: read the cache, and on a miss call the
    NextBus provider inside the 'next_bus' breaker, store what it returned,
    then return it. Cache failures never reach the caller; an open circuit
    becomes ExternalProviderUnavailableTemporarily('NextBus').

    The provider call is given as its outcome (`upstream`): whatever the
    retried NextBus request returns or raises. One clock reading `now`
    serves the breaker's entry and exit checks of one request. */
module CacheAside {
  import opened Wrappers
  import opened Errors
  import opened Json
  import opened CircuitBreaker
  import opened RedisRepository

  /** Everything one request can change, the redis servers and the breaker
      set, and the settings module the repository reads its expiries from. */
  datatype World = World(servers: Servers, breakers: Registry, settings: Settings)

  /** The answer, the world afterwards, and whether the provider was called. */
  datatype Served = Served(result: Outcome<Json>, world: World, upstreamCalled: bool)

  /** `get_X_from_cache`: DatabaseOperationError is logged and read as a miss
      (None); any other exception of the repository propagates. */
  function ReadCache(w: World, k: CacheKey): (r: Outcome<Json>)
    ensures RaisedKind(Get(w.servers, k), DatabaseOperationError) ==> r == Success(JNull)
    ensures !RaisedKind(Get(w.servers, k), DatabaseOperationError) ==> r == Get(w.servers, k)
    ensures r.Failure? ==> r.error.kind != DatabaseOperationError
  {
    var g := Get(w.servers, k);
    if RaisedKind(g, DatabaseOperationError) then Success(JNull) else g
  }

  /** `store_X_in_cache`: DatabaseOperationError is logged and swallowed;
      the AttributeError of a missing expiry setting is not caught. */
  function WriteCache(w: World, k: CacheKey, v: Json): (r: (Outcome<Json>, World))
    ensures r.1.breakers == w.breakers && r.1.settings == w.settings
    ensures r.1.servers == Store(w.servers, w.settings, k, v).1
    ensures Defines(w.settings, k) ==> r.0 == Success(v)
    ensures !Defines(w.settings, k) ==> RaisedKind(r.0, AttributeError)
  {
    var (stored, servers) := Store(w.servers, w.settings, k, v);
    (if RaisedKind(stored, DatabaseOperationError) then Success(v) else stored, w.(servers := servers))
  }

  /** The miss path: the provider call inside `breaker_set.context('next_bus')`,
      then, outside the breaker, the store of what it returned. */
  function FetchUpstream(w: World, k: CacheKey, upstream: Outcome<Json>, now: real): (s: Served)
    ensures s.upstreamCalled <==> Test(BreakerFor(w.breakers, NextBus), now).Success?
    ensures !s.upstreamCalled ==>
      s.result == Raise(ExternalProviderUnavailableTemporarily, "NextBus") && s.world == w
    ensures s.upstreamCalled && (upstream.Failure? || Defines(w.settings, k)) ==> s.result == upstream
    ensures s.upstreamCalled && upstream.Success? && !Defines(w.settings, k) ==>
      RaisedKind(s.result, AttributeError)
    ensures s.upstreamCalled ==> s.world.breakers == Context(w.breakers, NextBus, now, upstream, now).1
    ensures s.upstreamCalled && upstream.Success? ==>
      s.world.servers == Store(w.servers, w.settings, k, upstream.value).1
    ensures s.world.settings == w.settings
    ensures upstream.Failure? ==> s.world.servers == w.servers
  {
    var (g, reg) := Context(w.breakers, NextBus, now, upstream, now);
    if !g.ran then Served(Raise(ExternalProviderUnavailableTemporarily, "NextBus"), w, false)
    else
      var guarded := w.(breakers := reg);
      match g.result
      case Failure(e) => Served(Failure(e), guarded, true)
      case Success(v) =>
        var (stored, after) := WriteCache(guarded, k, v);
        Served(stored, after, true)
  }

  /** What a cache-aside read under `k` promises: the provider is called only
      on a miss, a hit or a cache error comes back without touching anything,
      the provider's answer is what the caller gets once its value could be
      stored, and a value the provider returned is written under `k`. */
  predicate ReadThrough(w: World, k: CacheKey, upstream: Outcome<Json>, s: Served) {
    && (s.upstreamCalled ==> ReadCache(w, k) == Success(JNull))
    && (!s.upstreamCalled ==> s.world == w)
    && (ReadCache(w, k) != Success(JNull) ==> s.result == ReadCache(w, k))
    && (s.upstreamCalled && (upstream.Failure? || Defines(w.settings, k)) ==> s.result == upstream)
    && (s.upstreamCalled && upstream.Success? ==>
          s.world.servers == Store(w.servers, w.settings, k, upstream.value).1)
  }

  /** One cache-aside read: a non-None cached value is returned as it is;
      otherwise the provider is called and its value stored. */
  function Fetch(w: World, k: CacheKey, upstream: Outcome<Json>, now: real): (s: Served)
    ensures ReadCache(w, k).Failure? ==> s == Served(ReadCache(w, k), w, false)
    ensures ReadCache(w, k).Success? && ReadCache(w, k).value != JNull ==>
      s == Served(ReadCache(w, k), w, false)
    ensures ReadCache(w, k) == Success(JNull) ==> s == FetchUpstream(w, k, upstream, now)
    ensures ReadThrough(w, k, upstream, s)
  {
    match ReadCache(w, k)
    case Failure(e) => Served(Failure(e), w, false)
    case Success(v) => if v != JNull then Served(Success(v), w, false) else FetchUpstream(w, k, upstream, now)
  }

  /** Cache hit: the cached value comes back, and neither the provider, the
      breaker nor the store is touched. */
  lemma HitServesCached(w: World, k: CacheKey, upstream: Outcome<Json>, now: real)
    requires Reachable(w.servers, SlaveHost)
    requires KeyName(k) in w.servers[SlaveHost].data
    requires w.servers[SlaveHost].data[KeyName(k)].payload.JsonText?
    requires w.servers[SlaveHost].data[KeyName(k)].payload.value != JNull
    ensures Fetch(w, k, upstream, now) ==
      Served(Success(w.servers[SlaveHost].data[KeyName(k)].payload.value), w, false)
  {
  }

  /** Cache miss with a closed breaker: the provider's value is returned, and
      once replicated the cache serves it under the same key with the kind's TTL. */
  lemma MissFetchesAndStores(w: World, k: CacheKey, v: Json, now: real)
    requires Defines(w.settings, k)
    requires Reachable(w.servers, MasterHost) && Reachable(w.servers, SlaveHost)
    requires KeyName(k) !in w.servers[SlaveHost].data
    requires BreakerFor(w.breakers, NextBus).state == Closed
    ensures Fetch(w, k, Success(v), now).result == Success(v)
    ensures Fetch(w, k, Success(v), now).upstreamCalled
    ensures Get(Replicate(Fetch(w, k, Success(v), now).world.servers), k) == Success(v)
    ensures Replicate(Fetch(w, k, Success(v), now).world.servers)[SlaveHost].data[KeyName(k)].ttl == TtlFor(w.settings, k)
  {
    StoreThenGet(w.servers, w.settings, k, v);
  }

  /** An open breaker fails the miss fast: the provider is not called, the
      caller sees ExternalProviderUnavailableTemporarily('NextBus'), and
      nothing is stored. */
  lemma OpenCircuitFailsFast(w: World, k: CacheKey, upstream: Outcome<Json>, now: real)
    requires ReadCache(w, k) == Success(JNull)
    requires BreakerFor(w.breakers, NextBus).state == Open
    requires now - BreakerFor(w.breakers, NextBus).openedAt < BreakerFor(w.breakers, NextBus).config.resetTimeout
    ensures Fetch(w, k, upstream, now) ==
      Served(Raise(ExternalProviderUnavailableTemporarily, "NextBus"), w, false)
  {
  }

  /** A provider failure is raised as it is and leaves the cache unwritten. */
  lemma FailureNotCached(w: World, k: CacheKey, e: Exc, now: real)
    requires ReadCache(w, k) == Success(JNull)
    requires Test(BreakerFor(w.breakers, NextBus), now).Success?
    ensures Fetch(w, k, Failure(e), now).result == Failure(e)
    ensures Fetch(w, k, Failure(e), now).world.servers == w.servers
  {
  }

  /** With both redis hosts down the provider's value is still returned and
      nothing is raised, once the expiry setting exists. */
  lemma CacheDownStillServes(w: World, k: CacheKey, v: Json, now: real)
    requires Defines(w.settings, k)
    requires !Reachable(w.servers, MasterHost) && !Reachable(w.servers, SlaveHost)
    requires Test(BreakerFor(w.breakers, NextBus), now).Success?
    ensures Fetch(w, k, Success(v), now).result == Success(v)
    ensures Fetch(w, k, Success(v), now).world.servers == w.servers
  {
  }

  /** A client-facing provider failure (e.g. NotFound) is not a dependency
      health signal: the 'next_bus' breaker records nothing. */
  lemma ClientFailureNotRecorded(w: World, k: CacheKey, e: Exc, now: real)
    requires ReadCache(w, k) == Success(JNull)
    requires Test(BreakerFor(w.breakers, NextBus), now).Success?
    requires e.kind !in BreakerFor(w.breakers, NextBus).handled
    ensures BreakerFor(Fetch(w, k, Failure(e), now).world.breakers, NextBus).errors ==
      BreakerFor(w.breakers, NextBus).errors
  {
  }

  /** A provider failure of a handled kind is recorded once by the 'next_bus' breaker. */
  lemma HandledFailureRecorded(w: World, k: CacheKey, e: Exc, now: real)
    requires ReadCache(w, k) == Success(JNull)
    requires Test(BreakerFor(w.breakers, NextBus), now).Success?
    requires e.kind in BreakerFor(w.breakers, NextBus).handled
    ensures BreakerFor(Fetch(w, k, Failure(e), now).world.breakers, NextBus).errors ==
      BreakerFor(w.breakers, NextBus).errors + [now]
  {
  }

  /** A cached payload `json.loads` rejects with ValueError is not caught by
      the repository nor by the domain layer: the request fails. */
  lemma MalformedPayloadEscapes(w: World, k: CacheKey, upstream: Outcome<Json>, now: real)
    requires Reachable(w.servers, SlaveHost)
    requires KeyName(k) in w.servers[SlaveHost].data
    requires w.servers[SlaveHost].data[KeyName(k)].payload == Malformed
    ensures RaisedKind(Fetch(w, k, upstream, now).result, ValueError)
    ensures !Fetch(w, k, upstream, now).upstreamCalled
  {
  }

  /** A stored None is no hit: the next read calls the provider again. */
  lemma StoredNoneIsMiss(w: World, k: CacheKey, now: real, later: real, upstream: Outcome<Json>)
    requires Defines(w.settings, k)
    requires Reachable(w.servers, MasterHost) && Reachable(w.servers, SlaveHost)
    requires KeyName(k) !in w.servers[SlaveHost].data
    requires BreakerFor(w.breakers, NextBus).state == Closed
    ensures var after := Fetch(w, k, Success(JNull), now).world;
      Fetch(after.(servers := Replicate(after.servers)), k, upstream, later).upstreamCalled
  {
    var after := Fetch(w, k, Success(JNull), now).world;
    StoreThenGet(w.servers, w.settings, k, JNull);
    assert BreakerFor(after.breakers, NextBus).state == Closed;
  }

  /** With the settings module as shipped, a miss the provider answers still
      fails: the store reads an expiry setting that does not exist, the
      AttributeError reaches the caller, and nothing is cached, so every
      later read misses again. */
  lemma ShippedSettingsFailEveryMiss(w: World, k: CacheKey, v: Json, now: real)
    requires w.settings == ShippedSettings
    requires ReadCache(w, k) == Success(JNull)
    requires Test(BreakerFor(w.breakers, NextBus), now).Success?
    ensures Fetch(w, k, Success(v), now).upstreamCalled
    ensures RaisedKind(Fetch(w, k, Success(v), now).result, AttributeError)
    ensures Fetch(w, k, Success(v), now).world.servers == w.servers
  {
    ShippedSettingsLackTtls(k);
  }
}
