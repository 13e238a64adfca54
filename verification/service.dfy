/** The service-wide domain object: the agency list through the cache-aside
    read under the key 'agencies'. */
module Service {
  import opened Wrappers
  import opened Errors
  import opened Json
  import opened CircuitBreaker
  import opened RedisRepository
  import opened CacheAside

  /** `Service.get_agencies`: the cache-aside read under 'agencies'. */
  function GetAgencies(w: World, upstream: Outcome<Json>, now: real): (s: Served)
    ensures ReadThrough(w, Agencies, upstream, s)
  {
    Fetch(w, Agencies, upstream, now)
  }

  /** A hit answers the agencies stored under 'agencies' on the read host. */
  lemma AgenciesHit(w: World, upstream: Outcome<Json>, now: real, v: Json)
    requires Reachable(w.servers, SlaveHost)
    requires "agencies" in w.servers[SlaveHost].data
    requires w.servers[SlaveHost].data["agencies"].payload == JsonText(v)
    requires v != JNull
    ensures GetAgencies(w, upstream, now) == Served(Success(v), w, false)
  {
    HitServesCached(w, Agencies, upstream, now);
  }

  /** A miss with a closed breaker returns the provider's agencies and leaves
      them on the write host under 'agencies', with the agencies TTL. */
  lemma AgenciesMissStores(w: World, v: Json, now: real)
    requires "AGENCIES_CACHE_TTL_SECONDS" in w.settings
    requires Reachable(w.servers, MasterHost) && Reachable(w.servers, SlaveHost)
    requires "agencies" !in w.servers[SlaveHost].data
    requires BreakerFor(w.breakers, NextBus).state == Closed
    ensures GetAgencies(w, Success(v), now).result == Success(v)
    ensures var m := GetAgencies(w, Success(v), now).world.servers[MasterHost];
      "agencies" in m.data && m.data["agencies"] == Entry(JsonText(v), w.settings["AGENCIES_CACHE_TTL_SECONDS"])
  {
    MissFetchesAndStores(w, Agencies, v, now);
  }

  /** With both redis hosts down a request still gets the provider's agencies. */
  lemma AgenciesWithoutCache(w: World, v: Json, now: real)
    requires "AGENCIES_CACHE_TTL_SECONDS" in w.settings
    requires !Reachable(w.servers, MasterHost) && !Reachable(w.servers, SlaveHost)
    requires Test(BreakerFor(w.breakers, NextBus), now).Success?
    ensures GetAgencies(w, Success(v), now).result == Success(v)
  {
    CacheDownStillServes(w, Agencies, v, now);
  }
}
