# pubtrans core, modelled in Dafny

pubtrans is a caching gateway in front of the NextBus public-transit XML feed.
This project models its resilience-and-caching layer and the pure transforms
that turn the feed into records:

- the **retry decorator** that re-runs the NextBus agency call on
  ExternalProviderUnavailableTemporarily with a geometric backoff (`retry.dfy`);
- the **circuit breaker** (closed / open / half-open over an injected clock) and
  the set of breakers keyed by dependency name, as its scenarios pin it down
  (`breaker.dfy`);
- the **redis repository**: colon-joined keys, reads on the slave host, writes on
  the master host, a per-kind expiry, and connection and decoding errors becoming
  DatabaseOperationError (`redis_repository.py` → `redis_repository.dfy`);
- the **cache-aside coordinator** shared by `Service.get_agencies` and the six
  `Agency.get_route*` reads: cache read, on a miss the provider call inside the
  'next_bus' breaker, store, return (`cache_aside.dfy`, `service.dfy`,
  `agency.dfy`). The provider class as shipped has no schedule, predictions,
  messages or vehicles read, so on a miss those four end in AttributeError
  (see Findings). This includes the field projection of `get_route` and the
  "not running at" route filter;
- the **status classification** of provider replies and the response logging
  (`base_service.dfy`);
- the **feed-to-record builders** of both connectors, `next_bus_xml.py`
  (`next_bus_xml.dfy`) and `next_bus.py` (`next_bus.dfy`). These cover the error
  classifier, the schedule's per-stop arrivals with the first-minimum and
  first-maximum start and end times, and the message partition;
- the **support object**: the details rule, the buffered log queue, the stats
  gating, and the shaping of the URI ranking replies (`support.dfy`);
- the **base handler** tables: default statuses, the exception-to-status
  mapping, the request id, and the URI-statistics gate (`base_handler.dfy`).

Python values are modelled by one `Json` datatype (`json.dfy`): None, text, list,
and dict as an ordered field list. It stands both for the cached JSON values and
for the tree `xmltodict` produces. `dict.get` on a non-dict raises
AttributeError, and iterating None raises TypeError; both are modelled as
`Outcome` failures (`errors.dfy`). The clock reading, the weekday, the uuid, the
provider's replies, the parsers, the redis servers and the settings module are all
parameters.

Three behaviours of the code are modelled as the code has them:

- A cached payload that `json.loads` rejects with ValueError is not caught by
  the repository or by the coordinators. So it reaches the caller rather than
  being read as a miss (`CacheAside.MalformedPayloadEscapes`).
- The "not running at" filter takes a `KeepRule`. `AsWritten` is the code:
  its day table and its keep test. `Corrected` uses the calendar's day table and
  keeps a route exactly when the time lies outside its service window, windows
  past midnight included. `Agency.GetRoutes` with `AsWritten` is `get_routes`
  as written, given a provider that answers the schedule read; the shipped
  provider has none (see Findings).
- Each `store_X` reads an expiry setting that the shipped settings module does
  not define, so a miss that the provider answers ends in AttributeError
  (see Findings). The settings module is a parameter of the model
  (`CacheAside.World.settings`), so the behaviour with the settings defined is
  proved too.

## Model

| member | source | states |
|---|---|---|
| Retry.Attempts | pubtrans/decorators/retry_decorator.py:34-48 | between 1 and max(tries, 1) calls; every call before the last raised the checked kind; a run that stopped early ended on a result that was not the checked kind; one wait per caught failure, each `backoff` times the previous, starting at `delay` |
| Retry.Retry | pubtrans/decorators/retry_decorator.py:29-48 | the decorated call runs one to max(tries, 1) times; every call before the last raised the checked kind, the last call's outcome is the answer, and the k-th wait is `delay * backoff^k` |
| Retry.SingleTry | pubtrans/decorators/retry_decorator.py:37-48 | with tries ≤ 1 the loop is skipped: exactly one call, no wait |
| Retry.SuccessStops | pubtrans/decorators/retry_decorator.py:37-40 | the first successful attempt ends the run, with one wait per earlier failure |
| Retry.RetriedOnce | pubtrans/decorators/retry_decorator.py:37-45 | one checked failure followed by any other outcome gives two calls and one wait of `delay` |
| Retry.UncheckedEscapes | pubtrans/decorators/retry_decorator.py:38-41 | an exception of another kind escapes from the first call, with no wait and no retry |
| Retry.Exhausted | pubtrans/decorators/retry_decorator.py:44-48 | after tries−1 checked failures the last call runs unguarded and its outcome, whatever it is, is the answer |
| Retry.ZeroDelayNeverWaits | pubtrans/decorators/retry_decorator.py:35-45 | with delay 0 every wait is 0, whatever the backoff |
| Retry.RetryScenario | pubtrans/test/decorators/test_retry_decorator.py:27-42 | a call that fails twice with the checked kind succeeds on the third of three tries, after waits 0.1 and 0.01 |
| CircuitBreaker.RecordError | pubtrans/test/common/test_breaker.py:62-72 | the reading is appended; a closed breaker opens exactly when more than maxfail recorded errors are strictly younger than time_unit, and remembers when it opened |
| CircuitBreaker.RecordSuccess | pubtrans/test/common/test_breaker.py:74-79 | success closes the breaker and clears its errors |
| CircuitBreaker.Test | pubtrans/test/common/test_breaker.py:74-83 | raises CircuitOpenError exactly while open and less than reset_timeout has elapsed; otherwise it answers half-open for an open or half-open breaker and closed for a closed one |
| CircuitBreaker.Guarded | pubtrans/test/common/test_breaker.py:44-60 | the body runs only when the entry test passes; its outcome is passed on unchanged; a handled failure is recorded once, any other failure not at all, and a success closes the breaker |
| CircuitBreaker.UnhandledPassesThrough | pubtrans/test/common/test_breaker.py:44-51 | an unhandled error passes through and the breaker records nothing |
| CircuitBreaker.HandledRecordedOnce | pubtrans/test/common/test_breaker.py:53-60 | a handled error is re-raised unchanged and recorded exactly once |
| CircuitBreaker.HalfOpenSuccessCloses | pubtrans/test/common/test_breaker.py:85-89 | leaving the guard normally while half-open closes the breaker |
| CircuitBreaker.OpenThenHalfOpenThenClosed | pubtrans/test/common/test_breaker.py:74-83 | open refuses before reset_timeout, answers half-open once it has elapsed, and answers closed after a success |
| CircuitBreaker.FewErrorsStayClosed | pubtrans/test/common/test_breaker.py:62-66 | no more than maxfail errors never open a fresh breaker, whatever their times |
| CircuitBreaker.BurstOpens | pubtrans/test/common/test_breaker.py:62-66 | maxfail+1 errors all within time_unit of the last open a fresh breaker |
| CircuitBreaker.ThreeErrorsOpen | pubtrans/test/common/test_breaker.py:62-66 | with maxfail 2, three errors at one instant open the breaker |
| CircuitBreaker.SpacedErrorsStayClosed | pubtrans/test/common/test_breaker.py:68-72 | any number of errors spaced at least d apart, with maxfail·d ≥ time_unit, leave a fresh breaker closed |
| CircuitBreaker.InfrequentErrorsStayClosed | pubtrans/test/common/test_breaker.py:68-72 | ten errors 30 s apart with time_unit 60 leave the breaker closed |
| CircuitBreaker.HandleErrors | pubtrans/application.py:39-41 | `handle_errors` replaces the handled kinds and keeps the breakers and their configuration |
| CircuitBreaker.BreakerFor | pubtrans/domain/agency.py:29-31 | `context(name)` hands out the breaker kept under that name, or a fresh closed one with the set's handled kinds |
| CircuitBreaker.Context | pubtrans/domain/agency.py:29-31 | the named breaker guards the body and is kept under its name afterwards |
| CircuitBreaker.ContextIsolated | pubtrans/domain/agency.py:29-31 | a guarded call leaves every breaker under another name as it was |
| CircuitBreaker.ApplicationRegistry | pubtrans/application.py:39-41 | the application's breakers handle exactly the temporarily and permanently unavailable kinds |
| RedisRepository.ParseKeyName | pubtrans/repositories/redis_repository.py:12-18 | with colon-free tags every key name reads back into the entity kind and tags it was built from |
| RedisRepository.KeyName | pubtrans/repositories/redis_repository.py:12-18 | the agency list sits under the colon-free key 'agencies'; every other entity's key starts with its agency tag and a colon |
| RedisRepository.KeyNamesDiffer | pubtrans/repositories/redis_repository.py:92-125 | distinct entities with colon-free tags get distinct redis keys, so get_X and store_X of one entity share one key and no other entity's key |
| RedisRepository.ColonTagsCollide | pubtrans/repositories/redis_repository.py:98 | tags holding a colon can make two different routes share one key |
| RedisRepository.HostFor | pubtrans/repositories/redis_repository.py:272-279 | the 'master' role connects to the master host and every other role to the slave host |
| RedisRepository.Get | pubtrans/repositories/redis_repository.py:25-41 | a read goes to the slave; an unreachable host and a TypeError on decoding raise DatabaseOperationError; a missing key reads None; a ValueError on decoding is not caught |
| RedisRepository.Store | pubtrans/repositories/redis_repository.py:43-55 | the kind's expiry setting is read before the `try`: without it AttributeError is raised and nothing is written; otherwise the key is set on the master with that expiry and the value returned, and an unreachable master raises DatabaseOperationError and writes nothing |
| RedisRepository.ShippedSettingsLackTtls | pubtrans/config/settings.py:7-10 | the shipped settings define none of the seven expiry settings `store_X` reads |
| RedisRepository.StoreThenGet | pubtrans/repositories/redis_repository.py:43-76 | once replicated, get_X with the tags store_X used returns the stored value, with the kind's TTL |
| RedisRepository.StoreLeavesOthers | pubtrans/repositories/redis_repository.py:235-270 | storing one entity and replicating leaves every other entity's read as replication alone would give it |
| CacheAside.ReadCache | pubtrans/domain/agency.py:176-187 | DatabaseOperationError on a cache read becomes a miss; any other outcome of the read is passed on |
| CacheAside.WriteCache | pubtrans/domain/agency.py:202-210 | the write goes through the repository's store; DatabaseOperationError is swallowed and the value returned, while the AttributeError of a missing expiry setting passes through; the breakers are untouched |
| CacheAside.FetchUpstream | pubtrans/domain/agency.py:28-36 | the provider is called only when the 'next_bus' breaker lets it; an open circuit becomes ExternalProviderUnavailableTemporarily('NextBus') and changes nothing; after the breaker, a provider value is written with the repository's store; the answer is the provider's outcome unless the expiry setting is missing, which raises AttributeError; a failed call stores nothing |
| CacheAside.Fetch | pubtrans/domain/agency.py:22-36 | a failed read or a hit is returned without touching anything; a miss goes to the provider, whose value is stored under the same key |
| CacheAside.HitServesCached | pubtrans/domain/agency.py:22-24 | a non-None cached value is returned as is, with no provider call and no store |
| CacheAside.MissFetchesAndStores | pubtrans/domain/agency.py:24-36 | on a miss the provider's value is returned and stored under the same key with the kind's TTL |
| CacheAside.OpenCircuitFailsFast | pubtrans/domain/agency.py:32-34 | on a miss with an open circuit the answer is ExternalProviderUnavailableTemporarily('NextBus') and nothing changes |
| CacheAside.FailureNotCached | pubtrans/domain/agency.py:28-36 | a provider failure is raised unchanged and the cache is not written |
| CacheAside.CacheDownStillServes | pubtrans/domain/agency.py:176-210 | with both redis hosts down the provider's value is still returned |
| CacheAside.ClientFailureNotRecorded | pubtrans/domain/agency.py:28-31 | a provider failure of a kind the breaker does not handle is not recorded by it |
| CacheAside.HandledFailureRecorded | pubtrans/domain/agency.py:28-31 | a handled provider failure is recorded once by the 'next_bus' breaker |
| CacheAside.MalformedPayloadEscapes | pubtrans/repositories/redis_repository.py:58-76 | a cached text that JSON decoding rejects with ValueError reaches the caller and the provider is not called |
| CacheAside.StoredNoneIsMiss | pubtrans/domain/agency.py:22-36 | a stored None reads back as a miss, so the next request calls the provider again |
| CacheAside.ShippedSettingsFailEveryMiss | pubtrans/repositories/redis_repository.py:43-55 | with the shipped settings, a miss the provider answers raises AttributeError after the provider call, and nothing is cached |
| Service.GetAgencies | pubtrans/domain/service.py:14-33 | the cache-aside read under 'agencies': the provider is called only on a miss, a hit or cache error comes back untouched, and the provider's agencies are stored under 'agencies' |
| Service.AgenciesHit | pubtrans/domain/service.py:17-19 | cached agencies are returned without calling the provider or the store |
| Service.AgenciesMissStores | pubtrans/domain/service.py:19-33 | on a miss the fetched agencies are returned and stored under 'agencies' with the AGENCIES_CACHE_TTL_SECONDS expiry |
| Service.AgenciesWithoutCache | pubtrans/domain/service.py:36-56 | with redis down, the read failure is a miss and the write failure is swallowed: the fetched agencies are returned |
| Agency.ServiceClassAsWrittenSwapsDays | pubtrans/domain/agency.py:74-76 | the table as written maps Monday to 'sat' and Saturday to 'wkd' |
| Agency.ServiceClass | pubtrans/domain/agency.py:74-76 | corrected table: 'sun' exactly on Sunday, 'sat' exactly on Saturday, 'wkd' exactly Monday to Friday |
| Agency.ServiceClassUnder | pubtrans/domain/agency.py:74-76 | the code's rule uses the table as written, the corrected rule the calendar table |
| Agency.TablesAgreeMidweek | pubtrans/domain/agency.py:74-76 | from Tuesday to Friday both tables give 'wkd' |
| Agency.Decide | pubtrans/domain/agency.py:84-88 | a missing schedule item keeps the route; an item that is neither None nor a dict raises AttributeError |
| Agency.AsWrittenDropsSameDayWindows | pubtrans/domain/agency.py:85-87 | with `and`, any window whose start sorts before its end drops the route at every time |
| Agency.NotRunningCounterexample | pubtrans/domain/agency.py:85-87 | at 03:00 a route running 06:00 to 23:00 is dropped as written and kept when corrected |
| Agency.CorrectedKeepsOutsideWindow | pubtrans/domain/agency.py:85-87 | corrected, a route is kept exactly when it does not run at the time: outside [start, end] for a same-day window, strictly between end and start for a window past midnight |
| Agency.OvernightWindowAtNoon | pubtrans/domain/agency.py:85-87 | a route running 05:00 to 00:30 runs at noon and is dropped by the corrected rule |
| Agency.SelectIsSubsequence | pubtrans/domain/agency.py:81-90 | keeping the routes the filter marks yields an order-preserving subsequence of them |
| Agency.SelectMembers | pubtrans/domain/agency.py:81-90 | a route is in the answer exactly when some kept position holds it |
| Agency.ItemFor | pubtrans/domain/agency.py:82-84 | a route that is not a dict or has no tag fails before any read; otherwise the item is the value under the day's inbound key in the schedule's 'scheduleItems' dict (None when absent), the schedule read through the cache; a schedule or items value that is not a dict raises AttributeError |
| Agency.NotRunningAt | pubtrans/domain/agency.py:72-90 | routes are visited in order and the first exception ends the filter; on success every route has its schedule item and keep decision under the rule, and the answer is the kept routes in their order; with `AsWritten` the day table and the keep test are the code's |
| Agency.FilterIsSubsequence | pubtrans/domain/agency.py:81-90 | the filter's answer is an order-preserving subsequence of the routes |
| Agency.GetRoutes | pubtrans/domain/agency.py:20-43 | routes come through the cache-aside read; the not-running filter under the given rule runs only when the criterion is truthy, and its outcome is the answer; with `AsWritten` it is the code as written, for whatever provider answers the schedule read |
| Agency.FilterOnHit | pubtrans/domain/agency.py:38-41 | on a cache hit the filtered routes are a subsequence of the cached routes |
| Agency.RouteNItem | pubtrans/domain/agency.py:82-84 | on a Wednesday both day tables read route N's weekday window from the cached schedule |
| Agency.RouteNFilter | pubtrans/domain/agency.py:81-90 | at 03:00 the code's filter drops route N and the corrected filter keeps it |
| Agency.NotRunningAtThreeOnWednesday | pubtrans/domain/agency.py:20-90 | with route N and its 06:00-23:00 weekday window cached, `not_running_at=03:00:00` on a Wednesday answers no routes as written and route N when corrected |
| Agency.Project | pubtrans/domain/agency.py:64-68 | with fields, exactly those keys, each bound to the route's value or None; a route that is not a dict raises AttributeError |
| Agency.GetRoute | pubtrans/domain/agency.py:45-70 | without fields the route is returned as read; with fields the projection of it |
| Agency.GetRouteSchedule | pubtrans/domain/agency.py:92-111 | the cache-aside read under the route's schedule key |
| Agency.GetRoutePredictions | pubtrans/domain/agency.py:113-132 | the cache-aside read under a key of its own for the agency, route and stop |
| Agency.GetRouteMessages | pubtrans/domain/agency.py:134-153 | the cache-aside read under the route's messages key |
| Agency.GetRouteVehicles | pubtrans/domain/agency.py:155-174 | the cache-aside read under the route's vehicles key, with `last_time` passed only to the provider |
| Agency.MissingReadFails | pubtrans/domain/agency.py:96-109 | a miss whose provider call raises AttributeError inside the 'next_bus' guard answers that AttributeError, records no breaker error and stores nothing |
| Agency.ShippedScheduleMissFails | pubtrans/domain/agency.py:102-104 | with the shipped provider class, which defines only get_agencies, get_routes, get_all_routes and get_route, an uncached schedule read raises AttributeError and caches nothing |
| Agency.ShippedProviderFailsFilter | pubtrans/domain/agency.py:82-84 | with the shipped provider class the not-running filter raises AttributeError at a route whose schedule is not cached |
| Agency.VehiclesIgnoreLastTime | pubtrans/domain/agency.py:156-174 | on a hit the vehicles answer does not depend on `last_time` and the provider is not called |
| Agency.PredictionsKeyedByStop | pubtrans/domain/agency.py:113-132 | storing one stop's predictions leaves another stop's cached predictions as they were |
| BaseService.ErrorClass | pubtrans/services/base_service.py:45-57 | the table lists exactly 400, 401, 403, 404, 405, 500, 503, 598 and 599 |
| BaseService.Parsed | pubtrans/services/base_service.py:71-78 | a TypeError or ValueError of the parser becomes ValueError('Invalid response body: …'); expat's error is not caught |
| BaseService.Format | pubtrans/services/base_service.py:59-76 | 'json' and 'xml' read an empty body as an empty map without parsing; an unknown format raises NotImplementedError |
| BaseService.ValidateResponse | pubtrans/services/base_service.py:39-78 | only 200, 201, 202 and 204 pass; other codes raise their table class, or GeneralInfoException, with the body as message; the format defaults to 'json' |
| BaseService.ClientStatusTable | pubtrans/services/base_service.py:45-51 | 400→BadRequest, 401→Unauthorized, 403→Forbidden, 404→NotFound, 405→MethodNotAllowed |
| BaseService.ServerStatusTable | pubtrans/services/base_service.py:52-69 | 500→permanently unavailable; 503, 598, 599→temporarily unavailable; 203, 302, 502→GeneralInfoException |
| BaseService.EmptyBodyIsEmptyMap | pubtrans/services/base_service.py:61-74 | an empty success body is an empty map in the default, 'json' and 'xml' formats |
| BaseService.RetriedExactly | pubtrans/services/base_service.py:53-56 | the retry decorator's kind comes from exactly the codes 503, 598 and 599 |
| BaseService.BreakerSeesServerErrors | pubtrans/services/base_service.py:53-56 | the kinds the breaker records come from exactly the codes 500, 503, 598 and 599 |
| BaseService.LogResponse | pubtrans/services/base_service.py:24-37 | nothing without support; otherwise the code and then the body are logged, at debug for 200 to 399 inclusive and at error otherwise |
| BaseService.RedirectLoggedAsSuccess | pubtrans/services/base_service.py:28-69 | a 302 is logged at debug level and still raised as GeneralInfoException |
| BaseHandler.ExceptionBody | pubtrans/handlers/base_handler.py:193-206 | the service's own exceptions are written as they are; every other exception is replaced by a GeneralInfoException; the request id is always attached |
| BaseHandler.BuildResponse | pubtrans/handlers/base_handler.py:123-166 | the JSON content type is set exactly when the format applies; an exception gets its mapped status and body; the request-id header is set exactly when the id is non-empty |
| BaseHandler.ValueStatusTable | pubtrans/handlers/base_handler.py:140-151 | GET 200, POST 201, PUT 204, DELETE 200 by default; an explicit status wins for those four methods; any other method keeps the default status |
| BaseHandler.BodyWrittenFor | pubtrans/handlers/base_handler.py:128-149 | a body is written for exceptions, GET and POST, never for PUT or DELETE; a value is JSON-dumped exactly when the format applies |
| BaseHandler.ExceptionStatusByBase | pubtrans/handlers/base_handler.py:179-200 | 400, 401, 403, 404, 409, 500, 503 by base class; a Tornado HTTPError keeps its code; anything else is 500 |
| BaseHandler.UriStatsExceptNotFound | pubtrans/handlers/base_handler.py:165-166 | URI statistics are updated for every result except a not-found exception |
| BaseHandler.ProviderStatusRelayed | pubtrans/handlers/base_handler.py:179-200 | a provider's 400, 401, 403, 404, 500 and 503 reach the client unchanged; 598 and 599 become 503; an unlisted code becomes 500 |
| BaseHandler.RequestId | pubtrans/handlers/base_handler.py:49-50 | the header's id when present, otherwise 'pubtrans-' followed by the uuid |
| BaseHandler.GeneratedIdEchoed | pubtrans/handlers/base_handler.py:153-154 | a generated id is never empty, so it is always echoed in the response header |
| BaseHandler.HandlerExtraInfo | pubtrans/handlers/base_handler.py:55-68 | the environment is the variable when truthy and 'unknown' otherwise; the request id is carried |
| BaseHandler.HandlerSupportBuilds | pubtrans/handlers/base_handler.py:63-69 | the handler's support object is always built and carries the request id |
| Support.Init | pubtrans/common/support.py:22-49 | details start empty, the request id defaults to NO_REQUEST_ID, the queue is empty, buffering holds exactly for CRITICAL or ERROR, and statistics without an environment raise TypeError |
| Support.Notify | pubtrans/common/support.py:59-99 | details become the details when truthy, else the message; the message is logged last; error and critical first replay and empty the queue when buffering; the other levels enqueue when buffering |
| Support.QueueKeepsOrder | pubtrans/common/support.py:77-99 | while buffering, warning, info and debug messages are queued in the order they were sent |
| Support.ErrorReplaysRequest | pubtrans/common/support.py:51-75 | an error replays every queued message in FIFO order, then logs its own message, and leaves the queue empty |
| Support.UnbufferedLogsEachOnce | pubtrans/common/support.py:59-99 | without buffering each notification is logged once, in order, and nothing is queued |
| Support.NotifyScenario | pubtrans/test/common/test_support.py:32-43 | a critical notification carries the message as details, and the given details when they are passed |
| Support.Stat | pubtrans/common/support.py:101-119 | a statistic is sent only when statistics are enabled, and nothing else changes |
| Support.StatsGated | pubtrans/common/support.py:101-119 | a run of statistics calls sends all of them in order when enabled and none when disabled |
| Support.UpdateUriStats | pubtrans/common/support.py:121-131 | the URI's count goes up by one and its slow-request score becomes the timing; no other score changes; a connection error only logs at info |
| Support.Trunc | pubtrans/common/support.py:147 | `int()` of a score truncates toward zero |
| Support.PutCount | pubtrans/common/support.py:145-149 | assigning a member adds it to the members, appended at the end when new |
| Support.ShapeIsCounted | pubtrans/common/support.py:168-172 | with distinct members the shaped reply is the reply with every score truncated |
| Support.ShapeKeepsOrder | pubtrans/common/support.py:145-149 | with distinct members the ranking keeps the store's order, one entry per member, with the truncated score |
| Support.SlowRequestsQuery | pubtrans/common/support.py:151-161 | the slow-request query ranges from '+inf' down to the limit, or to '-inf' when the limit is falsy |
| Support.Report | pubtrans/common/support.py:133-149 | a connection error gives an empty ranking and one info log; any other failure propagates; a reply is shaped |
| Support.GetUriCount | pubtrans/common/support.py:133-149 | the whole URI-count set in the store's order, each member with its truncated score; a connection error gives no entries; any other failure propagates |
| Support.GetSlowRequests | pubtrans/common/support.py:151-172 | the slow-request set from the limit (from -inf when the limit is falsy) upwards, in the store's order with truncated scores; a connection error gives no entries; any other failure propagates |
| Json.Put | pubtrans/services/next_bus_xml.py:238 | assigning a key binds it and leaves every other key's value as it was |
| Json.PutKeys | pubtrans/services/next_bus_xml.py:238 | a new key is appended at the end; an existing key keeps its place |
| Json.PutUnique | pubtrans/services/next_bus_xml.py:238 | assignment keeps the keys of a dict distinct |
| Json.PyGet | pubtrans/services/next_bus_xml.py:71 | `.get` on a dict yields the bound value or None, and on anything else raises AttributeError |
| Json.Subscript | pubtrans/domain/agency.py:83 | `d[k]` yields the bound value; a missing key raises KeyError, and a value that is not a dict raises TypeError |
| Json.AsList | pubtrans/services/next_bus_xml.py:83-84 | a list stays itself, None becomes [], anything else becomes a one-element list |
| Json.WrapList | pubtrans/services/next_bus.py:144-145 | a list stays itself and anything else, None included, becomes a one-element list |
| Json.Iterate | pubtrans/services/next_bus_xml.py:352 | iterating None raises TypeError; a list yields its items, a dict one item per key, a text one item per character |
| Text.Lower | pubtrans/services/next_bus_xml.py:236-237 | lower-casing keeps the length and lowers each character |
| NextBusXml.HandleError | pubtrans/services/next_bus_xml.py:70-77 | no truthy Error element returns normally; error text with 'Could not get route' or matching `route r=.* is (not valid\|invalid)` raises NotFound, any other text BadRequest |
| NextBusXml.RouteMissing | pubtrans/services/next_bus_xml.py:74-75 | for an error text, the route is missing exactly when the text contains 'Could not get route' or matches the invalid-route pattern |
| NextBusXml.BadRouteText | pubtrans/services/next_bus_xml.py:74-75 | 'route r=99 is not valid' raises NotFound |
| NextBusXml.BadAgencyText | pubtrans/services/next_bus_xml.py:76-77 | an agency error text raises BadRequest |
| NextBusXml.MapAll | pubtrans/services/next_bus_xml.py:87-93 | one record per element in order; the first element that raises ends the loop with its exception |
| NextBusXml.Children | pubtrans/services/next_bus_xml.py:204-206 | a child collection is normalised: absent to [], a single element to [it], a list to itself |
| NextBusXml.BuildAgenciesList | pubtrans/services/next_bus_xml.py:80-95 | one agency record per agency element, in document order |
| NextBusXml.BuildRoutesList | pubtrans/services/next_bus_xml.py:98-115 | one route record per route element, in document order |
| NextBusXml.ShortTitleOnlyWhenTruthy | pubtrans/services/next_bus_xml.py:106-112 | tag and title are copied; shortTitle is present exactly when the attribute is truthy |
| NextBusXml.BuildStops | pubtrans/services/next_bus_xml.py:202-219 | one stop record per stop element, in document order |
| NextBusXml.BuildDirections | pubtrans/services/next_bus_xml.py:168-199 | one direction record per direction element, in document order |
| NextBusXml.DirectionStopsTagOnly | pubtrans/services/next_bus_xml.py:185-196 | a direction's stops carry only the tag, one per stop element |
| NextBusXml.BuildPath | pubtrans/services/next_bus_xml.py:140-165 | one path record per path element, in document order |
| NextBusXml.AssembleRoute | pubtrans/services/next_bus_xml.py:118-137 | the route dict is the eight scalar attributes followed by the stops, directions and paths lists its child builders make; it succeeds exactly when the route is an element and every builder succeeds; a route that is not an element raises AttributeError |
| NextBusXml.BuildRoute | pubtrans/services/next_bus_xml.py:118-137 | the eight scalar attributes, then stops, directions and paths with one record per child element as `as_list` lists them; a route that is not an element raises AttributeError |
| NextBusXml.StopsNormalised | pubtrans/services/next_bus_xml.py:204-206 | absent, single and listed stops give 0, 1 and 2 records |
| NextBusXml.PyInt | pubtrans/services/next_bus_xml.py:306 | `int()` of a decimal text is its value; other text raises ValueError and a non-text TypeError |
| NextBusXml.HeaderStopsStartEmpty | pubtrans/services/next_bus_xml.py:327-336 | every header stop starts with an empty arrivals list and comes from a header element with that tag |
| NextBusXml.HeaderStopsCover | pubtrans/services/next_bus_xml.py:327-336 | every header element's tag is a key of the header stops |
| NextBusXml.StopKey | pubtrans/services/next_bus_xml.py:330-334 | a header stop is keyed by its text tag, or by None when it has no tag; a container tag is unhashable |
| NextBusXml.PutStop | pubtrans/services/next_bus_xml.py:334 | `header_stops[k] = v` binds `k` and leaves every other key, None included, as it was |
| NextBusXml.HeaderFields | pubtrans/services/next_bus_xml.py:321-336 | the header stops as written out: every text key as it is, and the None key as "null", kept apart from a text key "null" |
| NextBusXml.BuildScheduleStops | pubtrans/services/next_bus_xml.py:321-336 | the header stops are built from the header's stop elements |
| NextBusXml.UntaggedAndNullApart | pubtrans/services/next_bus_xml.py:327-336 | a header stop without a tag and one tagged "null" are two entries, both written under "null" |
| NextBusXml.ScanArrivals | pubtrans/services/next_bus_xml.py:291-304 | each stop's arrivals are its row stops whose epochTime is not '-1', in row order |
| NextBusXml.TrackStartIsFirstMinimum | pubtrans/services/next_bus_xml.py:287-313 | the start text is that of the first arrival with the smallest epoch between 0 and sys.maxint exclusive, or '' when there is none |
| NextBusXml.TrackEndIsFirstMaximum | pubtrans/services/next_bus_xml.py:287-316 | the end text is that of the first largest positive epoch, or '' when there is none |
| NextBusXml.ScanFromSplit | pubtrans/services/next_bus_xml.py:296-313 | the stop loop over two lists in a row is the loop over the first, then the loop over the second from where it stopped; a failure in the first ends it |
| NextBusXml.ScanIsScanFrom | pubtrans/services/next_bus_xml.py:296-313 | the stop loop from the fresh header stops, stop by stop, is the scan the arrival and time lemmas are about |
| NextBusXml.ScanRowsFlat | pubtrans/services/next_bus_xml.py:291-313 | reading each row's stops just before visiting them succeeds exactly when all rows' stops can be read and the flat scan of them succeeds, and then gives the same state |
| NextBusXml.ScheduleScan | pubtrans/services/next_bus_xml.py:274-313 | header stops first, then the rows visited one at a time, each row's stop child read just before its stops; on success this is the flat scan of all row stops |
| NextBusXml.BuildScheduleItem | pubtrans/services/next_bus_xml.py:274-318 | service class, direction, stops, start and end, in that order; a route that is not an element raises AttributeError |
| NextBusXml.BadStopBeforeBadRow | pubtrans/services/next_bus_xml.py:291-304 | an unknown stop tag in the first row raises KeyError before a later empty row is read |
| NextBusXml.UntaggedHeaderIsNotNull | pubtrans/services/next_bus_xml.py:298-304 | a header stop without a tag does not answer a row stop tagged "null": that row stop raises KeyError('null') |
| NextBusXml.ScheduleItemArrivals | pubtrans/services/next_bus_xml.py:274-304 | in a built item each header stop's arrivals, the one keyed None included, are exactly its counted row stops, in order |
| NextBusXml.ScheduleItemStart | pubtrans/services/next_bus_xml.py:306-315 | a built item's start time is the text of the first arrival with the smallest epoch between 0 and sys.maxint, or '' |
| NextBusXml.ScheduleItemEnd | pubtrans/services/next_bus_xml.py:306-316 | a built item's end time is the text of the first largest positive epoch, or '' |
| NextBusXml.LowerOf | pubtrans/services/next_bus_xml.py:236-237 | `.lower()` of a text is its lower-case form; on anything else it raises AttributeError |
| NextBusXml.ScheduleLastWins | pubtrans/services/next_bus_xml.py:233-238 | each schedule item is the item of the last route with that key |
| NextBusXml.ScheduleCoversRoutes | pubtrans/services/next_bus_xml.py:233-238 | every route's key is present among the schedule items |
| NextBusXml.BuildSchedule | pubtrans/services/next_bus_xml.py:222-240 | no route element raises IndexError; the schedule class comes from the first route; the items are keyed by lower(serviceClass):lower(direction) |
| NextBusXml.BuildScheduleRows | pubtrans/services/next_bus_xml.py:243-271 | one row record per `tr` child, in order, each starting with the row's block id; a route that is not an element raises AttributeError |
| NextBusXml.RowsListScannedStops | pubtrans/services/next_bus_xml.py:243-271 | the rows list the same stop elements, in order, that the schedule scan visits |
| NextBusXml.BuildMessageAsWritten | pubtrans/services/next_bus_xml.py:367-396 | the message builder as written; it succeeds only for a dict message |
| NextBusXml.BuildMessage | pubtrans/services/next_bus_xml.py:367-396 | corrected message builder: id, sendToBuses, priority and text come first |
| NextBusXml.AsWrittenNeedsIntervals | pubtrans/services/next_bus_xml.py:384-387 | as written, a route message without intervals raises TypeError |
| NextBusXml.MessageShape | pubtrans/services/next_bus_xml.py:374-394 | under 'all' only the four scalars; otherwise one stop per configured stop, and intervals exactly when there are some |
| NextBusXml.MessageAgreesOnLists | pubtrans/services/next_bus_xml.py:376-394 | when stops and intervals are lists, the corrected builder equals the written one |
| NextBusXml.MessagesOf | pubtrans/services/next_bus_xml.py:352-356 | each message of a route is built with the route's tag, in order; the first build that raises ends the loop with its exception |
| NextBusXml.RouteMessagesPartition | pubtrans/services/next_bus_xml.py:347-356 | the messages of routes tagged 'all' go to the all list and all the others to the route list, in document order |
| NextBusXml.BuildRouteMessages | pubtrans/services/next_bus_xml.py:339-364 | `allMessages` is present exactly when a route tagged 'all' has a message and `routeMessages` exactly when another route has one; each lists every such message built with its route's tag, in document order |
| NextBusXml.NoIntervalsAsWritten | pubtrans/services/next_bus_xml.py:384-387 | a detour message with no interval element raises TypeError as written |
| NextBusXml.NoIntervalsCorrected | pubtrans/services/next_bus_xml.py:384-387 | corrected, the same message gets an empty stops list and no intervals |
| NextBusXml.OneMessageAsWritten | pubtrans/services/next_bus_xml.py:351-354 | as written, a route with a single message element raises AttributeError |
| NextBusXml.OneMessageCorrected | pubtrans/services/next_bus_xml.py:351-354 | corrected, the same reply gives one route message |
| NextBusXml.VehicleRecord | pubtrans/services/next_bus_xml.py:409-418 | a vehicle record copies the eight attributes under their record keys |
| NextBusXml.BuildRouteVehicles | pubtrans/services/next_bus_xml.py:399-425 | one vehicle record per vehicle element in order, then lastTime; a missing lastTime element raises AttributeError |
| NextBusXml.PredictionRecord | pubtrans/services/next_bus_xml.py:451-461 | a prediction record copies the nine attributes under their record keys |
| NextBusXml.DirectionPredictions | pubtrans/services/next_bus_xml.py:439-465 | a direction's title and one prediction record per prediction element, in order |
| NextBusXml.BuildRoutePredictions | pubtrans/services/next_bus_xml.py:428-467 | one direction per direction element, in order; a missing predictions element raises AttributeError |
| NextBus.Request | pubtrans/services/next_bus.py:71-78 | a fetch failure propagates; a reply is validated in the 'xml' format |
| NextBus.BuildAgenciesList | pubtrans/services/next_bus.py:141-156 | one agency record per element; an absent agency child becomes [None], which raises AttributeError |
| NextBus.BuildRoutesList | pubtrans/services/next_bus.py:158-175 | one route record per element; shortTitle only when truthy; an absent child raises AttributeError |
| NextBus.BuildStops | pubtrans/services/next_bus.py:247-262 | one stop record per element of the wrapped stop child |
| NextBus.BuildDirections | pubtrans/services/next_bus.py:220-245 | one direction record per element of the wrapped direction child |
| NextBus.BuildPath | pubtrans/services/next_bus.py:198-218 | one path record per element of the wrapped path child |
| NextBus.BuildRoute | pubtrans/services/next_bus.py:177-196 | the eight scalar attributes, then stops, directions and paths with one record per child, a single child wrapped into a list |
| NextBus.AgenciesAgreeWhenPresent | pubtrans/services/next_bus.py:143-145 | when the agency child is present both connectors build the same agency list |
| NextBus.RoutesAgreeWhenPresent | pubtrans/services/next_bus.py:160-162 | when the route child is present both connectors build the same route list |
| NextBus.AbsentAgenciesDiffer | pubtrans/services/next_bus.py:143-145 | with no agency child this connector raises AttributeError where the XML connector answers [] |
| NextBus.StopsAgree | pubtrans/services/next_bus.py:249-251 | when the stop child is present both connectors build the same stops |
| NextBus.DirectionsAgree | pubtrans/services/next_bus.py:222-224 | when every child collection is present both connectors build the same directions |
| NextBus.PathsAgree | pubtrans/services/next_bus.py:200-202 | when every child collection is present both connectors build the same paths |
| NextBus.RouteAgreesWhenComplete | pubtrans/services/next_bus.py:177-196 | when every child collection is present both connectors build the same route |
| NextBus.RouteWithoutPathsDiffers | pubtrans/services/next_bus.py:200-207 | a route without paths raises AttributeError here and gives [] in the XML connector |
| NextBus.GetAgenciesOnce | pubtrans/services/next_bus.py:62-80 | one agencyList request, validated and built into the agency list |
| NextBus.GetAgencies | pubtrans/services/next_bus.py:57-80 | the agency list is asked for one to max(tries, 1) times; every call before the last raised ExternalProviderUnavailableTemporarily; the last call's outcome is the answer; a run that stopped early did not end on that kind; the k-th wait is `delay * backoff^k` |
| NextBus.AgenciesCallBound | pubtrans/services/next_bus.py:57-60 | agencies are fetched one to three times; all but the last attempt were temporarily unavailable; the configured zero delay never waits |
| NextBus.AgenciesRecoverAfterUnavailable | pubtrans/services/next_bus.py:57-60 | a 503 followed by a good reply gives that reply after two calls |
| NextBus.UnavailableAgencies | pubtrans/services/next_bus.py:71-78 | a 503 agencies reply raises ExternalProviderUnavailableTemporarily with the body |
| NextBus.AgenciesNotFoundNotRetried | pubtrans/services/next_bus.py:57-60 | a 404 is raised as NotFound after one call, whatever the retry settings |
| NextBus.GetAllRoutes | pubtrans/services/next_bus.py:97-116 | one routeList request for the agency, built into the route list |
| NextBus.GetRoute | pubtrans/services/next_bus.py:119-139 | one routeConfig request for the agency and route, built into the route |
| NextBus.GetRoutes | pubtrans/services/next_bus.py:83-94 | with a truthy route tag, the singleton list of that route; otherwise the full route list |
| NextBus.GetRoutesAsks | pubtrans/services/next_bus.py:83-94 | get_routes depends only on the reply to the one query it chooses |
| NextBus.Queries | pubtrans/services/next_bus.py:67-128 | the queries are {command: agencyList}, {command: routeList, a} and {command: routeConfig, a, r} |
| NextBus.RoutesNotRetried | pubtrans/services/next_bus.py:82-116 | the route list is not retried: a 503 is raised after one call |

## Left out

- I/O and foreign libraries are parameters or abstractions, not models: the
  redis client, statsd, Python logging, `json`/`xmltodict` parsing and the REST
  adapter. The parsers are functions that return a tree or a failure. JSON text
  in redis is abstracted to the value itself, so `json.dumps` of a modelled value
  always succeeds and decoding reads it back.
- Time, the weekday and the uuid are inputs. Retry waits are the list of delays,
  not IOLoop timeouts. Coroutine interleaving and races between requests on the
  shared breaker or cache are not modelled.
- Delays and breaker times are exact reals; IEEE floating point is not mimicked.
- Key expiry: the TTL is recorded with each entry, but entries never expire.
  Replication from master to slave is an explicit step (`RedisRepository.Replicate`).
- `pubtrans/common/breaker.py` is not part of this model. The breaker is built
  from its scenarios. Where they are silent the model makes one fixed choice,
  and no property is claimed about it: an error while half-open re-opens the
  breaker, errors are never pruned, and success always clears them.
- `pubtrans/domain/api.py` is not part of this model. Its record key names are
  chosen in module `Api`. `TAG_REGION_TITILE` in `next_bus.py` is taken to be the
  same key as `TAG_REGION_TITLE`.
- `pubtrans/common/exceptions.py` is not part of this model. The base classes of
  each exception kind (module `Errors`) follow the names the handler tests on;
  the table is an assumption.
- Log record formats: the `%s` of a log tag is modelled as a prefix. The text of
  a redis ConnectionError is modelled as the fixed 'Error connecting'.
- `BaseHandler.ExceptionBody`: the last traceback line of an unexpected
  exception is modelled as that exception's message.
- The notifications and statistics that `prepare` and `_build_response_internal`
  send (request and response debug lines, counters, timing) are not modelled
  beyond the URI-statistics gate.
- `Text.Lower` lowers ASCII letters only; Unicode case mapping is not modelled.
- Python 2 dict ordering: the header-stop dict and the projected route are
  modelled as ordered field lists; their order is not claimed to match CPython's.
  The header stop keyed None is written after the text-keyed ones.
- `NextBus.AgenciesCallBound`: the retry settings are fixed to three tries with
  a zero delay, the constants the model assumes for `settings.py`.
- `NextBus.RouteAgreesWhenComplete` is proved only when every child collection
  of the route is present; `NextBus.RouteWithoutPathsDiffers` shows where the
  connectors part.
- `Support.ShapeKeepsOrder`, `Support.ShapeIsCounted`, `Support.GetUriCount` and `Support.GetSlowRequests`
  assume the reply's members are distinct. Redis sorted sets guarantee this; for a
  reply with duplicates, `Support.PutCount` states the overwrite.
- `CacheAside.MissFetchesAndStores`, `CacheAside.CacheDownStillServes`,
  `CacheAside.StoredNoneIsMiss`, `Service.AgenciesMissStores` and
  `Service.AgenciesWithoutCache` are proved for a settings module that defines
  the kind's expiry setting. With the settings as shipped,
  `CacheAside.ShippedSettingsFailEveryMiss` states what happens instead.
- The stale record shapes in the handler tests and the HTTP routing of
  `application.py` are not modelled.

## Findings

| source | as written | input that shows it | evidently intended | confidence | as-written member | corrected member |
|---|---|---|---|---|---|---|
| pubtrans/domain/agency.py:74-76 | `['sun', 'sat', 'wkd', …][%w]` maps Monday (1) to 'sat' and Saturday (6) to 'wkd' | weekday 1 (Monday) selects the 'sat:inbound' schedule item | Sunday 'sun', Saturday 'sat', Monday to Friday 'wkd' | medium, not executed | Agency.ServiceClassAsWrittenSwapsDays | Agency.ServiceClass |
| pubtrans/domain/agency.py:85-87 | a route is kept only if the time is before the start AND after the end | time '03:00:00' with window '06:00:00' to '23:00:00': the route is dropped although it is not running | keep a route exactly when it does not run at the time: before the start OR after the end for a same-day window, before the start AND after the end for a window past midnight | high, not executed | Agency.NotRunningCounterexample | Agency.CorrectedKeepsOutsideWindow |
| pubtrans/repositories/redis_repository.py:48 | every `store_X` reads a `*_CACHE_TTL_SECONDS` setting (lines 48, 83, 118, 153, 189, 225, 262) that `settings.py` does not define; the read is outside the `try`, and the coordinators catch only DatabaseOperationError | a cache miss with the provider up: the agencies are fetched, then `settings.AGENCIES_CACHE_TTL_SECONDS` raises AttributeError and nothing is cached | the settings module defines the seven expiries, and a miss returns the provider's value and caches it | medium, not executed | CacheAside.ShippedSettingsFailEveryMiss | CacheAside.MissFetchesAndStores |
| pubtrans/domain/agency.py:104 | `get_route_schedule` (and at lines 125, 146 and 167 `get_route_predictions`, `get_route_messages`, `get_route_vehicles`) calls a method that `NextBusService` (services/next_bus.py:15-263) does not define | an uncached schedule: the lookup raises AttributeError inside the 'next_bus' guard, the breaker does not record it, and nothing is cached; `get_routes` with `not_running_at` fails the same way | the provider answers the four reads, and a miss returns and caches its value | high, not executed | Agency.ShippedScheduleMissFails | Agency.GetRouteSchedule |
| pubtrans/services/next_bus_xml.py:384-387 | the intervals loop runs even when `intervals_xml` is None | a route message with no interval element: iterating None raises TypeError | no intervals key and no loop when there are none | high, not executed | NextBusXml.NoIntervalsAsWritten | NextBusXml.NoIntervalsCorrected |
| pubtrans/services/next_bus_xml.py:351-354 | `route_xml.get('message')` is iterated without normalising a single element to a list | a route with exactly one message element: its keys are iterated and `.get` on a text raises AttributeError | normalise like every other child collection | high, not executed | NextBusXml.OneMessageAsWritten | NextBusXml.OneMessageCorrected |
