/** The redis repository: one colon-joined key per cached kind and tags,
    reads from the slave host and writes to the master host, a per-kind
    expiry, and the translation of store failures into DatabaseOperationError.

    The redis servers are an abstract map from host name to node; a node that
    is down answers every command with a connection error. The JSON text a
    value is stored as is abstracted to the value itself: `json.dumps` of a
    modelled value always succeeds and `json.loads` reads it back. */
module RedisRepository {
  import opened Wrappers
  import opened Errors
  import opened Json

  const KeyAgencies := "agencies"
  const KeyRoute := "route"
  const KeyRoutes := "routes"
  const KeyRouteSchedule := "route_schedule"
  const KeyRouteMessages := "route_messages"
  const KeyRouteVehicles := "route_vehicles"
  const KeyRoutePredictions := "route_predictions"

  /** Which cached entity, with the tags that identify it. */
  datatype CacheKey =
    | Agencies
    | Routes(agency: string)
    | Route(agency: string, route: string)
    | RouteSchedule(agency: string, route: string)
    | RouteMessages(agency: string, route: string)
    | RouteVehicles(agency: string, route: string)
    | RoutePredictions(agency: string, route: string, stop: string)

  /** The redis key each `get_X` / `store_X` pair builds: the agencies list
      sits under a colon-free key of its own, every other entity under a key
      that starts with its agency tag and a colon. */
  function KeyName(k: CacheKey): (name: string)
    ensures k.Agencies? <==> ':' !in name
    ensures !k.Agencies? ==> k.agency + ":" <= name
  {
    match k
    case Agencies => KeyAgencies
    case Routes(a) => a + ":" + KeyRoutes
    case Route(a, r) => a + ":" + KeyRoute + ":" + r
    case RouteSchedule(a, r) => a + ":" + KeyRouteSchedule + ":" + r
    case RouteMessages(a, r) => a + ":" + KeyRouteMessages + ":" + r
    case RouteVehicles(a, r) => a + ":" + KeyRouteVehicles + ":" + r
    case RoutePredictions(a, r, s) => a + ":" + KeyRoutePredictions + ":" + r + ":" + s
  }

  predicate ColonFree(s: string) {
    forall i :: 0 <= i < |s| ==> s[i] != ':'
  }

  /** Every tag of the key is free of colons, as NextBus tags are. */
  predicate Tagged(k: CacheKey) {
    match k
    case Agencies => true
    case Routes(a) => ColonFree(a)
    case Route(a, r) => ColonFree(a) && ColonFree(r)
    case RouteSchedule(a, r) => ColonFree(a) && ColonFree(r)
    case RouteMessages(a, r) => ColonFree(a) && ColonFree(r)
    case RouteVehicles(a, r) => ColonFree(a) && ColonFree(r)
    case RoutePredictions(a, r, s) => ColonFree(a) && ColonFree(r) && ColonFree(s)
  }

  /** The colon-separated fields of a key, as `s.split(':')` returns them. */
  function Split(s: string): (parts: seq<string>)
    ensures |parts| >= 1
  {
    if |s| == 0 then [""]
    else
      var rest := Split(s[1..]);
      if s[0] == ':' then [""] + rest else [[s[0]] + rest[0]] + rest[1..]
  }

  lemma {:induction false} SplitColonFree(a: string)
    requires ColonFree(a)
    ensures Split(a) == [a]
  {
    if |a| > 0 {
      SplitColonFree(a[1..]);
      assert [a[0]] + a[1..] == a;
    }
  }

  /** Splitting off the last field, which has no colon. */
  lemma {:induction false} SplitAppend(x: string, c: string)
    requires ColonFree(c)
    ensures Split(x + ":" + c) == Split(x) + [c]
  {
    if |x| == 0 {
      assert x + ":" + c == [':'] + c;
      assert (x + ":" + c)[1..] == c;
      SplitColonFree(c);
    } else {
      assert (x + ":" + c)[1..] == x[1..] + ":" + c;
      assert (x + ":" + c)[0] == x[0];
      SplitAppend(x[1..], c);
    }
  }

  /** Reads a key name back into the entity and tags it names. */
  function ParseKey(s: string): Option<CacheKey> {
    var p := Split(s);
    if |p| == 1 && p[0] == KeyAgencies then Some(Agencies)
    else if |p| == 2 && p[1] == KeyRoutes then Some(Routes(p[0]))
    else if |p| == 3 && p[1] == KeyRoute then Some(Route(p[0], p[2]))
    else if |p| == 3 && p[1] == KeyRouteSchedule then Some(RouteSchedule(p[0], p[2]))
    else if |p| == 3 && p[1] == KeyRouteMessages then Some(RouteMessages(p[0], p[2]))
    else if |p| == 3 && p[1] == KeyRouteVehicles then Some(RouteVehicles(p[0], p[2]))
    else if |p| == 4 && p[1] == KeyRoutePredictions then Some(RoutePredictions(p[0], p[2], p[3]))
    else None
  }

  /** With colon-free tags the key name can be read back, so the key
      formats of different kinds and tags never collide. */
  lemma ParseKeyName(k: CacheKey)
    requires Tagged(k)
    ensures ParseKey(KeyName(k)) == Some(k)
  {
    KeyWordsColonFree();
    match k
    case Agencies =>
      SplitColonFree(KeyAgencies);
    case Routes(a) =>
      SplitTwo(a, KeyRoutes);
    case Route(a, r) =>
      SplitThree(a, KeyRoute, r);
    case RouteSchedule(a, r) =>
      SplitThree(a, KeyRouteSchedule, r);
    case RouteMessages(a, r) =>
      SplitThree(a, KeyRouteMessages, r);
    case RouteVehicles(a, r) =>
      SplitThree(a, KeyRouteVehicles, r);
    case RoutePredictions(a, r, s) =>
      SplitThree(a, KeyRoutePredictions, r);
      SplitAppend(a + ":" + KeyRoutePredictions + ":" + r, s);
  }

  lemma KeyWordsColonFree()
    ensures ColonFree(KeyAgencies) && ColonFree(KeyRoutes) && ColonFree(KeyRoute)
    ensures ColonFree(KeyRouteSchedule) && ColonFree(KeyRouteMessages)
    ensures ColonFree(KeyRouteVehicles) && ColonFree(KeyRoutePredictions)
  {
  }

  lemma SplitTwo(a: string, m: string)
    requires ColonFree(a) && ColonFree(m)
    ensures Split(a + ":" + m) == [a, m]
  {
    SplitColonFree(a);
    SplitAppend(a, m);
  }

  lemma SplitThree(a: string, m: string, r: string)
    requires ColonFree(a) && ColonFree(m) && ColonFree(r)
    ensures Split(a + ":" + m + ":" + r) == [a, m, r]
  {
    SplitTwo(a, m);
    SplitAppend(a + ":" + m, r);
  }

  /** Distinct entities get distinct keys. */
  lemma KeyNamesDiffer(k1: CacheKey, k2: CacheKey)
    requires Tagged(k1) && Tagged(k2) && k1 != k2
    ensures KeyName(k1) != KeyName(k2)
  {
    ParseKeyName(k1);
    ParseKeyName(k2);
  }

  /** Tags that contain a colon can make two routes share one key. */
  lemma ColonTagsCollide()
    ensures KeyName(Route("a:route", "b")) == KeyName(Route("a", "route:b"))
    ensures Route("a:route", "b") != Route("a", "route:b")
  {
    assert KeyName(Route("a:route", "b")) == "a:route" + ":" + KeyRoute + ":" + "b";
    assert KeyName(Route("a", "route:b")) == "a" + ":" + KeyRoute + ":" + "route:b";
  }

  // ---------------------------------------------------------------------------
  // Hosts, expiry and the stored entries

  const MasterHost := "redis-master"
  const SlaveHost := "redis-slave"

  /** `get_redis_connection(role)`: 'master' writes, every other role reads from the slave. */
  function HostFor(role: string): (host: string)
    ensures host == MasterHost <==> role == "master"
    ensures host == SlaveHost <==> role != "master"
  {
    if role == "master" then MasterHost else SlaveHost
  }

  /** The integer attributes of the service's settings module, by name. */
  type Settings = map<string, int>

  /** The settings module as the repository ships it: of the cache expiries
      it defines only the one the NextBus response cache reads. */
  const ShippedSettings: Settings := map["NEXTBUS_CACHE_TTL_SECONDS" := 60]

  /** The setting each `store_X` reads its expiry from. */
  function TtlSetting(k: CacheKey): (name: string)
    ensures name != "NEXTBUS_CACHE_TTL_SECONDS"
  {
    match k
    case Agencies => "AGENCIES_CACHE_TTL_SECONDS"
    case Routes(_) => "ROUTES_CACHE_TTL_SECONDS"
    case Route(_, _) => "ROUTE_CACHE_TTL_SECONDS"
    case RouteSchedule(_, _) => "SCHEDULE_CACHE_TTL_SECONDS"
    case RouteMessages(_, _) => "ROUTE_MESSAGES_CACHE_TTL_SECONDS"
    case RouteVehicles(_, _) => "ROUTE_VEHICLES_CACHE_TTL_SECONDS"
    case RoutePredictions(_, _, _) => "ROUTE_PREDICTIONS_CACHE_TTL_SECONDS"
  }

  /** The settings module has the attribute `store_X` reads for `k`. */
  predicate Defines(settings: Settings, k: CacheKey) {
    TtlSetting(k) in settings
  }

  function TtlFor(settings: Settings, k: CacheKey): int
    requires Defines(settings, k)
  {
    settings[TtlSetting(k)]
  }

  /** The shipped settings define none of the seven expiries `store_X` reads. */
  lemma ShippedSettingsLackTtls(k: CacheKey)
    ensures !Defines(ShippedSettings, k)
  {
    assert TtlSetting(k) != "NEXTBUS_CACHE_TTL_SECONDS";
  }

  /** What a redis value holds: JSON text of a value, something `json.loads`
      rejects with TypeError, or text it rejects with ValueError. */
  datatype Payload = JsonText(value: Json) | NotText | Malformed

  /** A stored value with the expiry (`ex=`) it was set with. */
  datatype Entry = Entry(payload: Payload, ttl: int)

  datatype Node = Node(up: bool, data: map<string, Entry>)

  /** The redis servers by host name; a host without a node is unreachable. */
  type Servers = map<string, Node>

  predicate Reachable(servers: Servers, host: string) {
    host in servers && servers[host].up
  }

  /** `get_X(tags)`: a connection error and a TypeError while decoding become
      DatabaseOperationError, a ValueError while decoding is not caught, a
      missing key reads as None. */
  function Get(servers: Servers, k: CacheKey): (r: Outcome<Json>)
    ensures !Reachable(servers, SlaveHost) ==> RaisedKind(r, DatabaseOperationError)
    ensures Reachable(servers, SlaveHost) && KeyName(k) !in servers[SlaveHost].data ==> r == Success(JNull)
    ensures Reachable(servers, SlaveHost) && KeyName(k) in servers[SlaveHost].data ==>
      match servers[SlaveHost].data[KeyName(k)].payload
      case JsonText(v) => r == Success(v)
      case NotText => RaisedKind(r, DatabaseOperationError)
      case Malformed => RaisedKind(r, ValueError)
  {
    var host := HostFor("slave");
    if !Reachable(servers, host) then Raise(DatabaseOperationError, "Cannot get from redis")
    else if KeyName(k) !in servers[host].data then Success(JNull)
    else match servers[host].data[KeyName(k)].payload
      case JsonText(v) => Success(v)
      case NotText => Raise(DatabaseOperationError, "Invalid format")
      case Malformed => Raise(ValueError, "No JSON object could be decoded")
  }

  /** `store_X(tags, value)`: reads the kind's expiry setting before its
      `try`, so a settings module without it raises AttributeError and nothing
      is written; otherwise sets the key on the master with that expiry and
      returns the value, and a connection error becomes DatabaseOperationError
      with nothing written. */
  function Store(servers: Servers, settings: Settings, k: CacheKey, v: Json): (r: (Outcome<Json>, Servers))
    ensures !Defines(settings, k) ==> RaisedKind(r.0, AttributeError) && r.1 == servers
    ensures Defines(settings, k) && Reachable(servers, MasterHost) ==>
      && r.0 == Success(v)
      && r.1 == servers[MasterHost := Node(true, servers[MasterHost].data[KeyName(k) := Entry(JsonText(v), TtlFor(settings, k))])]
    ensures Defines(settings, k) && !Reachable(servers, MasterHost) ==>
      RaisedKind(r.0, DatabaseOperationError) && r.1 == servers
  {
    var host := HostFor("master");
    if !Defines(settings, k) then (Raise(AttributeError, "'module' object has no attribute '" + TtlSetting(k) + "'"), servers)
    else if !Reachable(servers, host) then (Raise(DatabaseOperationError, "Cannot store in redis"), servers)
    else
      var node := servers[host];
      (Success(v), servers[host := node.(data := node.data[KeyName(k) := Entry(JsonText(v), TtlFor(settings, k))])])
  }

  /** Replication: the slave catches up with the master (only when both are up). */
  function Replicate(servers: Servers): (r: Servers)
    ensures Reachable(servers, MasterHost) && Reachable(servers, SlaveHost) ==>
      r == servers[SlaveHost := Node(true, servers[MasterHost].data)]
    ensures !(Reachable(servers, MasterHost) && Reachable(servers, SlaveHost)) ==> r == servers
  {
    if Reachable(servers, MasterHost) && Reachable(servers, SlaveHost)
    then servers[SlaveHost := servers[SlaveHost].(data := servers[MasterHost].data)]
    else servers
  }

  /** Once the slave has replicated, `get_X` with the tags `store_X` used
      returns the stored value; a stored None reads back as a miss. */
  lemma StoreThenGet(servers: Servers, settings: Settings, k: CacheKey, v: Json)
    requires Defines(settings, k)
    requires Reachable(servers, MasterHost) && Reachable(servers, SlaveHost)
    ensures Get(Replicate(Store(servers, settings, k, v).1), k) == Success(v)
    ensures Replicate(Store(servers, settings, k, v).1)[SlaveHost].data[KeyName(k)].ttl == TtlFor(settings, k)
  {
  }

  /** `get_X` reads only the slave's entry for its key. */
  lemma GetReadsSlaveEntry(s1: Servers, s2: Servers, k: CacheKey)
    requires Reachable(s1, SlaveHost) && Reachable(s2, SlaveHost)
    requires (KeyName(k) in s1[SlaveHost].data) == (KeyName(k) in s2[SlaveHost].data)
    requires KeyName(k) in s1[SlaveHost].data ==> s1[SlaveHost].data[KeyName(k)] == s2[SlaveHost].data[KeyName(k)]
    ensures Get(s1, k) == Get(s2, k)
  {
  }

  /** After a store and replication the slave holds the master's data with
      the stored entry. */
  lemma ReplicatedStore(servers: Servers, settings: Settings, k: CacheKey, v: Json)
    requires Defines(settings, k)
    requires Reachable(servers, MasterHost) && Reachable(servers, SlaveHost)
    ensures var after := Replicate(Store(servers, settings, k, v).1);
      && Reachable(after, SlaveHost)
      && after[SlaveHost].data == servers[MasterHost].data[KeyName(k) := Entry(JsonText(v), TtlFor(settings, k))]
  {
  }

  /** Storing one entity leaves every other entity's cached value as it was. */
  lemma StoreLeavesOthers(servers: Servers, settings: Settings, k: CacheKey, other: CacheKey, v: Json)
    requires Reachable(servers, MasterHost) && Reachable(servers, SlaveHost)
    requires Tagged(k) && Tagged(other) && other != k
    ensures Get(Replicate(Store(servers, settings, k, v).1), other) == Get(Replicate(servers), other)
  {
    if Defines(settings, k) {
      KeyNamesDiffer(k, other);
      ReplicatedStore(servers, settings, k, v);
      var before := Replicate(servers);
      assert Reachable(before, SlaveHost) && before[SlaveHost].data == servers[MasterHost].data;
      GetReadsSlaveEntry(Replicate(Store(servers, settings, k, v).1), before, other);
    }
  }
}
