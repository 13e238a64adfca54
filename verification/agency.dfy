/** The agency domain object: the cache-aside reads of one agency's routes,
    route, schedule, predictions, messages and vehicles, the field projection
    of a route, and the "not running at" route filter.

    The provider is a function from the cache key to the outcome the NextBus
    call for that entity would have (`upstream`); the weekday that
    `datetime.now().strftime("%w")` yields is a parameter (0 = Sunday). */
module Agency {
  import opened Wrappers
  import opened Errors
  import opened Json
  import opened Text
  import opened Api
  import opened CircuitBreaker
  import opened RedisRepository
  import opened CacheAside

  type Weekday = d: int | 0 <= d <= 6

  type Upstream = CacheKey -> Outcome<Json>

  // ---------------------------------------------------------------------------
  // The weekday's service class

  /** The service-class table as the code writes it, indexed by `%w`. */
  function ServiceClassAsWritten(d: Weekday): string {
    ["sun", "sat", "wkd", "wkd", "wkd", "wkd", "wkd"][d]
  }

  /** The table read Monday as Saturday and Saturday as a weekday. */
  lemma ServiceClassAsWrittenSwapsDays()
    ensures ServiceClassAsWritten(1) == "sat"
    ensures ServiceClassAsWritten(6) == "wkd"
  {
  }

  /** The service class of a weekday: Sunday 'sun', Saturday 'sat', the
      five weekdays 'wkd'. */
  function ServiceClass(d: Weekday): (c: string)
    ensures c == "sun" <==> d == 0
    ensures c == "sat" <==> d == 6
    ensures c == "wkd" <==> 1 <= d <= 5
  {
    ["sun", "wkd", "wkd", "wkd", "wkd", "wkd", "sat"][d]
  }

  /** Which filter runs: the code as written (its day table and its keep
      test), or the corrected one (the calendar's day table, and a route is
      kept when `nra` lies outside its service window). */
  datatype KeepRule = AsWritten | Corrected

  function ServiceClassUnder(rule: KeepRule, d: Weekday): (c: string)
    ensures rule == AsWritten ==> c == ServiceClassAsWritten(d)
    ensures rule == Corrected ==> c == ServiceClass(d)
  {
    match rule
    case AsWritten => ServiceClassAsWritten(d)
    case Corrected => ServiceClass(d)
  }

  /** The two tables agree from Tuesday to Friday. */
  lemma TablesAgreeMidweek(d: Weekday)
    requires 2 <= d <= 5
    ensures ServiceClassUnder(AsWritten, d) == ServiceClassUnder(Corrected, d) == "wkd"
  {
  }

  /** The schedule item the filter consults: the inbound one of the day's class. */
  function InboundItemKey(rule: KeepRule, d: Weekday): string {
    ServiceClassUnder(rule, d) + ":inbound"
  }

  // ---------------------------------------------------------------------------
  // The keep decision

  /** `nra < x` in Python 2 for a text `nra`: texts compare by code points;
      None and containers order below any text. */
  predicate TextBelow(nra: string, x: Json) {
    x.JStr? && LexLess(nra, x.str)
  }

  /** `nra > x` in Python 2 for a text `nra`. */
  predicate TextAbove(nra: string, x: Json) {
    !x.JStr? || LexLess(x.str, nra)
  }

  /** `a <= b` on text. */
  predicate NotAfter(a: string, b: string) {
    a == b || LexLess(a, b)
  }

  /** A route with service window [start, end] runs at `nra`. A window whose
      end sorts before its start runs past midnight: from start to the end of
      the day and from the start of the day to end. */
  predicate InWindow(nra: string, start: string, end: string) {
    if LexLess(end, start) then NotAfter(start, nra) || NotAfter(nra, end)
    else NotAfter(start, nra) && NotAfter(nra, end)
  }

  /** The window's end sorts before its start: it runs past midnight. */
  predicate Overnight(start: Json, end: Json) {
    start.JStr? && end.JStr? && LexLess(end.str, start.str)
  }

  /** Whether a route with this schedule item is kept. No item keeps the
      route. As written, a route is kept only when `nra` is before the start
      AND after the end. Corrected, a route is kept when `nra` is before the
      start OR after the end, and, for a window past midnight, when it is
      both. The item's `.get` raises AttributeError when it is not a dict. */
  function Decide(rule: KeepRule, nra: string, item: Json): (r: Outcome<bool>)
    ensures r.Failure? <==> item != JNull && !item.JObj?
    ensures item == JNull ==> r == Success(true)
  {
    match item
    case JNull => Success(true)
    case JObj(fs) =>
      var start := Lookup(fs, TagScheduleStartTime).GetOr(JNull);
      var end := Lookup(fs, TagScheduleEndTime).GetOr(JNull);
      (match rule
       case AsWritten => Success(TextBelow(nra, start) && TextAbove(nra, end))
       case Corrected =>
         if Overnight(start, end) then Success(TextBelow(nra, start) && TextAbove(nra, end))
         else Success(TextBelow(nra, start) || TextAbove(nra, end)))
    case _ => Raise(AttributeError, "object has no attribute 'get'")
  }

  /** A schedule item holding a service window. */
  function Window(start: string, end: string): (w: Json)
    ensures w.JObj?
    ensures Lookup(w.fields, TagScheduleStartTime) == Some(JStr(start))
    ensures Lookup(w.fields, TagScheduleEndTime) == Some(JStr(end))
  {
    var fs := [Field(TagScheduleStartTime, JStr(start)), Field(TagScheduleEndTime, JStr(end))];
    assert Lookup(fs[1..], TagScheduleEndTime) == Some(JStr(end));
    JObj(fs)
  }

  /** As written, a service window whose start sorts before its end (every
      same-day window) drops the route at every time of day. */
  lemma AsWrittenDropsSameDayWindows(nra: string, start: string, end: string)
    requires LexLess(start, end)
    ensures Decide(AsWritten, nra, Window(start, end)) == Success(false)
  {
    if LexLess(nra, start) && LexLess(end, nra) {
      LexLessTransitive(end, nra, start);
      LexLessAsymmetric(start, end);
    }
  }

  /** The input that shows it: at 03:00 a route running 06:00 to 23:00 is not
      running, yet the written rule drops it. */
  lemma NotRunningCounterexample()
    ensures Decide(AsWritten, "03:00:00", Window("06:00:00", "23:00:00")) == Success(false)
    ensures Decide(Corrected, "03:00:00", Window("06:00:00", "23:00:00")) == Success(true)
  {
    AsWrittenDropsSameDayWindows("03:00:00", "06:00:00", "23:00:00");
    assert LexLess("03:00:00", "06:00:00");
  }

  /** `nra` sorts strictly before `x` exactly when `x` is not at or before it. */
  lemma BeforeIsNotAfter(nra: string, x: string)
    ensures LexLess(nra, x) <==> !NotAfter(x, nra)
    ensures LexLess(x, nra) <==> !NotAfter(nra, x)
  {
    LexLessTotal(nra, x);
    if LexLess(nra, x) { LexLessAsymmetric(nra, x); LexLessIrreflexive(nra); }
    if LexLess(x, nra) { LexLessAsymmetric(x, nra); LexLessIrreflexive(nra); }
  }

  /** Corrected, a route with a text window is kept exactly when it does not
      run at `nra`, for same-day windows and for windows past midnight alike. */
  lemma CorrectedKeepsOutsideWindow(nra: string, start: string, end: string)
    ensures Decide(Corrected, nra, Window(start, end)) == Success(!InWindow(nra, start, end))
  {
    BeforeIsNotAfter(nra, start);
    BeforeIsNotAfter(nra, end);
  }

  /** A window past midnight: from 05:00 to 00:30 the route runs at noon, so
      the corrected filter drops it; keeping it when `nra` is merely after
      the end would not. */
  lemma OvernightWindowAtNoon()
    ensures !Decide(Corrected, "12:00:00", Window("05:00:00", "00:30:00")).value
    ensures InWindow("12:00:00", "05:00:00", "00:30:00")
  {
    assert LexLess("00:30:00", "05:00:00") by { assert "00:30:00"[1] < "05:00:00"[1]; }
    CorrectedKeepsOutsideWindow("12:00:00", "05:00:00", "00:30:00");
    assert LexLess("05:00:00", "12:00:00") by { assert "05:00:00"[0] < "12:00:00"[0]; }
  }

  // ---------------------------------------------------------------------------
  // Order-preserving selection

  function Select<T>(xs: seq<T>, keep: seq<bool>): (r: seq<T>)
    requires |keep| == |xs|
    ensures |r| <= |xs|
  {
    if |xs| == 0 then [] else (if keep[0] then [xs[0]] else []) + Select(xs[1..], keep[1..])
  }

  /** `a` is `b` with some elements left out, the rest in their order. */
  predicate IsSubsequence<T(==)>(a: seq<T>, b: seq<T>)
    decreases |b|
  {
    |a| == 0 || (|b| > 0 && ((a[0] == b[0] && IsSubsequence(a[1..], b[1..])) || IsSubsequence(a, b[1..])))
  }

  lemma {:induction false} SelectIsSubsequence<T>(xs: seq<T>, keep: seq<bool>)
    requires |keep| == |xs|
    ensures IsSubsequence(Select(xs, keep), xs)
  {
    if |xs| > 0 {
      SelectIsSubsequence(xs[1..], keep[1..]);
      var rest := Select(xs[1..], keep[1..]);
      if keep[0] {
        assert Select(xs, keep) == [xs[0]] + rest;
        assert ([xs[0]] + rest)[1..] == rest;
      } else {
        assert Select(xs, keep) == rest;
      }
    }
  }

  /** An element is selected exactly when some kept position holds it. */
  lemma {:induction false} SelectMembers<T>(xs: seq<T>, keep: seq<bool>, y: T)
    requires |keep| == |xs|
    ensures y in Select(xs, keep) <==> exists i :: 0 <= i < |xs| && keep[i] && xs[i] == y
  {
    if |xs| > 0 {
      SelectMembers(xs[1..], keep[1..], y);
      if exists i :: 0 <= i < |xs| - 1 && keep[1..][i] && xs[1..][i] == y {
        var i :| 0 <= i < |xs| - 1 && keep[1..][i] && xs[1..][i] == y;
        assert keep[i + 1] && xs[i + 1] == y;
      }
      if exists i :: 0 <= i < |xs| && keep[i] && xs[i] == y {
        var i :| 0 <= i < |xs| && keep[i] && xs[i] == y;
        if i > 0 { assert keep[1..][i - 1] && xs[1..][i - 1] == y; }
      }
    }
  }

  // ---------------------------------------------------------------------------
  // get_routes_not_running_at

  /** The schedule item for one route: `route['tag']`, the route's schedule
      through the cache-aside read, then `.get('scheduleItems').get(key)`
      with the day's inbound key. A route that is not a dict, or has no tag,
      fails before any read; a tag that is not text cannot be joined into the
      key: TypeError. */
  function ItemFor(w: World, agency: string, route: Json, upstream: Upstream, now: real,
                   d: Weekday, rule: KeepRule): (r: (Outcome<Json>, World))
    ensures !route.JObj? ==> RaisedKind(r.0, TypeError) && r.1 == w
    ensures route.JObj? && Lookup(route.fields, TagTag).None? ==> RaisedKind(r.0, KeyError) && r.1 == w
    ensures route.JObj? && Lookup(route.fields, TagTag).Some? && !Lookup(route.fields, TagTag).value.JStr? ==>
      RaisedKind(r.0, TypeError) && r.1 == w
    ensures route.JObj? && Lookup(route.fields, TagTag).Some? && Lookup(route.fields, TagTag).value.JStr? ==>
      var key := RouteSchedule(agency, Lookup(route.fields, TagTag).value.str);
      var s := Fetch(w, key, upstream(key), now);
      && r.1 == s.world
      && (s.result.Failure? ==> r.0 == s.result)
      && (s.result.Success? && !s.result.value.JObj? ==> RaisedKind(r.0, AttributeError))
      && (s.result.Success? && s.result.value.JObj? ==>
            var items := Lookup(s.result.value.fields, TagScheduleItems).GetOr(JNull);
            (items.JObj? ==> r.0 == Success(Lookup(items.fields, InboundItemKey(rule, d)).GetOr(JNull)))
            && (!items.JObj? ==> RaisedKind(r.0, AttributeError)))
  {
    match Subscript(route, TagTag)
    case Failure(e) => (Failure(e), w)
    case Success(tag) =>
      if !tag.JStr? then (Raise(TypeError, "cannot concatenate 'str' and non-text objects"), w)
      else
        var key := RouteSchedule(agency, tag.str);
        var s := Fetch(w, key, upstream(key), now);
        match s.result
        case Failure(e) => (Failure(e), s.world)
        case Success(schedule) =>
          match PyGet(schedule, TagScheduleItems)
          case Failure(e) => (Failure(e), s.world)
          case Success(items) => (PyGet(items, InboundItemKey(rule, d)), s.world)
  }

  /** The filter's answer with, on success, the item consulted and the keep
      decision for every route. */
  datatype Filtered = Filtered(result: Outcome<seq<Json>>, world: World, items: seq<Json>, keep: seq<bool>)

  /** `get_routes_not_running_at`: routes are visited in order; the first
      exception ends the filter. On success the answer is the routes whose
      decision was to keep, in their order. */
  function NotRunningAt(w: World, agency: string, routes: seq<Json>, nra: string,
                        upstream: Upstream, now: real, d: Weekday, rule: KeepRule): (f: Filtered)
    ensures f.result.Success? ==>
      && |f.items| == |routes| && |f.keep| == |routes|
      && f.result.value == Select(routes, f.keep)
      && forall i :: 0 <= i < |routes| ==> Decide(rule, nra, f.items[i]) == Success(f.keep[i])
    decreases |routes|
  {
    if |routes| == 0 then Filtered(Success([]), w, [], [])
    else
      var (item, w1) := ItemFor(w, agency, routes[0], upstream, now, d, rule);
      match item
      case Failure(e) => Filtered(Failure(e), w1, [], [])
      case Success(it) =>
        match Decide(rule, nra, it)
        case Failure(e) => Filtered(Failure(e), w1, [], [])
        case Success(k) =>
          var rest := NotRunningAt(w1, agency, routes[1..], nra, upstream, now, d, rule);
          match rest.result
          case Failure(e) => Filtered(Failure(e), rest.world, [], [])
          case Success(kept) =>
            Filtered(Success((if k then [routes[0]] else []) + kept), rest.world, [it] + rest.items, [k] + rest.keep)
  }

  /** The filter's answer is an order-preserving subsequence of the routes. */
  lemma FilterIsSubsequence(w: World, agency: string, routes: seq<Json>, nra: string,
                            upstream: Upstream, now: real, d: Weekday, rule: KeepRule)
    requires NotRunningAt(w, agency, routes, nra, upstream, now, d, rule).result.Success?
    ensures IsSubsequence(NotRunningAt(w, agency, routes, nra, upstream, now, d, rule).result.value, routes)
  {
    var f := NotRunningAt(w, agency, routes, nra, upstream, now, d, rule);
    SelectIsSubsequence(routes, f.keep);
  }

  // ---------------------------------------------------------------------------
  // get_routes and get_route

  /** `criteria.get('not_running_at')` is truthy. */
  predicate FilterRequested(criteria: map<string, string>) {
    CriteriaNotRunningAt in criteria && |criteria[CriteriaNotRunningAt]| > 0
  }

  /** `Agency.get_routes(criteria)`: the routes through the cache-aside read,
      then, only when the criterion is set, the not-running filter over them;
      `AsWritten` is the code's filter. */
  function GetRoutes(w: World, agency: string, criteria: map<string, string>,
                     upstream: Upstream, now: real, d: Weekday, rule: KeepRule): (r: (Outcome<Json>, World))
    ensures var s := Fetch(w, Routes(agency), upstream(Routes(agency)), now);
      s.result.Failure? ==> r == (s.result, s.world)
    ensures var s := Fetch(w, Routes(agency), upstream(Routes(agency)), now);
      s.result.Success? && !FilterRequested(criteria) ==> r == (s.result, s.world)
    ensures var s := Fetch(w, Routes(agency), upstream(Routes(agency)), now);
      s.result.Success? && FilterRequested(criteria) && s.result.value.JArr? ==>
        var f := NotRunningAt(s.world, agency, s.result.value.items, criteria[CriteriaNotRunningAt],
                              upstream, now, d, rule);
        r.1 == f.world && (r.0.Success? <==> f.result.Success?) &&
        (f.result.Success? ==> r.0 == Success(JArr(f.result.value)))
  {
    var s := Fetch(w, Routes(agency), upstream(Routes(agency)), now);
    match s.result
    case Failure(e) => (Failure(e), s.world)
    case Success(routes) =>
      if !FilterRequested(criteria) then (Success(routes), s.world)
      else
        match Iterate(routes)
        case Failure(e) => (Failure(e), s.world)
        case Success(items) =>
          var f := NotRunningAt(s.world, agency, items, criteria[CriteriaNotRunningAt], upstream, now, d, rule);
          match f.result
          case Failure(e) => (Failure(e), f.world)
          case Success(kept) => (Success(JArr(kept)), f.world)
  }

  /** The filtered routes are the cached routes whose decision was to keep:
      the filter runs on a cache hit exactly as on a miss. */
  lemma FilterOnHit(w: World, agency: string, criteria: map<string, string>,
                    upstream: Upstream, now: real, d: Weekday, rule: KeepRule, routes: seq<Json>)
    requires Reachable(w.servers, SlaveHost)
    requires KeyName(Routes(agency)) in w.servers[SlaveHost].data
    requires w.servers[SlaveHost].data[KeyName(Routes(agency))].payload == JsonText(JArr(routes))
    requires FilterRequested(criteria)
    requires GetRoutes(w, agency, criteria, upstream, now, d, rule).0.Success?
    ensures GetRoutes(w, agency, criteria, upstream, now, d, rule).0.value.JArr?
    ensures IsSubsequence(GetRoutes(w, agency, criteria, upstream, now, d, rule).0.value.items, routes)
  {
    var f := NotRunningAt(w, agency, routes, criteria[CriteriaNotRunningAt], upstream, now, d, rule);
    SelectIsSubsequence(routes, f.keep);
  }

  /** Route N, with a weekday service window from 06:00 to 23:00. */
  const RouteN := JObj([Field(TagTag, JStr("N"))])
  const WindowN := Window("06:00:00", "23:00:00")
  const ItemsN := JObj([Field("wkd:inbound", WindowN)])
  const ScheduleN := JObj([Field(TagScheduleItems, ItemsN)])

  /** A cache holding route N as the agency's only route, and its schedule. */
  predicate RouteNCached(w: World, agency: string) {
    && Reachable(w.servers, SlaveHost)
    && KeyName(Routes(agency)) in w.servers[SlaveHost].data
    && w.servers[SlaveHost].data[KeyName(Routes(agency))].payload == JsonText(JArr([RouteN]))
    && KeyName(RouteSchedule(agency, "N")) in w.servers[SlaveHost].data
    && w.servers[SlaveHost].data[KeyName(RouteSchedule(agency, "N"))].payload == JsonText(ScheduleN)
  }

  /** On a Wednesday both day tables consult N's weekday window, from the cache. */
  lemma RouteNItem(w: World, agency: string, upstream: Upstream, now: real, rule: KeepRule)
    requires RouteNCached(w, agency)
    ensures ItemFor(w, agency, RouteN, upstream, now, 3, rule) == (Success(WindowN), w)
  {
    TablesAgreeMidweek(3);
    assert InboundItemKey(rule, 3) == "wkd:inbound";
    assert Lookup(RouteN.fields, TagTag) == Some(JStr("N"));
    assert Lookup(ScheduleN.fields, TagScheduleItems) == Some(ItemsN);
    assert Lookup(ItemsN.fields, "wkd:inbound") == Some(WindowN);
    HitServesCached(w, RouteSchedule(agency, "N"), upstream(RouteSchedule(agency, "N")), now);
  }

  lemma RouteNFilter(w: World, agency: string, upstream: Upstream, now: real, rule: KeepRule)
    requires RouteNCached(w, agency)
    ensures NotRunningAt(w, agency, [RouteN], "03:00:00", upstream, now, 3, rule)
      == Filtered(Success(if rule == Corrected then [RouteN] else []), w, [WindowN], [rule == Corrected])
  {
    RouteNItem(w, agency, upstream, now, rule);
    NotRunningCounterexample();
    assert Decide(rule, "03:00:00", WindowN) == Success(rule == Corrected);
    assert [RouteN][1..] == [];
    var rest := NotRunningAt(w, agency, [RouteN][1..], "03:00:00", upstream, now, 3, rule);
    assert rest == Filtered(Success([]), w, [], []);
    assert (if rule == Corrected then [RouteN] else []) + [] == (if rule == Corrected then [RouteN] else []);
  }

  /** On a Wednesday at 03:00 route N is not running: the written filter
      answers no routes, the corrected one answers N, and neither touches the
      provider or the cache. */
  lemma NotRunningAtThreeOnWednesday(w: World, agency: string, upstream: Upstream, now: real)
    requires RouteNCached(w, agency)
    ensures GetRoutes(w, agency, map[CriteriaNotRunningAt := "03:00:00"], upstream, now, 3, AsWritten)
         == (Success(JArr([])), w)
    ensures GetRoutes(w, agency, map[CriteriaNotRunningAt := "03:00:00"], upstream, now, 3, Corrected)
         == (Success(JArr([RouteN])), w)
  {
    assert FilterRequested(map[CriteriaNotRunningAt := "03:00:00"]);
    HitServesCached(w, Routes(agency), upstream(Routes(agency)), now);
    RouteNFilter(w, agency, upstream, now, AsWritten);
    RouteNFilter(w, agency, upstream, now, Corrected);
  }

  /** `for field in fields: filtered[field] = route.get(field)`. */
  function Project(route: Json, fields: seq<string>): (r: Outcome<seq<Field>>)
    ensures |fields| > 0 ==> (r.Success? <==> route.JObj?)
    ensures r.Failure? ==> r.error.kind == AttributeError
    ensures r.Success? ==> forall f :: f in fields ==> Lookup(r.value, f) == Some(Lookup(route.fields, f).GetOr(JNull))
    ensures r.Success? ==> forall f :: f !in fields ==> Lookup(r.value, f) == None
  {
    if |fields| == 0 then Success([])
    else
      var acc :- Project(route, fields[..|fields| - 1]);
      var f := fields[|fields| - 1];
      var v :- PyGet(route, f);
      Success(Put(acc, f, v))
  }

  /** `Agency.get_route(route, fields)`: the route through the cache-aside
      read; with fields, a dict of exactly those fields, each bound to the
      route's value or None. */
  function GetRoute(w: World, agency: string, route: string, fields: seq<string>,
                    upstream: Upstream, now: real): (r: (Outcome<Json>, World))
    ensures r.1 == Fetch(w, Route(agency, route), upstream(Route(agency, route)), now).world
    ensures var s := Fetch(w, Route(agency, route), upstream(Route(agency, route)), now);
      |fields| == 0 ==> r.0 == s.result
    ensures var s := Fetch(w, Route(agency, route), upstream(Route(agency, route)), now);
      |fields| > 0 && s.result.Success? && s.result.value.JObj? ==>
        r.0.Success? && r.0.value.JObj? &&
        (forall f :: f in fields ==> Lookup(r.0.value.fields, f) == Some(Lookup(s.result.value.fields, f).GetOr(JNull))) &&
        (forall f :: f !in fields ==> Lookup(r.0.value.fields, f) == None)
    ensures var s := Fetch(w, Route(agency, route), upstream(Route(agency, route)), now);
      |fields| > 0 && s.result.Success? && !s.result.value.JObj? ==> RaisedKind(r.0, AttributeError)
  {
    var s := Fetch(w, Route(agency, route), upstream(Route(agency, route)), now);
    match s.result
    case Failure(e) => (Failure(e), s.world)
    case Success(v) =>
      if |fields| == 0 then (Success(v), s.world)
      else
        match Project(v, fields)
        case Failure(e) => (Failure(e), s.world)
        case Success(fs) => (Success(JObj(fs)), s.world)
  }

  // ---------------------------------------------------------------------------
  // The other cache-aside reads

  /** `get_route_schedule(agency, route)`: the cache-aside read under the
      route's schedule key. */
  function GetRouteSchedule(w: World, agency: string, route: string, upstream: Upstream, now: real): (s: Served)
    ensures ReadThrough(w, RouteSchedule(agency, route), upstream(RouteSchedule(agency, route)), s)
  {
    Fetch(w, RouteSchedule(agency, route), upstream(RouteSchedule(agency, route)), now)
  }

  /** `get_route_predictions(agency, route, stop)`: the cache-aside read under
      a key of its own for every stop. */
  function GetRoutePredictions(w: World, agency: string, route: string, stop: string, upstream: Upstream, now: real): (s: Served)
    ensures ReadThrough(w, RoutePredictions(agency, route, stop), upstream(RoutePredictions(agency, route, stop)), s)
  {
    Fetch(w, RoutePredictions(agency, route, stop), upstream(RoutePredictions(agency, route, stop)), now)
  }

  /** `get_route_messages(agency, route)`: the cache-aside read under the
      route's messages key. */
  function GetRouteMessages(w: World, agency: string, route: string, upstream: Upstream, now: real): (s: Served)
    ensures ReadThrough(w, RouteMessages(agency, route), upstream(RouteMessages(agency, route)), s)
  {
    Fetch(w, RouteMessages(agency, route), upstream(RouteMessages(agency, route)), now)
  }

  /** `get_route_vehicles(agency, route, last_time)`: `last_time` reaches the
      provider call but not the cache key. */
  function GetRouteVehicles(w: World, agency: string, route: string, lastTime: string,
                            upstream: string -> Outcome<Json>, now: real): (s: Served)
    ensures ReadThrough(w, RouteVehicles(agency, route), upstream(lastTime), s)
  {
    Fetch(w, RouteVehicles(agency, route), upstream(lastTime), now)
  }

  // ---------------------------------------------------------------------------
  // The provider as shipped

  /** The reads the shipped `NextBusService` lacks: it defines `get_agencies`,
      `get_routes`, `get_all_routes` and `get_route` only. */
  predicate MissingFromProvider(k: CacheKey) {
    k.RouteSchedule? || k.RoutePredictions? || k.RouteMessages? || k.RouteVehicles?
  }

  /** The shipped provider: looking up a read it lacks raises AttributeError. */
  ghost predicate ShippedProvider(upstream: Upstream) {
    forall k :: MissingFromProvider(k) ==> RaisedKind(upstream(k), AttributeError)
  }

  /** A miss whose provider call raises AttributeError inside the 'next_bus'
      guard: the breaker does not handle that kind, so it records nothing,
      nothing is stored, and the AttributeError is the answer. */
  lemma MissingReadFails(w: World, k: CacheKey, reply: Outcome<Json>, now: real)
    requires RaisedKind(reply, AttributeError)
    requires ReadCache(w, k) == Success(JNull)
    requires Test(BreakerFor(w.breakers, NextBus), now).Success?
    requires AttributeError !in BreakerFor(w.breakers, NextBus).handled
    ensures var s := Fetch(w, k, reply, now);
      && s.upstreamCalled && s.result == reply && s.world.servers == w.servers
      && BreakerFor(s.world.breakers, NextBus).errors == BreakerFor(w.breakers, NextBus).errors
  {
    FailureNotCached(w, k, reply.error, now);
    ClientFailureNotRecorded(w, k, reply.error, now);
  }

  /** With the shipped provider an uncached schedule is never fetched: the
      read raises AttributeError and caches nothing. */
  lemma ShippedScheduleMissFails(w: World, agency: string, route: string, upstream: Upstream, now: real)
    requires ShippedProvider(upstream)
    requires ReadCache(w, RouteSchedule(agency, route)) == Success(JNull)
    requires Test(BreakerFor(w.breakers, NextBus), now).Success?
    requires AttributeError !in BreakerFor(w.breakers, NextBus).handled
    ensures var s := GetRouteSchedule(w, agency, route, upstream, now);
      && RaisedKind(s.result, AttributeError) && s.world.servers == w.servers
      && BreakerFor(s.world.breakers, NextBus).errors == BreakerFor(w.breakers, NextBus).errors
  {
    var k := RouteSchedule(agency, route);
    assert MissingFromProvider(k);
    MissingReadFails(w, k, upstream(k), now);
  }

  /** So with the shipped provider the "not running at" filter raises
      AttributeError at the first route whose schedule is not cached. */
  lemma ShippedProviderFailsFilter(w: World, agency: string, route: Json, upstream: Upstream, now: real,
                                   d: Weekday, rule: KeepRule)
    requires ShippedProvider(upstream)
    requires route.JObj? && Lookup(route.fields, TagTag).Some? && Lookup(route.fields, TagTag).value.JStr?
    requires ReadCache(w, RouteSchedule(agency, Lookup(route.fields, TagTag).value.str)) == Success(JNull)
    requires Test(BreakerFor(w.breakers, NextBus), now).Success?
    requires AttributeError !in BreakerFor(w.breakers, NextBus).handled
    ensures RaisedKind(ItemFor(w, agency, route, upstream, now, d, rule).0, AttributeError)
  {
    ShippedScheduleMissFails(w, agency, Lookup(route.fields, TagTag).value.str, upstream, now);
  }

  /** Vehicles cached for one `last_time` are served for any other: on a hit
      the answer does not depend on `last_time`. */
  lemma VehiclesIgnoreLastTime(w: World, agency: string, route: string, t1: string, t2: string,
                               upstream: string -> Outcome<Json>, now: real)
    requires ReadCache(w, RouteVehicles(agency, route)).Success?
    requires ReadCache(w, RouteVehicles(agency, route)).value != JNull
    ensures GetRouteVehicles(w, agency, route, t1, upstream, now) == GetRouteVehicles(w, agency, route, t2, upstream, now)
    ensures !GetRouteVehicles(w, agency, route, t1, upstream, now).upstreamCalled
  {
  }

  /** Predictions are cached per stop: storing one stop's predictions leaves
      another stop's cached answer as it was. */
  lemma PredictionsKeyedByStop(servers: Servers, settings: Settings, agency: string, route: string,
                               s1: string, s2: string, v: Json)
    requires Reachable(servers, MasterHost) && Reachable(servers, SlaveHost)
    requires ColonFree(agency) && ColonFree(route) && ColonFree(s1) && ColonFree(s2) && s1 != s2
    ensures Get(Replicate(Store(servers, settings, RoutePredictions(agency, route, s1), v).1), RoutePredictions(agency, route, s2))
         == Get(Replicate(servers), RoutePredictions(agency, route, s2))
  {
    StoreLeavesOthers(servers, settings, RoutePredictions(agency, route, s1), RoutePredictions(agency, route, s2), v);
  }
}
