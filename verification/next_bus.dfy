/** The first NextBus connector: the agency list (retried), the route list
    and one route's configuration, each a query to the XML feed whose
    validated tree is turned into records.

    Its builders normalise a child collection differently from the later
    connector in `next_bus_xml.py`: anything that is not a list is wrapped in
    a one-element list, so an absent child becomes [None] and the first
    `.get` on it raises AttributeError. The record shapes are the same and
    are shared with module NextBusXml. The HTTP call is a parameter `fetch`
    from the query to the provider's status and body (or the exception the
    adapter raised). */
module NextBus {
  import opened Wrappers
  import opened Errors
  import opened Json
  import opened Api
  import opened Retry
  import opened BaseService
  import opened NextBusXml

  const QueryCommand := "command"
  const QueryAgency := "a"
  const QueryRoute := "r"

  const CommandAgencyList := "agencyList"
  const CommandRouteList := "routeList"
  const CommandRouteConfig := "routeConfig"

  /** NEXTBUS_SERVICE_RETRIES, NEXTBUS_SERVICE_RETRIES_DELAY and
      NEXTBUS_SERVICE_RETRIES_BACKOFF of the settings. */
  const Retries := 3
  const RetriesDelay := 0.0
  const RetriesBackoff := 0.0

  type Query = map<string, string>

  datatype Reply = Reply(code: int, body: string)

  /** `rest_adapter.get(query=...)`: the provider's status and body. */
  type Fetch = Query -> Outcome<Reply>

  function AgenciesQuery(): Query {
    map[QueryCommand := CommandAgencyList]
  }

  function RoutesQuery(agency: string): Query {
    map[QueryCommand := CommandRouteList, QueryAgency := agency]
  }

  function RouteQuery(agency: string, route: string): Query {
    map[QueryCommand := CommandRouteConfig, QueryAgency := agency, QueryRoute := route]
  }

  /** Send the query and validate the reply as XML. */
  function Request(fetch: Fetch, q: Query, p: Parsers): (r: Outcome<Json>)
    ensures fetch(q).Failure? ==> r == Failure(fetch(q).error)
    ensures fetch(q).Success? ==> r == ValidateResponse(fetch(q).value.code, fetch(q).value.body, Some("xml"), p)
  {
    var reply :- fetch(q);
    ValidateResponse(reply.code, reply.body, Some("xml"), p)
  }

  // ---------------------------------------------------------------------------
  // Builders

  /** `validated_response.get('body').get(name)`, wrapped into a list when it is not one. */
  function BodyItems(resp: Json, name: string): (r: Outcome<seq<Json>>)
    ensures r.Success? <==> resp.JObj? && Attr(resp, ElementBody).JObj?
    ensures r.Failure? ==> r.error.kind == AttributeError
    ensures r.Success? ==> r.value == WrapList(Attr(Attr(resp, ElementBody), name))
  {
    var body :- PyGet(resp, ElementBody);
    var child :- PyGet(body, name);
    Success(WrapList(child))
  }

  /** `build_agencies_list`: one record (tag, title, region title) per agency
      element in document order; a reply without agencies raises
      AttributeError. */
  function BuildAgenciesList(resp: Json): (r: Outcome<Json>)
    ensures BodyItems(resp, ElementAgency).Failure? ==> RaisedKind(r, AttributeError)
    ensures BodyItems(resp, ElementAgency).Success? ==>
      var xs := BodyItems(resp, ElementAgency).value;
      && (r.Success? <==> forall i :: 0 <= i < |xs| ==> xs[i].JObj?)
      && (r.Success? ==>
           (r.value.JArr? && |r.value.items| == |xs| &&
            forall i :: 0 <= i < |xs| ==> r.value.items[i] == AgencyRecord(xs[i]).value))
    ensures r.Failure? ==> r.error.kind == AttributeError
  {
    var xs :- BodyItems(resp, ElementAgency);
    var rs :- MapAll(xs, AgencyRecord);
    Success(JArr(rs))
  }

  /** `build_routes_list`: one record per route element in document order,
      with a short title exactly when the element's is truthy. */
  function BuildRoutesList(resp: Json): (r: Outcome<Json>)
    ensures BodyItems(resp, ElementRoute).Failure? ==> RaisedKind(r, AttributeError)
    ensures BodyItems(resp, ElementRoute).Success? ==>
      var xs := BodyItems(resp, ElementRoute).value;
      && (r.Success? <==> forall i :: 0 <= i < |xs| ==> xs[i].JObj?)
      && (r.Success? ==>
           (r.value.JArr? && |r.value.items| == |xs| &&
            forall i :: 0 <= i < |xs| ==> r.value.items[i] == RouteListRecord(xs[i]).value))
    ensures r.Failure? ==> r.error.kind == AttributeError
  {
    var xs :- BodyItems(resp, ElementRoute);
    var rs :- MapAll(xs, RouteListRecord);
    Success(JArr(rs))
  }

  /** A direction: tag, title, name, use-for-UI, then its stops by tag only. */
  function DirectionRecord(x: Json): Outcome<Json> {
    var head :- Elem(x, [Field(TagTag, Attr(x, AttrTag)), Field(TagTitle, Attr(x, AttrTitle)),
                         Field(TagName, Attr(x, AttrName)), Field(TagUseForUi, Attr(x, AttrUseForUi))]);
    var stops :- MapAll(WrapList(Attr(x, ElementStop)), DirectionStopRecord);
    Success(JObj(head.fields + [Field(TagStops, JArr(stops))]))
  }

  /** A path: the lat/lon of its points, in order. */
  function PathRecord(x: Json): Outcome<Json> {
    var points :- PyGet(x, ElementPoint);
    var ps :- MapAll(WrapList(points), PointRecord);
    Success(JObj([Field(TagPoints, JArr(ps))]))
  }

  /** `build_stops`: one record (tag, title, lat, lon, stop id) per stop element. */
  function BuildStops(routeXml: Json): (r: Outcome<seq<Json>>)
    ensures !routeXml.JObj? ==> RaisedKind(r, AttributeError)
    ensures routeXml.JObj? ==> var xs := WrapList(Attr(routeXml, ElementStop));
      && (r.Success? <==> forall i :: 0 <= i < |xs| ==> xs[i].JObj?)
      && (r.Success? ==> |r.value| == |xs| && forall i :: 0 <= i < |xs| ==> r.value[i] == StopRecord(xs[i]).value)
  {
    var stops :- PyGet(routeXml, ElementStop);
    MapAll(WrapList(stops), StopRecord)
  }

  /** `build_directions`: one record per direction element, in order. */
  function BuildDirections(routeXml: Json): (r: Outcome<seq<Json>>)
    ensures !routeXml.JObj? ==> RaisedKind(r, AttributeError)
    ensures routeXml.JObj? && r.Success? ==> var xs := WrapList(Attr(routeXml, ElementDirection));
      |r.value| == |xs| &&
      forall i :: 0 <= i < |xs| ==> DirectionRecord(xs[i]).Success? && r.value[i] == DirectionRecord(xs[i]).value
  {
    var directions :- PyGet(routeXml, ElementDirection);
    MapAll(WrapList(directions), DirectionRecord)
  }

  /** `build_path`: one `{points: [...]}` per path element, in order. */
  function BuildPath(routeXml: Json): (r: Outcome<seq<Json>>)
    ensures !routeXml.JObj? ==> RaisedKind(r, AttributeError)
    ensures routeXml.JObj? && r.Success? ==> var xs := WrapList(Attr(routeXml, ElementPath));
      |r.value| == |xs| &&
      forall i :: 0 <= i < |xs| ==> PathRecord(xs[i]).Success? && r.value[i] == PathRecord(xs[i]).value
  {
    var paths :- PyGet(routeXml, ElementPath);
    MapAll(WrapList(paths), PathRecord)
  }

  /** `build_route`: the eight scalar attributes of the route element, then
      its stops, directions and paths, one record per child element as the
      connector's normalisation lists them. */
  function BuildRoute(resp: Json): (r: Outcome<Json>)
    ensures r.Success? ==> resp.JObj? && Attr(resp, ElementBody).JObj? && Attr(Attr(resp, ElementBody), ElementRoute).JObj?
    ensures r.Success? ==>
      var x := Attr(Attr(resp, ElementBody), ElementRoute);
      && BuildStops(x).Success? && BuildDirections(x).Success? && BuildPath(x).Success?
      && r.value == JObj(RouteScalars(x) + [Field(TagStops, JArr(BuildStops(x).value)),
           Field(TagDirections, JArr(BuildDirections(x).value)), Field(TagPaths, JArr(BuildPath(x).value))])
      && |BuildStops(x).value| == |WrapList(Attr(x, ElementStop))|
      && |BuildDirections(x).value| == |WrapList(Attr(x, ElementDirection))|
      && |BuildPath(x).value| == |WrapList(Attr(x, ElementPath))|
    ensures resp.JObj? && Attr(resp, ElementBody).JObj? && !Attr(Attr(resp, ElementBody), ElementRoute).JObj? ==>
      RaisedKind(r, AttributeError)
  {
    AssembleRoute(resp, BuildStops, BuildDirections, BuildPath)
  }

  // ---------------------------------------------------------------------------
  // The two normalisations compared

  /** Two record builders that agree on every element build the same list. */
  lemma {:induction false} MapAllAgree(xs: seq<Json>, f: Json -> Outcome<Json>, g: Json -> Outcome<Json>)
    requires forall i :: 0 <= i < |xs| ==> f(xs[i]) == g(xs[i])
    ensures MapAll(xs, f) == MapAll(xs, g)
    decreases |xs|
  {
    if |xs| > 0 {
      assert forall i :: 0 <= i < |xs| - 1 ==> xs[1..][i] == xs[i + 1];
      MapAllAgree(xs[1..], f, g);
    }
  }

  /** An agency list with agencies in it is built alike by both connectors. */
  lemma AgenciesAgreeWhenPresent(resp: Json)
    requires Attr(Attr(resp, ElementBody), ElementAgency) != JNull
    ensures BuildAgenciesList(resp) == NextBusXml.BuildAgenciesList(resp)
  {
  }

  /** A route list with routes in it is built alike by both connectors. */
  lemma RoutesAgreeWhenPresent(resp: Json)
    requires Attr(Attr(resp, ElementBody), ElementRoute) != JNull
    ensures BuildRoutesList(resp) == NextBusXml.BuildRoutesList(resp)
  {
  }

  /** A reply with no agency element: AttributeError here, an empty list in
      the later connector. */
  lemma AbsentAgenciesDiffer()
    ensures var resp := JObj([Field(ElementBody, JObj([]))]);
      && RaisedKind(BuildAgenciesList(resp), AttributeError)
      && NextBusXml.BuildAgenciesList(resp) == Success(JArr([]))
  {
    var resp := JObj([Field(ElementBody, JObj([]))]);
    assert BodyItems(resp, ElementAgency).value == [JNull];
  }

  /** Every child collection of the route, and of each of its directions and
      paths, is present. */
  predicate Complete(x: Json) {
    && Attr(x, ElementStop) != JNull && Attr(x, ElementDirection) != JNull && Attr(x, ElementPath) != JNull
    && (forall d :: d in WrapList(Attr(x, ElementDirection)) ==> Attr(d, ElementStop) != JNull)
    && (forall q :: q in WrapList(Attr(x, ElementPath)) ==> Attr(q, ElementPoint) != JNull)
  }

  lemma DirectionAgrees(d: Json)
    requires Attr(d, ElementStop) != JNull
    ensures DirectionRecord(d) == NextBusXml.DirectionRecord(d)
  {
  }

  lemma PathAgrees(q: Json)
    requires Attr(q, ElementPoint) != JNull
    ensures PathRecord(q) == NextBusXml.PathRecord(q)
  {
  }

  /** The directions of a complete route are built alike. */
  lemma DirectionsAgree(x: Json)
    requires x.JObj? && Complete(x)
    ensures BuildDirections(x) == NextBusXml.BuildDirections(x)
  {
    var ds := WrapList(Attr(x, ElementDirection));
    forall i | 0 <= i < |ds| ensures DirectionRecord(ds[i]) == NextBusXml.DirectionRecord(ds[i]) {
      DirectionAgrees(ds[i]);
    }
    MapAllAgree(ds, DirectionRecord, NextBusXml.DirectionRecord);
  }

  /** The paths of a complete route are built alike. */
  lemma PathsAgree(x: Json)
    requires x.JObj? && Complete(x)
    ensures BuildPath(x) == NextBusXml.BuildPath(x)
  {
    var ps := WrapList(Attr(x, ElementPath));
    forall i | 0 <= i < |ps| ensures PathRecord(ps[i]) == NextBusXml.PathRecord(ps[i]) {
      PathAgrees(ps[i]);
    }
    MapAllAgree(ps, PathRecord, NextBusXml.PathRecord);
  }

  /** The stops of a route with stop children are built alike. */
  lemma StopsAgree(x: Json)
    requires x.JObj? && Attr(x, ElementStop) != JNull
    ensures BuildStops(x) == NextBusXml.BuildStops(x)
  {
  }

  /** Routes are built alike when their stops, directions and paths are. */
  lemma RouteFromParts(resp: Json)
    requires var x := Attr(Attr(resp, ElementBody), ElementRoute);
      x.JObj? ==> && BuildStops(x) == NextBusXml.BuildStops(x)
                  && BuildDirections(x) == NextBusXml.BuildDirections(x)
                  && BuildPath(x) == NextBusXml.BuildPath(x)
    ensures BuildRoute(resp) == NextBusXml.BuildRoute(resp)
  {
  }

  /** A route whose collections are all present is built alike by both
      connectors: the normalisations differ only on absent children. */
  lemma RouteAgreesWhenComplete(resp: Json)
    requires Complete(Attr(Attr(resp, ElementBody), ElementRoute))
    ensures BuildRoute(resp) == NextBusXml.BuildRoute(resp)
  {
    var x := Attr(Attr(resp, ElementBody), ElementRoute);
    if x.JObj? {
      DirectionsAgree(x);
      PathsAgree(x);
      StopsAgree(x);
    }
    RouteFromParts(resp);
  }

  /** A route element without paths: AttributeError here, an empty path
      list in the later connector. */
  lemma RouteWithoutPathsDiffers(x: Json)
    requires x.JObj? && Attr(x, ElementPath) == JNull
    ensures RaisedKind(BuildPath(x), AttributeError)
    ensures NextBusXml.BuildPath(x) == Success([])
  {
    assert WrapList(Attr(x, ElementPath)) == [JNull];
  }

  // ---------------------------------------------------------------------------
  // Operations

  /** One call of `get_agencies`: the agency-list query, validated as XML. */
  function GetAgenciesOnce(fetch: Fetch, p: Parsers): (r: Outcome<Json>)
    ensures Request(fetch, AgenciesQuery(), p).Failure? ==> r == Failure(Request(fetch, AgenciesQuery(), p).error)
    ensures Request(fetch, AgenciesQuery(), p).Success? ==> r == BuildAgenciesList(Request(fetch, AgenciesQuery(), p).value)
  {
    var tree :- Request(fetch, AgenciesQuery(), p);
    BuildAgenciesList(tree)
  }

  /** `get_agencies` under its retry decorator: the `i`-th call sees the
      provider as `fetches(i)`; only ExternalProviderUnavailableTemporarily
      is retried. */
  function GetAgencies(fetches: nat -> Fetch, p: Parsers, tries: int, delay: real, backoff: real): (run: RetryRun<Json>)
    ensures 1 <= run.calls <= Bound(tries)
    ensures run.result == GetAgenciesOnce(fetches(run.calls - 1), p)
    ensures forall j :: 0 <= j < run.calls - 1 ==>
      RaisedKind(GetAgenciesOnce(fetches(j), p), ExternalProviderUnavailableTemporarily)
    ensures run.calls < Bound(tries) ==> !RaisedKind(run.result, ExternalProviderUnavailableTemporarily)
    ensures |run.waits| == run.calls - 1
    ensures Geometric(run.waits, delay, backoff)
  {
    var op := AgenciesAttempts(fetches, p);
    var run := Retry.Retry(op, TemporarilyOnly, tries, delay, backoff);
    assert Geometric(run.waits, delay, backoff);
    assert forall j :: 0 <= j < run.calls - 1 ==> op(j) == GetAgenciesOnce(fetches(j), p) && Caught(op(j), TemporarilyOnly);
    run
  }

  /** The decorated coroutine, call by call. */
  function AgenciesAttempts(fetches: nat -> Fetch, p: Parsers): nat -> Outcome<Json> {
    (i: nat) => GetAgenciesOnce(fetches(i), p)
  }

  /** With the configured settings the agency list is asked for at most
      three times, and a reply of 503, 598 or 599 on every call but the last
      is what makes it ask again. */
  lemma AgenciesCallBound(fetches: nat -> Fetch, p: Parsers)
    ensures var run := GetAgencies(fetches, p, Retries, RetriesDelay, RetriesBackoff);
      && 1 <= run.calls <= 3
      && run.result == GetAgenciesOnce(fetches(run.calls - 1), p)
      && (forall j :: 0 <= j < run.calls - 1 ==> RaisedKind(GetAgenciesOnce(fetches(j), p), ExternalProviderUnavailableTemporarily))
      && (forall k :: 0 <= k < |run.waits| ==> run.waits[k] == 0.0)
  {
    var run := GetAgencies(fetches, p, Retries, RetriesDelay, RetriesBackoff);
    forall k | 0 <= k < |run.waits| ensures run.waits[k] == 0.0 {
      assert run.waits[k] == 0.0 * Pow(0.0, k);
    }
  }

  /** A provider that answers 503 once and then a valid list: the second
      call's agencies come back after one zero wait. */
  lemma AgenciesRecoverAfterUnavailable(fetches: nat -> Fetch, p: Parsers, body: string)
    requires fetches(0)(AgenciesQuery()) == Success(Reply(503, body))
    requires GetAgenciesOnce(fetches(1), p).Success?
    ensures GetAgencies(fetches, p, Retries, RetriesDelay, RetriesBackoff) ==
      RetryRun(GetAgenciesOnce(fetches(1), p), 2, [0.0])
  {
    var op := AgenciesAttempts(fetches, p);
    UnavailableAgencies(fetches(0), p, body);
    assert op(0) == Raise(ExternalProviderUnavailableTemporarily, body);
    assert op(1) == GetAgenciesOnce(fetches(1), p);
    RetriedOnce(op, TemporarilyOnly, Retries, RetriesDelay, RetriesBackoff);
  }

  /** A 503 from the provider makes one call raise
      ExternalProviderUnavailableTemporarily with the body as message. */
  lemma UnavailableAgencies(fetch: Fetch, p: Parsers, body: string)
    requires fetch(AgenciesQuery()) == Success(Reply(503, body))
    ensures GetAgenciesOnce(fetch, p) == Raise(ExternalProviderUnavailableTemporarily, body)
  {
    assert Request(fetch, AgenciesQuery(), p) == ValidateResponse(503, body, Some("xml"), p);
  }

  /** A 404 from the provider is raised at once: NotFound is not retried. */
  lemma AgenciesNotFoundNotRetried(fetches: nat -> Fetch, p: Parsers, body: string, tries: int, delay: real, backoff: real)
    requires fetches(0)(AgenciesQuery()) == Success(Reply(404, body))
    ensures GetAgencies(fetches, p, tries, delay, backoff) == RetryRun(Raise(NotFound, body), 1, [])
  {
    var op := AgenciesAttempts(fetches, p);
    UncheckedEscapes(op, TemporarilyOnly, tries, delay, backoff);
  }

  /** `get_all_routes`: the route-list query for the agency. */
  function GetAllRoutes(agency: string, fetch: Fetch, p: Parsers): (r: Outcome<Json>)
    ensures Request(fetch, RoutesQuery(agency), p).Failure? ==> r == Failure(Request(fetch, RoutesQuery(agency), p).error)
    ensures Request(fetch, RoutesQuery(agency), p).Success? ==> r == BuildRoutesList(Request(fetch, RoutesQuery(agency), p).value)
  {
    var tree :- Request(fetch, RoutesQuery(agency), p);
    BuildRoutesList(tree)
  }

  /** `get_route`: the route-configuration query for the agency and route. */
  function GetRoute(agency: string, route: string, fetch: Fetch, p: Parsers): (r: Outcome<Json>)
    ensures Request(fetch, RouteQuery(agency, route), p).Failure? ==> r == Failure(Request(fetch, RouteQuery(agency, route), p).error)
    ensures Request(fetch, RouteQuery(agency, route), p).Success? ==> r == BuildRoute(Request(fetch, RouteQuery(agency, route), p).value)
  {
    var tree :- Request(fetch, RouteQuery(agency, route), p);
    BuildRoute(tree)
  }

  /** `get_routes(agency_tag, route_tag)`: with a truthy route tag, the one
      route as a one-element list; otherwise the agency's route list. */
  function GetRoutes(agency: string, routeTag: Option<string>, fetch: Fetch, p: Parsers): (r: Outcome<Json>)
    ensures routeTag.Some? && routeTag.value != "" ==>
      (r.Success? <==> GetRoute(agency, routeTag.value, fetch, p).Success?) &&
      (r.Success? ==> r.value == JArr([GetRoute(agency, routeTag.value, fetch, p).value]))
    ensures !(routeTag.Some? && routeTag.value != "") ==> r == GetAllRoutes(agency, fetch, p)
  {
    if routeTag.Some? && routeTag.value != "" then
      var route :- GetRoute(agency, routeTag.value, fetch, p);
      Success(JArr([route]))
    else GetAllRoutes(agency, fetch, p)
  }

  /** Which query `get_routes` sends: the route-configuration query for a
      truthy route tag, the route-list query otherwise; the provider's
      answers to any other query do not matter. */
  lemma GetRoutesAsks(agency: string, routeTag: Option<string>, f: Fetch, g: Fetch, p: Parsers)
    requires routeTag.Some? && routeTag.value != "" ==> f(RouteQuery(agency, routeTag.value)) == g(RouteQuery(agency, routeTag.value))
    requires !(routeTag.Some? && routeTag.value != "") ==> f(RoutesQuery(agency)) == g(RoutesQuery(agency))
    ensures GetRoutes(agency, routeTag, f, p) == GetRoutes(agency, routeTag, g, p)
  {
  }

  /** The three queries, as the provider sees them. */
  lemma Queries(agency: string, route: string)
    ensures AgenciesQuery() == map["command" := "agencyList"]
    ensures RoutesQuery(agency) == map["command" := "routeList", "a" := agency]
    ensures RouteQuery(agency, route) == map["command" := "routeConfig", "a" := agency, "r" := route]
  {
  }

  /** The route list is not retried: a 503 for it is raised from the one call made. */
  lemma RoutesNotRetried(agency: string, fetch: Fetch, p: Parsers, body: string)
    requires fetch(RoutesQuery(agency)) == Success(Reply(503, body))
    ensures GetRoutes(agency, None, fetch, p) == Raise(ExternalProviderUnavailableTemporarily, body)
  {
  }
}
