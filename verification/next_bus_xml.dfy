/** The NextBus XML feed, parsed into a tree (`xmltodict.parse`), turned into
    the service's records: the error classifier and every `build_*` function
    of `next_bus_xml.py`.

    An element is a `JObj` whose `@name` keys are its attributes, `#text` its
    text and other keys its child elements; a repeated child is a `JArr`, an
    absent one reads as `JNull`. Every builder normalises a child collection
    the same way (`AsList`): absent is no element, a single element is one,
    a list is itself. */
module NextBusXml {
  import opened Wrappers
  import opened Errors
  import opened Json
  import opened Text
  import opened Api

  const ElementBody := "body"
  const ElementAgency := "agency"
  const ElementRoute := "route"
  const ElementStop := "stop"
  const ElementDirection := "direction"
  const ElementPrediction := "prediction"
  const ElementPredictions := "predictions"
  const ElementPath := "path"
  const ElementPoint := "point"
  const ElementHeader := "header"
  const ElementTr := "tr"
  const ElementMessage := "message"
  const ElementText := "text"
  const ElementRouteConfForMsg := "routeConfiguredForMessage"
  const ElementInterval := "interval"
  const ElementVehicle := "vehicle"
  const ElementLastTime := "lastTime"
  const ElementError := "Error"

  const AttrTag := "@tag"
  const AttrTitle := "@title"
  const AttrRegionTitle := "@regionTitle"
  const AttrShortTitle := "@shortTitle"
  const AttrLat := "@lat"
  const AttrLon := "@lon"
  const AttrLatMin := "@latMin"
  const AttrLatMax := "@latMax"
  const AttrLonMin := "@lonMin"
  const AttrLonMax := "@lonMax"
  const AttrStopId := "@stopId"
  const AttrScheduleClass := "@scheduleClass"
  const AttrServiceClass := "@serviceClass"
  const AttrDirection := "@direction"
  const AttrEpochTime := "@epochTime"
  const AttrBlockId := "@blockID"
  const AttrId := "@id"
  const AttrSendToBuses := "@sendToBuses"
  const AttrPriority := "@priority"
  const AttrStartDay := "@startDay"
  const AttrStartTime := "@startTime"
  const AttrEndDay := "@endDay"
  const AttrEndTime := "@endTime"
  const AttrDirTag := "@dirTag"
  const AttrSecsSinceReport := "@secsSinceReport"
  const AttrPredictable := "@predictable"
  const AttrHeading := "@heading"
  const AttrSpeedKmHr := "@speedKmHr"
  const AttrTime := "@time"
  const AttrColor := "@color"
  const AttrOppositeColor := "@oppositeColor"
  const AttrSeconds := "@seconds"
  const AttrMinutes := "@minutes"
  const AttrIsDeparture := "@isDeparture"
  const AttrAffectedByLayover := "@affectedByLayover"
  const AttrVehicle := "@vehicle"
  const AttrBlock := "@block"
  const AttrTripTag := "@tripTag"
  const AttrName := "@name"
  const AttrUseForUi := "@useForUI"
  const TextKey := "#text"

  // ---------------------------------------------------------------------------
  // Reading the tree

  /** `x.get(a)` on an element: the attribute, child or text, None when absent. */
  function Attr(x: Json, a: string): Json {
    if x.JObj? then Lookup(x.fields, a).GetOr(JNull) else JNull
  }

  /** `OrderedDict([...])` of `x.get(...)` values: AttributeError unless `x`
      is an element (a dict). */
  function Elem(x: Json, fields: seq<Field>): (r: Outcome<Json>)
    ensures r.Success? <==> x.JObj?
    ensures r.Failure? ==> r.error.kind == AttributeError
  {
    if x.JObj? then Success(JObj(fields)) else Raise(AttributeError, "object has no attribute 'get'")
  }

  /** The record of every element in order; the first element whose record
      raises ends the build with that exception. */
  function MapAll(xs: seq<Json>, f: Json -> Outcome<Json>): (r: Outcome<seq<Json>>)
    ensures r.Success? <==> forall i :: 0 <= i < |xs| ==> f(xs[i]).Success?
    ensures r.Success? ==> |r.value| == |xs| && forall i :: 0 <= i < |xs| ==> r.value[i] == f(xs[i]).value
    ensures r.Failure? ==>
      exists i :: (0 <= i < |xs| && f(xs[i]).Failure? && f(xs[i]).error == r.error &&
                   forall j :: 0 <= j < i ==> f(xs[j]).Success?)
  {
    if |xs| == 0 then Success([])
    else
      match f(xs[0])
      case Failure(e) => Failure(e)
      case Success(y) =>
        match MapAll(xs[1..], f)
        case Failure(e) =>
          var i :| 0 <= i < |xs| - 1 && f(xs[1..][i]).Failure? && f(xs[1..][i]).error == e &&
            (forall j :: 0 <= j < i ==> f(xs[1..][j]).Success?);
          assert forall j :: 0 <= j < i + 1 ==> f(xs[j]).Success? by {
            forall j | 0 <= j < i + 1 ensures f(xs[j]).Success? {
              if j > 0 { assert xs[j] == xs[1..][j - 1]; }
            }
          }
          assert xs[i + 1] == xs[1..][i];
          Failure(e)
        case Success(ys) => Success([y] + ys)
  }

  /** `validated_response.get('body').get(name)`, normalised. */
  function BodyChildren(resp: Json, name: string): (r: Outcome<seq<Json>>)
    ensures r.Success? <==> resp.JObj? && Attr(resp, ElementBody).JObj?
    ensures r.Failure? ==> r.error.kind == AttributeError
    ensures r.Success? ==> r.value == AsList(Attr(Attr(resp, ElementBody), name))
  {
    var body :- PyGet(resp, ElementBody);
    var child :- PyGet(body, name);
    Success(AsList(child))
  }

  /** `x.get(name)` normalised, for an element `x`. */
  function Children(x: Json, name: string): (r: Outcome<seq<Json>>)
    ensures r.Success? <==> x.JObj?
    ensures r.Failure? ==> r.error.kind == AttributeError
    ensures r.Success? ==> r.value == AsList(Attr(x, name))
  {
    var child :- PyGet(x, name);
    Success(AsList(child))
  }

  // ---------------------------------------------------------------------------
  // handle_error

  /** `'Could not get route' in text or re.search(...)`: the membership test
      works on any container; the regular expression needs text. */
  function RouteMissing(text: Json): (r: Outcome<bool>)
    ensures text.JStr? ==> r == Success(Contains(text.str, "Could not get route") || RouteInvalidMatch(text.str))
  {
    match text
    case JStr(t) => Success(Contains(t, "Could not get route") || RouteInvalidMatch(t))
    case JArr(xs) =>
      if JStr("Could not get route") in xs then Success(true) else Raise(TypeError, "expected string or buffer")
    case JObj(fs) =>
      if "Could not get route" in Keys(fs) then Success(true) else Raise(TypeError, "expected string or buffer")
    case JNull => Raise(TypeError, "argument of type 'NoneType' is not iterable")
  }

  /** `handle_error`: a document without a (truthy) Error element passes;
      an error text about a missing or invalid route raises NotFound, any
      other error text BadRequest. */
  function HandleError(resp: Json): (r: Outcome<()>)
    ensures resp.JObj? && Attr(resp, ElementBody).JObj? && !Truthy(Attr(Attr(resp, ElementBody), ElementError)) ==>
      r == Success(())
    ensures resp.JObj? && Attr(resp, ElementBody).JObj? ==>
      var error := Attr(Attr(resp, ElementBody), ElementError);
      Truthy(error) && error.JObj? && Attr(error, TextKey).JStr? ==>
        var text := Attr(error, TextKey).str;
        r == Failure(Exc(if Contains(text, "Could not get route") || RouteInvalidMatch(text) then NotFound else BadRequest, text))
    ensures r.Success? ==> !Truthy(Attr(Attr(resp, ElementBody), ElementError))
  {
    var body :- PyGet(resp, ElementBody);
    var error :- PyGet(body, ElementError);
    if !Truthy(error) then Success(())
    else
      var text :- PyGet(error, TextKey);
      var missing :- RouteMissing(text);
      var message := if text.JStr? then text.str else "";
      Failure(Exc(if missing then NotFound else BadRequest, message))
  }

  /** The error document NextBus sends, with its text. */
  function ErrorDoc(text: string): Json {
    JObj([Field(ElementBody, JObj([Field(ElementError, JObj([Field(TextKey, JStr(text))]))]))])
  }

  /** NextBus's text for an unknown route is a NotFound. */
  lemma BadRouteText()
    ensures RaisedKind(HandleError(ErrorDoc("route r=99 is not valid")), NotFound)
  {
    var t := "route r=99 is not valid";
    assert StartsAt(t, "route r=", 0) && StartsAt(t, " is ", 10) && StartsAt(t, " is not valid", 10);
    assert NoNewline(t[8..10]);
    assert RouteInvalidMatch(t);
  }

  /** NextBus's text for an unknown agency is a BadRequest. */
  lemma BadAgencyText()
    ensures RaisedKind(HandleError(ErrorDoc("Agency parameter a=x is not valid")), BadRequest)
  {
    NoRouteWithoutU("Agency parameter a=x is not valid");
  }

  /** Both NotFound patterns contain the letter 'u': a text without it is a BadRequest. */
  lemma NoRouteWithoutU(u: string)
    requires forall k :: 0 <= k < |u| ==> u[k] != 'u'
    ensures !Contains(u, "Could not get route") && !RouteInvalidMatch(u)
  {
    forall i | 0 <= i <= |u| - 19 ensures !StartsAt(u, "Could not get route", i) {
      assert u[i + 2] != 'u';
      assert "Could not get route"[2] == 'u';
    }
    forall i | 0 <= i <= |u| - 8 ensures !StartsAt(u, "route r=", i) {
      assert u[i + 2] != 'u';
      assert "route r="[2] == 'u';
    }
  }

  // ---------------------------------------------------------------------------
  // Agencies, route list, route

  function AgencyRecord(x: Json): Outcome<Json> {
    Elem(x, [Field(TagTag, Attr(x, AttrTag)), Field(TagTitle, Attr(x, AttrTitle)),
             Field(TagRegionTitle, Attr(x, AttrRegionTitle))])
  }

  /** `build_agencies_list`: one AgencyRecord (tag, title, region title) per
      agency element, in document order. */
  function BuildAgenciesList(resp: Json): (r: Outcome<Json>)
    ensures BodyChildren(resp, ElementAgency).Failure? ==> RaisedKind(r, AttributeError)
    ensures BodyChildren(resp, ElementAgency).Success? ==>
      var xs := BodyChildren(resp, ElementAgency).value;
      && (r.Success? <==> forall i :: 0 <= i < |xs| ==> xs[i].JObj?)
      && (r.Success? ==>
           (r.value.JArr? && |r.value.items| == |xs| &&
            forall i :: 0 <= i < |xs| ==> r.value.items[i] == AgencyRecord(xs[i]).value))
  {
    var xs :- BodyChildren(resp, ElementAgency);
    var rs :- MapAll(xs, AgencyRecord);
    Success(JArr(rs))
  }

  function RouteListRecord(x: Json): Outcome<Json> {
    var short := Attr(x, AttrShortTitle);
    Elem(x, [Field(TagTag, Attr(x, AttrTag)), Field(TagTitle, Attr(x, AttrTitle))] +
            (if Truthy(short) then [Field(TagShortTitle, short)] else []))
  }

  /** `build_routes_list`: one record per route element in document order,
      with its tag and title, and a short title exactly when the element has
      a non-empty one. */
  function BuildRoutesList(resp: Json): (r: Outcome<Json>)
    ensures BodyChildren(resp, ElementRoute).Failure? ==> RaisedKind(r, AttributeError)
    ensures BodyChildren(resp, ElementRoute).Success? ==>
      var xs := BodyChildren(resp, ElementRoute).value;
      && (r.Success? <==> forall i :: 0 <= i < |xs| ==> xs[i].JObj?)
      && (r.Success? ==>
           (r.value.JArr? && |r.value.items| == |xs| &&
            forall i :: 0 <= i < |xs| ==> r.value.items[i] == RouteListRecord(xs[i]).value))
  {
    var xs :- BodyChildren(resp, ElementRoute);
    var rs :- MapAll(xs, RouteListRecord);
    Success(JArr(rs))
  }

  /** A route-list record holds a short title exactly when the element's is non-empty. */
  lemma ShortTitleOnlyWhenTruthy(x: Json)
    requires x.JObj?
    ensures var fs := RouteListRecord(x).value.fields;
      && Lookup(fs, TagTag) == Some(Attr(x, AttrTag))
      && Lookup(fs, TagTitle) == Some(Attr(x, AttrTitle))
      && Lookup(fs, TagShortTitle) == (if Truthy(Attr(x, AttrShortTitle)) then Some(Attr(x, AttrShortTitle)) else None)
  {
    var fs := RouteListRecord(x).value.fields;
    var tail := if Truthy(Attr(x, AttrShortTitle)) then [Field(TagShortTitle, Attr(x, AttrShortTitle))] else [];
    assert fs[1..][1..] == tail;
    assert Lookup(tail, TagShortTitle) == (if Truthy(Attr(x, AttrShortTitle)) then Some(Attr(x, AttrShortTitle)) else None);
    assert Lookup(fs[1..], TagShortTitle) == Lookup(tail, TagShortTitle);
  }

  function StopRecord(x: Json): Outcome<Json> {
    Elem(x, [Field(TagTag, Attr(x, AttrTag)), Field(TagTitle, Attr(x, AttrTitle)), Field(TagLat, Attr(x, AttrLat)),
             Field(TagLon, Attr(x, AttrLon)), Field(TagStopId, Attr(x, AttrStopId))])
  }

  function DirectionStopRecord(x: Json): Outcome<Json> {
    Elem(x, [Field(TagTag, Attr(x, AttrTag))])
  }

  function DirectionRecord(x: Json): Outcome<Json> {
    var head :- Elem(x, [Field(TagTag, Attr(x, AttrTag)), Field(TagTitle, Attr(x, AttrTitle)),
                         Field(TagName, Attr(x, AttrName)), Field(TagUseForUi, Attr(x, AttrUseForUi))]);
    var stops :- MapAll(AsList(Attr(x, ElementStop)), DirectionStopRecord);
    Success(JObj(head.fields + [Field(TagStops, JArr(stops))]))
  }

  function PointRecord(x: Json): Outcome<Json> {
    Elem(x, [Field(TagLat, Attr(x, AttrLat)), Field(TagLon, Attr(x, AttrLon))])
  }

  function PathRecord(x: Json): Outcome<Json> {
    var points :- Children(x, ElementPoint);
    var ps :- MapAll(points, PointRecord);
    Success(JObj([Field(TagPoints, JArr(ps))]))
  }

  /** `build_stops`: one StopRecord (tag, title, lat, lon, stop id) per stop
      element of the route, in order. */
  function BuildStops(routeXml: Json): (r: Outcome<seq<Json>>)
    ensures !routeXml.JObj? ==> RaisedKind(r, AttributeError)
    ensures routeXml.JObj? ==> var xs := AsList(Attr(routeXml, ElementStop));
      && (r.Success? <==> forall i :: 0 <= i < |xs| ==> xs[i].JObj?)
      && (r.Success? ==> |r.value| == |xs| && forall i :: 0 <= i < |xs| ==> r.value[i] == StopRecord(xs[i]).value)
  {
    var xs :- Children(routeXml, ElementStop);
    MapAll(xs, StopRecord)
  }

  /** `build_directions`: one DirectionRecord per direction element, each
      with its stops in order, a direction stop carrying only its tag. */
  function BuildDirections(routeXml: Json): (r: Outcome<seq<Json>>)
    ensures !routeXml.JObj? ==> RaisedKind(r, AttributeError)
    ensures routeXml.JObj? && r.Success? ==> var xs := AsList(Attr(routeXml, ElementDirection));
      |r.value| == |xs| &&
      forall i :: 0 <= i < |xs| ==> DirectionRecord(xs[i]).Success? && r.value[i] == DirectionRecord(xs[i]).value
  {
    var xs :- Children(routeXml, ElementDirection);
    MapAll(xs, DirectionRecord)
  }

  /** A direction's stops keep only their tag, one per stop element, in order. */
  lemma DirectionStopsTagOnly(x: Json)
    requires DirectionRecord(x).Success?
    ensures var fs := DirectionRecord(x).value.fields; var ss := AsList(Attr(x, ElementStop));
      |fs| == 5 && fs[4].key == TagStops && fs[4].value.JArr? && |fs[4].value.items| == |ss| &&
      forall k :: 0 <= k < |ss| ==> fs[4].value.items[k] == JObj([Field(TagTag, Attr(ss[k], AttrTag))])
  {
  }

  /** `build_path`: one dict per path element holding its points' lat/lon in order. */
  function BuildPath(routeXml: Json): (r: Outcome<seq<Json>>)
    ensures !routeXml.JObj? ==> RaisedKind(r, AttributeError)
    ensures routeXml.JObj? && r.Success? ==> var xs := AsList(Attr(routeXml, ElementPath));
      |r.value| == |xs| &&
      forall i :: 0 <= i < |xs| ==> PathRecord(xs[i]).Success? && r.value[i] == PathRecord(xs[i]).value
  {
    var xs :- Children(routeXml, ElementPath);
    MapAll(xs, PathRecord)
  }

  function RouteScalars(x: Json): seq<Field> {
    [Field(TagTag, Attr(x, AttrTag)), Field(TagTitle, Attr(x, AttrTitle)), Field(TagColor, Attr(x, AttrColor)),
     Field(TagOppositeColor, Attr(x, AttrOppositeColor)), Field(TagLatMin, Attr(x, AttrLatMin)),
     Field(TagLatMax, Attr(x, AttrLatMax)), Field(TagLonMin, Attr(x, AttrLonMin)), Field(TagLonMax, Attr(x, AttrLonMax))]
  }

  /** Builds the stops, directions or paths of a route element. */
  type ChildBuilder = Json -> Outcome<seq<Json>>

  /** The route dict `build_route` assembles from the response's route
      element: its scalar attributes, then the lists the three child builders
      make of it; the first builder to raise ends the assembly. */
  function AssembleRoute(resp: Json, stops: ChildBuilder, directions: ChildBuilder, paths: ChildBuilder): (r: Outcome<Json>)
    ensures r.Success? ==> resp.JObj? && Attr(resp, ElementBody).JObj? && Attr(Attr(resp, ElementBody), ElementRoute).JObj?
    ensures r.Success? ==>
      var x := Attr(Attr(resp, ElementBody), ElementRoute);
      && stops(x).Success? && directions(x).Success? && paths(x).Success?
      && r.value == JObj(RouteScalars(x) + [Field(TagStops, JArr(stops(x).value)),
           Field(TagDirections, JArr(directions(x).value)), Field(TagPaths, JArr(paths(x).value))])
    ensures resp.JObj? && Attr(resp, ElementBody).JObj? && Attr(Attr(resp, ElementBody), ElementRoute).JObj? ==>
      var x := Attr(Attr(resp, ElementBody), ElementRoute);
      stops(x).Success? && directions(x).Success? && paths(x).Success? ==> r.Success?
    ensures resp.JObj? && Attr(resp, ElementBody).JObj? && !Attr(Attr(resp, ElementBody), ElementRoute).JObj? ==>
      RaisedKind(r, AttributeError)
  {
    var body :- PyGet(resp, ElementBody);
    var x :- PyGet(body, ElementRoute);
    if !x.JObj? then Raise(AttributeError, "object has no attribute 'get'")
    else
      var stopList :- stops(x);
      var directionList :- directions(x);
      var pathList :- paths(x);
      Success(JObj(RouteScalars(x) + [Field(TagStops, JArr(stopList)), Field(TagDirections, JArr(directionList)),
                                      Field(TagPaths, JArr(pathList))]))
  }

  /** `build_route`: the eight scalar attributes of the route element, then
      its stops, directions and paths, one record per child element as the
      connector's normalisation lists them. */
  function BuildRoute(resp: Json): (r: Outcome<Json>)
    ensures r.Success? ==> resp.JObj? && Attr(resp, ElementBody).JObj? && Attr(Attr(resp, ElementBody), ElementRoute).JObj?
    ensures r.Success? ==>
      var x := Attr(Attr(resp, ElementBody), ElementRoute);
      && BuildStops(x).Success? && BuildDirections(x).Success? && BuildPath(x).Success?
      && r.value == JObj(RouteScalars(x) + [Field(TagStops, JArr(BuildStops(x).value)),
           Field(TagDirections, JArr(BuildDirections(x).value)), Field(TagPaths, JArr(BuildPath(x).value))])
      && |BuildStops(x).value| == |AsList(Attr(x, ElementStop))|
      && |BuildDirections(x).value| == |AsList(Attr(x, ElementDirection))|
      && |BuildPath(x).value| == |AsList(Attr(x, ElementPath))|
    ensures resp.JObj? && Attr(resp, ElementBody).JObj? && !Attr(Attr(resp, ElementBody), ElementRoute).JObj? ==>
      RaisedKind(r, AttributeError)
  {
    AssembleRoute(resp, BuildStops, BuildDirections, BuildPath)
  }

  /** Normalisation: an element with no stop child, one stop child and a
      list of two give 0, 1 and 2 stop records. */
  lemma StopsNormalised(a: Json, b: Json)
    requires a.JObj? && b.JObj?
    ensures BuildStops(JObj([])) == Success([])
    ensures |BuildStops(JObj([Field(ElementStop, a)])).value| == 1
    ensures |BuildStops(JObj([Field(ElementStop, JArr([a, b]))])).value| == 2
  {
    assert AsList(Attr(JObj([Field(ElementStop, a)]), ElementStop)) == [a];
    assert AsList(Attr(JObj([Field(ElementStop, JArr([a, b]))]), ElementStop)) == [a, b];
  }

  // ---------------------------------------------------------------------------
  // Schedules

  /** `sys.maxint` of a 64-bit Python 2: the starting minimum epoch. */
  const MaxInt: int := 0x7FFF_FFFF_FFFF_FFFF

  /** A key of `header_stops`: the tag text, or None for a stop element
      without a tag. */
  type StopTag = Option<string>

  /** The key `header_stops[tag]` uses: a text tag, or None when the
      attribute is missing; a container is unhashable. */
  function StopKey(tag: Json): (r: Outcome<StopTag>)
    ensures tag.JStr? ==> r == Success(Some(tag.str))
    ensures r.Success? && r.value.Some? ==> tag == JStr(r.value.value)
    ensures tag.JNull? <==> r == Success(None)
    ensures r.Failure? ==> r.error.kind == TypeError
  {
    match tag
    case JStr(t) => Success(Some(t))
    case JNull => Success(None)
    case _ => Raise(TypeError, "unhashable type")
  }

  /** The text of a `KeyError` for a missing header stop. */
  function StopKeyText(k: StopTag): string {
    match k
    case Some(t) => t
    case None => "None"
  }

  /** `header_stops`: the stops keyed by a tag text, and the one keyed None. */
  datatype HeaderTable = HeaderTable(tagged: seq<Field>, untagged: Option<Json>)

  const NoHeaderStops := HeaderTable([], None)

  /** `header_stops.get(k)`. */
  function StopAt(h: HeaderTable, k: StopTag): Option<Json> {
    match k
    case Some(t) => Lookup(h.tagged, t)
    case None => h.untagged
  }

  /** `header_stops[k] = v`. */
  function PutStop(h: HeaderTable, k: StopTag, v: Json): (r: HeaderTable)
    ensures StopAt(r, k) == Some(v)
    ensures forall k' :: k' != k ==> StopAt(r, k') == StopAt(h, k')
  {
    match k
    case Some(t) => h.(tagged := Put(h.tagged, t, v))
    case None => h.(untagged := Some(v))
  }

  /** `json.dumps` of the header stops: each text key as it is, and the None
      key written as "null" after them, even when a text key "null" exists. */
  function HeaderFields(h: HeaderTable): (r: seq<Field>)
    ensures |r| == |h.tagged| + (if h.untagged.Some? then 1 else 0)
    ensures forall t :: Lookup(h.tagged, t).Some? ==> Lookup(r, t) == Lookup(h.tagged, t)
    ensures h.untagged.Some? ==> r[|r| - 1] == Field("null", h.untagged.value)
  {
    LookupPrefix(h.tagged, if h.untagged.Some? then [Field("null", h.untagged.value)] else []);
    h.tagged + (if h.untagged.Some? then [Field("null", h.untagged.value)] else [])
  }

  /** A key found in `a` is found with the same value in `a + b`. */
  lemma {:induction false} LookupPrefix(a: seq<Field>, b: seq<Field>)
    ensures forall t :: Lookup(a, t).Some? ==> Lookup(a + b, t) == Lookup(a, t)
    decreases |a|
  {
    if |a| > 0 {
      assert (a + b)[0] == a[0];
      assert (a + b)[1..] == a[1..] + b;
      LookupPrefix(a[1..], b);
    }
  }

  /** `int(x)` of an attribute value. */
  function PyInt(x: Json): (r: Outcome<int>)
    ensures x.JStr? && ParseInt(x.str).Some? ==> r == Success(ParseInt(x.str).value)
    ensures r.Failure? ==> r.error.kind == (if x.JStr? then ValueError else TypeError)
  {
    match x
    case JStr(t) =>
      (match ParseInt(t)
       case Some(n) => Success(n)
       case None => Raise(ValueError, "invalid literal for int() with base 10"))
    case _ => Raise(TypeError, "int() argument must be a string or a number")
  }

  /** A header stop as `build_schedule_stops` makes it: tag, title and an
      empty arrivals list. */
  function HeaderRecord(x: Json): Json {
    JObj([Field(TagTag, Attr(x, AttrTag)), Field(TagTitle, Attr(x, TextKey)), Field(TagScheduledArrivals, JArr([]))])
  }

  /** A header-stop dict value whose arrivals list can be appended to. */
  predicate Appendable(v: Json) {
    v.JObj? && Lookup(v.fields, TagScheduledArrivals).Some? && Lookup(v.fields, TagScheduledArrivals).value.JArr?
  }

  function ArrivalsOf(v: Json): seq<Json>
    requires Appendable(v)
  {
    Lookup(v.fields, TagScheduledArrivals).value.items
  }

  /** The header stops of the header's stop elements, in order; a later
      stop with the same tag replaces an earlier one (`header_stops[tag] = ...`). */
  function HeaderStops(xs: seq<Json>): Outcome<HeaderTable>
    decreases |xs|
  {
    if |xs| == 0 then Success(NoHeaderStops)
    else
      var prefix := xs[..|xs| - 1];
      var x := xs[|xs| - 1];
      var acc :- HeaderStops(prefix);
      if !x.JObj? then Raise(AttributeError, "object has no attribute 'get'")
      else
        var key :- StopKey(Attr(x, AttrTag));
        Success(PutStop(acc, key, HeaderRecord(x)))
  }

  /** Every header stop is keyed by the tag of a header stop element, and
      starts with an empty arrivals list. */
  lemma {:induction false} HeaderStopsStartEmpty(xs: seq<Json>, k: StopTag)
    requires HeaderStops(xs).Success?
    requires StopAt(HeaderStops(xs).value, k).Some?
    ensures Appendable(StopAt(HeaderStops(xs).value, k).value)
    ensures ArrivalsOf(StopAt(HeaderStops(xs).value, k).value) == []
    ensures exists i :: 0 <= i < |xs| && StopKey(Attr(xs[i], AttrTag)) == Success(k)
    decreases |xs|
  {
    var prefix := xs[..|xs| - 1];
    var x := xs[|xs| - 1];
    var acc := HeaderStops(prefix).value;
    var key := StopKey(Attr(x, AttrTag)).value;
    if k == key {
      var rec := HeaderRecord(x);
      assert Lookup(rec.fields[1..][1..], TagScheduledArrivals) == Some(JArr([]));
      assert Lookup(rec.fields, TagScheduledArrivals) == Some(JArr([]));
    } else {
      assert StopAt(HeaderStops(xs).value, k) == StopAt(acc, k);
      HeaderStopsStartEmpty(prefix, k);
      var i :| 0 <= i < |prefix| && StopKey(Attr(prefix[i], AttrTag)) == Success(k);
      assert prefix[i] == xs[i];
    }
  }

  /** Every header stop element's tag keys a header stop. */
  lemma {:induction false} HeaderStopsCover(xs: seq<Json>, i: int)
    requires HeaderStops(xs).Success?
    requires 0 <= i < |xs|
    ensures StopKey(Attr(xs[i], AttrTag)).Success?
    ensures StopAt(HeaderStops(xs).value, StopKey(Attr(xs[i], AttrTag)).value).Some?
    decreases |xs|
  {
    var prefix := xs[..|xs| - 1];
    var acc := HeaderStops(prefix).value;
    var key := StopKey(Attr(xs[|xs| - 1], AttrTag)).value;
    if i < |xs| - 1 {
      HeaderStopsCover(prefix, i);
      assert prefix[i] == xs[i];
      var k := StopKey(Attr(xs[i], AttrTag)).value;
      if k != key {
        assert StopAt(HeaderStops(xs).value, k) == StopAt(acc, k);
      }
    }
  }

  /** `build_schedule_stops`: the header's stop elements as a dict by tag. */
  function BuildScheduleStops(route: Json): (r: Outcome<HeaderTable>)
    ensures r.Success? ==> route.JObj? && Attr(route, ElementHeader).JObj?
    ensures r.Success? ==> r == HeaderStops(AsList(Attr(Attr(route, ElementHeader), ElementStop)))
  {
    var header :- PyGet(route, ElementHeader);
    var xs :- Children(header, ElementStop);
    HeaderStops(xs)
  }

  /** The stop elements of every row as one list, rows in order and stops
      in order: what the row loop visits when it succeeds. */
  function RowStops(trs: seq<Json>): (r: Outcome<seq<Json>>)
    decreases |trs|
  {
    if |trs| == 0 then Success([])
    else
      var first :- Children(trs[0], ElementStop);
      var rest :- RowStops(trs[1..]);
      Success(first + rest)
  }

  /** A row stop that records an arrival: its epoch time is not '-1'. */
  predicate Counted(x: Json) {
    Attr(x, AttrEpochTime) != JStr("-1")
  }

  function ArrivalOf(x: Json): Json {
    JObj([Field(TagEpochTime, Attr(x, AttrEpochTime)), Field(TagTimeData, Attr(x, TextKey))])
  }

  /** The arrivals the row stops give the header stop keyed `k`, in row order. */
  function Arrivals(xs: seq<Json>, k: StopTag): seq<Json> {
    if |xs| == 0 then []
    else
      var x := xs[|xs| - 1];
      Arrivals(xs[..|xs| - 1], k) + (if Counted(x) && StopKey(Attr(x, AttrTag)) == Success(k) then [ArrivalOf(x)] else [])
  }

  datatype Timed = Timed(epoch: int, text: Json)

  /** The state of the row-stop loop: the header stops and the timed arrivals. */
  type ScanState = (HeaderTable, seq<Timed>)

  /** The (epoch, time text) of every counted row stop, in row order. */
  function TimedOf(xs: seq<Json>): seq<Timed> {
    if |xs| == 0 then []
    else
      var x := xs[|xs| - 1];
      TimedOf(xs[..|xs| - 1]) +
        (if Counted(x) && PyInt(Attr(x, AttrEpochTime)).Success?
         then [Timed(PyInt(Attr(x, AttrEpochTime)).value, Attr(x, TextKey))] else [])
  }

  /** `header_stops[tag]['scheduledArrivals'].append(arrival)` for a row
      stop: KeyError when no header stop has its tag. */
  function Append(h: HeaderTable, x: Json): (r: Outcome<HeaderTable>)
  {
    var key :- StopKey(Attr(x, AttrTag));
    match StopAt(h, key)
    case None => Raise(KeyError, StopKeyText(key))
    case Some(rec) =>
      var arrivals :- Subscript(rec, TagScheduledArrivals);
      if !arrivals.JArr? then Raise(AttributeError, "object has no attribute 'append'")
      else Success(PutStop(h, key, JObj(Put(rec.fields, TagScheduledArrivals, JArr(arrivals.items + [ArrivalOf(x)])))))
  }

  /** One row stop of the loop in `build_schedule_item`: a counted stop is
      appended to its header stop's arrivals, then its epoch is read with
      `int()`; a stop whose epoch is '-1' is skipped. */
  function Visit(h: HeaderTable, ts: seq<Timed>, x: Json): (r: Outcome<ScanState>)
    ensures r.Success? ==> x.JObj?
    ensures r.Success? && !Counted(x) ==> r.value == (h, ts)
    ensures r.Success? && Counted(x) ==> Append(h, x).Success? && r.value.0 == Append(h, x).value
    ensures r.Success? && Counted(x) ==> PyInt(Attr(x, AttrEpochTime)).Success?
    ensures r.Success? && Counted(x) ==> r.value.1 == ts + [Timed(PyInt(Attr(x, AttrEpochTime)).value, Attr(x, TextKey))]
  {
    if !x.JObj? then Raise(AttributeError, "object has no attribute 'get'")
    else if !Counted(x) then Success((h, ts))
    else
      var h' :- Append(h, x);
      var epoch :- PyInt(Attr(x, AttrEpochTime));
      Success((h', ts + [Timed(epoch, Attr(x, TextKey))]))
  }

  /** A counted row stop appends its arrival to the header stop of its tag
      and changes no other header stop. */
  lemma AppendAdds(h: HeaderTable, x: Json)
    requires Append(h, x).Success?
    ensures StopKey(Attr(x, AttrTag)).Success?
    ensures var key := StopKey(Attr(x, AttrTag)).value; var h' := Append(h, x).value;
      && StopAt(h, key).Some? && Appendable(StopAt(h, key).value)
      && StopAt(h', key).Some? && Appendable(StopAt(h', key).value)
      && ArrivalsOf(StopAt(h', key).value) == ArrivalsOf(StopAt(h, key).value) + [ArrivalOf(x)]
    ensures forall k :: k != StopKey(Attr(x, AttrTag)).value ==> StopAt(Append(h, x).value, k) == StopAt(h, k)
  {
    var key := StopKey(Attr(x, AttrTag)).value;
    var rec := StopAt(h, key).value;
    var items := Lookup(rec.fields, TagScheduledArrivals).value.items;
    var rec' := JObj(Put(rec.fields, TagScheduledArrivals, JArr(items + [ArrivalOf(x)])));
    assert Append(h, x).value == PutStop(h, key, rec');
  }

  /** The row-stop loop over `xs`, from the header stops `h0`: on success
      every row stop is an element, and the timed list is the counted
      stops' epochs in row order. */
  function Scan(xs: seq<Json>, h0: HeaderTable): (r: Outcome<ScanState>)
    decreases |xs|
  {
    if |xs| == 0 then Success((h0, []))
    else
      var st :- Scan(xs[..|xs| - 1], h0);
      Visit(st.0, st.1, xs[|xs| - 1])
  }

  /** On success the timed list holds the counted stops' epochs and time
      texts in row order. */
  lemma {:induction false} ScanTimed(xs: seq<Json>, h0: HeaderTable)
    requires Scan(xs, h0).Success?
    ensures Scan(xs, h0).value.1 == TimedOf(xs)
    decreases |xs|
  {
    if |xs| > 0 {
      var prefix := xs[..|xs| - 1];
      var x := xs[|xs| - 1];
      ScanTimed(prefix, h0);
      var st := Scan(prefix, h0).value;
      assert Scan(xs, h0) == Visit(st.0, st.1, x);
      var t := if Counted(x) && PyInt(Attr(x, AttrEpochTime)).Success?
        then [Timed(PyInt(Attr(x, AttrEpochTime)).value, Attr(x, TextKey))] else [];
      assert TimedOf(xs) == TimedOf(prefix) + t;
      assert Scan(xs, h0).value.1 == st.1 + t;
    }
  }

  /** One row stop adds its arrival to the header stop of its key only. */
  lemma VisitArrivals(h: HeaderTable, ts: seq<Timed>, x: Json, k: StopTag)
    requires Visit(h, ts, x).Success?
    requires StopAt(h, k).Some? && Appendable(StopAt(h, k).value)
    ensures StopAt(Visit(h, ts, x).value.0, k).Some? && Appendable(StopAt(Visit(h, ts, x).value.0, k).value)
    ensures ArrivalsOf(StopAt(Visit(h, ts, x).value.0, k).value) == ArrivalsOf(StopAt(h, k).value) +
      (if Counted(x) && StopKey(Attr(x, AttrTag)) == Success(k) then [ArrivalOf(x)] else [])
  {
    var h' := Visit(h, ts, x).value.0;
    if Counted(x) {
      AppendAdds(h, x);
      assert h' == Append(h, x).value;
      if StopKey(Attr(x, AttrTag)).value != k {
        assert StopAt(h', k) == StopAt(h, k);
      }
    } else {
      assert h' == h;
    }
  }

  /** On success every header stop's arrivals are its initial ones followed
      by the arrivals the row stops give its key, in row order. */
  lemma {:induction false} ScanArrivals(xs: seq<Json>, h0: HeaderTable, k: StopTag)
    requires Scan(xs, h0).Success?
    requires StopAt(h0, k).Some? && Appendable(StopAt(h0, k).value)
    ensures StopAt(Scan(xs, h0).value.0, k).Some? && Appendable(StopAt(Scan(xs, h0).value.0, k).value)
    ensures ArrivalsOf(StopAt(Scan(xs, h0).value.0, k).value) == ArrivalsOf(StopAt(h0, k).value) + Arrivals(xs, k)
    decreases |xs|
  {
    if |xs| > 0 {
      var prefix := xs[..|xs| - 1];
      var x := xs[|xs| - 1];
      ScanArrivals(prefix, h0, k);
      var st := Scan(prefix, h0).value;
      assert Scan(xs, h0).value.0 == Visit(st.0, st.1, x).value.0;
      VisitArrivals(st.0, st.1, x, k);
    }
  }

  /** The running bounds of `build_schedule_item`: `min_epoch` from
      `sys.maxint`, `max_epoch` from -1, both time texts from ''. */
  datatype Span = Span(minEpoch: int, maxEpoch: int, start: Json, end: Json)

  const NoSpan := Span(MaxInt, -1, JStr(""), JStr(""))

  /** One counted arrival: a positive epoch strictly below the minimum takes
      the start text, one strictly above the maximum takes the end text. */
  function Observe(s: Span, t: Timed): Span {
    if t.epoch <= 0 then s
    else
      var s1 := if t.epoch < s.minEpoch then s.(minEpoch := t.epoch, start := t.text) else s;
      if t.epoch > s1.maxEpoch then s1.(maxEpoch := t.epoch, end := t.text) else s1
  }

  function Track(ts: seq<Timed>): Span {
    if |ts| == 0 then NoSpan else Observe(Track(ts[..|ts| - 1]), ts[|ts| - 1])
  }

  /** An arrival `sys.maxint` can be replaced by: positive and below it. */
  predicate Early(t: Timed) {
    0 < t.epoch < MaxInt
  }

  /** `ts[i]` is the first arrival with the least positive epoch, and that
      epoch is below `sys.maxint`. */
  predicate FirstMin(ts: seq<Timed>, i: int) {
    && 0 <= i < |ts| && Early(ts[i])
    && (forall j :: 0 <= j < |ts| && ts[j].epoch > 0 ==> ts[i].epoch <= ts[j].epoch)
    && (forall j :: 0 <= j < i && ts[j].epoch > 0 ==> ts[i].epoch < ts[j].epoch)
  }

  /** `ts[i]` is the first arrival with the greatest epoch, and it is positive. */
  predicate FirstMax(ts: seq<Timed>, i: int) {
    && 0 <= i < |ts| && ts[i].epoch > 0
    && (forall j :: 0 <= j < |ts| ==> ts[j].epoch <= ts[i].epoch)
    && (forall j :: 0 <= j < i ==> ts[j].epoch < ts[i].epoch)
  }

  lemma FirstMinNew(p: seq<Timed>, t: Timed)
    requires Early(t)
    requires forall j :: 0 <= j < |p| && p[j].epoch > 0 ==> t.epoch < p[j].epoch
    ensures FirstMin(p + [t], |p|)
  {
    var ts := p + [t];
    assert forall j :: 0 <= j < |p| ==> ts[j] == p[j];
  }

  lemma FirstMinKept(p: seq<Timed>, t: Timed, i: int)
    requires FirstMin(p, i)
    requires t.epoch <= 0 || p[i].epoch <= t.epoch
    ensures FirstMin(p + [t], i)
  {
    var ts := p + [t];
    assert forall j :: 0 <= j < |p| ==> ts[j] == p[j];
  }

  lemma FirstMaxNew(p: seq<Timed>, t: Timed)
    requires t.epoch > 0
    requires forall j :: 0 <= j < |p| ==> p[j].epoch < t.epoch
    ensures FirstMax(p + [t], |p|)
  {
    var ts := p + [t];
    assert forall j :: 0 <= j < |p| ==> ts[j] == p[j];
  }

  lemma FirstMaxKept(p: seq<Timed>, t: Timed, i: int)
    requires FirstMax(p, i)
    requires t.epoch <= p[i].epoch
    ensures FirstMax(p + [t], i)
  {
    var ts := p + [t];
    assert forall j :: 0 <= j < |p| ==> ts[j] == p[j];
  }

  /** The schedule start time is the time text of the first arrival with the
      least positive epoch, or '' when no epoch is positive and below
      `sys.maxint`. */
  lemma {:induction false} TrackStartIsFirstMinimum(ts: seq<Timed>)
    ensures (forall j :: 0 <= j < |ts| ==> !Early(ts[j])) ==>
      Track(ts).start == JStr("") && Track(ts).minEpoch == MaxInt
    ensures (exists j :: 0 <= j < |ts| && Early(ts[j])) ==>
      exists i :: FirstMin(ts, i) && Track(ts).start == ts[i].text && Track(ts).minEpoch == ts[i].epoch
    decreases |ts|
  {
    if |ts| > 0 {
      var n := |ts| - 1;
      var p := ts[..n];
      var t := ts[n];
      assert ts == p + [t];
      TrackStartIsFirstMinimum(p);
      var s := Track(p);
      var takes := t.epoch > 0 && t.epoch < s.minEpoch;
      assert Track(ts).start == (if takes then t.text else s.start);
      assert Track(ts).minEpoch == (if takes then t.epoch else s.minEpoch);
      if exists j :: 0 <= j < n && Early(p[j]) {
        var i :| FirstMin(p, i) && s.start == p[i].text && s.minEpoch == p[i].epoch;
        if takes {
          FirstMinNew(p, t);
        } else {
          FirstMinKept(p, t, i);
        }
      } else if Early(t) {
        FirstMinNew(p, t);
      } else {
        assert forall j :: 0 <= j < n ==> p[j] == ts[j];
      }
    }
  }

  /** The schedule end time is the time text of the first arrival with the
      greatest epoch, or '' when no epoch is positive. */
  lemma {:induction false} TrackEndIsFirstMaximum(ts: seq<Timed>)
    ensures (forall j :: 0 <= j < |ts| ==> ts[j].epoch <= 0) ==>
      Track(ts).end == JStr("") && Track(ts).maxEpoch == -1
    ensures (exists j :: 0 <= j < |ts| && ts[j].epoch > 0) ==>
      exists i :: FirstMax(ts, i) && Track(ts).end == ts[i].text && Track(ts).maxEpoch == ts[i].epoch
    decreases |ts|
  {
    if |ts| > 0 {
      var n := |ts| - 1;
      var p := ts[..n];
      var t := ts[n];
      assert ts == p + [t];
      TrackEndIsFirstMaximum(p);
      var s := Track(p);
      var takes := t.epoch > 0 && t.epoch > s.maxEpoch;
      assert Track(ts).end == (if takes then t.text else s.end);
      assert Track(ts).maxEpoch == (if takes then t.epoch else s.maxEpoch);
      if exists j :: 0 <= j < n && p[j].epoch > 0 {
        var i :| FirstMax(p, i) && s.end == p[i].text && s.maxEpoch == p[i].epoch;
        if takes {
          FirstMaxNew(p, t);
        } else {
          FirstMaxKept(p, t, i);
        }
      } else if t.epoch > 0 {
        FirstMaxNew(p, t);
      } else {
        assert forall j :: 0 <= j < n ==> p[j] == ts[j];
      }
    }
  }

  /** The row-stop loop over `xs` from the state `st`, stop by stop. */
  function ScanFrom(xs: seq<Json>, st: ScanState): Outcome<ScanState>
    decreases |xs|
  {
    if |xs| == 0 then Success(st)
    else
      var next :- Visit(st.0, st.1, xs[0]);
      ScanFrom(xs[1..], next)
  }

  /** The row loop of `build_schedule_item`: a row's stop child is read just
      before that row's stops are visited, so an exception from a stop ends
      the loop before any later row is read. */
  function ScanRows(trs: seq<Json>, st: ScanState): Outcome<ScanState>
    decreases |trs|
  {
    if |trs| == 0 then Success(st)
    else
      var stops :- Children(trs[0], ElementStop);
      var next :- ScanFrom(stops, st);
      ScanRows(trs[1..], next)
  }

  /** Scanning `a + b` is scanning `a`, then `b` from where `a` left off. */
  lemma {:induction false} ScanFromSplit(a: seq<Json>, b: seq<Json>, st: ScanState)
    ensures ScanFrom(a, st).Failure? ==> ScanFrom(a + b, st) == ScanFrom(a, st)
    ensures ScanFrom(a, st).Success? ==> ScanFrom(a + b, st) == ScanFrom(b, ScanFrom(a, st).value)
    decreases |a|
  {
    if |a| == 0 {
      assert a + b == b;
    } else {
      assert (a + b)[0] == a[0];
      assert (a + b)[1..] == a[1..] + b;
      var next := Visit(st.0, st.1, a[0]);
      if next.Success? {
        ScanFromSplit(a[1..], b, next.value);
      }
    }
  }

  /** The stop-by-stop loop from the given header stops is `Scan`. */
  lemma {:induction false} ScanIsScanFrom(xs: seq<Json>, h0: HeaderTable)
    ensures Scan(xs, h0) == ScanFrom(xs, (h0, []))
    decreases |xs|
  {
    if |xs| > 0 {
      var prefix := xs[..|xs| - 1];
      var x := xs[|xs| - 1];
      ScanIsScanFrom(prefix, h0);
      assert prefix + [x] == xs;
      ScanFromSplit(prefix, [x], (h0, []));
      if Scan(prefix, h0).Success? {
        var st := Scan(prefix, h0).value;
        assert [x][1..] == [];
        assert ScanFrom([x], st) == Visit(st.0, st.1, x);
      }
    }
  }

  /** Row by row, the loop succeeds exactly when every row's stop child can
      be read and the flat scan of all row stops succeeds, and then both give
      the same state. */
  lemma {:induction false} ScanRowsFlat(trs: seq<Json>, st: ScanState)
    ensures ScanRows(trs, st).Success? <==> RowStops(trs).Success? && ScanFrom(RowStops(trs).value, st).Success?
    ensures ScanRows(trs, st).Success? ==> ScanRows(trs, st) == ScanFrom(RowStops(trs).value, st)
    decreases |trs|
  {
    if |trs| > 0 {
      var first := Children(trs[0], ElementStop);
      if first.Success? {
        var stops := first.value;
        var rest := RowStops(trs[1..]);
        if rest.Success? {
          ScanFromSplit(stops, rest.value, st);
        }
        if ScanFrom(stops, st).Success? {
          ScanRowsFlat(trs[1..], ScanFrom(stops, st).value);
        }
      }
    }
  }

  /** Header stops, then every row's stops scanned into them, row by row. */
  function ScheduleScan(route: Json): (r: Outcome<ScanState>)
    ensures BuildScheduleStops(route).Success? ==>
      r == ScanRows(AsList(Attr(route, ElementTr)), (BuildScheduleStops(route).value, []))
    ensures r.Success? ==> BuildScheduleStops(route).Success? && RouteRowStops(route).Success?
    ensures r.Success? ==> Scan(RouteRowStops(route).value, BuildScheduleStops(route).value) == r
  {
    var stops :- BuildScheduleStops(route);
    var trs := AsList(Attr(route, ElementTr));
    ScanRowsFlat(trs, (stops, []));
    if RowStops(trs).Success? then
      ScanIsScanFrom(RowStops(trs).value, stops);
      ScanRows(trs, (stops, []))
    else ScanRows(trs, (stops, []))
  }

  /** The row stops of all a route's rows, read as one flat list. */
  function RouteRowStops(route: Json): Outcome<seq<Json>> {
    RowStops(AsList(Attr(route, ElementTr)))
  }

  /** The schedule item of a route from its scanned header stops and arrivals. */
  function ScheduleItem(route: Json, st: ScanState): (r: Json)
    ensures r.JObj? && |r.fields| == 5
    ensures r.fields[0] == Field(TagServiceClass, Attr(route, AttrServiceClass))
    ensures r.fields[1] == Field(TagDirection, Attr(route, AttrDirection))
    ensures r.fields[2] == Field(TagStops, JObj(HeaderFields(st.0)))
    ensures r.fields[3] == Field(TagScheduleStartTime, Track(st.1).start)
    ensures r.fields[4] == Field(TagScheduleEndTime, Track(st.1).end)
  {
    JObj([
      Field(TagServiceClass, Attr(route, AttrServiceClass)),
      Field(TagDirection, Attr(route, AttrDirection)),
      Field(TagStops, JObj(HeaderFields(st.0))),
      Field(TagScheduleStartTime, Track(st.1).start),
      Field(TagScheduleEndTime, Track(st.1).end)])
  }

  /** `build_schedule_item`: service class, direction, the header stops with
      their arrivals, and the schedule's first and last time texts. */
  function BuildScheduleItem(route: Json): (r: Outcome<Json>)
    ensures r.Success? ==> route.JObj? && ScheduleScan(route).Success?
    ensures r.Success? ==> r.value == ScheduleItem(route, ScheduleScan(route).value)
    ensures r.Failure? && !route.JObj? ==> r.error.kind == AttributeError
  {
    if !route.JObj? then Raise(AttributeError, "object has no attribute 'get'")
    else
      match ScheduleScan(route)
      case Failure(e) => Failure(e)
      case Success(st) => Success(ScheduleItem(route, st))
  }

  /** Every header stop of a built schedule item lists, in row order, the
      arrivals of the counted row stops with its tag. */
  lemma ScheduleItemArrivals(route: Json, k: StopTag)
    requires BuildScheduleItem(route).Success?
    requires StopAt(BuildScheduleStops(route).value, k).Some?
    ensures RouteRowStops(route).Success?
    ensures var h := ScheduleScan(route).value.0; var stops := BuildScheduleItem(route).value.fields[2];
      && stops == Field(TagStops, JObj(HeaderFields(h)))
      && StopAt(h, k).Some? && Appendable(StopAt(h, k).value)
      && ArrivalsOf(StopAt(h, k).value) == Arrivals(RouteRowStops(route).value, k)
  {
    var h0 := BuildScheduleStops(route).value;
    var xs := RouteRowStops(route).value;
    HeaderStopsStartEmpty(AsList(Attr(Attr(route, ElementHeader), ElementStop)), k);
    ScanArrivals(xs, h0, k);
  }

  /** A built schedule item's start time is the time text of the first
      arrival with the least positive epoch, and '' when there is none. */
  lemma ScheduleItemStart(route: Json)
    requires BuildScheduleItem(route).Success?
    ensures RouteRowStops(route).Success?
    ensures var ts := TimedOf(RouteRowStops(route).value); var start := BuildScheduleItem(route).value.fields[3];
      && start.key == TagScheduleStartTime
      && ((forall j :: 0 <= j < |ts| ==> !Early(ts[j])) ==> start.value == JStr(""))
      && ((exists j :: 0 <= j < |ts| && Early(ts[j])) ==> exists i :: FirstMin(ts, i) && start.value == ts[i].text)
  {
    var xs := RouteRowStops(route).value;
    ScanTimed(xs, BuildScheduleStops(route).value);
    TrackStartIsFirstMinimum(TimedOf(xs));
  }

  /** A built schedule item's end time is the time text of the first arrival
      with the greatest positive epoch, and '' when there is none. */
  lemma ScheduleItemEnd(route: Json)
    requires BuildScheduleItem(route).Success?
    ensures RouteRowStops(route).Success?
    ensures var ts := TimedOf(RouteRowStops(route).value); var end := BuildScheduleItem(route).value.fields[4];
      && end.key == TagScheduleEndTime
      && ((forall j :: 0 <= j < |ts| ==> ts[j].epoch <= 0) ==> end.value == JStr(""))
      && ((exists j :: 0 <= j < |ts| && ts[j].epoch > 0) ==> exists i :: FirstMax(ts, i) && end.value == ts[i].text)
  {
    var xs := RouteRowStops(route).value;
    ScanTimed(xs, BuildScheduleStops(route).value);
    TrackEndIsFirstMaximum(TimedOf(xs));
  }

  /** A route whose header has stop "a", whose first row has a stop "b" and
      whose second row is an empty `<tr/>`. */
  const BadStopRoute := JObj([
    Field(ElementHeader, JObj([Field(ElementStop, JObj([Field(AttrTag, JStr("a"))]))])),
    Field(ElementTr, JArr([
      JObj([Field(ElementStop, JObj([Field(AttrTag, JStr("b")), Field(AttrEpochTime, JStr("5"))]))]),
      JNull]))])

  /** The unknown stop "b" of the first row raises KeyError before the
      second row is read; reading every row's stops first would instead meet
      the empty row's AttributeError. */
  lemma BadStopBeforeBadRow()
    ensures BuildScheduleItem(BadStopRoute) == Raise(KeyError, "b")
    ensures RaisedKind(RouteRowStops(BadStopRoute), AttributeError)
  {
    var header := JObj([Field(AttrTag, JStr("a"))]);
    var stop := JObj([Field(AttrTag, JStr("b")), Field(AttrEpochTime, JStr("5"))]);
    var row := JObj([Field(ElementStop, stop)]);
    var trs := [row, JNull];
    var route := [Field(ElementHeader, JObj([Field(ElementStop, header)])), Field(ElementTr, JArr(trs))];
    assert ElementHeader != ElementTr && AttrTag != AttrEpochTime && "a" != "b";
    assert route[1..] == [route[1]] && stop.fields[1..] == [stop.fields[1]];
    assert Lookup(route, ElementTr) == Some(JArr(trs));
    assert Lookup(stop.fields, AttrEpochTime) == Some(JStr("5"));
    assert Attr(BadStopRoute, ElementTr) == JArr(trs);
    assert Attr(stop, AttrEpochTime) == JStr("5");
    assert Children(Attr(BadStopRoute, ElementHeader), ElementStop) == Success([header]);
    assert [header][..0] == [];
    var h := HeaderTable([Field("a", HeaderRecord(header))], None);
    assert Put([], "a", HeaderRecord(header)) == h.tagged;
    assert HeaderStops([header]) == Success(PutStop(NoHeaderStops, Some("a"), HeaderRecord(header)));
    assert BuildScheduleStops(BadStopRoute) == Success(h);
    assert h.tagged[1..] == [];
    VisitUnknownStop(h, stop, "b");
    assert ScanFrom([stop], (h, [])) == Raise(KeyError, "b");
    assert Children(row, ElementStop) == Success([stop]);
    assert ScanRows(trs, (h, [])) == Raise(KeyError, "b");
    assert RowStops(trs[1..]) == Raise(AttributeError, "object has no attribute 'get'");
  }

  /** A counted row stop whose text tag no header stop has raises KeyError. */
  lemma VisitUnknownStop(h: HeaderTable, x: Json, t: string)
    requires x.JObj? && Counted(x) && Attr(x, AttrTag) == JStr(t)
    requires StopAt(h, Some(t)).None?
    ensures Visit(h, [], x) == Raise(KeyError, t)
  {
  }

  /** A header stop without a tag, and a row stop tagged "null". */
  const UntaggedHeaderRoute := JObj([
    Field(ElementHeader, JObj([Field(ElementStop, JObj([Field(TextKey, JStr("A"))]))])),
    Field(ElementTr, JObj([Field(ElementStop, JObj([Field(AttrTag, JStr("null")), Field(AttrEpochTime, JStr("5"))]))]))])

  /** The header stop without a tag is keyed None, not "null", so the row
      stop tagged "null" raises KeyError. */
  lemma UntaggedHeaderIsNotNull()
    ensures BuildScheduleItem(UntaggedHeaderRoute) == Raise(KeyError, "null")
  {
    var header := JObj([Field(TextKey, JStr("A"))]);
    var stop := JObj([Field(AttrTag, JStr("null")), Field(AttrEpochTime, JStr("5"))]);
    var row := JObj([Field(ElementStop, stop)]);
    var route := [Field(ElementHeader, JObj([Field(ElementStop, header)])), Field(ElementTr, row)];
    assert ElementHeader != ElementTr && AttrTag != AttrEpochTime && TextKey != AttrTag;
    assert route[1..] == [route[1]] && stop.fields[1..] == [stop.fields[1]];
    assert Lookup(route, ElementTr) == Some(row);
    assert Lookup(stop.fields, AttrEpochTime) == Some(JStr("5"));
    assert AsList(Attr(UntaggedHeaderRoute, ElementTr)) == [row];
    assert Attr(stop, AttrEpochTime) == JStr("5");
    assert Children(Attr(UntaggedHeaderRoute, ElementHeader), ElementStop) == Success([header]);
    assert [header][..0] == [];
    var h := HeaderTable([], Some(HeaderRecord(header)));
    assert header.fields[0].key != AttrTag && header.fields[1..] == [];
    assert Lookup(header.fields, AttrTag) == None;
    assert Attr(header, AttrTag) == JNull;
    assert HeaderStops([header]) == Success(PutStop(NoHeaderStops, None, HeaderRecord(header)));
    assert BuildScheduleStops(UntaggedHeaderRoute) == Success(h);
    VisitUnknownStop(h, stop, "null");
    assert ScanFrom([stop], (h, [])) == Raise(KeyError, "null");
    assert Children(row, ElementStop) == Success([stop]);
    assert ScanRows([row], (h, [])) == Raise(KeyError, "null");
  }

  /** Header stops without a tag and tagged "null" are two entries, and both
      are written under "null". */
  lemma UntaggedAndNullApart()
    ensures var r := HeaderStops([JObj([]), JObj([Field(AttrTag, JStr("null"))])]);
      && r.Success?
      && StopAt(r.value, None) == Some(HeaderRecord(JObj([])))
      && StopAt(r.value, Some("null")) == Some(HeaderRecord(JObj([Field(AttrTag, JStr("null"))])))
      && HeaderFields(r.value) == [Field("null", HeaderRecord(JObj([Field(AttrTag, JStr("null"))]))), Field("null", HeaderRecord(JObj([])))]
  {
    var xs := [JObj([]), JObj([Field(AttrTag, JStr("null"))])];
    assert xs[..1] == [JObj([])];
    assert [JObj([])][..0] == [];
    assert HeaderStops([JObj([])]) == Success(HeaderTable([], Some(HeaderRecord(JObj([])))));
  }

  /** `x.lower()`: text only; None and containers have no `lower`. */
  function LowerOf(x: Json): (r: Outcome<string>)
    ensures r.Success? <==> x.JStr?
    ensures r.Success? ==> r.value == Lower(x.str)
    ensures r.Failure? ==> r.error.kind == AttributeError
  {
    if x.JStr? then Success(Lower(x.str)) else Raise(AttributeError, "object has no attribute 'lower'")
  }

  /** The schedule-item key of a route: lower-cased service class, ':', and
      lower-cased direction. */
  function ScheduleKey(route: Json): Outcome<string> {
    var sc :- LowerOf(Attr(route, AttrServiceClass));
    var dir :- LowerOf(Attr(route, AttrDirection));
    Success(sc + ":" + dir)
  }

  /** The schedule items of `build_schedule`, route by route, with `item`
      building each route's schedule item and `key` its key. */
  function ScheduleEntries(routes: seq<Json>, item: Json -> Outcome<Json>, key: Json -> Outcome<string>): Outcome<seq<Field>>
    decreases |routes|
  {
    if |routes| == 0 then Success([])
    else
      var acc :- ScheduleEntries(routes[..|routes| - 1], item, key);
      var x := routes[|routes| - 1];
      var v :- item(x);
      var k :- key(x);
      Success(Put(acc, k, v))
  }

  /** A built schedule is the schedule of all routes but the last, with the
      last route's item put under its key. */
  lemma ScheduleStep(routes: seq<Json>, item: Json -> Outcome<Json>, key: Json -> Outcome<string>)
    requires |routes| > 0 && ScheduleEntries(routes, item, key).Success?
    ensures var n := |routes| - 1;
      && ScheduleEntries(routes[..n], item, key).Success? && item(routes[n]).Success? && key(routes[n]).Success?
      && ScheduleEntries(routes, item, key).value ==
         Put(ScheduleEntries(routes[..n], item, key).value, key(routes[n]).value, item(routes[n]).value)
  {
  }

  /** `routes[i]` is the last route whose schedule key is `k`. */
  predicate LastWithKey(routes: seq<Json>, key: Json -> Outcome<string>, i: int, k: string) {
    && 0 <= i < |routes| && key(routes[i]) == Success(k)
    && forall j :: i < j < |routes| ==> key(routes[j]) != Success(k)
  }

  lemma LastWithKeyKept(prefix: seq<Json>, x: Json, key: Json -> Outcome<string>, i: int, k: string)
    requires LastWithKey(prefix, key, i, k) && key(x) != Success(k)
    ensures LastWithKey(prefix + [x], key, i, k)
  {
    var routes := prefix + [x];
    assert forall j :: 0 <= j < |prefix| ==> routes[j] == prefix[j];
  }

  /** A schedule item is the one built from the last route with its key. */
  lemma {:induction false} ScheduleLastWins(routes: seq<Json>, item: Json -> Outcome<Json>, key: Json -> Outcome<string>, k: string)
    requires ScheduleEntries(routes, item, key).Success?
    requires Lookup(ScheduleEntries(routes, item, key).value, k).Some?
    ensures exists i :: (LastWithKey(routes, key, i, k) &&
      item(routes[i]) == Success(Lookup(ScheduleEntries(routes, item, key).value, k).value))
    decreases |routes|
  {
    var n := |routes| - 1;
    var prefix := routes[..n];
    var x := routes[n];
    assert routes == prefix + [x];
    ScheduleStep(routes, item, key);
    var acc := ScheduleEntries(prefix, item, key).value;
    var last := key(x).value;
    var r := Put(acc, last, item(x).value);
    if k == last {
      assert LastWithKey(routes, key, n, k);
    } else {
      assert Lookup(r, k) == Lookup(acc, k);
      ScheduleLastWins(prefix, item, key, k);
      var i :| LastWithKey(prefix, key, i, k) && item(prefix[i]) == Success(Lookup(acc, k).value);
      LastWithKeyKept(prefix, x, key, i, k);
      assert prefix[i] == routes[i];
    }
  }

  /** Every route of a built schedule has an item under its key. */
  lemma {:induction false} ScheduleCoversRoutes(routes: seq<Json>, item: Json -> Outcome<Json>, key: Json -> Outcome<string>, i: int)
    requires ScheduleEntries(routes, item, key).Success?
    requires 0 <= i < |routes|
    ensures item(routes[i]).Success? && key(routes[i]).Success?
    ensures Lookup(ScheduleEntries(routes, item, key).value, key(routes[i]).value).Some?
    decreases |routes|
  {
    var n := |routes| - 1;
    var prefix := routes[..n];
    ScheduleStep(routes, item, key);
    var acc := ScheduleEntries(prefix, item, key).value;
    var whole := ScheduleEntries(routes, item, key).value;
    var last := key(routes[n]).value;
    assert whole == Put(acc, last, item(routes[n]).value);
    if i < n {
      var x := routes[i];
      assert prefix[i] == x;
      ScheduleCoversRoutes(prefix, item, key, i);
      assert item(x).Success? && key(x).Success?;
      var k := key(x).value;
      assert Lookup(acc, k).Some?;
      assert Lookup(whole, k).Some?;
    } else {
      assert routes[i] == routes[n];
      assert Lookup(whole, last).Some?;
    }
  }

  /** `build_schedule`: the first route's schedule class and the items by
      key; a response without routes raises IndexError at `routes_xml[0]`. */
  function BuildSchedule(resp: Json): (r: Outcome<Json>)
    ensures BodyChildren(resp, ElementRoute) == Success([]) ==> RaisedKind(r, IndexError)
    ensures r.Success? ==> BodyChildren(resp, ElementRoute).Success? && |BodyChildren(resp, ElementRoute).value| > 0
    ensures r.Success? ==> ScheduleEntries(BodyChildren(resp, ElementRoute).value, BuildScheduleItem, ScheduleKey).Success?
    ensures r.Success? ==> r.value == JObj([
      Field(TagScheduleClass, Attr(BodyChildren(resp, ElementRoute).value[0], AttrScheduleClass)),
      Field(TagScheduleItems, JObj(ScheduleEntries(BodyChildren(resp, ElementRoute).value, BuildScheduleItem, ScheduleKey).value))])
  {
    var routes :- BodyChildren(resp, ElementRoute);
    if |routes| == 0 then Raise(IndexError, "list index out of range")
    else
      var sc :- PyGet(routes[0], AttrScheduleClass);
      var items :- ScheduleEntries(routes, BuildScheduleItem, ScheduleKey);
      Success(JObj([Field(TagScheduleClass, sc), Field(TagScheduleItems, JObj(items))]))
  }

  /** One stop of a schedule row as `build_schedule_rows` lists it. */
  function RowStopRecord(x: Json): (r: Outcome<Json>)
    ensures r.Success? <==> x.JObj?
  {
    Elem(x, [Field(TagTag, Attr(x, AttrTag)), Field(TagEpochTime, Attr(x, AttrEpochTime)), Field(TagTimeData, Attr(x, TextKey))])
  }

  /** One row: its block id and every stop of it, skipped ones included. */
  function RowRecord(tr: Json): (r: Outcome<Json>)
    ensures r.Success? ==> tr.JObj? && r.value.JObj? && |r.value.fields| == 2
    ensures r.Success? ==> r.value.fields[1].key == TagStops && r.value.fields[1].value.JArr?
  {
    var stops :- Children(tr, ElementStop);
    var recs :- MapAll(stops, RowStopRecord);
    Success(JObj([Field(TagBlockId, Attr(tr, AttrBlockId)), Field(TagStops, JArr(recs))]))
  }

  function Rows(trs: seq<Json>): (r: Outcome<seq<Json>>)
    ensures r.Success? <==> forall i :: 0 <= i < |trs| ==> RowRecord(trs[i]).Success?
    ensures r.Success? ==> |r.value| == |trs| && forall i :: 0 <= i < |trs| ==> r.value[i] == RowRecord(trs[i]).value
    decreases |trs|
  {
    if |trs| == 0 then Success([])
    else
      var first :- RowRecord(trs[0]);
      var rest :- Rows(trs[1..]);
      Success([first] + rest)
  }

  /** `build_schedule_rows` (which no code path calls): one row record per
      `tr` child, in order, each with its block id and its stops. */
  function BuildScheduleRows(route: Json): (r: Outcome<seq<Json>>)
    ensures !route.JObj? ==> RaisedKind(r, AttributeError)
    ensures route.JObj? ==> var trs := AsList(Attr(route, ElementTr));
      && (r.Success? <==> forall i :: 0 <= i < |trs| ==> RowRecord(trs[i]).Success?)
      && (r.Success? ==> |r.value| == |trs| && forall i :: 0 <= i < |trs| ==>
            r.value[i] == RowRecord(trs[i]).value && r.value[i].fields[0] == Field(TagBlockId, Attr(trs[i], AttrBlockId)))
  {
    var trs :- Children(route, ElementTr);
    Rows(trs)
  }

  function RowStopsListed(rows: seq<Json>): seq<Json> {
    if |rows| == 0 then []
    else
      var row := rows[0];
      (if row.JObj? && |row.fields| == 2 && row.fields[1].value.JArr? then row.fields[1].value.items else []) +
      RowStopsListed(rows[1..])
  }

  function StopRecords(xs: seq<Json>): seq<Json> {
    if |xs| == 0 then [] else [if xs[0].JObj? then RowStopRecord(xs[0]).value else JNull] + StopRecords(xs[1..])
  }

  lemma {:induction false} StopRecordsAppend(a: seq<Json>, b: seq<Json>)
    ensures StopRecords(a + b) == StopRecords(a) + StopRecords(b)
    decreases |a|
  {
    if |a| > 0 {
      assert (a + b)[0] == a[0];
      assert (a + b)[1..] == a[1..] + b;
      StopRecordsAppend(a[1..], b);
      assert StopRecords(a + b) == StopRecords([a[0]]) + StopRecords(a[1..] + b);
      assert StopRecords(a) == StopRecords([a[0]]) + StopRecords(a[1..]);
    } else {
      assert a + b == b;
    }
  }

  lemma {:induction false} MapAllStopRecords(xs: seq<Json>)
    requires MapAll(xs, RowStopRecord).Success?
    ensures MapAll(xs, RowStopRecord).value == StopRecords(xs)
    decreases |xs|
  {
    if |xs| > 0 {
      MapAllStopRecords(xs[1..]);
    }
  }

  /** The rows list every row stop the schedule item scans, in the same
      order, including those the item skips for an epoch of '-1'. */
  lemma {:induction false} RowsListScannedStops(trs: seq<Json>)
    requires Rows(trs).Success?
    ensures RowStops(trs).Success?
    ensures RowStopsListed(Rows(trs).value) == StopRecords(RowStops(trs).value)
    decreases |trs|
  {
    if |trs| > 0 {
      var first := RowRecord(trs[0]).value;
      var stops := Children(trs[0], ElementStop).value;
      RowsListScannedStops(trs[1..]);
      MapAllStopRecords(stops);
      StopRecordsAppend(stops, RowStops(trs[1..]).value);
      assert ([first] + Rows(trs[1..]).value)[1..] == Rows(trs[1..]).value;
    }
  }

  // ---------------------------------------------------------------------------
  // Messages

  /** The fields every message has: id, sendToBuses, priority and text. */
  function MessageBase(m: Json): seq<Field> {
    [Field(TagId, Attr(m, AttrId)), Field(TagSendToBuses, Attr(m, AttrSendToBuses)),
     Field(TagPriority, Attr(m, AttrPriority)), Field(TagText, Attr(m, ElementText))]
  }

  function MessageStopRecord(x: Json): Outcome<Json> {
    Elem(x, [Field(TagTag, Attr(x, AttrTag)), Field(TagTitle, Attr(x, AttrTitle))])
  }

  function IntervalRecord(x: Json): Outcome<Json> {
    Elem(x, [Field(TagStartDay, Attr(x, AttrStartDay)), Field(TagStartTime, Attr(x, AttrStartTime)),
             Field(TagEndDay, Attr(x, AttrEndDay)), Field(TagEndTime, Attr(x, AttrEndTime))])
  }

  /** `route_configured_xml.get('stop') if route_configured_xml else []`. */
  function MessageStopsXml(m: Json): Outcome<Json> {
    var rc := Attr(m, ElementRouteConfForMsg);
    if Truthy(rc) then PyGet(rc, ElementStop) else Success(JArr([]))
  }

  /** A message of a route other than 'all' also lists its stops and, when
      it has any, its intervals. */
  function MessageRecord(m: Json, stops: seq<Json>, intervals: Option<seq<Json>>): (r: Json)
    ensures r.JObj? && |r.fields| == (if intervals.Some? then 6 else 5) && r.fields[..4] == MessageBase(m)
    ensures r.fields[4] == Field(TagStops, JArr(stops))
    ensures intervals.Some? ==> r.fields[5] == Field(TagIntervals, JArr(intervals.value))
  {
    JObj(MessageBase(m) + [Field(TagStops, JArr(stops))] +
         (if intervals.Some? then [Field(TagIntervals, JArr(intervals.value))] else []))
  }

  /** `build_message` as written: the stops and the intervals are walked with
      a bare `for`, so a single stop or interval (a dict) is walked by its
      keys, and a message without intervals iterates None. */
  function BuildMessageAsWritten(m: Json, routeTag: Json): (r: Outcome<Json>)
    ensures r.Success? ==> m.JObj?
  {
    if !m.JObj? then Raise(AttributeError, "object has no attribute 'get'")
    else if routeTag == JStr("all") then Success(JObj(MessageBase(m)))
    else
      var stopsXml :- MessageStopsXml(m);
      var stopsSeen :- Iterate(stopsXml);
      var stops :- MapAll(stopsSeen, MessageStopRecord);
      var intervalsXml := Attr(m, ElementInterval);
      var intervalsSeen :- Iterate(intervalsXml);
      var intervals :- MapAll(intervalsSeen, IntervalRecord);
      Success(MessageRecord(m, stops, if Truthy(intervalsXml) then Some(intervals) else None))
  }

  /** `build_message` with stops and intervals normalised to lists like every
      other child in the module: an absent list is empty, a single child is
      one item, and the intervals key is present exactly when there is an
      interval. */
  function BuildMessage(m: Json, routeTag: Json): (r: Outcome<Json>)
    ensures r.Success? ==> m.JObj? && r.value.JObj? && |r.value.fields| >= 4 && r.value.fields[..4] == MessageBase(m)
  {
    if !m.JObj? then Raise(AttributeError, "object has no attribute 'get'")
    else if routeTag == JStr("all") then Success(JObj(MessageBase(m)))
    else
      var stopsXml :- MessageStopsXml(m);
      var stops :- MapAll(AsList(stopsXml), MessageStopRecord);
      var intervals :- MapAll(AsList(Attr(m, ElementInterval)), IntervalRecord);
      Success(MessageRecord(m, stops, if |intervals| > 0 then Some(intervals) else None))
  }

  /** As written, a message of a route other than 'all' without intervals
      raises TypeError once its stops are built. */
  lemma AsWrittenNeedsIntervals(m: Json, routeTag: Json)
    requires m.JObj? && routeTag != JStr("all") && Attr(m, ElementInterval) == JNull
    requires MessageStopsXml(m).Success? && Iterate(MessageStopsXml(m).value).Success?
    requires MapAll(Iterate(MessageStopsXml(m).value).value, MessageStopRecord).Success?
    ensures RaisedKind(BuildMessageAsWritten(m, routeTag), TypeError)
  {
  }

  /** The corrected message has the base fields; a route other than 'all'
      adds one stop per stop element and the intervals key exactly when
      there is an interval, one per interval element. */
  lemma MessageShape(m: Json, routeTag: Json)
    requires BuildMessage(m, routeTag).Success?
    ensures routeTag == JStr("all") ==> |BuildMessage(m, routeTag).value.fields| == 4
    ensures routeTag != JStr("all") ==> MessageStopsXml(m).Success?
    ensures routeTag != JStr("all") ==>
      var r := BuildMessage(m, routeTag).value; var n := |AsList(Attr(m, ElementInterval))|;
      && |r.fields| == (if n > 0 then 6 else 5)
      && r.fields[4].key == TagStops && r.fields[4].value.JArr?
      && |r.fields[4].value.items| == |AsList(MessageStopsXml(m).value)|
      && (n > 0 ==> r.fields[5].key == TagIntervals && r.fields[5].value.JArr? && |r.fields[5].value.items| == n)
  {
    if routeTag != JStr("all") {
      var stops := MapAll(AsList(MessageStopsXml(m).value), MessageStopRecord).value;
      var intervals := MapAll(AsList(Attr(m, ElementInterval)), IntervalRecord).value;
      assert BuildMessage(m, routeTag).value == MessageRecord(m, stops, if |intervals| > 0 then Some(intervals) else None);
    }
  }

  /** Where the bare `for` and the normalisation visit the same children
      (stops and intervals given as lists), both builds agree. */
  lemma MessageAgreesOnLists(m: Json, routeTag: Json)
    requires MessageStopsXml(m).Success? ==> MessageStopsXml(m).value.JArr?
    requires Attr(m, ElementInterval).JArr?
    ensures BuildMessage(m, routeTag) == BuildMessageAsWritten(m, routeTag)
  {
  }

  /** Each message of one route built with the route's tag; the first
      message whose build raises ends the build. */
  function MessagesOf(ms: seq<Json>, tag: Json, build: (Json, Json) -> Outcome<Json>): (r: Outcome<seq<Json>>)
    ensures r.Success? <==> forall i :: 0 <= i < |ms| ==> build(ms[i], tag).Success?
    ensures r.Success? ==> |r.value| == |ms| && forall i :: 0 <= i < |ms| ==> r.value[i] == build(ms[i], tag).value
    ensures r.Failure? ==>
      exists i :: (0 <= i < |ms| && build(ms[i], tag).Failure? && build(ms[i], tag).error == r.error &&
                   forall j :: 0 <= j < i ==> build(ms[j], tag).Success?)
  {
    var f := (m: Json) => build(m, tag);
    assert forall i :: 0 <= i < |ms| ==> f(ms[i]) == build(ms[i], tag);
    MapAll(ms, f)
  }

  /** The messages of the routes, split by whether the route's tag is 'all',
      with `walk` enumerating a route's message children. */
  function RouteMessages(routes: seq<Json>, walk: Json -> Outcome<seq<Json>>, build: (Json, Json) -> Outcome<Json>):
    Outcome<(seq<Json>, seq<Json>)>
    decreases |routes|
  {
    if |routes| == 0 then Success(([], []))
    else
      var route := routes[0];
      if !route.JObj? then Raise(AttributeError, "object has no attribute 'get'")
      else
        var tag := Attr(route, AttrTag);
        var ms :- walk(Attr(route, ElementMessage));
        var built :- MessagesOf(ms, tag, build);
        var rest :- RouteMessages(routes[1..], walk, build);
        Success(if tag == JStr("all") then (built + rest.0, rest.1) else (rest.0, built + rest.1))
  }

  /** `allMessages` and `routeMessages`, each present only when non-empty. */
  function MessagesReply(lists: (seq<Json>, seq<Json>)): Json {
    JObj((if |lists.0| > 0 then [Field(TagAllMessages, JArr(lists.0))] else []) +
         (if |lists.1| > 0 then [Field(TagRouteMessages, JArr(lists.1))] else []))
  }

  function ListOf(j: Json): Outcome<seq<Json>> {
    Success(AsList(j))
  }

  /** `build_route_messages` as written: the route's messages are walked with
      a bare `for` (a single message is walked by its keys, an absent one
      raises TypeError). */
  function BuildRouteMessagesAsWritten(resp: Json): Outcome<Json> {
    var routes :- BodyChildren(resp, ElementRoute);
    var lists :- RouteMessages(routes, Iterate, BuildMessageAsWritten);
    Success(MessagesReply(lists))
  }

  /** The list a reply holds under `key`; none when the key is absent. */
  function ListUnder(reply: Json, key: string): seq<Json> {
    if reply.JObj? && Lookup(reply.fields, key).Some? && Lookup(reply.fields, key).value.JArr?
    then Lookup(reply.fields, key).value.items else []
  }

  /** `build_route_messages` with the messages normalised to a list: the
      reply has `allMessages` exactly when a route tagged 'all' has a message
      and `routeMessages` exactly when another route has one, and each lists
      every such message built with its route's tag, in document order. */
  function BuildRouteMessages(resp: Json): (r: Outcome<Json>)
    ensures r.Success? ==> BodyChildren(resp, ElementRoute).Success? && r.value.JObj?
    ensures r.Success? ==> var routes := BodyChildren(resp, ElementRoute).value;
      && (Lookup(r.value.fields, TagAllMessages).Some? <==> |TaggedMessages(routes, true)| > 0)
      && (Lookup(r.value.fields, TagRouteMessages).Some? <==> |TaggedMessages(routes, false)| > 0)
      && BuiltFrom(ListUnder(r.value, TagAllMessages), TaggedMessages(routes, true))
      && BuiltFrom(ListUnder(r.value, TagRouteMessages), TaggedMessages(routes, false))
  {
    var routes :- BodyChildren(resp, ElementRoute);
    var lists :- RouteMessages(routes, ListOf, BuildMessage);
    RouteMessagesPartition(routes);
    Success(MessagesReply(lists))
  }

  /** Every message element of the routes whose tag is (`all`) or is not
      (`!all`) 'all', in document order, with its route's tag. */
  function TaggedMessages(routes: seq<Json>, all: bool): seq<(Json, Json)>
    decreases |routes|
  {
    if |routes| == 0 then []
    else
      var tag := Attr(routes[0], AttrTag);
      var ms := AsList(Attr(routes[0], ElementMessage));
      (if (tag == JStr("all")) == all then seq(|ms|, i requires 0 <= i < |ms| => (ms[i], tag)) else []) +
      TaggedMessages(routes[1..], all)
  }

  /** `built` is what `BuildMessage` makes of each tagged message. */
  predicate BuiltFrom(built: seq<Json>, tagged: seq<(Json, Json)>) {
    && |built| == |tagged|
    && forall i :: 0 <= i < |tagged| ==>
         BuildMessage(tagged[i].0, tagged[i].1).Success? && built[i] == BuildMessage(tagged[i].0, tagged[i].1).value
  }

  lemma BuiltFromAppend(b1: seq<Json>, t1: seq<(Json, Json)>, b2: seq<Json>, t2: seq<(Json, Json)>)
    requires BuiltFrom(b1, t1) && BuiltFrom(b2, t2)
    ensures BuiltFrom(b1 + b2, t1 + t2)
  {
    var b := b1 + b2;
    var t := t1 + t2;
    forall i | 0 <= i < |t|
      ensures BuildMessage(t[i].0, t[i].1).Success? && b[i] == BuildMessage(t[i].0, t[i].1).value
    {
      if i < |t1| {
        assert t[i] == t1[i] && b[i] == b1[i];
      } else {
        assert t[i] == t2[i - |t1|] && b[i] == b2[i - |t1|];
      }
    }
  }

  /** Every message of an 'all' route lands in the first list and every
      other message in the second, each in document order. */
  lemma {:induction false} RouteMessagesPartition(routes: seq<Json>)
    requires RouteMessages(routes, ListOf, BuildMessage).Success?
    ensures BuiltFrom(RouteMessages(routes, ListOf, BuildMessage).value.0, TaggedMessages(routes, true))
    ensures BuiltFrom(RouteMessages(routes, ListOf, BuildMessage).value.1, TaggedMessages(routes, false))
    decreases |routes|
  {
    if |routes| > 0 {
      var tag := Attr(routes[0], AttrTag);
      var ms := AsList(Attr(routes[0], ElementMessage));
      var built := MessagesOf(ms, tag, BuildMessage).value;
      var mine := seq(|ms|, i requires 0 <= i < |ms| => (ms[i], tag));
      var rest := RouteMessages(routes[1..], ListOf, BuildMessage).value;
      assert RouteMessages(routes, ListOf, BuildMessage).value ==
        (if tag == JStr("all") then (built + rest.0, rest.1) else (rest.0, built + rest.1));
      assert BuiltFrom(built, mine) by {
        forall i | 0 <= i < |mine|
          ensures BuildMessage(mine[i].0, mine[i].1).Success? && built[i] == BuildMessage(mine[i].0, mine[i].1).value
        {
          assert mine[i] == (ms[i], tag);
        }
      }
      RouteMessagesPartition(routes[1..]);
      if tag == JStr("all") {
        BuiltFromAppend(built, mine, rest.0, TaggedMessages(routes[1..], true));
        assert TaggedMessages(routes, true) == mine + TaggedMessages(routes[1..], true);
        assert TaggedMessages(routes, false) == TaggedMessages(routes[1..], false);
      } else {
        BuiltFromAppend(built, mine, rest.1, TaggedMessages(routes[1..], false));
        assert TaggedMessages(routes, false) == mine + TaggedMessages(routes[1..], false);
        assert TaggedMessages(routes, true) == TaggedMessages(routes[1..], true);
      }
    }
  }

  /** A message with an id and a text and nothing else. */
  function DetourMessage(): Json {
    JObj([Field(AttrId, JStr("1")), Field(ElementText, JStr("Detour"))])
  }

  /** A response whose one route 'N' has exactly one message. */
  function OneMessageRoute(): Json {
    JObj([Field(AttrTag, JStr("N")), Field(ElementMessage, DetourMessage())])
  }

  function OneMessageResponse(): Json {
    JObj([Field(ElementBody, JObj([Field(ElementRoute, OneMessageRoute())]))])
  }

  lemma OneMessageParts()
    ensures BodyChildren(OneMessageResponse(), ElementRoute) == Success([OneMessageRoute()])
    ensures Attr(OneMessageRoute(), ElementMessage) == DetourMessage()
    ensures Attr(OneMessageRoute(), AttrTag) == JStr("N")
    ensures Attr(DetourMessage(), ElementInterval) == JNull
    ensures Attr(DetourMessage(), ElementRouteConfForMsg) == JNull
  {
    var route := OneMessageRoute();
    var body := JObj([Field(ElementRoute, route)]);
    assert Attr(OneMessageResponse(), ElementBody) == body;
    assert Attr(body, ElementRoute) == route;
    assert Lookup(route.fields[1..], ElementMessage) == Some(DetourMessage());
    assert Lookup(DetourMessage().fields[1..], ElementInterval) == None;
    assert Lookup(DetourMessage().fields[1..], ElementRouteConfForMsg) == None;
  }

  /** As written, a message of a route other than 'all' without intervals
      raises TypeError. */
  lemma NoIntervalsAsWritten()
    ensures RaisedKind(BuildMessageAsWritten(DetourMessage(), JStr("N")), TypeError)
  {
    OneMessageParts();
    assert MessageStopsXml(DetourMessage()) == Success(JArr([]));
  }

  /** The normalised build gives a message without intervals its stops and
      no intervals key. */
  lemma NoIntervalsCorrected()
    ensures BuildMessage(DetourMessage(), JStr("N")) ==
      Success(JObj(MessageBase(DetourMessage()) + [Field(TagStops, JArr([]))]))
  {
    var msg := DetourMessage();
    OneMessageParts();
    assert MessageStopsXml(msg) == Success(JArr([]));
    assert AsList(JArr([])) == [] && AsList(JNull) == [];
    assert MapAll([], IntervalRecord) == Success([]);
    assert MapAll([], MessageStopRecord) == Success([]);
    assert BuildMessage(msg, JStr("N")) == Success(MessageRecord(msg, [], None));
    assert MessageBase(msg) + [Field(TagStops, JArr([]))] + [] == MessageBase(msg) + [Field(TagStops, JArr([]))];
  }

  /** As written, a route with exactly one message (parsed as a dict, not a
      list) fails: the walk visits the dict's keys, and a key has no `get`. */
  lemma OneMessageAsWritten()
    ensures RaisedKind(BuildRouteMessagesAsWritten(OneMessageResponse()), AttributeError)
  {
    OneMessageParts();
    var ms := Iterate(DetourMessage()).value;
    assert |ms| == 2 && ms[0] == JStr(AttrId) && ms[1] == JStr(ElementText);
    assert RaisedKind(BuildMessageAsWritten(ms[0], JStr("N")), AttributeError);
    assert RaisedKind(BuildMessageAsWritten(ms[1], JStr("N")), AttributeError);
    assert RaisedKind(RouteMessages([OneMessageRoute()], Iterate, BuildMessageAsWritten), AttributeError);
  }

  /** The normalised build answers the one message under routeMessages. */
  lemma OneMessageCorrected()
    ensures BuildRouteMessages(OneMessageResponse()) == Success(JObj([Field(TagRouteMessages, JArr([
      JObj(MessageBase(DetourMessage()) + [Field(TagStops, JArr([]))])]))]))
  {
    OneMessageParts();
    NoIntervalsCorrected();
    var route := OneMessageRoute();
    var built := JObj(MessageBase(DetourMessage()) + [Field(TagStops, JArr([]))]);
    assert ListOf(Attr(route, ElementMessage)) == Success([DetourMessage()]);
    assert [route][1..] == [];
    assert RouteMessages([], ListOf, BuildMessage) == Success(([], []));
    assert [DetourMessage()][0] == DetourMessage();
    assert MessagesOf([DetourMessage()], JStr("N"), BuildMessage).value == [built];
    assert RouteMessages([route], ListOf, BuildMessage) == Success(([], [built]));
    assert [] + [Field(TagRouteMessages, JArr([built]))] == [Field(TagRouteMessages, JArr([built]))];
  }

  // ---------------------------------------------------------------------------
  // Vehicles and predictions

  function FieldKeys(fs: seq<Field>): seq<string> {
    seq(|fs|, i requires 0 <= i < |fs| => fs[i].key)
  }

  /** Every field of `rec` holds the element's attribute of the same name. */
  predicate AttributesCopied(rec: Json, x: Json) {
    rec.JObj? && forall i :: 0 <= i < |rec.fields| ==> rec.fields[i].value == Attr(x, "@" + rec.fields[i].key)
  }

  const VehicleKeys: seq<string> :=
    [TagId, TagDirTag, TagLat, TagLon, TagSecsSinceReport, TagPredictable, TagHeading, TagSpeedKmHr]

  const PredictionKeys: seq<string> :=
    [TagEpochTime, TagSeconds, TagMinutes, TagIsDeparture, TagAffectedByLayover, TagDirTag, TagVehicle, TagBlock, TagTripTag]

  /** The fields named `keys`, each holding the attribute `@key`: the
      feed's attribute names are the reply's keys with an '@' in front. */
  function Copied(x: Json, keys: seq<string>): (fs: seq<Field>)
    ensures FieldKeys(fs) == keys
  {
    seq(|keys|, i requires 0 <= i < |keys| => Field(keys[i], Attr(x, "@" + keys[i])))
  }

  function VehicleRecord(x: Json): (r: Outcome<Json>)
    ensures r.Success? <==> x.JObj?
    ensures r.Success? ==> AttributesCopied(r.value, x) && FieldKeys(r.value.fields) == VehicleKeys
  {
    Elem(x, Copied(x, VehicleKeys))
  }

  /** `build_route_vehicles`: one record per vehicle element, then the
      `time` of the `lastTime` element, which must be present. */
  function BuildRouteVehicles(resp: Json): (r: Outcome<Json>)
    ensures r.Success? <==>
      && BodyChildren(resp, ElementVehicle).Success?
      && (forall i :: 0 <= i < |BodyChildren(resp, ElementVehicle).value| ==> BodyChildren(resp, ElementVehicle).value[i].JObj?)
      && Attr(Attr(resp, ElementBody), ElementLastTime).JObj?
    ensures r.Success? ==>
      var xs := BodyChildren(resp, ElementVehicle).value;
      && r.value.JObj? && |r.value.fields| == 2
      && r.value.fields[0].key == TagVehicles && r.value.fields[0].value.JArr?
      && |r.value.fields[0].value.items| == |xs|
      && (forall i :: 0 <= i < |xs| ==> AttributesCopied(r.value.fields[0].value.items[i], xs[i]))
      && r.value.fields[1] == Field(TagLastTime, Attr(Attr(Attr(resp, ElementBody), ElementLastTime), AttrTime))
    ensures r.Failure? ==> r.error.kind == AttributeError
  {
    var xs :- BodyChildren(resp, ElementVehicle);
    var recs :- MapAll(xs, VehicleRecord);
    var time :- PyGet(Attr(Attr(resp, ElementBody), ElementLastTime), AttrTime);
    Success(JObj([Field(TagVehicles, JArr(recs)), Field(TagLastTime, time)]))
  }

  function PredictionRecord(x: Json): (r: Outcome<Json>)
    ensures r.Success? <==> x.JObj?
    ensures r.Success? ==> AttributesCopied(r.value, x) && FieldKeys(r.value.fields) == PredictionKeys
  {
    Elem(x, Copied(x, PredictionKeys))
  }

  /** One direction of `build_route_predictions`: its title and one record
      per prediction element, in order. */
  function DirectionPredictions(d: Json): (r: Outcome<Json>)
    ensures r.Success? <==> d.JObj? && forall j :: 0 <= j < |AsList(Attr(d, ElementPrediction))| ==> AsList(Attr(d, ElementPrediction))[j].JObj?
    ensures r.Success? ==>
      var ps := AsList(Attr(d, ElementPrediction));
      && r.value.JObj? && |r.value.fields| == 2
      && r.value.fields[0] == Field(TagTitle, Attr(d, AttrTitle))
      && r.value.fields[1].key == TagPredictions && r.value.fields[1].value.JArr?
      && |r.value.fields[1].value.items| == |ps|
      && (forall j :: 0 <= j < |ps| ==> AttributesCopied(r.value.fields[1].value.items[j], ps[j]))
  {
    if !d.JObj? then Raise(AttributeError, "object has no attribute 'get'")
    else
      var ps :- MapAll(AsList(Attr(d, ElementPrediction)), PredictionRecord);
      Success(JObj([Field(TagTitle, Attr(d, AttrTitle)), Field(TagPredictions, JArr(ps))]))
  }

  /** `build_route_predictions`: the `predictions` element must be present;
      one direction per direction element, in order. */
  function BuildRoutePredictions(resp: Json): (r: Outcome<Json>)
    ensures r.Success? ==> resp.JObj? && Attr(resp, ElementBody).JObj? && Attr(Attr(resp, ElementBody), ElementPredictions).JObj?
    ensures resp.JObj? && Attr(resp, ElementBody).JObj? && !Attr(Attr(resp, ElementBody), ElementPredictions).JObj? ==>
      RaisedKind(r, AttributeError)
    ensures r.Success? ==>
      var ds := AsList(Attr(Attr(Attr(resp, ElementBody), ElementPredictions), ElementDirection));
      && r.value.JObj? && |r.value.fields| == 1
      && r.value.fields[0].key == TagDirections && r.value.fields[0].value.JArr?
      && |r.value.fields[0].value.items| == |ds|
      && (forall i :: 0 <= i < |ds| ==> DirectionPredictions(ds[i]) == Success(r.value.fields[0].value.items[i]))
  {
    var body :- PyGet(resp, ElementBody);
    var preds :- PyGet(body, ElementPredictions);
    var ds :- Children(preds, ElementDirection);
    var dirs :- MapAll(ds, DirectionPredictions);
    Success(JObj([Field(TagDirections, JArr(dirs))]))
  }
}
