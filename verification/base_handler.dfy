/** The decision tables of the base request handler: which status and body a
    handler result gets, how an exception is answered, which request id the
    request carries, and whether the URI statistics are updated.

    The response is described, not written: its status, whether the JSON
    content type was set, the body written (if any), the request-id header
    (if any), and whether `update_uri_stats` was called. */
module BaseHandler {
  import opened Wrappers
  import opened Errors
  import opened Json
  import opened Support
  import opened BaseService

  datatype Method = Get | Post | Put | Delete | OtherMethod(name: string)

  /** What a handler hands to `build_response`: a value or an exception. */
  datatype HandlerResult = Value(value: Json) | Raised(error: Exc)

  /** A written body: the value dumped as JSON, the value as it is, or the
      text of the exception, whose info carries the request id. */
  datatype Body = Dumped(value: Json) | Raw(value: Json) | ErrorInfo(kind: Kind, message: string, requestId: string)

  datatype Response = Response(status: int, jsonContentType: bool, written: Option<Body>,
                               requestIdHeader: Option<string>, uriStatsUpdated: bool)

  /** The status a Tornado response has until one is set. */
  const TornadoDefaultStatus := 200

  /** `_build_response_from_exception`'s status: the first base class that
      matches, in the order bad request, unauthorized, forbidden, not found,
      conflict, permanent, temporary; then a Tornado HTTPError's own code;
      then 500. */
  function ExceptionStatus(k: Kind): int {
    var b := Bases(k);
    if BadRequestBase in b then 400
    else if UnauthorizedBase in b then 401
    else if ForbiddenBase in b then 403
    else if NotFoundBase in b then 404
    else if ConflictClass in b then 409
    else if PermanentServiceError in b then 500
    else if TemporaryServiceError in b then 503
    else match k
      case WebHTTPError(c) => c
      case ClientHTTPError(c) => c
      case _ => 500
  }

  /** The exception that is written: the original for the service's own
      classes; a GeneralInfoException in place of a Tornado HTTPError and of
      any other exception (whose traceback's last line, modelled as its
      message, becomes the text). */
  function ExceptionBody(e: Exc, requestId: string): (b: Body)
    ensures b.ErrorInfo? && b.requestId == requestId
    ensures Bases(e.kind) != {} ==> b == ErrorInfo(e.kind, e.message, requestId)
    ensures Bases(e.kind) == {} ==> b.kind == GeneralInfoException
  {
    if Bases(e.kind) != {} then ErrorInfo(e.kind, e.message, requestId)
    else match e.kind
      case WebHTTPError(_) => ErrorInfo(GeneralInfoException, "Web HTTPError", requestId)
      case ClientHTTPError(_) => ErrorInfo(GeneralInfoException, "Client HTTPError", requestId)
      case _ => ErrorInfo(GeneralInfoException, e.message, requestId)
  }

  /** `_build_response_internal(apply_format, result, status_code)`. */
  function BuildResponse(m: Method, applyFormat: bool, result: HandlerResult, statusCode: Option<int>,
                         requestId: string): (r: Response)
    ensures r.jsonContentType == applyFormat
    ensures result.Raised? ==> r.status == ExceptionStatus(result.error.kind) &&
                               r.written == Some(ExceptionBody(result.error, requestId))
    ensures r.requestIdHeader == (if requestId != "" then Some(requestId) else None)
  {
    var header := if requestId != "" then Some(requestId) else None;
    match result
    case Raised(e) =>
      Response(ExceptionStatus(e.kind), applyFormat, Some(ExceptionBody(e, requestId)), header,
               NotFoundBase !in Bases(e.kind))
    case Value(v) =>
      var body := if applyFormat then Dumped(v) else Raw(v);
      match m
      case Get => Response(statusCode.GetOr(200), applyFormat, Some(body), header, true)
      case Post => Response(statusCode.GetOr(201), applyFormat, Some(body), header, true)
      case Put => Response(statusCode.GetOr(204), applyFormat, None, header, true)
      case Delete => Response(statusCode.GetOr(200), applyFormat, None, header, true)
      case OtherMethod(_) => Response(TornadoDefaultStatus, applyFormat, None, header, true)
  }

  /** The default statuses of a value: GET 200, POST 201, PUT 204, DELETE
      200; an explicit status wins for those four methods, and any other
      method keeps Tornado's status even when one is given. */
  lemma ValueStatusTable(v: Json, applyFormat: bool, requestId: string, c: int, name: string)
    ensures BuildResponse(Get, applyFormat, Value(v), None, requestId).status == 200
    ensures BuildResponse(Post, applyFormat, Value(v), None, requestId).status == 201
    ensures BuildResponse(Put, applyFormat, Value(v), None, requestId).status == 204
    ensures BuildResponse(Delete, applyFormat, Value(v), None, requestId).status == 200
    ensures forall m :: m in {Get, Post, Put, Delete} ==> BuildResponse(m, applyFormat, Value(v), Some(c), requestId).status == c
    ensures BuildResponse(OtherMethod(name), applyFormat, Value(v), Some(c), requestId).status == TornadoDefaultStatus
  {
  }

  /** A body is written for an exception and for the value of a GET or a
      POST, never for a PUT or a DELETE; a written value is JSON-dumped
      exactly when the format is applied. */
  lemma BodyWrittenFor(m: Method, applyFormat: bool, result: HandlerResult, statusCode: Option<int>, requestId: string)
    ensures var r := BuildResponse(m, applyFormat, result, statusCode, requestId);
      && (r.written.Some? <==> result.Raised? || m == Get || m == Post)
      && (result.Value? && r.written.Some? ==> r.written.value == (if applyFormat then Dumped(result.value) else Raw(result.value)))
  {
  }

  /** Each of the service's exception base classes has its own status, and
      every exception outside them and outside Tornado's HTTPErrors is
      answered with 500. */
  lemma ExceptionStatusByBase(k: Kind)
    ensures BadRequestBase in Bases(k) ==> ExceptionStatus(k) == 400
    ensures UnauthorizedBase in Bases(k) ==> ExceptionStatus(k) == 401
    ensures ForbiddenBase in Bases(k) ==> ExceptionStatus(k) == 403
    ensures NotFoundBase in Bases(k) ==> ExceptionStatus(k) == 404
    ensures ConflictClass in Bases(k) ==> ExceptionStatus(k) == 409
    ensures PermanentServiceError in Bases(k) ==> ExceptionStatus(k) == 500
    ensures TemporaryServiceError in Bases(k) ==> ExceptionStatus(k) == 503
    ensures Bases(k) == {} && !k.WebHTTPError? && !k.ClientHTTPError? ==> ExceptionStatus(k) == 500
    ensures k.WebHTTPError? ==> ExceptionStatus(k) == k.webCode
    ensures k.ClientHTTPError? ==> ExceptionStatus(k) == k.clientCode
  {
  }

  /** The statistics of the URI are updated for every result except a
      not-found exception. */
  lemma UriStatsExceptNotFound(m: Method, applyFormat: bool, result: HandlerResult, statusCode: Option<int>, requestId: string)
    ensures BuildResponse(m, applyFormat, result, statusCode, requestId).uriStatsUpdated <==>
      !(result.Raised? && NotFoundBase in Bases(result.error.kind))
  {
  }

  /** A provider's error status reaches the client unchanged for 400, 401,
      403, 404, 500 and 503; 598 and 599 are answered with 503, and an
      unlisted code such as 302 or 502 with 500. */
  lemma ProviderStatusRelayed(code: int, body: string, format: Option<string>, p: Parsers, m: Method, requestId: string)
    requires code !in SuccessCodes
    ensures var r := BuildResponse(m, true, Raised(ValidateResponse(code, body, format, p).error), None, requestId);
      && (code in {400, 401, 403, 404, 500, 503} ==> r.status == code)
      && (code in {598, 599} ==> r.status == 503)
      && (code !in SuccessCodes + MappedCodes ==> r.status == 500)
  {
  }

  // ---------------------------------------------------------------------------
  // Request id and support

  /** The request id: the request's header when it has one, otherwise
      'pubtrans-' followed by a fresh uuid. */
  function RequestId(header: Option<string>, uuid: string): (id: string)
    ensures header.Some? ==> id == header.value
    ensures header.None? ==> |id| == 9 + |uuid| && id[..9] == "pubtrans-" && id[9..] == uuid
  {
    if header.Some? then header.value else "pubtrans-" + uuid
  }

  /** A generated request id is never empty, so it is always echoed. */
  lemma GeneratedIdEchoed(uuid: string, m: Method, applyFormat: bool, result: HandlerResult, statusCode: Option<int>)
    ensures BuildResponse(m, applyFormat, result, statusCode, RequestId(None, uuid)).requestIdHeader == Some(RequestId(None, uuid))
  {
    assert |RequestId(None, uuid)| >= 9;
  }

  /** The `extra_info` of `initialize`: the environment variable when truthy,
      'unknown' otherwise; the service name when the settings have one. */
  function HandlerExtraInfo(envVar: Option<string>, service: Option<string>, handler: string, requestId: string): (m: map<string, string>)
    ensures "environment" in m && "requestId" in m && m["requestId"] == requestId
    ensures m["environment"] == (if envVar.Some? && envVar.value != "" then envVar.value else "unknown")
  {
    var env := if envVar.Some? && envVar.value != "" then envVar.value else "unknown";
    var base := map["environment" := env, "handler" := handler, "requestId" := requestId];
    if service.Some? then base["service" := service.value] else base
  }

  /** The support object of a handler is always built, statistics on or
      off, and carries the request's id. */
  lemma HandlerSupportBuilds(envVar: Option<string>, service: Option<string>, handler: string, requestId: string,
                             noRequestId: string, logLevel: string, statsEnabled: bool)
    ensures var r := Init(HandlerExtraInfo(envVar, service, handler, requestId), noRequestId, logLevel, statsEnabled);
      r.Success? && r.value.extra.requestId == requestId
  {
  }
}
