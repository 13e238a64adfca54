/** The base connector to an external service: how a provider's HTTP status
    becomes a value or an exception, how the body is parsed, and how the
    response is logged.

    The parsers (`unicode`, `json.loads`, `xmltodict.parse`) are parameters:
    each returns a tree or says how it failed. */
module BaseService {
  import opened Wrappers
  import opened Errors
  import opened Json
  import opened Text
  import opened Support
  import opened Retry

  /** The codes that pass the status check. */
  const SuccessCodes: set<int> := {200, 201, 202, 204}

  /** The codes of `error_response_codes`. */
  const MappedCodes: set<int> := {400, 401, 403, 404, 405, 500, 503, 598, 599}

  /** `error_response_codes[code]`, None for a code the table does not list. */
  function ErrorClass(code: int): (k: Option<Kind>)
    ensures k.Some? <==> code in MappedCodes
  {
    if code == 400 then Some(BadRequest)
    else if code == 401 then Some(Unauthorized)
    else if code == 403 then Some(Forbidden)
    else if code == 404 then Some(NotFound)
    else if code == 405 then Some(MethodNotAllowed)
    else if code == 500 then Some(ExternalProviderUnavailablePermanently)
    else if code in {503, 598, 599} then Some(ExternalProviderUnavailableTemporarily)
    else None
  }

  /** How a parser fails: with a TypeError or ValueError (`json.loads`,
      `unicode`), or with expat's error (`xmltodict.parse`). */
  datatype ParseError = ValueOrType(reason: string) | Expat(reason: string)

  datatype Parsers = Parsers(text: string -> Result<Json, ParseError>,
                             json: string -> Result<Json, ParseError>,
                             xml: string -> Result<Json, ParseError>)

  /** The `except (TypeError, ValueError)` around the formatter: those become
      ValueError('Invalid response body: ...'); expat's error is not caught. */
  function Parsed(r: Result<Json, ParseError>): (o: Outcome<Json>)
    ensures r.Success? ==> o == Success(r.value)
    ensures r.Failure? && r.error.ValueOrType? ==> o == Raise(ValueError, "Invalid response body: " + r.error.reason)
    ensures r.Failure? && r.error.Expat? ==> o == Raise(ExpatError, r.error.reason)
  {
    match r
    case Success(v) => Success(v)
    case Failure(ValueOrType(reason)) => Raise(ValueError, "Invalid response body: " + reason)
    case Failure(Expat(reason)) => Raise(ExpatError, reason)
  }

  /** `formatter_mapping[formatter](response_body)`: 'json' and 'xml' read an
      empty body as an empty map without calling the parser; an unknown
      format raises NotImplementedError with the format's name. */
  function Format(name: string, body: string, p: Parsers): (r: Outcome<Json>)
    ensures name !in {"text", "json", "xml"} ==> r == Raise(NotImplementedError, name)
    ensures name in {"json", "xml"} && body == "" ==> r == Success(JObj([]))
    ensures name == "text" ==> r == Parsed(p.text(body))
    ensures name == "json" && body != "" ==> r == Parsed(p.json(body))
    ensures name == "xml" && body != "" ==> r == Parsed(p.xml(body))
  {
    if name == "text" then Parsed(p.text(body))
    else if name == "json" then (if body != "" then Parsed(p.json(body)) else Success(JObj([])))
    else if name == "xml" then (if body != "" then Parsed(p.xml(body)) else Success(JObj([])))
    else Raise(NotImplementedError, name)
  }

  /** `validate_response(code, body, format)`: a non-success code raises its
      table class (GeneralInfoException for any other code) with the body as
      message, before the format is looked at; a success code parses the body
      in the given format, 'json' by default. */
  function ValidateResponse(code: int, body: string, format: Option<string>, p: Parsers): (r: Outcome<Json>)
    ensures r.Success? ==> code in SuccessCodes
    ensures code !in SuccessCodes ==> r.Failure? && r.error.message == body
    ensures code !in SuccessCodes + MappedCodes ==> r == Raise(GeneralInfoException, body)
    ensures code in SuccessCodes ==> r == Format(format.GetOr("json"), body, p)
  {
    if code !in SuccessCodes then Failure(Exc(ErrorClass(code).GetOr(GeneralInfoException), body))
    else Format(format.GetOr("json"), body, p)
  }

  /** The status table for the client errors, code by code. */
  lemma ClientStatusTable(body: string, format: Option<string>, p: Parsers)
    ensures ValidateResponse(400, body, format, p) == Raise(BadRequest, body)
    ensures ValidateResponse(401, body, format, p) == Raise(Unauthorized, body)
    ensures ValidateResponse(403, body, format, p) == Raise(Forbidden, body)
    ensures ValidateResponse(404, body, format, p) == Raise(NotFound, body)
    ensures ValidateResponse(405, body, format, p) == Raise(MethodNotAllowed, body)
  {
  }

  /** The status table for server errors, and examples of unlisted codes. */
  lemma ServerStatusTable(body: string, format: Option<string>, p: Parsers)
    ensures ValidateResponse(500, body, format, p) == Raise(ExternalProviderUnavailablePermanently, body)
    ensures ValidateResponse(503, body, format, p) == Raise(ExternalProviderUnavailableTemporarily, body)
    ensures ValidateResponse(598, body, format, p) == Raise(ExternalProviderUnavailableTemporarily, body)
    ensures ValidateResponse(599, body, format, p) == Raise(ExternalProviderUnavailableTemporarily, body)
    ensures ValidateResponse(203, body, format, p) == Raise(GeneralInfoException, body)
    ensures ValidateResponse(302, body, format, p) == Raise(GeneralInfoException, body)
    ensures ValidateResponse(502, body, format, p) == Raise(GeneralInfoException, body)
  {
    assert 203 !in SuccessCodes + MappedCodes && 302 !in SuccessCodes + MappedCodes && 502 !in SuccessCodes + MappedCodes;
  }

  /** An empty body of a success code is an empty map in the default, 'json'
      and 'xml' formats, whatever the parsers would say. */
  lemma EmptyBodyIsEmptyMap(code: int, format: Option<string>, p: Parsers)
    requires code in SuccessCodes
    requires format in {None, Some("json"), Some("xml")}
    ensures ValidateResponse(code, "", format, p) == Success(JObj([]))
  {
  }

  /** The failures the retry decorator of the NextBus connector checks for
      come from exactly the codes 503, 598 and 599: no parse failure and no
      other code produces ExternalProviderUnavailableTemporarily. */
  lemma RetriedExactly(code: int, body: string, format: Option<string>, p: Parsers)
    ensures Caught(ValidateResponse(code, body, format, p), TemporarilyOnly) <==> code in {503, 598, 599}
  {
  }

  /** The dependency failures the 'next_bus' breaker records come from
      exactly the codes 500, 503, 598 and 599. */
  lemma BreakerSeesServerErrors(code: int, body: string, format: Option<string>, p: Parsers)
    ensures var r := ValidateResponse(code, body, format, p);
      (r.Failure? && r.error.kind in {ExternalProviderUnavailableTemporarily, ExternalProviderUnavailablePermanently})
      <==> code in {500, 503, 598, 599}
  {
  }

  /** `str(n)`, signed. */
  function IntText(n: int): string {
    if n < 0 then "-" + Decimal(-n) else Decimal(n)
  }

  /** The log tag's `%s` is modelled as a prefix. */
  function CodeMessage(tag: string, code: int): string {
    tag + "response code: " + IntText(code)
  }

  function BodyMessage(tag: string, body: string): string {
    tag + "response body: " + body
  }

  /** `log_response`: nothing without a support object; otherwise the code
      and then the body, at debug level for codes 200 to 399 inclusive and at
      error level for every other code. */
  function LogResponse(support: Option<State>, tag: string, code: int, body: string): (r: Option<State>)
    ensures support.None? <==> r.None?
    ensures support.Some? ==>
      var l := r.value.log;
      && |l| >= |support.value.log| + 2 && l[..|support.value.log|] == support.value.log
      && l[|l| - 2].message == CodeMessage(tag, code) && l[|l| - 1].message == BodyMessage(tag, body)
      && l[|l| - 2].level == l[|l| - 1].level
      && (l[|l| - 1].level == Debug <==> 200 <= code <= 399)
      && (l[|l| - 1].level == Error <==> !(200 <= code <= 399))
  {
    match support
    case None => None
    case Some(s) =>
      var level := if 200 <= code <= 399 then Debug else Error;
      var s1 := Notify(s, level, CodeMessage(tag, code), "");
      var s2 := Notify(s1, level, BodyMessage(tag, body), "");
      NotifyAppendsOwn(s1, level, BodyMessage(tag, body), "");
      assert s2.log[..|s.log|] == s1.log[..|s.log|];
      Some(s2)
  }

  /** The two tables disagree on redirects: a 302 is logged as a success,
      at debug level, and still raised as GeneralInfoException. */
  lemma RedirectLoggedAsSuccess(s: State, tag: string, body: string, format: Option<string>, p: Parsers)
    ensures var l := LogResponse(Some(s), tag, 302, body).value.log; l[|l| - 1].level == Debug
    ensures RaisedKind(ValidateResponse(302, body, format, p), GeneralInfoException)
  {
    assert 302 !in SuccessCodes && 302 !in MappedCodes;
  }
}
