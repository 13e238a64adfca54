/** The exception classes the modelled code raises, catches or maps to HTTP
    statuses. `pubtrans/common/exceptions.py` is not part of this model: the
    class names come from the code that raises them, and the base-class table
    `Bases` below is the one the handler's `isinstance` chain needs. */
module Errors {
  import opened Wrappers

  datatype Kind =
    // pubtrans.common.exceptions, client-facing
    | BadRequest | MissingArgumentValue | InvalidArgumentValue
    | Unauthorized | Forbidden | NotFound | MethodNotAllowed | Conflict
    // pubtrans.common.exceptions, dependency and cache failures
    | ExternalProviderUnavailableTemporarily | ExternalProviderUnavailablePermanently
    | GeneralInfoException | DatabaseOperationError
    // raised by the circuit breaker's guard
    | CircuitOpenError
    // redis-py
    | RedisConnectionError
    // Python built-ins
    | NotImplementedError | ValueError | TypeError | AttributeError | KeyError | IndexError
    | IOError | RuntimeError
    // xml.parsers.expat, raised by xmltodict on malformed XML
    | ExpatError
    // Tornado
    | WebHTTPError(webCode: int) | ClientHTTPError(clientCode: int)

  datatype Exc = Exc(kind: Kind, message: string)

  /** What a Python call produces: a value or a raised exception. */
  type Outcome<T> = Result<T, Exc>

  function Raise<T>(k: Kind, message: string): Outcome<T> {
    Failure(Exc(k, message))
  }

  predicate RaisedKind<T>(r: Outcome<T>, k: Kind) {
    r.Failure? && r.error.kind == k
  }

  /** The abstract base classes that `_build_response_from_exception` tests with `isinstance`. */
  datatype BaseClass =
    | BadRequestBase | UnauthorizedBase | ForbiddenBase | NotFoundBase
    | ConflictClass | PermanentServiceError | TemporaryServiceError

  function Bases(k: Kind): set<BaseClass> {
    match k
    case BadRequest | MissingArgumentValue | InvalidArgumentValue => {BadRequestBase}
    case Unauthorized => {UnauthorizedBase}
    case Forbidden => {ForbiddenBase}
    case NotFound => {NotFoundBase}
    case Conflict => {ConflictClass}
    case ExternalProviderUnavailablePermanently => {PermanentServiceError}
    case ExternalProviderUnavailableTemporarily => {TemporaryServiceError}
    case _ => {}
  }
}
