/** The two HTTP clients of the ledger ("Account Service"). Each posts one
    movement and turns whatever comes back into either a normal return or a
    typed failure: `TransferException` in `AccountServiceClient`,
    `TransferenciaException` in `ContaCorrenteServiceClient`. The network
    exchange itself is an input: the response, or the transport failure or
    timeout that replaced it. */
module LedgerClient {

  import opened Primitives
  import opened Text
  import opened Exceptions
  import opened Commands

  /** How the 400 body deserialised: an object, the JSON literal `null`, or
      text that raised `JsonException`. */
  datatype ErrorBody = Parsed(response: ErrorResponse) | NullBody | Malformed

  /** What `PostAsJsonAsync` produced. */
  datatype HttpOutcome =
    | Response(statusCode: int, body: ErrorBody)
    | TransportFailure(cause: string)
    | Timeout(cause: string)

  /** `HttpResponseMessage.IsSuccessStatusCode`. */
  predicate IsSuccessStatusCode(code: int) {
    200 <= code <= 299
  }

  const Forbidden := 403
  const BadRequest := 400

  const UnauthorizedMessage := "Token inválido ou expirado"
  const ServiceErrorPrefix := "Erro ao comunicar com Account Service: "
  const UnavailableMessage := "Falha na comunicação com Account Service"
  const TimeoutMessage := "Timeout ao comunicar com Account Service"

  /** The failure kinds the clients choose themselves. */
  predicate IsClientKind(kind: string) {
    kind in {"UNAUTHORIZED", "ACCOUNT_SERVICE_ERROR", "ACCOUNT_SERVICE_UNAVAILABLE", "ACCOUNT_SERVICE_TIMEOUT"}
  }

  /** `HttpStatusCode.ToString()` for the codes with a single enum name;
      other codes print as their number. */
  const StatusNames: map<int, string> := map[
    100 := "Continue", 101 := "SwitchingProtocols", 102 := "Processing", 103 := "EarlyHints",
    304 := "NotModified", 305 := "UseProxy", 306 := "Unused", 308 := "PermanentRedirect",
    400 := "BadRequest", 401 := "Unauthorized", 402 := "PaymentRequired", 403 := "Forbidden",
    404 := "NotFound", 405 := "MethodNotAllowed", 406 := "NotAcceptable",
    407 := "ProxyAuthenticationRequired", 408 := "RequestTimeout", 409 := "Conflict", 410 := "Gone",
    411 := "LengthRequired", 412 := "PreconditionFailed", 413 := "RequestEntityTooLarge",
    414 := "RequestUriTooLong", 415 := "UnsupportedMediaType", 416 := "RequestedRangeNotSatisfiable",
    417 := "ExpectationFailed", 421 := "MisdirectedRequest", 423 := "Locked", 424 := "FailedDependency",
    426 := "UpgradeRequired", 428 := "PreconditionRequired", 429 := "TooManyRequests",
    431 := "RequestHeaderFieldsTooLarge", 451 := "UnavailableForLegalReasons",
    500 := "InternalServerError", 501 := "NotImplemented", 502 := "BadGateway",
    503 := "ServiceUnavailable", 504 := "GatewayTimeout", 505 := "HttpVersionNotSupported",
    506 := "VariantAlsoNegotiates", 507 := "InsufficientStorage", 508 := "LoopDetected",
    510 := "NotExtended", 511 := "NetworkAuthenticationRequired"]

  function StatusText(code: int): string {
    if code in StatusNames then StatusNames[code] else IntToString(code)
  }

  /** Which exception class a client throws. */
  datatype Family = English | Portuguese

  function Typed(family: Family, message: string, kind: string, inner: Option<Exception>): Exception {
    match family
    case English => NewTransferException(message, kind, inner)
    case Portuguese => NewTransferenciaException(message, kind, inner)
  }

  /** The branches of `CreateMovementAsync` once the exchange is known, in
      the order the code tests them: success, 403, a 400 with a body, any
      other status, then the two transport exceptions caught around it. */
  function Classify(family: Family, outcome: HttpOutcome): Option<Exception> {
    match outcome
    case Response(code, body) =>
      if IsSuccessStatusCode(code) then None
      else if code == Forbidden then Some(Typed(family, UnauthorizedMessage, "UNAUTHORIZED", None))
      else if code == BadRequest && body.Parsed? then
        Some(Typed(family, body.response.message, body.response.failureType, None))
      else Some(Typed(family, ServiceErrorPrefix + StatusText(code), "ACCOUNT_SERVICE_ERROR", None))
    case TransportFailure(cause) =>
      Some(Typed(family, UnavailableMessage, "ACCOUNT_SERVICE_UNAVAILABLE", Some(HttpRequestException(cause))))
    case Timeout(cause) =>
      Some(Typed(family, TimeoutMessage, "ACCOUNT_SERVICE_TIMEOUT", Some(TaskCanceledException(cause))))
  }

  /** `AccountServiceClient.CreateMovementAsync`, branch by branch. */
  function AccountServiceFailure(outcome: HttpOutcome): (r: Option<Exception>)
    ensures r.None? <==> outcome.Response? && IsSuccessStatusCode(outcome.statusCode)
    ensures r.Some? ==> r.value.TransferException?
    ensures outcome.Response? && outcome.statusCode == Forbidden ==>
      r == Some(TransferException(UnauthorizedMessage, "UNAUTHORIZED", None))
    ensures outcome.Response? && outcome.statusCode == BadRequest && outcome.body.Parsed? ==>
      r == Some(TransferException(outcome.body.response.message, outcome.body.response.failureType, None))
    ensures (outcome.Response? && !IsSuccessStatusCode(outcome.statusCode) && outcome.statusCode != Forbidden
             && !(outcome.statusCode == BadRequest && outcome.body.Parsed?)) ==>
      r == Some(TransferException(ServiceErrorPrefix + StatusText(outcome.statusCode), "ACCOUNT_SERVICE_ERROR", None))
    ensures outcome.TransportFailure? ==>
      r == Some(TransferException(UnavailableMessage, "ACCOUNT_SERVICE_UNAVAILABLE", Some(HttpRequestException(outcome.cause))))
    ensures outcome.Timeout? ==>
      r == Some(TransferException(TimeoutMessage, "ACCOUNT_SERVICE_TIMEOUT", Some(TaskCanceledException(outcome.cause))))
  {
    Classify(English, outcome)
  }

  /** `ContaCorrenteServiceClient.CreateMovementAsync`: the same branches,
      throwing `TransferenciaException`. */
  function ContaCorrenteFailure(outcome: HttpOutcome): (r: Option<Exception>)
    ensures r.None? <==> outcome.Response? && IsSuccessStatusCode(outcome.statusCode)
    ensures r.Some? ==> r.value.TransferenciaException?
    ensures outcome.Response? && outcome.statusCode == Forbidden ==>
      r == Some(TransferenciaException(UnauthorizedMessage, "UNAUTHORIZED", None))
    ensures outcome.Response? && outcome.statusCode == BadRequest && outcome.body.Parsed? ==>
      r == Some(TransferenciaException(outcome.body.response.message, outcome.body.response.failureType, None))
    ensures (outcome.Response? && !IsSuccessStatusCode(outcome.statusCode) && outcome.statusCode != Forbidden
             && !(outcome.statusCode == BadRequest && outcome.body.Parsed?)) ==>
      r == Some(TransferenciaException(ServiceErrorPrefix + StatusText(outcome.statusCode), "ACCOUNT_SERVICE_ERROR", None))
    ensures outcome.TransportFailure? ==>
      r == Some(TransferenciaException(UnavailableMessage, "ACCOUNT_SERVICE_UNAVAILABLE", Some(HttpRequestException(outcome.cause))))
    ensures outcome.Timeout? ==>
      r == Some(TransferenciaException(TimeoutMessage, "ACCOUNT_SERVICE_TIMEOUT", Some(TaskCanceledException(outcome.cause))))
  {
    Classify(Portuguese, outcome)
  }

  /** A client failure is never the critical kind, so a saga always
      compensates after it; its kind is one the client chose, except on a
      400 whose body names one. */
  lemma ClientFailuresAreOrdinary(outcome: HttpOutcome)
    ensures var r := AccountServiceFailure(outcome);
      r.Some? ==> (r.value.IsTransferException() && !r.value.CompensationFailedException?
                   && (IsClientKind(r.value.FailureType()) || (outcome.Response? && outcome.statusCode == BadRequest && outcome.body.Parsed?)))
    ensures var r := ContaCorrenteFailure(outcome);
      r.Some? ==> (r.value.IsTransferenciaException() && !r.value.CompensacaoFalhaException?
                   && (IsClientKind(r.value.FailureType()) || (outcome.Response? && outcome.statusCode == BadRequest && outcome.body.Parsed?)))
  {
  }

  /** The 403 test comes before the 400 body test: a forbidden answer is
      UNAUTHORIZED whatever its body says. */
  lemma ForbiddenIgnoresBody(body: ErrorBody)
    ensures AccountServiceFailure(Response(Forbidden, body)) == AccountServiceFailure(Response(Forbidden, NullBody))
    ensures ContaCorrenteFailure(Response(Forbidden, body)) == ContaCorrenteFailure(Response(Forbidden, NullBody))
  {
  }

  /** A 400 whose body is `null` and one whose body does not parse fall
      through to the same generic error. */
  lemma UnreadableBodyIsGeneric()
    ensures AccountServiceFailure(Response(BadRequest, NullBody)) == AccountServiceFailure(Response(BadRequest, Malformed))
      == Some(TransferException("Erro ao comunicar com Account Service: BadRequest", "ACCOUNT_SERVICE_ERROR", None))
  {
    assert StatusText(BadRequest) == "BadRequest";
    assert ServiceErrorPrefix + "BadRequest" == "Erro ao comunicar com Account Service: BadRequest";
  }

  /** A request header: name and value. */
  datatype Header = Header(name: string, value: string)

  /** The part of a client's state the core changes: the default headers of
      its `HttpClient`, which every call clears and refills with the
      caller's bearer token before posting. */
  class MovementClient {
    const family: Family
    var defaultHeaders: seq<Header>

    constructor(family: Family)
      ensures this.family == family && defaultHeaders == []
    {
      this.family := family;
      defaultHeaders := [];
    }

    /** One `CreateMovementAsync` call whose exchange ended in `outcome`. */
    method CreateMovement(request: MovementRequest, authorizationToken: string, outcome: HttpOutcome)
      returns (failure: Option<Exception>)
      modifies this
      ensures defaultHeaders == [Header("Authorization", "Bearer " + authorizationToken)]
      ensures family == English ==> failure == AccountServiceFailure(outcome)
      ensures family == Portuguese ==> failure == ContaCorrenteFailure(outcome)
    {
      defaultHeaders := [];
      defaultHeaders := defaultHeaders + [Header("Authorization", "Bearer " + authorizationToken)];
      failure := Classify(family, outcome);
    }
  }
}
