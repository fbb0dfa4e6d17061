/** `TransfersController.CreateTransfer`: the origin account comes from the
    caller's claims, the bearer token from the `Authorization` header, and
    the rest of the command from the request body. Both identity checks run
    before the command is sent; the exceptions they throw, and any the
    handler throws, reach `ExceptionHandlerMiddleware`. */
module TransfersController {

  import opened Primitives
  import opened Text
  import opened Guids
  import opened Exceptions
  import opened Commands
  import opened ExceptionMiddleware

  /** `ClaimTypes.NameIdentifier`. */
  const NameIdentifierClaim := "http://schemas.xmlsoap.org/ws/2005/05/identity/claims/nameidentifier"

  const InvalidTokenMessage := "Token inválido: accountId não encontrado"
  const MissingTokenMessage := "Token de autorização não encontrado"

  datatype Claim = Claim(claimType: string, value: string)

  /** The position of the first claim of the type, compared the way
      `ClaimsPrincipal.FindFirst` does (ordinal, ignoring case). */
  function FirstOfType(claims: seq<Claim>, claimType: string): (r: Option<nat>)
    ensures r.None? <==> forall i :: 0 <= i < |claims| ==> !EqualsIgnoreCase(claims[i].claimType, claimType)
    ensures r.Some? ==> r.value < |claims| && EqualsIgnoreCase(claims[r.value].claimType, claimType)
    ensures r.Some? ==> forall i :: 0 <= i < r.value ==> !EqualsIgnoreCase(claims[i].claimType, claimType)
  {
    if claims == [] then None
    else if EqualsIgnoreCase(claims[0].claimType, claimType) then Some(0)
    else
      var r := FirstOfType(claims[1..], claimType);
      if r.None? then None else Some(r.value + 1)
  }

  /** `User.FindFirst(claimType)?.Value`. */
  function FindFirst(claims: seq<Claim>, claimType: string): (r: NullableString)
    ensures r.Some? <==> FirstOfType(claims, claimType).Some?
    ensures r.Some? ==> r.value == claims[FirstOfType(claims, claimType).value].value
  {
    var k := FirstOfType(claims, claimType);
    if k.None? then None else Some(claims[k.value].value)
  }

  /** The claim the account id is read from: the name identifier if there
      is one, whatever its value, and "sub" otherwise. */
  function AccountIdClaim(claims: seq<Claim>): NullableString {
    var named := FindFirst(claims, NameIdentifierClaim);
    if named.Some? then named else FindFirst(claims, "sub")
  }

  /** `GetAccountIdFromToken`: the claim must be present, non-empty and a
      Guid. */
  function GetAccountIdFromToken(claims: seq<Claim>): (r: Outcome<Guid>)
    ensures r.Returns? <==> AccountIdClaim(claims).Some? && TryParse(AccountIdClaim(claims).value).Some?
    ensures r.Returns? ==> Some(r.value) == TryParse(AccountIdClaim(claims).value)
    ensures r.Throws? ==> r.exception == UnauthorizedAccessException(InvalidTokenMessage)
  {
    var claim := AccountIdClaim(claims);
    if IsNullOrEmpty(claim) || TryParse(claim.value).None? then Throws(UnauthorizedAccessException(InvalidTokenMessage))
    else Returns(TryParse(claim.value).value)
  }

  /** `Request.Headers.Authorization.ToString()`: no value gives "", several
      are joined with commas. */
  function AuthorizationHeader(values: seq<string>): string {
    Join(",", values)
  }

  /** `GetAuthorizationToken`: the header must start with "Bearer "; the
      token is the header with every "Bearer " removed, then trimmed. */
  function GetAuthorizationToken(values: seq<string>): (r: Outcome<string>)
    ensures r.Returns? <==> StartsWith(AuthorizationHeader(values), "Bearer ")
    ensures r.Throws? ==> r.exception == UnauthorizedAccessException(MissingTokenMessage)
    ensures r.Returns? ==> |r.value| <= |AuthorizationHeader(values)| - 7
  {
    var header := AuthorizationHeader(values);
    if header == "" || !StartsWith(header, "Bearer ") then Throws(UnauthorizedAccessException(MissingTokenMessage))
    else
      assert header == "Bearer " + header[7..];
      BearerPrefixRemoved(header[7..]);
      Returns(Trim(ReplaceAll(header, "Bearer ", "")))
  }

  lemma BearerPrefixRemoved(rest: string)
    ensures ReplaceAll("Bearer " + rest, "Bearer ", "") == ReplaceAll(rest, "Bearer ", "")
  {
    var s := "Bearer " + rest;
    assert s[..7] == "Bearer " && s[7..] == rest;
  }

  /** A token with no space in it and no white space at its ends, sent as
      "Bearer {token}", is read back as it was sent. */
  lemma BearerRoundTrip(token: string)
    requires ' ' !in token && (token == [] || (!IsWhiteSpace(token[0]) && !IsWhiteSpace(token[|token| - 1])))
    ensures GetAuthorizationToken(["Bearer " + token]) == Returns(token)
  {
    var header := "Bearer " + token;
    assert AuthorizationHeader([header]) == header;
    assert StartsWith(header, "Bearer ");
    BearerPrefixRemoved(token);
    assert ' ' in "Bearer ";
    ReplaceAllAbsent(token, "Bearer ", "", ' ');
    TrimUnchanged(token);
  }

  /** Every "Bearer " in the header is removed, not only the scheme: a
      header "Bearer " followed by parts without spaces joined by "Bearer "
      gives the parts run together, trimmed. */
  lemma BearerEveryOccurrenceRemoved(parts: seq<string>)
    requires forall i :: 0 <= i < |parts| ==> ' ' !in parts[i]
    ensures GetAuthorizationToken(["Bearer " + Join("Bearer ", parts)]) == Returns(Trim(Concat(parts)))
  {
    var rest := Join("Bearer ", parts);
    assert ReplaceAll("Bearer " + rest, "Bearer ", "") == Concat(parts) by {
      BearerEndsOnlyAtLast();
      ReplaceAllPrefixedJoin("Bearer ", parts);
    }
    BearerHeaderToken(rest);
  }

  /** The scheme's closing space occurs in "Bearer " only at its end. */
  lemma BearerEndsOnlyAtLast()
    ensures EndsOnlyAtLast("Bearer ") && "Bearer "[6] == ' '
  {
    var p := "Bearer ";
    assert p[..6] == "Bearer";
    assert forall i :: 0 <= i < 6 ==> p[..6][i] != ' ';
  }

  /** A single header value starting with "Bearer " gives the header with
      every "Bearer " removed, trimmed. */
  lemma BearerHeaderToken(rest: string)
    ensures GetAuthorizationToken(["Bearer " + rest]) == Returns(Trim(ReplaceAll("Bearer " + rest, "Bearer ", "")))
  {
    var header := "Bearer " + rest;
    assert AuthorizationHeader([header]) == header;
    assert header[..7] == "Bearer ";
  }

  /** The scheme is matched with its case: "bearer" is refused. */
  lemma LowerCaseSchemeRefused(token: string)
    ensures GetAuthorizationToken(["bearer " + token]) == Throws(UnauthorizedAccessException(MissingTokenMessage))
  {
    assert AuthorizationHeader(["bearer " + token]) == "bearer " + token;
    assert ("bearer " + token)[0] == 'b';
  }

  /** The command: request id, destination and value from the body, the
      origin from the claims and the token from the header. */
  function ToCommand(request: CreateTransferRequest, origin: Guid, token: string): CreateTransferCommand {
    CreateTransferCommand(request.requestId, request.destinationAccountNumber, request.value, origin, Some(token))
  }

  /** What `CreateTransfer` does before `_mediator.Send`: the command it
      sends, or the exception that stops it first. The claim is checked
      before the header. */
  function Dispatch(request: CreateTransferRequest, claims: seq<Claim>, authorization: seq<string>): (r: Outcome<CreateTransferCommand>)
    ensures r.Returns? <==> GetAccountIdFromToken(claims).Returns? && GetAuthorizationToken(authorization).Returns?
    ensures GetAccountIdFromToken(claims).Throws? ==> r == Throws(UnauthorizedAccessException(InvalidTokenMessage))
    ensures GetAccountIdFromToken(claims).Returns? && GetAuthorizationToken(authorization).Throws? ==>
      r == Throws(UnauthorizedAccessException(MissingTokenMessage))
    ensures r.Returns? ==>
      && r.value.requestId == request.requestId && r.value.destinationAccountNumber == request.destinationAccountNumber
      && r.value.value == request.value
      && r.value.originAccountId == GetAccountIdFromToken(claims).value
      && r.value.authorizationToken == Some(GetAuthorizationToken(authorization).value)
  {
    var origin := GetAccountIdFromToken(claims);
    if origin.Throws? then Throws(origin.exception)
    else
      var token := GetAuthorizationToken(authorization);
      if token.Throws? then Throws(token.exception)
      else Returns(ToCommand(request, origin.value, token.value))
  }

  /** What the client receives. */
  datatype Response = NoContent | Failure(reply: ErrorReply)

  function StatusCode(r: Response): int {
    match r
    case NoContent => 204
    case Failure(reply) => reply.statusCode
  }

  /** `CreateTransfer` behind the middleware, with `handled` what
      `_mediator.Send` of the dispatched command ends in. */
  function CreateTransfer(request: CreateTransferRequest, claims: seq<Claim>, authorization: seq<string>,
                          handled: Outcome<()>): (r: Response)
    ensures r == NoContent <==> Dispatch(request, claims, authorization).Returns? && handled.Returns?
    ensures StatusCode(r) == 204 <==> r == NoContent
    ensures Dispatch(request, claims, authorization).Throws? ==> StatusCode(r) == Forbidden
    ensures Dispatch(request, claims, authorization).Throws? ==>
      r == Failure(ErrorReply(Forbidden, Dispatch(request, claims, authorization).exception.message, "UNAUTHORIZED"))
    ensures Dispatch(request, claims, authorization).Returns? && handled.Throws? ==>
      r == Failure(HandleException(handled.exception))
  {
    var dispatched := Dispatch(request, claims, authorization);
    if dispatched.Throws? then Failure(HandleException(dispatched.exception))
    else if handled.Throws? then Failure(HandleException(handled.exception))
    else NoContent
  }

  /** The origin cannot be chosen by the body: two requests that differ
      only in their body send commands with the same origin and token. */
  lemma OriginOnlyFromClaims(r1: CreateTransferRequest, r2: CreateTransferRequest, claims: seq<Claim>, authorization: seq<string>)
    requires Dispatch(r1, claims, authorization).Returns?
    ensures Dispatch(r2, claims, authorization).Returns?
    ensures Dispatch(r1, claims, authorization).value.originAccountId == Dispatch(r2, claims, authorization).value.originAccountId
    ensures Dispatch(r1, claims, authorization).value.authorizationToken == Dispatch(r2, claims, authorization).value.authorizationToken
  {
  }

  /** A "sub" claim is read only when there is no name identifier claim:
      an unparseable name identifier is refused even beside a good "sub". */
  lemma NameIdentifierWins(claims: seq<Claim>, sub: Guid)
    requires |claims| == 2 && claims[0] == Claim(NameIdentifierClaim, "") && claims[1] == Claim("sub", ToText(sub))
    ensures GetAccountIdFromToken(claims) == Throws(UnauthorizedAccessException(InvalidTokenMessage))
  {
    assert EqualsIgnoreCase(claims[0].claimType, NameIdentifierClaim);
    assert FirstOfType(claims, NameIdentifierClaim) == Some(0);
  }

  /** With no name identifier claim, a "sub" claim holding a Guid's text
      gives that Guid. */
  lemma SubClaimFallback(sub: Guid)
    ensures GetAccountIdFromToken([Claim("sub", ToText(sub))]) == Returns(sub)
  {
    var claims := [Claim("sub", ToText(sub))];
    assert |NameIdentifierClaim| != 3;
    assert FindFirst(claims, NameIdentifierClaim) == None;
    assert EqualsIgnoreCase("sub", "sub");
    assert FindFirst(claims, "sub") == Some(ToText(sub));
    var claim := AccountIdClaim(claims);
    assert claim == Some(ToText(sub));
    assert !IsNullOrEmpty(claim);
    ParseToText(sub);
    assert TryParse(claim.value) == Some(sub);
  }
}
