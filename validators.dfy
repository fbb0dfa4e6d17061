/** The two FluentValidation validators. Each runs five rules, one per
    command field, in declaration order and keeps going after a failure, so
    the errors are those of the failing rules in rule order. `NotEmpty` on a
    string rejects null, "" and white space only; on a Guid it rejects
    `Guid.Empty`. */
module Validators {

  import opened Primitives
  import opened Text
  import opened Guids
  import opened Exceptions
  import opened Commands

  const RequestIdRequired := "RequestId é obrigatório"
  const DestinationRequired := "Número da conta de destino é obrigatório"
  const ValueNotPositive := "O valor deve ser maior que zero"
  const OriginRequired := "Conta de origem é obrigatória"
  const TokenRequired := "Token de autorização é obrigatório"

  /** FluentValidation's `NotEmpty()` on a string. */
  predicate NotEmptyText(s: NullableString) {
    !IsNullOrWhiteSpace(s)
  }

  /** FluentValidation's `NotEmpty()` on a Guid. */
  predicate NotEmptyGuid(g: Guid) {
    g != Empty
  }

  /** The property names a validator reports, in rule order. */
  datatype FieldNames = FieldNames(requestId: string, destination: string, value: string, origin: string, token: string)

  const CreateTransferFields := FieldNames("RequestId", "DestinationAccountNumber", "Value", "OriginAccountId", "AuthorizationToken")
  const CriarTransferenciaFields := FieldNames("RequestId", "NumeroContaDestino", "Valor", "IdContaOrigem", "TokenAutorizacao")

  /** One rule: no error when it holds, its failure otherwise. */
  function Rule(holds: bool, property: string, message: string): seq<ValidationFailure> {
    if holds then [] else [ValidationFailure(property, message)]
  }

  /** The five rules shared by both validators; each message is reported
      exactly when its rule fails, and the command is valid exactly when
      all five rules hold. */
  function ValidateFields(names: FieldNames, requestId: NullableString, destination: NullableString,
                          value: Decimal, origin: Guid, token: NullableString): (errors: seq<ValidationFailure>)
    ensures |errors| <= 5
    ensures errors == [] <==>
      NotEmptyText(requestId) && NotEmptyText(destination) && value > 0.0 && NotEmptyGuid(origin) && NotEmptyText(token)
    ensures ValidationFailure(names.requestId, RequestIdRequired) in errors <==> !NotEmptyText(requestId)
    ensures ValidationFailure(names.destination, DestinationRequired) in errors <==> !NotEmptyText(destination)
    ensures ValidationFailure(names.value, ValueNotPositive) in errors <==> value <= 0.0
    ensures ValidationFailure(names.origin, OriginRequired) in errors <==> !NotEmptyGuid(origin)
    ensures ValidationFailure(names.token, TokenRequired) in errors <==> !NotEmptyText(token)
  {
    Rule(NotEmptyText(requestId), names.requestId, RequestIdRequired)
    + Rule(NotEmptyText(destination), names.destination, DestinationRequired)
    + Rule(value > 0.0, names.value, ValueNotPositive)
    + Rule(NotEmptyGuid(origin), names.origin, OriginRequired)
    + Rule(NotEmptyText(token), names.token, TokenRequired)
  }

  /** `CreateTransferCommandValidator`. */
  function ValidateCreateTransfer(c: CreateTransferCommand): (errors: seq<ValidationFailure>)
    ensures errors == [] <==>
      NotEmptyText(c.requestId) && NotEmptyText(c.destinationAccountNumber) && c.value > 0.0
      && c.originAccountId != Empty && NotEmptyText(c.authorizationToken)
    ensures ValidationFailure("RequestId", RequestIdRequired) in errors <==> !NotEmptyText(c.requestId)
    ensures ValidationFailure("DestinationAccountNumber", DestinationRequired) in errors <==> !NotEmptyText(c.destinationAccountNumber)
    ensures ValidationFailure("Value", ValueNotPositive) in errors <==> c.value <= 0.0
    ensures ValidationFailure("OriginAccountId", OriginRequired) in errors <==> c.originAccountId == Empty
    ensures ValidationFailure("AuthorizationToken", TokenRequired) in errors <==> !NotEmptyText(c.authorizationToken)
  {
    ValidateFields(CreateTransferFields, c.requestId, c.destinationAccountNumber, c.value, c.originAccountId, c.authorizationToken)
  }

  /** `CriarTransferenciaCommandValidator`: the same rules under the
      Portuguese property names. */
  function ValidateCriarTransferencia(c: CriarTransferenciaCommand): (errors: seq<ValidationFailure>)
    ensures errors == [] <==>
      NotEmptyText(c.requestId) && NotEmptyText(c.numeroContaDestino) && c.valor > 0.0
      && c.idContaOrigem != Empty && NotEmptyText(c.tokenAutorizacao)
    ensures ValidationFailure("RequestId", RequestIdRequired) in errors <==> !NotEmptyText(c.requestId)
    ensures ValidationFailure("NumeroContaDestino", DestinationRequired) in errors <==> !NotEmptyText(c.numeroContaDestino)
    ensures ValidationFailure("Valor", ValueNotPositive) in errors <==> c.valor <= 0.0
    ensures ValidationFailure("IdContaOrigem", OriginRequired) in errors <==> c.idContaOrigem == Empty
    ensures ValidationFailure("TokenAutorizacao", TokenRequired) in errors <==> !NotEmptyText(c.tokenAutorizacao)
  {
    ValidateFields(CriarTransferenciaFields, c.requestId, c.numeroContaDestino, c.valor, c.idContaOrigem, c.tokenAutorizacao)
  }

  /** A value of zero is rejected: the rule is strictly greater than zero.
      With every other field valid it is the only failure reported, under
      the property "Value". */
  lemma ZeroValueRejected(c: CreateTransferCommand)
    requires c.value == 0.0
    ensures ValidationFailure("Value", ValueNotPositive) in ValidateCreateTransfer(c)
    ensures NotEmptyText(c.requestId) && NotEmptyText(c.destinationAccountNumber)
            && c.originAccountId != Empty && NotEmptyText(c.authorizationToken)
            ==> ValidateCreateTransfer(c) == [ValidationFailure("Value", ValueNotPositive)]
  {
  }

  /** A request id of blanks only is as empty as a missing one. With every
      other field valid it is the only failure reported, under the property
      "RequestId". */
  lemma BlankRequestIdRejected(c: CreateTransferCommand)
    requires c.requestId == Some("   ")
    ensures ValidationFailure("RequestId", RequestIdRequired) in ValidateCreateTransfer(c)
    ensures NotEmptyText(c.destinationAccountNumber) && c.value > 0.0
            && c.originAccountId != Empty && NotEmptyText(c.authorizationToken)
            ==> ValidateCreateTransfer(c) == [ValidationFailure("RequestId", RequestIdRequired)]
  {
    assert IsWhiteSpace(' ');
  }
}
