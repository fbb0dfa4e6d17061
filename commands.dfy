/** The records that flow into the two sagas and out to the ledger service:
    the commands, the controller's request body, the movement requests and
    the ledger's error body. Reference-typed fields may be null. */
module Commands {

  import opened Primitives
  import opened Guids

  datatype CreateTransferCommand = CreateTransferCommand(
    requestId: NullableString,
    destinationAccountNumber: NullableString,
    value: Decimal,
    originAccountId: Guid,
    authorizationToken: NullableString)

  datatype CriarTransferenciaCommand = CriarTransferenciaCommand(
    requestId: NullableString,
    numeroContaDestino: NullableString,
    valor: Decimal,
    idContaOrigem: Guid,
    tokenAutorizacao: NullableString)

  /** The controller's request body; it has no origin field. */
  datatype CreateTransferRequest = CreateTransferRequest(
    requestId: NullableString,
    destinationAccountNumber: NullableString,
    value: Decimal)

  /** One movement sent to the ledger service: `CreateMovementRequest` or
      `CriarMovimentoRequest`. The account reference is kept abstract (an
      account number in one, an account id in the other); `kind` is "D" for
      a debit and "C" for a credit. */
  datatype MovementRequest = MovementRequest(
    requestId: NullableString,
    accountRef: NullableString,
    value: Decimal,
    kind: string)

  /** The ledger service's error body, `ErrorResponse` / `ErroResponse`. */
  datatype ErrorResponse = ErrorResponse(message: string, failureType: string)
}
