# BankMore Transfer Service: the transfer saga

BankMore's Transfer Service moves money between two current accounts. It does
not hold balances. It asks the account ledger (the "Account Service") to debit
the origin and then to credit the destination. If a leg fails after the debit,
it sends the origin a compensating credit. Each request is keyed by the
caller's request id, so that a request sent twice moves money only once.

The service carries the saga twice:

- **The English saga.** `CreateTransferCommandHandler` drives it. It stores a
  `Transfer` record with a status (`Success`, `Failed`, `Compensated`,
  `CompensationFailed`) in the `transfers` table. A later request under the
  same origin and request id replays that stored outcome.
- **The Portuguese saga.** `CriarTransferenciaCommandHandler` drives it. It
  stores a `Transferencia` row on success only. It reads an `idempotencia`
  table to recognise repeated requests.

Both sagas do the same things:

- They call the ledger through an HTTP client (`AccountServiceClient` or
  `ContaCorrenteServiceClient`). The client turns every non-success answer
  into a typed failure with a `FailureType`.
- They compensate with up to three attempts, waiting 1000 ms and then 2000 ms
  between attempts.
- They throw a critical "compensation failed" exception when all three
  attempts fail.

In front of the English saga sits `TransfersController.CreateTransfer`, which
builds and sends a `CreateTransferCommand` (TransfersController.cs:45-53).
Nothing in the repository sends a `CriarTransferenciaCommand`, so the
Portuguese handler has no caller there:

- It takes the origin account from the caller's claims and the bearer token
  from the `Authorization` header.
- `ExceptionHandlerMiddleware` turns any exception that escapes into a status
  code and a `{ message, failureType }` body.

The model takes each part in the form the code has:

- **Values.** Commands, exceptions, value objects, rows and replies are
  datatypes. Validators, the client's branch logic and the middleware
  `switch` are functions.
- **Objects that change state.** The `Transfer` entity, the two
  repositories, the ledger, the HTTP client's default headers and the two
  handlers are classes with `modifies` clauses.
- **How each handler is proved.** Each method is proved against a pure
  function of the inputs and of the collaborators' scripted answers:
  `CreateSaga` for the English handler and `CriarSaga` for the Portuguese one.
  The saga properties are lemmas about those functions.
- **Collaborators the core cannot see.** The ledger's answers and the
  database's write failures are a `Script`: the i-th call's exception, or
  success.
- **Inputs.** `Guid.NewGuid()`, `DateTime.UtcNow` and `DateTime.Now` become
  inputs of the operations that read them.
- **Waits.** Each `Task.Delay` becomes an entry in a record of the waits
  requested.

## Model

| member | source | states |
|---|---|---|
| Guids.TryParse | src/BankMore.TransferService/Controllers/TransfersController.cs:63 | `Guid.TryParse` in the "D" format: succeeds exactly when the trimmed text has the 8-4-4-4-12 hex shape, and then gives that text ignoring case |
| Guids.ParseToText | src/BankMore.TransferService/Infrastructure/Repositories/TransferRepository.cs:82 | a Guid printed with `ToString()` parses back to the same Guid |
| Text.ReplaceAllKeepsCharacters | src/BankMore.TransferService/Controllers/TransfersController.cs:79 | `string.Replace` introduces no character that is in neither the text nor the replacement |
| Text.ReplaceAllJoin | src/BankMore.TransferService/Controllers/TransfersController.cs:79 | removing every occurrence of a separator, whose last character occurs only at its end, from parts that lack that character gives the parts run together |
| Exceptions.NewTransferException | src/BankMore.TransferService/Domain/Exceptions/TransferException.cs:7-16 | the exception keeps the message, failure type and inner exception it was given; it is a `TransferException`, not the critical subtype, and not a `TransferenciaException` |
| Exceptions.NewTransferenciaException | src/BankMore.TransferService/Domain/Exceptions/TransferenciaException.cs:7-16 | the same for the Portuguese class |
| Exceptions.NewCompensationFailedException | src/BankMore.TransferService/Domain/Exceptions/CompensationFailedException.cs:5-13 | the critical exception is a `TransferException` whose failure type is always "COMPENSATION_ERROR"; it keeps its message and inner exception |
| Exceptions.NewCompensacaoFalhaException | src/BankMore.TransferService/Domain/Exceptions/CompensacaoFalhaException.cs:5-13 | the same for the Portuguese critical exception, which is a `TransferenciaException` |
| ValueObjects.NewMoney | src/BankMore.TransferService/Domain/ValueObjects/Money.cs:7-13 | a `Money` is built exactly when the amount is positive, and holds that amount; otherwise `ArgumentException` with the fixed message and parameter "value" |
| ValueObjects.MoneyToDecimal | src/BankMore.TransferService/Domain/ValueObjects/Money.cs:15 | the decimal read out of a `Money` is always positive |
| ValueObjects.MoneyRoundTrip | src/BankMore.TransferService/Domain/ValueObjects/Money.cs:15-16 | a positive decimal converted to `Money` and back is unchanged |
| ValueObjects.MoneyFromDecimalRoundTrip | src/BankMore.TransferService/Domain/ValueObjects/Money.cs:15-16 | a `Money` converted to decimal and back is the same record |
| ValueObjects.NewValorMonetario | src/BankMore.TransferService/Domain/ValueObjects/ValorMonetario.cs:7-13 | as `NewMoney`, with parameter name "valor" |
| ValueObjects.ValorToDecimal | src/BankMore.TransferService/Domain/ValueObjects/ValorMonetario.cs:15 | the decimal read out is always positive |
| ValueObjects.ValorRoundTrip | src/BankMore.TransferService/Domain/ValueObjects/ValorMonetario.cs:15-16 | decimal to `ValorMonetario` to decimal is the identity on positive amounts |
| ValueObjects.ValorFromDecimalRoundTrip | src/BankMore.TransferService/Domain/ValueObjects/ValorMonetario.cs:15-16 | `ValorMonetario` to decimal to `ValorMonetario` is the identity |
| Validators.ValidateFields | src/BankMore.TransferService/Application/Commands/CreateTransferCommandValidator.cs:9-27 | at most five errors; no error exactly when all five rules hold; each rule's message is reported exactly when its rule fails |
| Validators.ValidateCreateTransfer | src/BankMore.TransferService/Application/Commands/CreateTransferCommandValidator.cs:9-27 | the English command is valid exactly when request id, destination and token are non-blank, the value is above zero and the origin is not `Guid.Empty`; each property's error appears exactly when its rule fails |
| Validators.ValidateCriarTransferencia | src/BankMore.TransferService/Application/Commands/CriarTransferenciaCommandValidator.cs:9-27 | the same rules over the Portuguese property names |
| Validators.ZeroValueRejected | src/BankMore.TransferService/Application/Commands/CreateTransferCommandValidator.cs:17-19 | a value of exactly zero is rejected; with the other four fields valid the only failure is "Value" with the not-positive message |
| Validators.BlankRequestIdRejected | src/BankMore.TransferService/Application/Commands/CreateTransferCommandValidator.cs:9-11 | a request id of blanks only is rejected like a missing one; with the other four fields valid the only failure is "RequestId" with the required message |
| TransferEntity.MarkedKeepsIdentity | src/BankMore.TransferService/Domain/Entities/Transfer.cs:36-58 | marking never changes id, request id, accounts, value or creation time, and a second mark overwrites every field the first one set |
| TransferEntity.Transfer.constructor | src/BankMore.TransferService/Domain/Entities/Transfer.cs:20-34 | a new transfer has status `Success`, no error fields, and both timestamps set from the one clock reading passed in (two readings in the source; see Left out) |
| TransferEntity.Transfer.New | src/BankMore.TransferService/Domain/Entities/Transfer.cs:27 | construction throws `ArgumentNullException("requestId")` exactly when the request id is null; otherwise it gives a fresh object in the created state |
| TransferEntity.Transfer.MarkAsFailed | src/BankMore.TransferService/Domain/Entities/Transfer.cs:36-42 | the new state is the old one with status `Failed`, the given error fields and `UpdatedAt` set to the clock |
| TransferEntity.Transfer.MarkAsCompensated | src/BankMore.TransferService/Domain/Entities/Transfer.cs:44-50 | the same with status `Compensated` |
| TransferEntity.Transfer.MarkAsCompensationFailed | src/BankMore.TransferService/Domain/Entities/Transfer.cs:52-58 | the same with status `CompensationFailed` and the error type fixed to "COMPENSATION_ERROR" |
| TransferenciaEntity.FormatDate | src/BankMore.TransferService/Domain/Entities/Transferencia.cs:22 | "dd/MM/yyyy" with a fixed "/" and the Gregorian calendar (see Left out) is ten characters with slashes at positions 2 and 5 |
| TransferenciaEntity.ParseFormatDate | src/BankMore.TransferService/Domain/Entities/Transferencia.cs:22 | the printed movement date reads back as the same calendar date |
| TransferenciaEntity.NewTransferencia | src/BankMore.TransferService/Domain/Entities/Transferencia.cs:13-23 | the new row has the fresh id, the given accounts and value, and a movement date that reads back as today |
| LedgerClient.AccountServiceFailure | src/BankMore.TransferService/Infrastructure/ExternalServices/AccountServiceClient.cs:29-81 | no exception exactly on a 2xx answer; 403 gives UNAUTHORIZED; a 400 whose body parses gives the body's message and type; every other answer gives ACCOUNT_SERVICE_ERROR with the status name (the number for the codes with two names); a transport failure gives ACCOUNT_SERVICE_UNAVAILABLE and a timeout gives ACCOUNT_SERVICE_TIMEOUT, each wrapping its cause; every exception is a plain `TransferException` |
| LedgerClient.ContaCorrenteFailure | src/BankMore.TransferService/Infrastructure/ExternalServices/ContaCorrenteServiceClient.cs:29-81 | the same branches, throwing `TransferenciaException` |
| LedgerClient.ClientFailuresAreOrdinary | src/BankMore.TransferService/Infrastructure/ExternalServices/AccountServiceClient.cs:42-80 | a client never throws the critical exception; its failure type is one of the four it chooses, unless it was copied from a parsed 400 body |
| LedgerClient.ForbiddenIgnoresBody | src/BankMore.TransferService/Infrastructure/ExternalServices/AccountServiceClient.cs:42-48 | the 403 test comes first: a forbidden answer gives the same exception whatever its body |
| LedgerClient.UnreadableBodyIsGeneric | src/BankMore.TransferService/Infrastructure/ExternalServices/AccountServiceClient.cs:48-70 | a 400 whose body is `null` and one whose body does not parse both fall through to the same generic failure |
| LedgerClient.MovementClient.CreateMovement | src/BankMore.TransferService/Infrastructure/ExternalServices/AccountServiceClient.cs:21-24 | after a call the client's default headers are exactly one `Authorization: Bearer {token}` header, and the failure is the family's classification of the exchange |
| Ledger.LedgerService.CreateMovement | src/BankMore.TransferService/Application/Interfaces/IAccountServiceClient.cs:7 | a movement call answers the next scripted answer, consumes it and appends the call with its token to the record of calls |
| Ledger.AccountServiceScript | src/BankMore.TransferService/Infrastructure/ExternalServices/AccountServiceClient.cs:21-82 | the answers of a ledger reached through the English client are, call by call, the client's classification of each exchange |
| Ledger.ContaCorrenteScript | src/BankMore.TransferService/Infrastructure/ExternalServices/ContaCorrenteServiceClient.cs:21-82 | the same through the Portuguese client |
| Ledger.AccountServiceScriptOrdinary | src/BankMore.TransferService/Application/Commands/CreateTransferCommandHandler.cs:78 | every answer of a real English client is a `TransferException` other than the critical one, so it is always caught by the handler's first `catch` |
| Ledger.ContaCorrenteScriptOrdinary | src/BankMore.TransferService/Application/Commands/CriarTransferenciaCommandHandler.cs:66 | every answer of a real Portuguese client is a typed `TransferenciaException` other than the critical one |
| CompensationPolicy.Attempts | src/BankMore.TransferService/Application/Commands/CreateTransferCommandHandler.cs:135-171 | the loop makes between one and three attempts; every attempt but the last failed, and the last succeeded unless it was the third |
| CompensationPolicy.LastFailure | src/BankMore.TransferService/Application/Commands/CreateTransferCommandHandler.cs:158-168 | there is a last failure exactly when all three attempts failed, and it is the third attempt's exception |
| CompensationPolicy.Delays | src/BankMore.TransferService/Application/Commands/CreateTransferCommandHandler.cs:158-161 | one wait follows each failed attempt but the last; the i-th wait is the i-th backoff delay |
| CompensationPolicy.DelaysBounded | src/BankMore.TransferService/Application/Commands/CreateTransferCommandHandler.cs:133 | only 1000 ms and 2000 ms are ever waited; the 4000 ms entry is never used |
| TransferRepository.RowRoundTrip | src/BankMore.TransferService/Infrastructure/Repositories/TransferRepository.cs:48-91 | the row `CreateAsync` binds reads back through `ToEntity` as the same transfer |
| TransferRepository.ToEntityOf | src/BankMore.TransferService/Infrastructure/Repositories/TransferRepository.cs:78-94 | a row whose id, account ids and status parse reads back with those values and the other columns copied |
| TransferRepository.StatusRoundTrip | src/BankMore.TransferService/Infrastructure/Repositories/TransferRepository.cs:55-87 | a status stored by its enum name parses back to the same status |
| TransferRepository.FirstMatch | src/BankMore.TransferService/Infrastructure/Repositories/TransferRepository.cs:22-27 | no position exactly when no row has both the origin and the request id; otherwise the first row that has them |
| TransferRepository.AppendFreshKey | src/BankMore.TransferService/Infrastructure/Repositories/TransferRepository.cs:42-60 | inserting a transfer whose key no row has keeps the (origin, request id) pairs unique |
| TransferRepository.Lookup | src/BankMore.TransferService/Infrastructure/Repositories/TransferRepository.cs:18-36 | null exactly when no row matches, where a null request id matches nothing; a found transfer has the asked origin and request id |
| TransferRepository.LookupAfterInsert | src/BankMore.TransferService/Infrastructure/Repositories/TransferRepository.cs:38-63 | after a transfer is inserted under a fresh key, the lookup returns exactly that transfer |
| TransferRepository.TransferRepository.GetByOriginAndRequestId | src/BankMore.TransferService/Infrastructure/Repositories/TransferRepository.cs:18-36 | null exactly when no row matches both the origin and the request id; otherwise the entity read from the first matching row |
| TransferRepository.TransferRepository.CreateAsync | src/BankMore.TransferService/Infrastructure/Repositories/TransferRepository.cs:38-63 | on success the transfer's row is appended and its id returned; on a database failure the table is unchanged and the exception escapes |
| TransferenciaRepository.IdempotencyKey | src/BankMore.TransferService/Infrastructure/Repositories/TransferenciaRepository.cs:22 | the key is 37 characters plus the request id's length, with a null request id printing as empty |
| TransferenciaRepository.KeyInjective | src/BankMore.TransferService/Infrastructure/Repositories/TransferenciaRepository.cs:22 | equal keys mean the same origin and the same printed request id |
| TransferenciaRepository.NullAndEmptyShareKey | src/BankMore.TransferService/Infrastructure/Repositories/TransferenciaRepository.cs:22 | a null request id and an empty one share a key |
| TransferenciaRepository.FirstWithKey | src/BankMore.TransferService/Infrastructure/Repositories/TransferenciaRepository.cs:23-25 | no position exactly when no row has the key; otherwise the first row that has it |
| TransferenciaRepository.Lookup | src/BankMore.TransferService/Infrastructure/Repositories/TransferenciaRepository.cs:17-35 | a hit exactly when the first row with the key has a non-null result; a hit returns the blank placeholder entity |
| TransferenciaRepository.LookupAfterSave | src/BankMore.TransferService/Infrastructure/Repositories/TransferenciaRepository.cs:58-73 | after a result is saved under a new key, the lookup hits |
| TransferenciaRepository.LaterRowsIgnored | src/BankMore.TransferService/Infrastructure/Repositories/TransferenciaRepository.cs:23-25 | rows saved later under a key that already has a row do not change the lookup |
| TransferenciaRepository.TransferenciaRepository.GetByOriginAndRequestId | src/BankMore.TransferService/Infrastructure/Repositories/TransferenciaRepository.cs:17-35 | a hit exactly when the first `idempotencia` row under the key "{origin}:{requestId}" has a non-null result, and then the blank placeholder entity |
| TransferenciaRepository.TransferenciaRepository.CreateAsync | src/BankMore.TransferService/Infrastructure/Repositories/TransferenciaRepository.cs:37-56 | writes only the `transferencia` table: on success the row is appended and the id returned, on failure nothing changes; `idempotencia` is never touched |
| TransferenciaRepository.TransferenciaRepository.SaveIdempotenciaAsync | src/BankMore.TransferService/Infrastructure/Repositories/TransferenciaRepository.cs:58-73 | on success appends the row under the command's key, on failure nothing changes; `transferencia` is never touched |
| CreateTransferHandler.Replay | src/BankMore.TransferService/Application/Commands/CreateTransferCommandHandler.cs:40-52 | a stored record replays as success exactly when its status is `Success`; `Failed` and `Compensated` rethrow the stored message and type (with the fixed defaults when null); `CompensationFailed` rethrows the critical exception |
| CreateTransferHandler.Critical | src/BankMore.TransferService/Application/Commands/CreateTransferCommandHandler.cs:158-168 | the compensation throws exactly when all three attempts failed, and then throws the critical exception with type COMPENSATION_ERROR |
| CompensationPolicy.TryBlock | src/BankMore.TransferService/Application/Commands/CreateTransferCommandHandler.cs:62-77 | the debit always comes first; the credit is sent only if the debit succeeded; the insert runs, at most once, only if both legs succeeded; the block fails exactly when one of the three fails, with the first failing answer (the Portuguese `try` block, CriarTransferenciaCommandHandler.cs:50-65, is the same function of its own debit and credit) |
| CreateTransferHandler.CreateTransferCommandHandler.constructor | src/BankMore.TransferService/Application/Commands/CreateTransferCommandHandler.cs:16-25 | the handler holds the given repository and ledger and has requested no wait |
| CreateTransferHandler.CreateTransferCommandHandler.Compensate | src/BankMore.TransferService/Application/Commands/CreateTransferCommandHandler.cs:130-172 | the loop sends the compensating credit as many times as `Attempts` says and waits the `Delays`, and returns the critical exception exactly when every attempt failed |
| CreateTransferHandler.CreateTransferCommandHandler.RecoverTransferFailure | src/BankMore.TransferService/Application/Commands/CreateTransferCommandHandler.cs:78-98 | compensates, then either stores the transfer as `Compensated` and rethrows the failure, or lets the critical exception escape and stores nothing |
| CreateTransferHandler.CreateTransferCommandHandler.RecoverInternalError | src/BankMore.TransferService/Application/Commands/CreateTransferCommandHandler.cs:99-105 | stores the transfer as `Failed` with type INTERNAL_ERROR and throws a `TransferException` wrapping the original |
| CreateTransferHandler.CreateTransferCommandHandler.Recover | src/BankMore.TransferService/Application/Commands/CreateTransferCommandHandler.cs:78-105 | the two `catch` clauses, chosen by the exception's type |
| CreateTransferHandler.CreateTransferCommandHandler.Try | src/BankMore.TransferService/Application/Commands/CreateTransferCommandHandler.cs:62-77 | the calls made and rows written are those `TryBlock` gives for the ledger's and the store's answers |
| CreateTransferHandler.CreateTransferCommandHandler.Execute | src/BankMore.TransferService/Application/Commands/CreateTransferCommandHandler.cs:62-105 | the `try` block followed by the `catch` clauses changes the ledger, the table and the waits exactly as `Attempt` says |
| CreateTransferHandler.CreateTransferCommandHandler.Start | src/BankMore.TransferService/Application/Commands/CreateTransferCommandHandler.cs:56-60 | a null request id throws before any call; otherwise the new transfer goes through `Execute` |
| CreateTransferHandler.CreateTransferCommandHandler.Handle | src/BankMore.TransferService/Application/Commands/CreateTransferCommandHandler.cs:26-106 | a stored record is replayed and nothing changes; otherwise the outcome and the new state are those of the saga run `Fresh` describes |
| CreateTransferProperties.AfterFailureShape | src/BankMore.TransferService/Application/Commands/CreateTransferCommandHandler.cs:78-105 | the `catch` clauses issue only compensating credits, at most three, wait only 1000 or 2000 ms, store at most the new transfer as `Failed` or `Compensated`, and always end by throwing |
| CreateTransferProperties.CompensationIsNotCredit | src/BankMore.TransferService/Application/Commands/CreateTransferCommandHandler.cs:142-146 | the compensating credit differs from both the debit and the destination's credit |
| CreateTransferProperties.HappyPath | src/BankMore.TransferService/Application/Commands/CreateTransferCommandHandler.cs:62-77 | when every call succeeds: debit, then credit, one insert of the created transfer with status `Success`, and success |
| CreateTransferProperties.SuccessOnlyWhenAllSucceed | src/BankMore.TransferService/Application/Commands/CreateTransferCommandHandler.cs:26-106 | a call succeeds exactly when it replays a stored `Success`, or when it is new and the debit, the credit and the insert all succeed |
| CreateTransferProperties.MovementOrder | src/BankMore.TransferService/Application/Commands/CreateTransferCommandHandler.cs:62-105 | the debit is first; the destination's credit is only ever second and only after a successful debit; everything after the first two is a compensating credit; at most five movements |
| CreateTransferProperties.AtMostOneRecord | src/BankMore.TransferService/Application/Commands/CreateTransferCommandHandler.cs:74-104 | at most one record is stored per call: the new transfer under the command's keys, never as `CompensationFailed`, as `Success` exactly when the call succeeds, and none when the critical exception escapes |
| CreateTransferProperties.KeysStayUnique | src/BankMore.TransferService/Application/Commands/CreateTransferCommandHandler.cs:32-60 | a call keeps every row readable and never stores a second row under an origin and request id already present |
| CreateTransferProperties.ResubmissionIsReplayed | src/BankMore.TransferService/Application/Commands/CreateTransferCommandHandler.cs:32-53 | once a call stored a record, repeating the command issues no movement, stores nothing, and succeeds exactly when the first call did |
| CreateTransferProperties.CompensatedReplayMatches | src/BankMore.TransferService/Application/Commands/CreateTransferCommandHandler.cs:46-48 | a stored `Compensated` record replays the message and failure type of the failure that caused it |
| CreateTransferProperties.TypedFailureCompensates | src/BankMore.TransferService/Application/Commands/CreateTransferCommandHandler.cs:78-98 | after a successful debit a typed failure sends one to three compensating credits of the value; when all three fail the critical exception carries the third failure and nothing is stored; otherwise the transfer is stored as `Compensated` with the failure's message and type and the failure is rethrown, or the store's exception escapes |
| CreateTransferProperties.InternalErrorIsWrapped | src/BankMore.TransferService/Application/Commands/CreateTransferCommandHandler.cs:99-105 | any other exception, the critical one included, sends nothing, stores the transfer as `Failed` with type INTERNAL_ERROR and is wrapped as the inner exception of an INTERNAL_ERROR `TransferException`, or the store's exception escapes |
| CreateTransferProperties.DebitFailureCompensates | src/BankMore.TransferService/Application/Commands/CreateTransferCommandHandler.cs:84-93 | as written: when the debit itself fails, the origin is still sent a compensating credit of the full value |
| CreateTransferProperties.IntendedCreditsOnlyAfterDebit | src/BankMore.TransferService/Application/Commands/CreateTransferCommandHandler.cs:174-179 | as intended: every credit follows a successful debit, and a failed debit issues nothing more and is stored as `Failed` |
| CriarTransferenciaHandler.Critical | src/BankMore.TransferService/Application/Commands/CriarTransferenciaCommandHandler.cs:142-163 | the compensation throws exactly when all three attempts failed, and then throws the critical Portuguese exception |
| CriarTransferenciaHandler.CriarTransferenciaCommandHandler.constructor | src/BankMore.TransferService/Application/Commands/CriarTransferenciaCommandHandler.cs:16-25 | the handler holds the given repository and ledger and has requested no wait |
| CriarTransferenciaHandler.CriarTransferenciaCommandHandler.Compensate | src/BankMore.TransferService/Application/Commands/CriarTransferenciaCommandHandler.cs:114-166 | as the English loop: `Attempts` calls, `Delays` waits, and the critical exception exactly when every attempt failed |
| CriarTransferenciaHandler.CriarTransferenciaCommandHandler.Recover | src/BankMore.TransferService/Application/Commands/CriarTransferenciaCommandHandler.cs:66-89 | the two `catch` clauses, as `AfterFailure` says: typed failures are compensated and rethrown, anything else is wrapped as INTERNAL_ERROR; nothing is stored |
| CriarTransferenciaHandler.CriarTransferenciaCommandHandler.Try | src/BankMore.TransferService/Application/Commands/CriarTransferenciaCommandHandler.cs:50-65 | the calls made and rows written are those `TryBlock` gives |
| CriarTransferenciaHandler.CriarTransferenciaCommandHandler.Execute | src/BankMore.TransferService/Application/Commands/CriarTransferenciaCommandHandler.cs:50-89 | the `try` block and the `catch` clauses change the ledger, the tables and the waits exactly as `Attempt` says |
| CriarTransferenciaHandler.CriarTransferenciaCommandHandler.Handle | src/BankMore.TransferService/Application/Commands/CriarTransferenciaCommandHandler.cs:26-90 | a hit in the idempotency table returns success and changes nothing; otherwise the new transfer is built and the saga runs as `Attempt` says |
| CriarTransferenciaProperties.CompensationIsNotCredit | src/BankMore.TransferService/Application/Commands/CriarTransferenciaCommandHandler.cs:126-130 | the compensating credit differs from both the debit and the destination's credit |
| CriarTransferenciaProperties.AfterFailureShape | src/BankMore.TransferService/Application/Commands/CriarTransferenciaCommandHandler.cs:66-89 | the `catch` clauses issue only compensating credits, at most three, wait only 1000 or 2000 ms, store nothing and always throw |
| CriarTransferenciaProperties.HappyPath | src/BankMore.TransferService/Application/Commands/CriarTransferenciaCommandHandler.cs:45-64 | when every call succeeds: debit, credit, one stored transfer with the origin, value and today's date, and success |
| CriarTransferenciaProperties.SuccessOnlyWhenAllSucceed | src/BankMore.TransferService/Application/Commands/CriarTransferenciaCommandHandler.cs:26-90 | a call succeeds exactly when the lookup hit, or when the debit, the credit and the insert all succeed |
| CriarTransferenciaProperties.RecordOnlyOnSuccess | src/BankMore.TransferService/Application/Commands/CriarTransferenciaCommandHandler.cs:45-64 | a transfer is stored exactly when the call was new and succeeded; it is the one `Handle` built |
| CriarTransferenciaProperties.MovementOrder | src/BankMore.TransferService/Application/Commands/CriarTransferenciaCommandHandler.cs:50-80 | no movement on a hit; the debit is first; the destination's credit is only second and only after a successful debit; the rest are compensating credits; waits only 1000 or 2000 ms |
| CriarTransferenciaProperties.TypedFailureCompensates | src/BankMore.TransferService/Application/Commands/CriarTransferenciaCommandHandler.cs:66-80 | a typed failure sends one to three compensations; it is rethrown unchanged when one succeeded, and becomes the critical exception carrying the third failure when all failed |
| CriarTransferenciaProperties.OtherFailureIsWrapped | src/BankMore.TransferService/Application/Commands/CriarTransferenciaCommandHandler.cs:81-89 | any other exception, the critical one included, is wrapped as INTERNAL_ERROR without compensating |
| CriarTransferenciaProperties.ResubmissionIsReexecuted | src/BankMore.TransferService/Application/Commands/CriarTransferenciaCommandHandler.cs:35-43 | as written: sending the same command twice debits and credits twice and stores two transfers |
| CriarTransferenciaProperties.SavedAfter | src/BankMore.TransferService/Infrastructure/Repositories/TransferenciaRepository.cs:58-73 | the idempotency row a successful call would save: one row under the command's key with the result, and none when the call failed |
| CriarTransferenciaProperties.IntendedResubmissionIsReplayed | src/BankMore.TransferService/Application/Commands/CriarTransferenciaCommandHandler.cs:35-43 | as intended: once that row is saved after a success, the same command again issues nothing and succeeds |
| CriarTransferenciaProperties.DebitFailureCompensates | src/BankMore.TransferService/Application/Commands/CriarTransferenciaCommandHandler.cs:71-78 | as written: a failed debit is followed by a compensating credit of the full value |
| CriarTransferenciaProperties.IntendedCreditsOnlyAfterDebit | src/BankMore.TransferService/Application/Commands/CriarTransferenciaCommandHandler.cs:168-171 | as intended: every credit follows a successful debit, and a failed debit is rethrown with nothing more sent |
| ExceptionMiddleware.ErrorMessages | src/BankMore.TransferService/Middleware/ExceptionHandlerMiddleware.cs:41 | one message per validation failure, in order |
| ExceptionMiddleware.HandleException | src/BankMore.TransferService/Middleware/ExceptionHandlerMiddleware.cs:36-68 | validation failures give 400 with the joined messages; the critical Portuguese exception gives 500 with its own message; other Portuguese failures give 400 with theirs; a refused identity gives 403; everything else gives an anonymous 500 INTERNAL_ERROR |
| ExceptionMiddleware.CompensationErrorIsDistinct | src/BankMore.TransferService/Middleware/ExceptionHandlerMiddleware.cs:44-49 | a 500 with COMPENSATION_ERROR means exactly the critical Portuguese exception |
| ExceptionMiddleware.ServerErrorsHideDetails | src/BankMore.TransferService/Middleware/ExceptionHandlerMiddleware.cs:62-67 | apart from the critical Portuguese exception, a 500 never shows the exception's own message |
| ExceptionMiddleware.EnglishFailuresAreInternal | src/BankMore.TransferService/Middleware/ExceptionHandlerMiddleware.cs:62-67 | every English exception, the critical one included, reaches the default arm |
| ExceptionMiddleware.EnglishSagaFailuresAreInternal | src/BankMore.TransferService/Middleware/ExceptionHandlerMiddleware.cs:36-68 | whatever the ledger answers, a failed English saga run ends in the anonymous 500 |
| ExceptionMiddleware.CriarSagaFailuresAreTyped | src/BankMore.TransferService/Middleware/ExceptionHandlerMiddleware.cs:44-55 | a failed Portuguese saga run is answered with its own message and type: 500 for the critical exception, 400 otherwise |
| TransfersController.FirstOfType | src/BankMore.TransferService/Controllers/TransfersController.cs:60-61 | no claim exactly when none has the type (ignoring case); otherwise the first claim that has it |
| TransfersController.FindFirst | src/BankMore.TransferService/Controllers/TransfersController.cs:60-61 | the value of the first claim of the type, or null when there is none |
| TransfersController.GetAccountIdFromToken | src/BankMore.TransferService/Controllers/TransfersController.cs:58-69 | succeeds exactly when the name-identifier claim, or failing that the "sub" claim, is present and parses as a Guid, and returns that Guid; otherwise `UnauthorizedAccessException` with the invalid-token message |
| TransfersController.GetAuthorizationToken | src/BankMore.TransferService/Controllers/TransfersController.cs:71-80 | succeeds exactly when the header starts with "Bearer " (case matters); the token is shorter than the header by at least the prefix; otherwise the missing-token exception (the token's value is stated by BearerRoundTrip and BearerEveryOccurrenceRemoved) |
| TransfersController.BearerEveryOccurrenceRemoved | src/BankMore.TransferService/Controllers/TransfersController.cs:79 | every "Bearer " in the header is removed, not only the leading scheme: parts without spaces joined by "Bearer " come back run together |
| TransfersController.BearerRoundTrip | src/BankMore.TransferService/Controllers/TransfersController.cs:79 | a token with no space and no surrounding white space, sent as "Bearer {token}", is read back unchanged |
| TransfersController.LowerCaseSchemeRefused | src/BankMore.TransferService/Controllers/TransfersController.cs:74 | a header starting with "bearer " is refused |
| TransfersController.Dispatch | src/BankMore.TransferService/Controllers/TransfersController.cs:39-51 | the command is sent exactly when both identity checks pass, the claim check first; it carries the body's request id, destination and value, the claims' origin and the header's token; a valid claim with a bad header gives the missing-token exception |
| TransfersController.CreateTransfer | src/BankMore.TransferService/Controllers/TransfersController.cs:37-56 | the answer is 204 exactly when both checks pass and the handler succeeds; a failed identity check gives 403 with that exception's message and type UNAUTHORIZED; a handler failure gives the reply the exception middleware chooses for it |
| TransfersController.OriginOnlyFromClaims | src/BankMore.TransferService/Controllers/TransfersController.cs:45-51 | the body cannot choose the origin: two bodies with the same claims and header send the same origin and token |
| TransfersController.NameIdentifierWins | src/BankMore.TransferService/Controllers/TransfersController.cs:60-61 | an empty name-identifier claim is refused even when a valid "sub" claim follows it |
| TransfersController.SubClaimFallback | src/BankMore.TransferService/Controllers/TransfersController.cs:60-66 | with no name-identifier claim, a "sub" claim holding a Guid's text gives that Guid |

## Left out

- HTTP, JSON, SQL and logging are left out. The exchange with the ledger and the success or failure of each database write are inputs.
- Async execution is left out, and so is concurrency, including two requests racing on the same key. The handlers are sequential.
- The race on the shared `HttpClient`'s default headers is left out. `LedgerClient.MovementClient.CreateMovement` models one call at a time.
- Each `Task.Delay` is recorded as a requested wait in milliseconds. No time passes.
- `Guid.NewGuid()`, `DateTime.UtcNow` and `DateTime.Now` are parameters.
- Guids.TryParse: only the "D" text format is accepted. The other formats `Guid.TryParse` also reads (braces, parentheses, no hyphens, hex groups) are not modelled.
- TransfersController.FirstOfType: the claim types are compared ignoring ASCII case only. Full Unicode case folding is not modelled.
- TransfersController.GetAuthorizationToken: the header values are modelled as already joined with commas. `StartsWith("Bearer ")` is modelled as an ordinal comparison, but .NET compares with the current culture, which skips characters that collation ignores: "\u0001Bearer x" passes in .NET and is refused by the model. In the running service the two do not differ, because `[Authorize]` (TransfersController.cs:12) with the JwtBearer handler has already demanded a "Bearer " prefix, compared ordinally and ignoring case, and a valid JWT. Without both, the request is answered 401 before `CreateTransfer` runs. That authentication gate is not part of this model.
- TransferEntity.Transfer.constructor: one clock reading sets both `CreatedAt` and `UpdatedAt`. The source reads `DateTime.UtcNow` twice, so `UpdatedAt` may be a tick later than `CreatedAt`; the model does not capture that difference.
- TransferenciaEntity.FormatDate: the "/" separator and the Gregorian calendar are fixed. .NET takes both from the current culture, so another culture can print another separator or calendar.
- LedgerClient.AccountServiceFailure: a 400 body that parses but lacks `message` or `failureType` gives an exception whose fields are null in .NET. The model's error body always has both strings, so that case is not captured. For the generic failure, a 300-303, 307 or 422 answer is worded with the status number rather than the enum name .NET prints (see `LedgerClient.StatusText`).
- LedgerClient.ContaCorrenteFailure: the same null fields of a partial 400 body are not captured, and a 300-303, 307 or 422 answer is likewise worded with the status number.
- TransferRepository.RowRoundTrip: the timestamps are copied as numbers. The round trip through `ToString("O")` and `DateTime.Parse` is not modelled.
- The numeric and case-insensitive forms `Enum.Parse` also accepts are not modelled. The rows written by `CreateAsync` never use them.
- `DateTime.Parse` failures on stored rows are not modelled.
- A failing read is not modelled: only the repositories' writes (`CreateAsync`, `SaveIdempotenciaAsync`) take scripted failures, so `GetByOriginAndRequestId` in both repositories never throws, while `GetByOriginAndRequestIdAsync` can raise a database exception that escapes the handler.
- LedgerClient.StatusText: codes 300-303, 307 and 422 have two enum names each (422 is `UnprocessableEntity`, and also `UnprocessableContent` from .NET 8 on). The one .NET prints is left undetermined here, so those codes print as their numbers.
- The body the clients serialise (`CreateMovementRequest` / `CriarMovimentoRequest`) is kept as an abstract movement. The account reference is an opaque string.
- `ResolveAccountIdAsync` is not called by the core and is not modelled.
- Program.cs wiring and dependency injection are left out. Program.cs:115-118 registers the request handlers and the validators but no pipeline behaviour, so nothing on the request path runs the validators. They are modelled on their own, and the middleware's VALIDATION_ERROR arm cannot be reached as the service is wired. The middleware lemmas start from the exception that escapes.
- Program.cs:121-128 registers only the Portuguese saga's collaborators (`ITransferenciaRepository`, `IContaCorrenteServiceClient`). `CreateTransferCommandHandler` needs `ITransferRepository` and `IAccountServiceClient`, which are not registered, so as wired (not executed) the controller's command would find no handler it can construct. The model gives each handler its collaborators directly.
- Idempotencia.cs is not part of this model. The `idempotencia` table is modelled by the repository's rows.
- The repository's private DTO mapping of the Portuguese table is not part of this model; only the lookup result it yields is.
- CreateTransferHandler.CreateTransferCommandHandler.RecoverTransferFailure: the branch for a failed debit is not in the method. `WasDebitSuccessful` always answers true, so that branch can never run. The function `AfterTransferFailure` keeps it, and `CreateSagaIntended` uses it.
- The same holds for CriarTransferenciaHandler.CriarTransferenciaCommandHandler.Recover.
- CreateTransferProperties.SuccessOnlyWhenAllSucceed: assumes the store never answers with the critical exception (`OrdinaryStore`). A real SQLite failure never does. The same assumption holds in MovementOrder, AtMostOneRecord, KeysStayUnique and ResubmissionIsReplayed.
- ExceptionMiddleware.EnglishSagaFailuresAreInternal: assumes the store fails only with database exceptions (`DatabaseFailures`).
- Decimal amounts are real numbers. The core only compares and copies them, so decimal rounding never matters.

## Findings

| source | as written | input that shows it | evidently intended | confidence | as-written member | corrected member |
|---|---|---|---|---|---|---|
| src/BankMore.TransferService/Application/Commands/CreateTransferCommandHandler.cs:174-179 | `WasDebitSuccessful` always answers true, so a failed debit is treated as a failed credit | a new command whose debit fails with a `TransferException` and whose compensations succeed: the origin, which was never debited, receives a credit of the full value and the transfer is stored as `Compensated` | a failed debit sends nothing more and is stored as `Failed` | not executed | CreateTransferProperties.DebitFailureCompensates | CreateTransferProperties.IntendedCreditsOnlyAfterDebit |
| src/BankMore.TransferService/Application/Commands/CriarTransferenciaCommandHandler.cs:168-171 | the same constant `true` in the Portuguese handler | a command whose debit fails with a `TransferenciaException`: the origin is credited the full value | a failed debit is rethrown with nothing more sent | not executed | CriarTransferenciaProperties.DebitFailureCompensates | CriarTransferenciaProperties.IntendedCreditsOnlyAfterDebit |
| src/BankMore.TransferService/Application/Commands/CriarTransferenciaCommandHandler.cs:35-64 | the handler reads the `idempotencia` table but never calls `SaveIdempotenciaAsync`, so the table never gains a row | the same command sent twice to a ledger and store that accept everything: the origin is debited twice, the destination credited twice, and two transfers are stored | save the idempotency row after a success, so that a resubmission is answered from it | not executed | CriarTransferenciaProperties.ResubmissionIsReexecuted | CriarTransferenciaProperties.IntendedResubmissionIsReplayed |

The handler methods model the code as written. The corrected behaviour is
carried by `CreateSagaIntended` and `CriarSagaIntended`, and by the
`SavedAfter` row. The properties in the last column are proved about them.

The controller's documentation promises a 400 for a transfer error. In the
code, every English failure reaches the middleware's default arm and becomes
an anonymous 500 INTERNAL_ERROR. `ExceptionMiddleware.EnglishSagaFailuresAreInternal`
states this.
