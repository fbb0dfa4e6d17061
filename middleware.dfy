/** `ExceptionHandlerMiddleware.HandleExceptionAsync`: the `switch` that
    turns an exception escaping the request into a status code and an error
    body `{ message, failureType }`. Only the Portuguese exception family
    is recognised; the lemmas at the end say what the two sagas' failures
    become. */
module ExceptionMiddleware {

  import opened Primitives
  import opened Text
  import opened Exceptions
  import opened Guids
  import opened Commands
  import TransferEntity
  import TransferenciaEntity
  import CompensationPolicy
  import CreateTransferHandler
  import CriarTransferenciaHandler

  const BadRequest := 400
  const Forbidden := 403
  const InternalServerError := 500

  const GenericMessage := "Erro interno do servidor"

  /** The anonymous object the `switch` builds. */
  datatype ErrorReply = ErrorReply(statusCode: int, message: string, failureType: string)

  /** `validationEx.Errors.Select(e => e.ErrorMessage)`. */
  function ErrorMessages(errors: seq<ValidationFailure>): (r: seq<string>)
    ensures |r| == |errors| && forall i :: 0 <= i < |r| ==> r[i] == errors[i].errorMessage
  {
    seq(|errors|, i requires 0 <= i < |errors| => errors[i].errorMessage)
  }

  /** The `switch`, arm by arm: the critical Portuguese failure is matched
      before the general Portuguese arm; the English exceptions reach the
      default arm. */
  function HandleException(e: Exception): (r: ErrorReply)
    ensures r.statusCode in {BadRequest, Forbidden, InternalServerError}
    ensures e.ValidationException? ==> r == ErrorReply(BadRequest, Join("; ", ErrorMessages(e.errors)), "VALIDATION_ERROR")
    ensures e.CompensacaoFalhaException? ==> r == ErrorReply(InternalServerError, e.Message(), "COMPENSATION_ERROR")
    ensures e.TransferenciaException? ==> r == ErrorReply(BadRequest, e.Message(), e.FailureType())
    ensures e.UnauthorizedAccessException? ==> r == ErrorReply(Forbidden, e.Message(), "UNAUTHORIZED")
    ensures !e.ValidationException? && !e.IsTransferenciaException() && !e.UnauthorizedAccessException? ==>
      r == ErrorReply(InternalServerError, GenericMessage, "INTERNAL_ERROR")
  {
    match e
    case ValidationException(_, errors) => ErrorReply(BadRequest, Join("; ", ErrorMessages(errors)), "VALIDATION_ERROR")
    case CompensacaoFalhaException(_, _) => ErrorReply(InternalServerError, e.Message(), e.FailureType())
    case TransferenciaException(_, _, _) => ErrorReply(BadRequest, e.Message(), e.FailureType())
    case UnauthorizedAccessException(_) => ErrorReply(Forbidden, e.Message(), "UNAUTHORIZED")
    case _ => ErrorReply(InternalServerError, GenericMessage, "INTERNAL_ERROR")
  }

  /** A 500 carrying COMPENSATION_ERROR means exactly the critical
      Portuguese failure. */
  lemma CompensationErrorIsDistinct(e: Exception)
    ensures var r := HandleException(e);
      r.statusCode == InternalServerError && r.failureType == "COMPENSATION_ERROR" <==> e.CompensacaoFalhaException?
  {
  }

  /** A 500 never shows the exception's own message, except for the
      critical failure's. */
  lemma ServerErrorsHideDetails(e: Exception)
    requires HandleException(e).statusCode == InternalServerError && !e.CompensacaoFalhaException?
    ensures HandleException(e) == ErrorReply(InternalServerError, GenericMessage, "INTERNAL_ERROR")
  {
  }

  /** Every English exception, the critical one included, is answered as
      an anonymous internal error: its message and failure type are lost. */
  lemma EnglishFailuresAreInternal(e: Exception)
    requires e.IsTransferException()
    ensures HandleException(e) == ErrorReply(InternalServerError, GenericMessage, "INTERNAL_ERROR")
  {
  }

  /** A store that fails only the way the database does. */
  predicate DatabaseFailures(store: Script) {
    forall i :: 0 <= i < |store| && store[i].Some? ==> store[i].value.OtherException?
  }

  lemma DatabaseAnswer(store: Script, n: nat)
    requires DatabaseFailures(store)
    ensures Answer(Drop(store, n), 0).Some? ==> Answer(Drop(store, n), 0).value.OtherException?
  {
  }

  /** What an exception ending an English saga run is: never one the
      `switch` has an arm for. */
  predicate EnglishEscape(e: Exception) {
    e.IsTransferException() || e.ArgumentNullException? || e.OtherException?
  }

  lemma EnglishInsertEscape(record: TransferEntity.TransferData, after: Outcome<()>,
                            movements: seq<MovementRequest>, delays: seq<nat>, store: Script)
    requires DatabaseFailures(store) && (after.Throws? ==> EnglishEscape(after.exception))
    ensures var run := CreateTransferHandler.Insert(record, after, movements, delays, store, 0);
      run.outcome.Throws? ==> EnglishEscape(run.outcome.exception)
  {
    DatabaseAnswer(store, 0);
    DropNone(store);
  }

  /** Whatever the ledger answers, an English saga run whose store fails
      only the way the database does ends, when it fails, in a 500 that
      says nothing of the failure. */
  lemma EnglishSagaFailuresAreInternal(c: CreateTransferCommand, stored: Option<TransferEntity.TransferData>,
                                       ledger: Script, store: Script, newId: Guid,
                                       createdAt: Timestamp, markedAt: Timestamp)
    requires DatabaseFailures(store)
    ensures var run := CreateTransferHandler.CreateSaga(c, stored, ledger, store, newId, createdAt, markedAt);
      run.outcome.Throws? ==> HandleException(run.outcome.exception) == ErrorReply(InternalServerError, GenericMessage, "INTERNAL_ERROR")
  {
    var run := CreateTransferHandler.CreateSaga(c, stored, ledger, store, newId, createdAt, markedAt);
    if stored.None? && c.requestId.Some? {
      var t := TransferEntity.Created(newId, c.requestId.value, c.originAccountId, Empty, c.value, createdAt);
      var tr := CompensationPolicy.TryBlock(CreateTransferHandler.Debit(c), CreateTransferHandler.Credit(c), ledger, store);
      if tr.failure.Some? {
        var e := tr.failure.value;
        var rest := Drop(store, tr.insertCalls);
        assert DatabaseFailures(rest) by {
          forall i | 0 <= i < |rest| && rest[i].Some? ensures rest[i].value.OtherException? {
            assert rest[i] == Answer(rest, i) == Answer(store, tr.insertCalls + i);
          }
        }
        if e.IsTransferException() && !e.CompensationFailedException? {
          var ans := Drop(ledger, |tr.movements|);
          if CreateTransferHandler.Critical(ans).None? {
            EnglishInsertEscape(TransferEntity.Marked(t, TransferEntity.Compensated, e.Message(), e.FailureType(), markedAt),
                                Throws(e), CompensationPolicy.Repeat(CreateTransferHandler.Compensation(c), CompensationPolicy.Attempts(ans)),
                                CompensationPolicy.Delays(ans), rest);
          }
        } else {
          EnglishInsertEscape(TransferEntity.Marked(t, TransferEntity.Failed, e.Message(), "INTERNAL_ERROR", markedAt),
                              Throws(NewTransferException(CreateTransferHandler.InternalErrorMessage, "INTERNAL_ERROR", Some(e))),
                              [], [], rest);
        }
      }
    }
  }

  /** Whatever the ledger and the store answer, a Portuguese saga run that
      fails is answered with the failure's own message and type: a 500 for
      the critical failure and a 400 for everything else, unexpected
      errors (wrapped as INTERNAL_ERROR) included. */
  lemma CriarSagaFailuresAreTyped(c: CriarTransferenciaCommand, hit: bool, ledger: Script, store: Script,
                                  newId: Guid, today: TransferenciaEntity.CalendarDate)
    ensures var run := CriarTransferenciaHandler.CriarSaga(c, hit, ledger, store, newId, today);
      run.outcome.Throws? ==>
        var e := run.outcome.exception;
        && e.IsTransferenciaException()
        && HandleException(e) == ErrorReply(if e.CompensacaoFalhaException? then InternalServerError else BadRequest,
                                            e.Message(), e.FailureType())
  {
  }
}
