/** `CreateTransferCommandHandler`: the English transfer saga. A stored
    outcome for `(origin, requestId)` is replayed; otherwise the origin is
    debited, the destination credited and a `Success` record inserted. A
    typed failure on the way triggers compensation and a `Compensated`
    record; any other failure a `Failed` record with kind INTERNAL_ERROR.

    `CreateSaga` states the whole run as a function of the stored record,
    the ledger's answers and the store's answers; the handler class is
    proved to perform exactly that run. */
module CreateTransferHandler {

  import opened Primitives
  import opened Guids
  import opened Exceptions
  import opened Commands
  import opened Ledger
  import opened TransferEntity
  import opened TransferRepository
  import opened CompensationPolicy

  const InternalErrorMessage := "Erro interno ao processar transferência"

  /** The value the stored-outcome `switch` returns or throws. */
  function Replay(stored: TransferData): (r: Outcome<()>)
    ensures stored.status == Success <==> r.Returns?
    ensures stored.status == Failed ==>
      r == Throws(TransferException(stored.errorMessage.GetOr("Transferência falhou anteriormente"),
                                    stored.errorType.GetOr("TRANSFER_FAILED"), None))
    ensures stored.status == Compensated ==>
      r == Throws(TransferException(stored.errorMessage.GetOr("Transferência foi compensada"),
                                    stored.errorType.GetOr("TRANSFER_COMPENSATED"), None))
    ensures stored.status == CompensationFailed ==>
      r == Throws(CompensationFailedException(stored.errorMessage.GetOr("Falha crítica na compensação"), None))
  {
    match stored.status
    case Success => Returns(())
    case Failed =>
      Throws(NewTransferException(stored.errorMessage.GetOr("Transferência falhou anteriormente"),
                                  stored.errorType.GetOr("TRANSFER_FAILED"), None))
    case Compensated =>
      Throws(NewTransferException(stored.errorMessage.GetOr("Transferência foi compensada"),
                                  stored.errorType.GetOr("TRANSFER_COMPENSATED"), None))
    case CompensationFailed =>
      Throws(NewCompensationFailedException(stored.errorMessage.GetOr("Falha crítica na compensação"), None))
  }

  /** `DebitOriginAsync`'s request: no account number (the token's account). */
  function Debit(c: CreateTransferCommand): MovementRequest {
    MovementRequest(c.requestId, None, c.value, "D")
  }

  /** `CreditDestinationAsync`'s request. */
  function Credit(c: CreateTransferCommand): MovementRequest {
    MovementRequest(c.requestId, c.destinationAccountNumber, c.value, "C")
  }

  /** `CompensateAsync`'s request. */
  function Compensation(c: CreateTransferCommand): MovementRequest {
    CompensationRequest(c.requestId, c.value)
  }

  /** Everything one `Handle` call does: its outcome, the movements it
      issues in order, the waits it requests, the records the store accepts
      and how many inserts it attempts. */
  datatype SagaRun = SagaRun(
    outcome: Outcome<()>,
    movements: seq<MovementRequest>,
    delays: seq<nat>,
    inserted: seq<TransferData>,
    insertCalls: nat)

  /** One `CreateAsync` of `record`; if the store accepts it, the run ends
      with `after`, otherwise with the store's exception. */
  function Insert(record: TransferData, after: Outcome<()>, movements: seq<MovementRequest>, delays: seq<nat>,
                  store: Script, insertCalls: nat): SagaRun {
    if Answer(store, 0).Some? then SagaRun(Throws(Answer(store, 0).value), movements, delays, [], insertCalls + 1)
    else SagaRun(after, movements, delays, [record], insertCalls + 1)
  }

  /** The catch clauses' effects come after the `try` block's. */
  function Prefixed(movements: seq<MovementRequest>, insertCalls: nat, run: SagaRun): SagaRun {
    run.(movements := movements + run.movements, insertCalls := insertCalls + run.insertCalls)
  }

  /** The exception `CompensateAsync` throws, if any: the critical one, with
      the last attempt's failure inside. */
  function Critical(ledger: Script): (r: Option<Exception>)
    ensures r.Some? <==> Exhausted(ledger)
    ensures r.Some? ==> r.value.CompensationFailedException? && r.value.FailureType() == "COMPENSATION_ERROR"
                        && r.value.InnerException() == Answer(ledger, MaxRetries - 1)
  {
    var last := LastFailure(ledger);
    if last.Some? then Some(NewCompensationFailedException(FailureMessage, last)) else None
  }

  /** The first `catch` clause, for a `TransferException` that is not the
      critical one. */
  function AfterTransferFailure(c: CreateTransferCommand, t: TransferData, e: Exception, debitOk: bool,
                                ledger: Script, store: Script, markedAt: Timestamp): SagaRun
    requires e.IsTransferException() && !e.CompensationFailedException?
  {
    if !debitOk then
      Insert(Marked(t, Failed, e.Message(), e.FailureType(), markedAt), Throws(e), [], [], store, 0)
    else
      var comps := Repeat(Compensation(c), Attempts(ledger));
      if Critical(ledger).Some? then
        SagaRun(Throws(Critical(ledger).value), comps, Delays(ledger), [], 0)
      else
        Insert(Marked(t, Compensated, e.Message(), e.FailureType(), markedAt), Throws(e), comps, Delays(ledger), store, 0)
  }

  /** The second `catch` clause, for any other exception. */
  function AfterInternalError(t: TransferData, e: Exception, store: Script, markedAt: Timestamp): SagaRun {
    Insert(Marked(t, Failed, e.Message(), "INTERNAL_ERROR", markedAt),
           Throws(NewTransferException(InternalErrorMessage, "INTERNAL_ERROR", Some(e))), [], [], store, 0)
  }

  /** The two `catch` clauses, entered with exception `e`, on the ledger and
      store answers left after the `try` block. `debitOk` is what
      `WasDebitSuccessful` answered. Exceptions raised inside a clause (the
      critical one, a failing insert) leave the handler as they are. */
  function AfterFailure(c: CreateTransferCommand, t: TransferData, e: Exception, debitOk: bool,
                        ledger: Script, store: Script, markedAt: Timestamp): SagaRun {
    if e.IsTransferException() && !e.CompensationFailedException? then
      AfterTransferFailure(c, t, e, debitOk, ledger, store, markedAt)
    else
      AfterInternalError(t, e, store, markedAt)
  }

  /** The `try` block and the `catch` clauses for the new transfer `t`. */
  function Attempt(c: CreateTransferCommand, t: TransferData, ledger: Script, store: Script, markedAt: Timestamp,
                   debitOk: bool): SagaRun {
    var tr := TryBlock(Debit(c), Credit(c), ledger, store);
    if tr.failure.None? then SagaRun(Returns(()), tr.movements, [], [t], tr.insertCalls)
    else
      Prefixed(tr.movements, tr.insertCalls,
               AfterFailure(c, t, tr.failure.value, debitOk, Drop(ledger, |tr.movements|), Drop(store, tr.insertCalls), markedAt))
  }

  /** A request seen for the first time: the entity is built (a null
      request id throws before the `try`), then attempted. */
  function Fresh(c: CreateTransferCommand, ledger: Script, store: Script, newId: Guid, createdAt: Timestamp,
                 markedAt: Timestamp, debitOk: bool): SagaRun {
    if c.requestId.None? then SagaRun(Throws(ArgumentNullException("requestId")), [], [], [], 0)
    else Attempt(c, Created(newId, c.requestId.value, c.originAccountId, Empty, c.value, createdAt), ledger, store, markedAt, debitOk)
  }

  /** `Handle`, with `debitOk` what `WasDebitSuccessful` answers. */
  function Saga(c: CreateTransferCommand, stored: Option<TransferData>, ledger: Script, store: Script,
                newId: Guid, createdAt: Timestamp, markedAt: Timestamp, debitOk: bool): SagaRun {
    if stored.Some? then SagaRun(Replay(stored.value), [], [], [], 0)
    else Fresh(c, ledger, store, newId, createdAt, markedAt, debitOk)
  }

  /** The handler as written: `WasDebitSuccessful` is constantly true. */
  function CreateSaga(c: CreateTransferCommand, stored: Option<TransferData>, ledger: Script, store: Script,
                      newId: Guid, createdAt: Timestamp, markedAt: Timestamp): SagaRun {
    Saga(c, stored, ledger, store, newId, createdAt, markedAt, true)
  }

  /** The handler as its comments describe it: `WasDebitSuccessful` is
      false when the debit itself failed, which is then only recorded as
      `Failed`, with no compensation. */
  function CreateSagaIntended(c: CreateTransferCommand, stored: Option<TransferData>, ledger: Script, store: Script,
                              newId: Guid, createdAt: Timestamp, markedAt: Timestamp): SagaRun {
    Saga(c, stored, ledger, store, newId, createdAt, markedAt, Answer(ledger, 0).None?)
  }

  /** The rows the store holds after a run's inserts. */
  function RowsOf(inserted: seq<TransferData>): (rows: seq<TransferRow>)
    ensures |rows| == |inserted| && forall i :: 0 <= i < |rows| ==> rows[i] == ToRow(inserted[i])
  {
    seq(|inserted|, i requires 0 <= i < |inserted| => ToRow(inserted[i]))
  }

  /** What a run can be seen to change: the ledger's remaining answers and
      its call log, the waits requested, the store's rows and its remaining
      answers. */
  datatype SagaState = SagaState(ledger: Script, calls: seq<Call>, delays: seq<nat>, rows: seq<TransferRow>, store: Script)

  /** The state after `run`, started in `s`, with every call carrying
      `token`. */
  function Apply(s: SagaState, run: SagaRun, token: NullableString): SagaState {
    SagaState(Drop(s.ledger, |run.movements|), s.calls + CallsOf(run.movements, token), s.delays + run.delays,
              s.rows + RowsOf(run.inserted), Drop(s.store, run.insertCalls))
  }

  /** The `try` block's effects as a run of their own. */
  function TryEffects(tr: TryRun): SagaRun {
    SagaRun(Returns(()), tr.movements, [], [], tr.insertCalls)
  }

  /** Running the `try` block and then the `catch` clauses is running their
      concatenation. */
  lemma ApplyPrefixed(s: SagaState, tr: TryRun, run: SagaRun, token: NullableString)
    ensures Apply(s, Prefixed(tr.movements, tr.insertCalls, run), token) == Apply(Apply(s, TryEffects(tr), token), run, token)
  {
    DropDrop(s.ledger, |tr.movements|, |run.movements|);
    DropDrop(s.store, tr.insertCalls, run.insertCalls);
    CallsOfAppend(tr.movements, run.movements, token);
    assert s.delays + [] == s.delays;
    assert s.rows + RowsOf([]) == s.rows;
  }

  /** The effects of `CompensateAsync` on a ledger answering `ledger`. */
  function CompensationEffects(c: CreateTransferCommand, ledger: Script): SagaRun {
    SagaRun(Returns(()), Repeat(Compensation(c), Attempts(ledger)), Delays(ledger), [], 0)
  }

  /** How the loop's counter relates to the attempts and the outcome. */
  lemma AttemptOutcome(s0: Script, attempt: nat)
    requires 1 <= attempt <= MaxRetries && AttemptsFrom(s0, attempt) == Attempts(s0)
    ensures Answer(s0, attempt - 1).None? ==> Attempts(s0) == attempt && Critical(s0).None?
    ensures Answer(s0, attempt - 1).Some? && attempt < MaxRetries ==> AttemptsFrom(s0, attempt + 1) == Attempts(s0)
    ensures Answer(s0, attempt - 1).Some? && attempt == MaxRetries ==>
      Attempts(s0) == attempt && Critical(s0) == Some(NewCompensationFailedException(FailureMessage, Answer(s0, attempt - 1)))
  {
    if Answer(s0, attempt - 1).Some? && attempt < MaxRetries {
      AttemptsFromStep(s0, attempt);
    }
  }

  class CreateTransferCommandHandler {
    const repository: TransferRepository
    const accountService: LedgerService
    /** The `Task.Delay` waits requested so far, in milliseconds. */
    ghost var delays: seq<nat>

    constructor(repository: TransferRepository, accountService: LedgerService)
      ensures this.repository == repository && this.accountService == accountService && delays == []
    {
      this.repository := repository;
      this.accountService := accountService;
      delays := [];
    }

    /** Everything a run can be seen to change. */
    ghost function State(): SagaState
      reads this, repository, accountService
    {
      SagaState(accountService.script, accountService.calls, delays, repository.rows, repository.faults)
    }

    /** `CompensateAsync`: the retry loop. Its result is the critical
        exception when all attempts fail. */
    method Compensate(c: CreateTransferCommand) returns (failure: Option<Exception>)
      modifies this, accountService
      ensures State() == Apply(old(State()), CompensationEffects(c, old(accountService.script)), c.authorizationToken)
      ensures failure == Critical(old(accountService.script))
    {
      ghost var s0 := accountService.script;
      ghost var calls0 := accountService.calls;
      ghost var delays0 := delays;
      var request := Compensation(c);
      var attempt: nat := 1;
      var finished := false;
      ghost var made: nat := 0;
      failure := None;
      assert calls0 + CallsOf(Repeat(request, 0), c.authorizationToken) == calls0;
      assert delays0 + BackoffDelays[..0] == delays0;
      DropNone(s0);
      while !finished
        invariant 1 <= attempt <= MaxRetries
        invariant made == if finished then attempt else attempt - 1
        invariant accountService.script == Drop(s0, made)
        invariant accountService.calls == calls0 + CallsOf(Repeat(request, made), c.authorizationToken)
        invariant delays == delays0 + BackoffDelays[..attempt - 1]
        invariant !finished ==> AttemptsFrom(s0, attempt) == Attempts(s0) && failure.None?
        invariant finished ==> attempt == Attempts(s0) && failure == Critical(s0)
        decreases MaxRetries - attempt, !finished
      {
        OneMoreCall(s0, calls0, request, made, c.authorizationToken);
        var e := accountService.CreateMovement(request, c.authorizationToken);
        AttemptOutcome(s0, attempt);
        made := made + 1;
        if e.None? {
          finished := true;
        } else if attempt < MaxRetries {
          TakeOneMore(BackoffDelays, attempt - 1);
          delays := delays + [BackoffDelays[attempt - 1]];
          attempt := attempt + 1;
        } else {
          failure := Some(NewCompensationFailedException(FailureMessage, e));
          finished := true;
        }
      }
      assert RowsOf([]) == [];
    }

    /** The first `catch` clause: compensate, then record the transfer as
        `Compensated` and rethrow; `WasDebitSuccessful` answers true. */
    method RecoverTransferFailure(c: CreateTransferCommand, transfer: Transfer, e: Exception, markedAt: Timestamp)
      returns (result: Outcome<()>)
      requires e.IsTransferException() && !e.CompensationFailedException?
      requires repository.Valid()
      modifies this, repository, accountService, transfer
      ensures repository.Valid()
      ensures var run := AfterTransferFailure(c, old(transfer.Data()), e, true, old(accountService.script), old(repository.faults), markedAt);
        result == run.outcome && State() == Apply(old(State()), run, c.authorizationToken)
    {
      var critical := Compensate(c);
      if critical.Some? {
        return Throws(critical.value);
      }
      ghost var st1 := State();
      transfer.MarkAsCompensated(e.Message(), e.FailureType(), markedAt);
      var inserted := repository.CreateAsync(transfer.Data());
      if inserted.Throws? {
        assert RowsOf([]) == [];
        return Throws(inserted.exception);
      }
      assert RowsOf([transfer.Data()]) == [ToRow(transfer.Data())];
      return Throws(e);
    }

    /** The second `catch` clause: record the transfer as `Failed` with kind
        INTERNAL_ERROR and throw the wrapping exception. */
    method RecoverInternalError(c: CreateTransferCommand, transfer: Transfer, e: Exception, markedAt: Timestamp)
      returns (result: Outcome<()>)
      requires repository.Valid()
      modifies repository, transfer
      ensures repository.Valid()
      ensures var run := AfterInternalError(old(transfer.Data()), e, old(repository.faults), markedAt);
        result == run.outcome && State() == Apply(old(State()), run, c.authorizationToken)
    {
      transfer.MarkAsFailed(e.Message(), "INTERNAL_ERROR", markedAt);
      var inserted := repository.CreateAsync(transfer.Data());
      assert CallsOf([], c.authorizationToken) == [] && old(State()).delays + [] == old(State()).delays;
      DropNone(old(State()).ledger);
      if inserted.Throws? {
        assert RowsOf([]) == [];
        return Throws(inserted.exception);
      }
      assert RowsOf([transfer.Data()]) == [ToRow(transfer.Data())];
      return Throws(NewTransferException(InternalErrorMessage, "INTERNAL_ERROR", Some(e)));
    }

    /** The two `catch` clauses, entered with `e` once the `try` block has
        failed. */
    method Recover(c: CreateTransferCommand, transfer: Transfer, e: Exception, markedAt: Timestamp)
      returns (result: Outcome<()>)
      requires repository.Valid()
      modifies this, repository, accountService, transfer
      ensures repository.Valid()
      ensures var run := AfterFailure(c, old(transfer.Data()), e, true, old(accountService.script), old(repository.faults), markedAt);
        result == run.outcome && State() == Apply(old(State()), run, c.authorizationToken)
    {
      if e.IsTransferException() && !e.CompensationFailedException? {
        result := RecoverTransferFailure(c, transfer, e, markedAt);
      } else {
        result := RecoverInternalError(c, transfer, e, markedAt);
      }
    }

    /** The `try` block. The transfer is inserted as created when both
        movements succeed. */
    method Try(c: CreateTransferCommand, transfer: Transfer) returns (failure: Option<Exception>)
      requires repository.Valid()
      modifies repository, accountService
      ensures repository.Valid()
      ensures var tr := TryBlock(Debit(c), Credit(c), old(accountService.script), old(repository.faults));
        && failure == tr.failure
        && accountService.script == Drop(old(accountService.script), |tr.movements|)
        && accountService.calls == old(accountService.calls) + CallsOf(tr.movements, c.authorizationToken)
        && repository.faults == Drop(old(repository.faults), tr.insertCalls)
        && repository.rows == old(repository.rows) + (if failure.None? then [ToRow(transfer.Data())] else [])
    {
      ghost var ledger0 := accountService.script;
      failure := accountService.CreateMovement(Debit(c), c.authorizationToken);
      if failure.Some? {
        assert CallsOf([Debit(c)], c.authorizationToken) == [Call(Debit(c), c.authorizationToken)];
        return;
      }
      failure := accountService.CreateMovement(Credit(c), c.authorizationToken);
      DropDrop(ledger0, 1, 1);
      assert CallsOf([Debit(c), Credit(c)], c.authorizationToken)
          == [Call(Debit(c), c.authorizationToken), Call(Credit(c), c.authorizationToken)];
      if failure.Some? {
        return;
      }
      var inserted := repository.CreateAsync(transfer.Data());
      if inserted.Throws? {
        failure := Some(inserted.exception);
      }
    }

    /** The `try` block and the `catch` clauses, once the transfer is
        created. */
    method Execute(c: CreateTransferCommand, transfer: Transfer, markedAt: Timestamp) returns (result: Outcome<()>)
      requires repository.Valid()
      modifies this, repository, accountService, transfer
      ensures repository.Valid()
      ensures var run := Attempt(c, old(transfer.Data()), old(accountService.script), old(repository.faults), markedAt, true);
        result == run.outcome && State() == Apply(old(State()), run, c.authorizationToken)
    {
      ghost var st0 := State();
      ghost var t := transfer.Data();
      ghost var tr := TryBlock(Debit(c), Credit(c), st0.ledger, st0.store);
      var failure := Try(c, transfer);
      if failure.None? {
        assert RowsOf([t]) == [ToRow(t)];
        assert st0.delays + [] == st0.delays;
        return Returns(());
      }
      assert RowsOf([]) == [] && st0.delays + [] == st0.delays;
      assert State() == Apply(st0, TryEffects(tr), c.authorizationToken);
      ghost var tail := AfterFailure(c, t, failure.value, true, accountService.script, repository.faults, markedAt);
      result := Recover(c, transfer, failure.value, markedAt);
      ApplyPrefixed(st0, tr, tail, c.authorizationToken);
    }

    /** What follows a lookup that found nothing: the entity is created
        and the saga attempted. */
    method Start(c: CreateTransferCommand, newId: Guid, createdAt: Timestamp, markedAt: Timestamp)
      returns (result: Outcome<()>)
      requires repository.Valid()
      modifies this, repository, accountService
      ensures repository.Valid()
      ensures var run := Fresh(c, old(accountService.script), old(repository.faults), newId, createdAt, markedAt, true);
        result == run.outcome && State() == Apply(old(State()), run, c.authorizationToken)
    {
      var created := Transfer.New(newId, c.requestId, c.originAccountId, Empty, c.value, createdAt);
      if created.Throws? {
        assert CallsOf([], c.authorizationToken) == [] && RowsOf([]) == [];
        return Throws(created.exception);
      }
      result := Execute(c, created.value, markedAt);
    }

    /** `Handle`, with the fresh id and the two clock readings as inputs: a
        stored outcome is replayed and nothing changes; otherwise the saga
        runs as `Fresh` says. These two cases are `CreateSaga`'s. */
    method Handle(c: CreateTransferCommand, newId: Guid, createdAt: Timestamp, markedAt: Timestamp)
      returns (result: Outcome<()>)
      requires repository.Valid()
      modifies this, repository, accountService
      ensures repository.Valid()
      ensures old(repository.GetByOriginAndRequestId(c.originAccountId, c.requestId)).Some? ==>
        result == Replay(old(repository.GetByOriginAndRequestId(c.originAccountId, c.requestId)).value)
        && State() == old(State())
      ensures old(repository.GetByOriginAndRequestId(c.originAccountId, c.requestId)).None? ==>
        var run := Fresh(c, old(accountService.script), old(repository.faults), newId, createdAt, markedAt, true);
        result == run.outcome && State() == Apply(old(State()), run, c.authorizationToken)
    {
      var existing := repository.GetByOriginAndRequestId(c.originAccountId, c.requestId);
      if existing.Some? {
        return Replay(existing.value);
      }
      result := Start(c, newId, createdAt, markedAt);
    }
  }
}
