/** `CriarTransferenciaCommandHandler`: the Portuguese transfer saga. Any
    hit in the idempotency table returns success at once; otherwise the
    origin is debited, the destination credited and one `Transferencia`
    inserted. A typed failure triggers compensation and is rethrown; any
    other failure is wrapped as INTERNAL_ERROR. Nothing is written on a
    failure path, and the idempotency table is never written at all.

    `CriarSaga` states the whole run as a function of the lookup's answer,
    the ledger's answers and the store's answers; the handler class is
    proved to perform exactly that run. */
module CriarTransferenciaHandler {

  import opened Primitives
  import opened Guids
  import opened Exceptions
  import opened Commands
  import opened Ledger
  import opened TransferenciaEntity
  import opened TransferenciaRepository
  import opened CompensationPolicy

  const InternalErrorMessage := "Erro interno ao processar transferência"

  /** `DebitOriginAsync`'s request: no account (the token's account). */
  function Debit(c: CriarTransferenciaCommand): MovementRequest {
    MovementRequest(c.requestId, None, c.valor, "D")
  }

  /** `CreditDestinationAsync`'s request. */
  function Credit(c: CriarTransferenciaCommand): MovementRequest {
    MovementRequest(c.requestId, c.numeroContaDestino, c.valor, "C")
  }

  /** `CompensateAsync`'s request. */
  function Compensation(c: CriarTransferenciaCommand): MovementRequest {
    CompensationRequest(c.requestId, c.valor)
  }

  /** Everything one `Handle` call does: its outcome, the movements it
      issues in order, the waits it requests, the transfers the store
      accepts and how many inserts it attempts. */
  datatype SagaRun = SagaRun(
    outcome: Outcome<()>,
    movements: seq<MovementRequest>,
    delays: seq<nat>,
    inserted: seq<Transferencia>,
    insertCalls: nat)

  /** The exception `CompensateAsync` throws, if any: the critical one, with
      the last attempt's failure inside. */
  function Critical(ledger: Script): (r: Option<Exception>)
    ensures r.Some? <==> Exhausted(ledger)
    ensures r.Some? ==> r.value.CompensacaoFalhaException? && r.value.FailureType() == "COMPENSATION_ERROR"
                        && r.value.InnerException() == Answer(ledger, MaxRetries - 1)
  {
    var last := LastFailure(ledger);
    if last.Some? then Some(NewCompensacaoFalhaException(FailureMessage, last)) else None
  }

  /** The effects of `CompensateAsync` on a ledger answering `ledger`: its
      outcome is the critical exception, if any. */
  function CompensationRun(c: CriarTransferenciaCommand, ledger: Script): SagaRun {
    var critical := Critical(ledger);
    SagaRun(if critical.Some? then Throws(critical.value) else Returns(()),
            Repeat(Compensation(c), Attempts(ledger)), Delays(ledger), [], 0)
  }

  /** The two `catch` clauses, entered with exception `e`, on the ledger
      answers left after the `try` block; `debitOk` is what
      `WasDebitSuccessful` answers. A typed failure is rethrown as it is,
      after compensation when the debit went through, unless compensation
      itself fails; anything else is wrapped. */
  function AfterFailure(c: CriarTransferenciaCommand, e: Exception, debitOk: bool, ledger: Script): SagaRun {
    if e.IsTransferenciaException() && !e.CompensacaoFalhaException? then
      if !debitOk then SagaRun(Throws(e), [], [], [], 0)
      else
        var comp := CompensationRun(c, ledger);
        comp.(outcome := if comp.outcome.Throws? then comp.outcome else Throws(e))
    else
      SagaRun(Throws(NewTransferenciaException(InternalErrorMessage, "INTERNAL_ERROR", Some(e))), [], [], [], 0)
  }

  /** The `try` block and the `catch` clauses for the new transfer `t`. */
  function Attempt(c: CriarTransferenciaCommand, t: Transferencia, ledger: Script, store: Script, debitOk: bool): SagaRun {
    var tr := TryBlock(Debit(c), Credit(c), ledger, store);
    if tr.failure.None? then SagaRun(Returns(()), tr.movements, [], [t], tr.insertCalls)
    else
      var tail := AfterFailure(c, tr.failure.value, debitOk, Drop(ledger, |tr.movements|));
      tail.(movements := tr.movements + tail.movements, insertCalls := tr.insertCalls)
  }

  /** The transfer `Handle` builds: a fresh id, the origin, `Guid.Empty` as
      the destination, the value and today's date. */
  function NewTransfer(c: CriarTransferenciaCommand, newId: Guid, today: CalendarDate): Transferencia {
    NewTransferencia(newId, c.idContaOrigem, Empty, c.valor, today)
  }

  /** `Handle`: `hit` is whether the idempotency lookup found a row. */
  function Saga(c: CriarTransferenciaCommand, hit: bool, ledger: Script, store: Script, newId: Guid,
                today: CalendarDate, debitOk: bool): SagaRun {
    if hit then SagaRun(Returns(()), [], [], [], 0)
    else Attempt(c, NewTransfer(c, newId, today), ledger, store, debitOk)
  }

  /** The handler as written: `WasDebitSuccessful` is constantly true. */
  function CriarSaga(c: CriarTransferenciaCommand, hit: bool, ledger: Script, store: Script, newId: Guid,
                     today: CalendarDate): SagaRun {
    Saga(c, hit, ledger, store, newId, today, true)
  }

  /** The handler as its log messages describe it: `WasDebitSuccessful` is
      false when the debit itself failed, which is then rethrown with no
      compensation. */
  function CriarSagaIntended(c: CriarTransferenciaCommand, hit: bool, ledger: Script, store: Script, newId: Guid,
                             today: CalendarDate): SagaRun {
    Saga(c, hit, ledger, store, newId, today, Answer(ledger, 0).None?)
  }

  /** The rows the store holds after a run's inserts. */
  function RowsOf(inserted: seq<Transferencia>): (rows: seq<TransferenciaRow>)
    ensures |rows| == |inserted| && forall i :: 0 <= i < |rows| ==> rows[i] == ToRow(inserted[i])
  {
    seq(|inserted|, i requires 0 <= i < |inserted| => ToRow(inserted[i]))
  }

  /** What a run can be seen to change: the ledger's remaining answers and
      its call log, the waits requested, both tables and the store's
      remaining answers. */
  datatype SagaState = SagaState(ledger: Script, calls: seq<Call>, delays: seq<nat>,
                                 transferencias: seq<TransferenciaRow>, idempotencia: seq<IdempotenciaRow>, store: Script)

  /** The state after `run`, started in `s`, with every call carrying
      `token`. No run writes the idempotency table. */
  function Apply(s: SagaState, run: SagaRun, token: NullableString): SagaState {
    s.(ledger := Drop(s.ledger, |run.movements|), calls := s.calls + CallsOf(run.movements, token),
       delays := s.delays + run.delays, transferencias := s.transferencias + RowsOf(run.inserted),
       store := Drop(s.store, run.insertCalls))
  }

  /** Running a failed `try` block and then the `catch` clauses is running
      their concatenation. */
  lemma ApplyThenFailure(s: SagaState, tr: TryRun, tail: SagaRun, token: NullableString)
    requires tail.inserted == [] && tail.insertCalls == 0
    ensures Apply(Apply(s, SagaRun(Returns(()), tr.movements, [], [], tr.insertCalls), token), tail, token)
            == Apply(s, tail.(movements := tr.movements + tail.movements, insertCalls := tr.insertCalls), token)
  {
    DropDrop(s.ledger, |tr.movements|, |tail.movements|);
    CallsOfAppend(tr.movements, tail.movements, token);
    DropNone(Drop(s.store, tr.insertCalls));
    assert RowsOf([]) == [] && s.delays + [] == s.delays;
  }

  /** How the loop's counter relates to the attempts and the outcome. */
  lemma AttemptOutcome(s0: Script, attempt: nat)
    requires 1 <= attempt <= MaxRetries && AttemptsFrom(s0, attempt) == Attempts(s0)
    ensures Answer(s0, attempt - 1).None? ==> Attempts(s0) == attempt && Critical(s0).None?
    ensures Answer(s0, attempt - 1).Some? && attempt < MaxRetries ==> AttemptsFrom(s0, attempt + 1) == Attempts(s0)
    ensures Answer(s0, attempt - 1).Some? && attempt == MaxRetries ==>
      Attempts(s0) == attempt && Critical(s0) == Some(NewCompensacaoFalhaException(FailureMessage, Answer(s0, attempt - 1)))
  {
    if Answer(s0, attempt - 1).Some? && attempt < MaxRetries {
      AttemptsFromStep(s0, attempt);
    }
  }

  class CriarTransferenciaCommandHandler {
    const repository: TransferenciaRepository
    const accountService: LedgerService
    /** The `Task.Delay` waits requested so far, in milliseconds. */
    ghost var delays: seq<nat>

    constructor(repository: TransferenciaRepository, accountService: LedgerService)
      ensures this.repository == repository && this.accountService == accountService && delays == []
    {
      this.repository := repository;
      this.accountService := accountService;
      delays := [];
    }

    /** Everything a run can be seen to change. */
    ghost function State(): SagaState
      reads this, repository, accountService
    {
      SagaState(accountService.script, accountService.calls, delays, repository.transferencias, repository.idempotencia,
                repository.faults)
    }

    /** `CompensateAsync`: the retry loop. Its result is the critical
        exception when all attempts fail. */
    method Compensate(c: CriarTransferenciaCommand) returns (failure: Option<Exception>)
      modifies this, accountService
      ensures State() == Apply(old(State()), CompensationRun(c, old(accountService.script)), c.tokenAutorizacao)
      ensures failure == Critical(old(accountService.script))
    {
      ghost var s0 := accountService.script;
      ghost var calls0 := accountService.calls;
      ghost var delays0 := delays;
      var request := Compensation(c);
      var attempt: nat := 1;
      var finished := false;
      ghost var made: nat := 0;
      failure := None;
      assert calls0 + CallsOf(Repeat(request, 0), c.tokenAutorizacao) == calls0;
      assert delays0 + BackoffDelays[..0] == delays0;
      DropNone(s0);
      while !finished
        invariant 1 <= attempt <= MaxRetries
        invariant made == if finished then attempt else attempt - 1
        invariant accountService.script == Drop(s0, made)
        invariant accountService.calls == calls0 + CallsOf(Repeat(request, made), c.tokenAutorizacao)
        invariant delays == delays0 + BackoffDelays[..attempt - 1]
        invariant !finished ==> AttemptsFrom(s0, attempt) == Attempts(s0) && failure.None?
        invariant finished ==> attempt == Attempts(s0) && failure == Critical(s0)
        decreases MaxRetries - attempt, !finished
      {
        OneMoreCall(s0, calls0, request, made, c.tokenAutorizacao);
        var e := accountService.CreateMovement(request, c.tokenAutorizacao);
        AttemptOutcome(s0, attempt);
        made := made + 1;
        if e.None? {
          finished := true;
        } else if attempt < MaxRetries {
          TakeOneMore(BackoffDelays, attempt - 1);
          delays := delays + [BackoffDelays[attempt - 1]];
          attempt := attempt + 1;
        } else {
          failure := Some(NewCompensacaoFalhaException(FailureMessage, e));
          finished := true;
        }
      }
      assert RowsOf([]) == [];
    }

    /** The two `catch` clauses, entered with `e` once the `try` block has
        failed; `WasDebitSuccessful` answers true. */
    method Recover(c: CriarTransferenciaCommand, e: Exception) returns (result: Outcome<()>)
      modifies this, accountService
      ensures var run := AfterFailure(c, e, true, old(accountService.script));
        result == run.outcome && State() == Apply(old(State()), run, c.tokenAutorizacao)
    {
      if e.IsTransferenciaException() && !e.CompensacaoFalhaException? {
        var critical := Compensate(c);
        if critical.Some? {
          return Throws(critical.value);
        }
        return Throws(e);
      }
      assert CallsOf([], c.tokenAutorizacao) == [] && RowsOf([]) == [] && delays + [] == delays;
      DropNone(accountService.script);
      DropNone(repository.faults);
      return Throws(NewTransferenciaException(InternalErrorMessage, "INTERNAL_ERROR", Some(e)));
    }

    /** The `try` block. The transfer is inserted when both movements
        succeed. */
    method Try(c: CriarTransferenciaCommand, transfer: Transferencia) returns (failure: Option<Exception>)
      modifies repository, accountService
      ensures var tr := TryBlock(Debit(c), Credit(c), old(accountService.script), old(repository.faults));
        && failure == tr.failure
        && State() == Apply(old(State()), SagaRun(Returns(()), tr.movements, [], if failure.None? then [transfer] else [], tr.insertCalls),
                            c.tokenAutorizacao)
    {
      ghost var ledger0 := accountService.script;
      ghost var tr := TryBlock(Debit(c), Credit(c), ledger0, repository.faults);
      assert RowsOf([]) == [] && RowsOf([transfer]) == [ToRow(transfer)] && delays + [] == delays;
      DropNone(repository.faults);
      failure := accountService.CreateMovement(Debit(c), c.tokenAutorizacao);
      if failure.Some? {
        assert tr == TryRun(failure, [Debit(c)], 0);
        assert CallsOf([Debit(c)], c.tokenAutorizacao) == [Call(Debit(c), c.tokenAutorizacao)];
        return;
      }
      failure := accountService.CreateMovement(Credit(c), c.tokenAutorizacao);
      DropDrop(ledger0, 1, 1);
      assert CallsOf([Debit(c), Credit(c)], c.tokenAutorizacao)
          == [Call(Debit(c), c.tokenAutorizacao), Call(Credit(c), c.tokenAutorizacao)];
      if failure.Some? {
        assert tr == TryRun(failure, [Debit(c), Credit(c)], 0);
        return;
      }
      var inserted := repository.CreateAsync(transfer);
      if inserted.Throws? {
        failure := Some(inserted.exception);
      }
      assert tr == TryRun(failure, [Debit(c), Credit(c)], 1);
    }

    /** The `try` block and the `catch` clauses, once the transfer is
        built. */
    method Execute(c: CriarTransferenciaCommand, transfer: Transferencia) returns (result: Outcome<()>)
      modifies this, repository, accountService
      ensures var run := Attempt(c, transfer, old(accountService.script), old(repository.faults), true);
        result == run.outcome && State() == Apply(old(State()), run, c.tokenAutorizacao)
    {
      ghost var st0 := State();
      ghost var tr := TryBlock(Debit(c), Credit(c), st0.ledger, st0.store);
      var failure := Try(c, transfer);
      if failure.None? {
        return Returns(());
      }
      ghost var tail := AfterFailure(c, failure.value, true, accountService.script);
      assert tail.inserted == [] && tail.insertCalls == 0;
      result := Recover(c, failure.value);
      ApplyThenFailure(st0, tr, tail, c.tokenAutorizacao);
    }

    /** `Handle`, with the fresh id and the local date as inputs: a hit in
        the idempotency table returns success and changes nothing;
        otherwise the saga runs as `Attempt` says. These two cases are
        `CriarSaga`'s. */
    method Handle(c: CriarTransferenciaCommand, newId: Guid, today: CalendarDate) returns (result: Outcome<()>)
      modifies this, repository, accountService
      ensures old(repository.GetByOriginAndRequestId(c.idContaOrigem, c.requestId)).Some? ==>
        result == Returns(()) && State() == old(State())
      ensures old(repository.GetByOriginAndRequestId(c.idContaOrigem, c.requestId)).None? ==>
        var run := Attempt(c, NewTransfer(c, newId, today), old(accountService.script), old(repository.faults), true);
        result == run.outcome && State() == Apply(old(State()), run, c.tokenAutorizacao)
    {
      var existing := repository.GetByOriginAndRequestId(c.idContaOrigem, c.requestId);
      if existing.Some? {
        return Returns(());
      }
      var transfer := NewTransferencia(newId, c.idContaOrigem, Empty, c.valor, today);
      result := Execute(c, transfer);
    }
  }
}
