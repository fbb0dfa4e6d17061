/** What the Portuguese saga promises, proved about `CriarSaga`: duplicates
    succeed with no effect, the order of the ledger movements, the bounds
    on compensation, a transfer stored only on success, and the wrapping of
    untyped failures. The lemmas at the end set the handler as written
    beside the handler its log messages and its repository describe. */
module CriarTransferenciaProperties {

  import opened Primitives
  import opened Guids
  import opened Exceptions
  import opened Commands
  import opened TransferenciaEntity
  import opened TransferenciaRepository
  import opened CompensationPolicy
  import opened CriarTransferenciaHandler

  /** A compensating credit is neither the debit nor the destination's
      credit: its request id carries the "-COMP" suffix. */
  lemma CompensationIsNotCredit(c: CriarTransferenciaCommand)
    ensures Compensation(c) != Credit(c) && Compensation(c) != Debit(c)
  {
    if c.requestId.Some? {
      assert |Compensation(c).requestId.value| == |c.requestId.value| + 5;
    } else {
      assert Compensation(c).requestId != Credit(c).requestId;
    }
  }

  /** What every `catch` clause run satisfies: it issues only compensating
      credits, at most `MaxRetries` of them, waits 1000 or 2000 ms, stores
      nothing and ends in an exception. */
  lemma AfterFailureShape(c: CriarTransferenciaCommand, e: Exception, debitOk: bool, ledger: Script)
    ensures var run := AfterFailure(c, e, debitOk, ledger);
      && |run.movements| <= MaxRetries
      && (forall i :: 0 <= i < |run.movements| ==> run.movements[i] == Compensation(c))
      && (forall i :: 0 <= i < |run.delays| ==> run.delays[i] == 1000 || run.delays[i] == 2000)
      && run.inserted == [] && run.insertCalls == 0
      && run.outcome.Throws?
  {
    DelaysBounded(ledger);
  }

  /** When everything answers success, the origin is debited, the
      destination credited and the transfer stored once, with `Guid.Empty`
      as its destination. */
  lemma HappyPath(c: CriarTransferenciaCommand, ledger: Script, store: Script, newId: Guid, today: CalendarDate)
    requires Answer(ledger, 0).None? && Answer(ledger, 1).None? && Answer(store, 0).None?
    ensures var run := CriarSaga(c, false, ledger, store, newId, today);
      && run == SagaRun(Returns(()), [Debit(c), Credit(c)], [], [NewTransfer(c, newId, today)], 1)
      && run.inserted[0].idContaCorrenteDestino == Empty && run.inserted[0].idContaCorrenteOrigem == c.idContaOrigem
      && run.inserted[0].valor == c.valor && ParseDate(run.inserted[0].dataMovimento.value) == Some(today)
  {
  }

  /** A call succeeds exactly when the lookup hit or the debit, the credit
      and the insert all succeed. */
  lemma SuccessOnlyWhenAllSucceed(c: CriarTransferenciaCommand, hit: bool, ledger: Script, store: Script,
                                  newId: Guid, today: CalendarDate)
    ensures CriarSaga(c, hit, ledger, store, newId, today).outcome.Returns? <==>
      hit || (Answer(ledger, 0).None? && Answer(ledger, 1).None? && Answer(store, 0).None?)
  {
    if !hit {
      var tr := TryBlock(Debit(c), Credit(c), ledger, store);
      if tr.failure.Some? {
        AfterFailureShape(c, tr.failure.value, true, Drop(ledger, |tr.movements|));
      }
    }
  }

  /** At most one transfer is stored per call, only when the call
      succeeds, and it is the one `Handle` built. A hit stores nothing. */
  lemma RecordOnlyOnSuccess(c: CriarTransferenciaCommand, hit: bool, ledger: Script, store: Script,
                            newId: Guid, today: CalendarDate)
    ensures var run := CriarSaga(c, hit, ledger, store, newId, today);
      && run.insertCalls <= 1
      && (run.inserted != [] <==> !hit && run.outcome.Returns?)
      && (run.inserted != [] ==> run.inserted == [NewTransfer(c, newId, today)])
  {
    if !hit {
      var tr := TryBlock(Debit(c), Credit(c), ledger, store);
      if tr.failure.Some? {
        AfterFailureShape(c, tr.failure.value, true, Drop(ledger, |tr.movements|));
      }
    }
  }

  /** The order of the movements: the debit comes first; the destination
      is credited only as the second movement and only after the debit
      succeeded; everything after the first two movements is a
      compensating credit, and there are at most `MaxRetries` of those.
      Waits are only 1000 or 2000 ms. */
  lemma MovementOrder(c: CriarTransferenciaCommand, hit: bool, ledger: Script, store: Script,
                      newId: Guid, today: CalendarDate)
    ensures var run := CriarSaga(c, hit, ledger, store, newId, today);
      && |run.movements| <= 2 + MaxRetries
      && (run.movements != [] ==> !hit && run.movements[0] == Debit(c))
      && (forall i :: 1 <= i < |run.movements| && run.movements[i] == Credit(c) ==> i == 1 && Answer(ledger, 0).None?)
      && (forall i :: 2 <= i < |run.movements| ==> run.movements[i] == Compensation(c))
      && (forall i :: 0 <= i < |run.delays| ==> run.delays[i] == 1000 || run.delays[i] == 2000)
  {
    if !hit {
      var tr := TryBlock(Debit(c), Credit(c), ledger, store);
      CompensationIsNotCredit(c);
      if tr.failure.Some? {
        var tail := AfterFailure(c, tr.failure.value, true, Drop(ledger, |tr.movements|));
        AfterFailureShape(c, tr.failure.value, true, Drop(ledger, |tr.movements|));
        var ms := tr.movements + tail.movements;
        assert forall i :: |tr.movements| <= i < |ms| ==> ms[i] == tail.movements[i - |tr.movements|];
      }
    }
  }

  /** A typed failure of a leg is rethrown as it is once a compensation
      attempt succeeds; when all three fail, the critical exception escapes
      instead, carrying the last attempt's failure. Either way nothing is
      stored. */
  lemma TypedFailureCompensates(c: CriarTransferenciaCommand, e: Exception, ledger: Script)
    requires e.IsTransferenciaException() && !e.CompensacaoFalhaException?
    ensures var run := AfterFailure(c, e, true, ledger);
      && 1 <= |run.movements| <= MaxRetries && run.inserted == []
      && (Exhausted(ledger) ==>
            && |run.movements| == MaxRetries
            && run.outcome == Throws(CompensacaoFalhaException(FailureMessage, Answer(ledger, MaxRetries - 1))))
      && (!Exhausted(ledger) ==> run.outcome == Throws(e) && Answer(ledger, |run.movements| - 1).None?)
  {
  }

  /** Any other exception, the critical one included, is wrapped as an
      INTERNAL_ERROR `TransferenciaException` keeping it as the inner
      exception, and nothing is compensated. */
  lemma OtherFailureIsWrapped(c: CriarTransferenciaCommand, e: Exception, ledger: Script)
    requires !e.IsTransferenciaException() || e.CompensacaoFalhaException?
    ensures var run := AfterFailure(c, e, true, ledger);
      && run.movements == [] && run.delays == []
      && run.outcome == Throws(TransferenciaException("Erro interno ao processar transferência", "INTERNAL_ERROR", Some(e)))
  {
  }

  /** As written: the handler never saves an idempotency row, so after a
      successful call the lookup still misses and the same command, sent
      again to a ledger that accepts it, debits the origin a second
      time. */
  lemma ResubmissionIsReexecuted(c: CriarTransferenciaCommand, s: SagaState, newId: Guid, today: CalendarDate,
                                 newId2: Guid, today2: CalendarDate)
    requires Lookup(s.idempotencia, c.idContaOrigem, c.requestId).None?
    requires Answer(s.ledger, 0).None? && Answer(s.ledger, 1).None? && Answer(s.ledger, 2).None? && Answer(s.ledger, 3).None?
    requires Answer(s.store, 0).None? && Answer(s.store, 1).None?
    ensures var first := CriarSaga(c, false, s.ledger, s.store, newId, today);
      var s' := Apply(s, first, c.tokenAutorizacao);
      var second := CriarSaga(c, Lookup(s'.idempotencia, c.idContaOrigem, c.requestId).Some?, s'.ledger, s'.store,
                              newId2, today2);
      && first.outcome.Returns? && second.outcome.Returns?
      && first.movements + second.movements == [Debit(c), Credit(c), Debit(c), Credit(c)]
      && |s'.transferencias + RowsOf(second.inserted)| == |s.transferencias| + 2
  {
    var first := CriarSaga(c, false, s.ledger, s.store, newId, today);
    var s' := Apply(s, first, c.tokenAutorizacao);
    assert Answer(s'.ledger, 0).None? && Answer(s'.ledger, 1).None? by {
      assert Answer(s'.ledger, 0) == Answer(s.ledger, 2) && Answer(s'.ledger, 1) == Answer(s.ledger, 3);
    }
    assert Answer(s'.store, 0) == Answer(s.store, 1);
  }

  /** The idempotency row the handler would save after a successful call,
      the way its repository's `SaveIdempotenciaAsync` builds it, with the
      serialised request and result as inputs. */
  function SavedAfter(c: CriarTransferenciaCommand, run: SagaRun, requisicao: NullableString, resultado: string)
    : (rows: seq<IdempotenciaRow>)
    ensures |rows| <= 1
    ensures rows != [] <==> run.outcome.Returns? && run.inserted != []
    ensures rows != [] ==> rows[0].key == IdempotencyKey(c.idContaOrigem, c.requestId) && rows[0].resultado == Some(resultado)
  {
    if run.outcome.Returns? && run.inserted != [] then [IdempotenciaFor(c.idContaOrigem, c.requestId, requisicao, Some(resultado))]
    else []
  }

  /** As intended: with the idempotency row saved after a success, sending
      the same command again issues no movement and stores nothing. A key
      whose first row has a null result would still block this: rows saved
      later under it are never read. */
  lemma IntendedResubmissionIsReplayed(c: CriarTransferenciaCommand, s: SagaState, newId: Guid, today: CalendarDate,
                                       requisicao: NullableString, resultado: string,
                                       newId2: Guid, today2: CalendarDate)
    requires FirstWithKey(s.idempotencia, IdempotencyKey(c.idContaOrigem, c.requestId)).None?
    ensures var first := CriarSaga(c, false, s.ledger, s.store, newId, today);
      var s' := Apply(s, first, c.tokenAutorizacao);
      var idempotencia' := s'.idempotencia + SavedAfter(c, first, requisicao, resultado);
      var second := CriarSaga(c, Lookup(idempotencia', c.idContaOrigem, c.requestId).Some?, s'.ledger, s'.store,
                              newId2, today2);
      first.outcome.Returns? ==> second == SagaRun(Returns(()), [], [], [], 0)
  {
    var first := CriarSaga(c, false, s.ledger, s.store, newId, today);
    if first.outcome.Returns? {
      RecordOnlyOnSuccess(c, false, s.ledger, s.store, newId, today);
      LookupAfterSave(s.idempotencia, c.idContaOrigem, c.requestId, requisicao, resultado);
    }
  }

  /** As written: `WasDebitSuccessful` answers true, so when the debit
      itself fails with a `TransferenciaException`, the origin is still
      sent a compensating credit of the full value. */
  lemma DebitFailureCompensates(c: CriarTransferenciaCommand, ledger: Script, store: Script, newId: Guid, today: CalendarDate)
    requires Answer(ledger, 0).Some? && Answer(ledger, 0).value.IsTransferenciaException()
    requires !Answer(ledger, 0).value.CompensacaoFalhaException?
    ensures var run := CriarSaga(c, false, ledger, store, newId, today);
      |run.movements| >= 2 && run.movements[1] == Compensation(c)
      && run.movements[1].kind == "C" && run.movements[1].value == c.valor && run.movements[1].accountRef.None?
  {
    var tail := AfterFailure(c, Answer(ledger, 0).value, true, Drop(ledger, 1));
    assert tail.movements[0] == Compensation(c);
  }

  /** As intended: a credit (the destination's or a compensating one) is
      issued only after the debit succeeded, and a failed debit issues
      nothing more and is rethrown as it is. */
  lemma IntendedCreditsOnlyAfterDebit(c: CriarTransferenciaCommand, hit: bool, ledger: Script, store: Script,
                                      newId: Guid, today: CalendarDate)
    ensures var run := CriarSagaIntended(c, hit, ledger, store, newId, today);
      (forall i :: 0 <= i < |run.movements| && run.movements[i].kind == "C" ==> Answer(ledger, 0).None?)
    ensures var run := CriarSagaIntended(c, hit, ledger, store, newId, today);
      !hit && Answer(ledger, 0).Some? && Answer(ledger, 0).value.IsTransferenciaException()
      && !Answer(ledger, 0).value.CompensacaoFalhaException? ==>
        run.movements == [Debit(c)] && run.outcome == Throws(Answer(ledger, 0).value)
  {
    if !hit && Answer(ledger, 0).Some? {
      assert Debit(c).kind == "D";
    }
  }
}
