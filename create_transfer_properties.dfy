/** What the English saga promises, proved about `CreateSaga`: the happy
    path, the order of the ledger movements, the bounds on compensation,
    at most one stored record per call, and idempotency across calls. The
    debit-failure lemmas at the end set the handler as written beside the
    handler its comments describe. */
module CreateTransferProperties {

  import opened Primitives
  import opened Guids
  import opened Exceptions
  import opened Commands
  import opened TransferEntity
  import opened TransferRepository
  import opened CompensationPolicy
  import opened CreateTransferHandler

  /** What every `catch` clause run satisfies: it issues only compensating
      credits, at most `MaxRetries` of them, waits 1000 or 2000 ms, stores
      at most the marked transfer (never as `CompensationFailed`), always
      ends in an exception, and stores nothing when that exception is the
      critical one. */
  predicate CatchShape(c: CreateTransferCommand, t: TransferData, run: SagaRun) {
    && |run.movements| <= MaxRetries
    && (forall i :: 0 <= i < |run.movements| ==> run.movements[i] == Compensation(c))
    && (forall i :: 0 <= i < |run.delays| ==> run.delays[i] == 1000 || run.delays[i] == 2000)
    && |run.inserted| <= 1 && run.insertCalls <= 1
    && (run.inserted != [] ==> SameIdentity(run.inserted[0], t) && run.inserted[0].status in {Failed, Compensated})
    && run.outcome.Throws?
    && (run.outcome.exception.CompensationFailedException? ==> run.inserted == [])
  }

  lemma InsertShape(c: CreateTransferCommand, t: TransferData, record: TransferData, e: Exception,
                    movements: seq<MovementRequest>, delays: seq<nat>, store: Script)
    requires SameIdentity(record, t) && record.status in {Failed, Compensated} && !e.CompensationFailedException?
    requires |movements| <= MaxRetries && forall i :: 0 <= i < |movements| ==> movements[i] == Compensation(c)
    requires forall i :: 0 <= i < |delays| ==> delays[i] == 1000 || delays[i] == 2000
    requires Answer(store, 0).Some? ==> !Answer(store, 0).value.CompensationFailedException?
    ensures CatchShape(c, t, Insert(record, Throws(e), movements, delays, store, 0))
  {
  }

  /** Every run of the `catch` clauses has `CatchShape`, provided the store
      never fails with the critical exception (it cannot: only the
      compensation loop raises it). */
  lemma AfterFailureShape(c: CreateTransferCommand, t: TransferData, e: Exception, debitOk: bool,
                          ledger: Script, store: Script, markedAt: Timestamp)
    requires Answer(store, 0).Some? ==> !Answer(store, 0).value.CompensationFailedException?
    ensures CatchShape(c, t, AfterFailure(c, t, e, debitOk, ledger, store, markedAt))
  {
    var internal := NewTransferException(InternalErrorMessage, "INTERNAL_ERROR", Some(e));
    if e.IsTransferException() && !e.CompensationFailedException? {
      var comps := Repeat(Compensation(c), Attempts(ledger));
      DelaysBounded(ledger);
      if !debitOk {
        InsertShape(c, t, Marked(t, Failed, e.Message(), e.FailureType(), markedAt), e, [], [], store);
      } else if Critical(ledger).None? {
        InsertShape(c, t, Marked(t, Compensated, e.Message(), e.FailureType(), markedAt), e, comps, Delays(ledger), store);
      }
    } else {
      InsertShape(c, t, Marked(t, Failed, e.Message(), "INTERNAL_ERROR", markedAt), internal, [], [], store);
    }
  }

  /** The store never answers with the critical exception. */
  predicate OrdinaryStore(store: Script) {
    forall i :: 0 <= i < |store| && store[i].Some? ==> !store[i].value.CompensationFailedException?
  }

  lemma OrdinaryStoreAnswer(store: Script, n: nat)
    requires OrdinaryStore(store)
    ensures Answer(Drop(store, n), 0).Some? ==> !Answer(Drop(store, n), 0).value.CompensationFailedException?
  {
  }

  /** The first `catch` clause after a successful debit: one to three
      compensating credits of the transferred value back to the origin;
      when all three fail, the critical exception with the last failure
      inside and nothing stored; otherwise the transfer stored as
      `Compensated` with the original failure, which is rethrown, unless
      the store itself fails. */
  lemma TypedFailureCompensates(c: CreateTransferCommand, t: TransferData, e: Exception,
                                ledger: Script, store: Script, markedAt: Timestamp)
    requires e.IsTransferException() && !e.CompensationFailedException?
    ensures var run := AfterFailure(c, t, e, true, ledger, store, markedAt);
      && 1 <= |run.movements| <= MaxRetries
      && (forall i :: 0 <= i < |run.movements| ==>
            run.movements[i].kind == "C" && run.movements[i].accountRef.None? && run.movements[i].value == c.value)
      && (Exhausted(ledger) ==>
            && |run.movements| == MaxRetries && run.inserted == [] && run.insertCalls == 0
            && run.outcome == Throws(CompensationFailedException(FailureMessage, Answer(ledger, MaxRetries - 1))))
      && (!Exhausted(ledger) ==>
            && Answer(ledger, |run.movements| - 1).None? && run.insertCalls == 1
            && (Answer(store, 0).None? ==>
                  run.inserted == [Marked(t, Compensated, e.Message(), e.FailureType(), markedAt)] && run.outcome == Throws(e))
            && (Answer(store, 0).Some? ==> run.inserted == [] && run.outcome == Throws(Answer(store, 0).value)))
  {
  }

  /** The second `catch` clause, for any other exception (the critical one
      included): nothing is compensated, the transfer is stored as `Failed`
      with kind INTERNAL_ERROR, and the exception is wrapped as the inner
      exception of an INTERNAL_ERROR `TransferException`, unless the store
      itself fails. */
  lemma InternalErrorIsWrapped(c: CreateTransferCommand, t: TransferData, e: Exception, debitOk: bool,
                               ledger: Script, store: Script, markedAt: Timestamp)
    requires !e.IsTransferException() || e.CompensationFailedException?
    ensures var run := AfterFailure(c, t, e, debitOk, ledger, store, markedAt);
      && run.movements == [] && run.delays == [] && run.insertCalls == 1
      && (Answer(store, 0).None? ==>
            && run.inserted == [Marked(t, Failed, e.Message(), "INTERNAL_ERROR", markedAt)]
            && run.outcome == Throws(TransferException(InternalErrorMessage, "INTERNAL_ERROR", Some(e))))
      && (Answer(store, 0).Some? ==> run.inserted == [] && run.outcome == Throws(Answer(store, 0).value))
  {
  }

  /** A compensating credit is never the credit of the destination: its
      request id carries the "-COMP" suffix. */
  lemma CompensationIsNotCredit(c: CreateTransferCommand)
    requires c.requestId.Some?
    ensures Compensation(c) != Credit(c) && Compensation(c) != Debit(c)
  {
    assert |Compensation(c).requestId.value| == |c.requestId.value| + 5;
  }

  /** When everything answers success, the origin is debited, the
      destination credited and the transfer stored once, as `Success`. */
  lemma HappyPath(c: CreateTransferCommand, ledger: Script, store: Script, newId: Guid, createdAt: Timestamp, markedAt: Timestamp)
    requires c.requestId.Some?
    requires Answer(ledger, 0).None? && Answer(ledger, 1).None? && Answer(store, 0).None?
    ensures CreateSaga(c, None, ledger, store, newId, createdAt, markedAt)
         == SagaRun(Returns(()), [Debit(c), Credit(c)], [],
                    [Created(newId, c.requestId.value, c.originAccountId, Empty, c.value, createdAt)], 1)
  {
  }

  /** A call succeeds only by replaying a stored success or when the debit,
      the credit and the insert all succeed. */
  lemma SuccessOnlyWhenAllSucceed(c: CreateTransferCommand, stored: Option<TransferData>, ledger: Script, store: Script,
                                  newId: Guid, createdAt: Timestamp, markedAt: Timestamp)
    requires OrdinaryStore(store)
    ensures CreateSaga(c, stored, ledger, store, newId, createdAt, markedAt).outcome.Returns? <==>
      if stored.Some? then stored.value.status == Success
      else c.requestId.Some? && Answer(ledger, 0).None? && Answer(ledger, 1).None? && Answer(store, 0).None?
  {
    if stored.None? && c.requestId.Some? {
      var t := Created(newId, c.requestId.value, c.originAccountId, Empty, c.value, createdAt);
      var tr := TryBlock(Debit(c), Credit(c), ledger, store);
      if tr.failure.Some? {
        OrdinaryStoreAnswer(store, tr.insertCalls);
        AfterFailureShape(c, t, tr.failure.value, true, Drop(ledger, |tr.movements|), Drop(store, tr.insertCalls), markedAt);
      }
    }
  }

  /** The order of the movements: the debit comes first; the destination
      is credited only as the second movement and only after the debit
      succeeded; everything after the first two movements is a compensating
      credit; and there are at most `MaxRetries` of those. Waits are only
      1000 or 2000 ms. */
  lemma MovementOrder(c: CreateTransferCommand, stored: Option<TransferData>, ledger: Script, store: Script,
                      newId: Guid, createdAt: Timestamp, markedAt: Timestamp)
    requires OrdinaryStore(store)
    ensures var run := CreateSaga(c, stored, ledger, store, newId, createdAt, markedAt);
      && |run.movements| <= 2 + MaxRetries
      && (run.movements != [] ==> run.movements[0] == Debit(c))
      && (forall i :: 1 <= i < |run.movements| && run.movements[i] == Credit(c) ==> i == 1 && Answer(ledger, 0).None?)
      && (forall i :: 2 <= i < |run.movements| ==> run.movements[i] == Compensation(c))
      && (forall i :: 0 <= i < |run.delays| ==> run.delays[i] == 1000 || run.delays[i] == 2000)
  {
    if stored.None? && c.requestId.Some? {
      var t := Created(newId, c.requestId.value, c.originAccountId, Empty, c.value, createdAt);
      var tr := TryBlock(Debit(c), Credit(c), ledger, store);
      CompensationIsNotCredit(c);
      if tr.failure.Some? {
        OrdinaryStoreAnswer(store, tr.insertCalls);
        var tail := AfterFailure(c, t, tr.failure.value, true, Drop(ledger, |tr.movements|), Drop(store, tr.insertCalls), markedAt);
        AfterFailureShape(c, t, tr.failure.value, true, Drop(ledger, |tr.movements|), Drop(store, tr.insertCalls), markedAt);
        var ms := tr.movements + tail.movements;
        assert forall i :: |tr.movements| <= i < |ms| ==> ms[i] == tail.movements[i - |tr.movements|];
      }
    }
  }

  /** At most one record is stored per call; it is the new transfer, under
      the command's origin and request id, and it is never stored as
      `CompensationFailed`. It is `Success` exactly when the call
      succeeded. When the call ends in the critical exception, nothing is
      stored. */
  lemma AtMostOneRecord(c: CreateTransferCommand, stored: Option<TransferData>, ledger: Script, store: Script,
                        newId: Guid, createdAt: Timestamp, markedAt: Timestamp)
    requires OrdinaryStore(store)
    ensures var run := CreateSaga(c, stored, ledger, store, newId, createdAt, markedAt);
      && |run.inserted| <= 1 && run.insertCalls <= 2
      && (run.inserted != [] ==>
            && stored.None? && c.requestId.Some?
            && run.inserted[0].id == newId && run.inserted[0].requestId == c.requestId.value
            && run.inserted[0].originAccountId == c.originAccountId && run.inserted[0].value == c.value
            && run.inserted[0].status != CompensationFailed
            && (run.inserted[0].status == Success <==> run.outcome.Returns?))
      && (run.outcome.Throws? && run.outcome.exception.CompensationFailedException? && stored.None? ==> run.inserted == [])
  {
    if stored.None? && c.requestId.Some? {
      var t := Created(newId, c.requestId.value, c.originAccountId, Empty, c.value, createdAt);
      var tr := TryBlock(Debit(c), Credit(c), ledger, store);
      if tr.failure.Some? {
        OrdinaryStoreAnswer(store, tr.insertCalls);
        AfterFailureShape(c, t, tr.failure.value, true, Drop(ledger, |tr.movements|), Drop(store, tr.insertCalls), markedAt);
      }
    }
  }

  /** The store's view of a call: the table after it, given the table before. */
  function RowsAfter(c: CreateTransferCommand, rows: seq<TransferRow>, ledger: Script, store: Script,
                     newId: Guid, createdAt: Timestamp, markedAt: Timestamp): seq<TransferRow>
    requires WellFormed(rows)
  {
    rows + RowsOf(CreateSaga(c, Lookup(rows, c.originAccountId, c.requestId), ledger, store, newId, createdAt, markedAt).inserted)
  }

  /** A call keeps every row readable and never stores a second row under
      an origin and request id that already have one. */
  lemma KeysStayUnique(c: CreateTransferCommand, rows: seq<TransferRow>, ledger: Script, store: Script,
                       newId: Guid, createdAt: Timestamp, markedAt: Timestamp)
    requires WellFormed(rows) && UniqueKeys(rows) && OrdinaryStore(store)
    ensures WellFormed(RowsAfter(c, rows, ledger, store, newId, createdAt, markedAt))
    ensures UniqueKeys(RowsAfter(c, rows, ledger, store, newId, createdAt, markedAt))
  {
    var stored := Lookup(rows, c.originAccountId, c.requestId);
    var run := CreateSaga(c, stored, ledger, store, newId, createdAt, markedAt);
    AtMostOneRecord(c, stored, ledger, store, newId, createdAt, markedAt);
    if run.inserted != [] {
      var r := run.inserted[0];
      assert RowsOf(run.inserted) == [ToRow(r)];
      LookupAfterInsert(rows, r);
      AppendFreshKey(rows, r);
    } else {
      assert rows + RowsOf(run.inserted) == rows;
    }
  }

  /** Idempotency: once a call has stored a record, repeating the command
      issues no movement and stores nothing, and succeeds exactly when the
      first call did. */
  lemma ResubmissionIsReplayed(c: CreateTransferCommand, rows: seq<TransferRow>, ledger: Script, store: Script,
                               newId: Guid, createdAt: Timestamp, markedAt: Timestamp,
                               ledger2: Script, store2: Script, newId2: Guid, createdAt2: Timestamp, markedAt2: Timestamp)
    requires WellFormed(rows) && UniqueKeys(rows) && OrdinaryStore(store)
    requires CreateSaga(c, Lookup(rows, c.originAccountId, c.requestId), ledger, store, newId, createdAt, markedAt).inserted != []
    ensures WellFormed(RowsAfter(c, rows, ledger, store, newId, createdAt, markedAt))
    ensures var first := CreateSaga(c, Lookup(rows, c.originAccountId, c.requestId), ledger, store, newId, createdAt, markedAt);
      var rows' := RowsAfter(c, rows, ledger, store, newId, createdAt, markedAt);
      var second := CreateSaga(c, Lookup(rows', c.originAccountId, c.requestId), ledger2, store2, newId2, createdAt2, markedAt2);
      && second.movements == [] && second.inserted == [] && second.insertCalls == 0
      && (second.outcome.Returns? <==> first.outcome.Returns?)
  {
    var stored := Lookup(rows, c.originAccountId, c.requestId);
    var first := CreateSaga(c, stored, ledger, store, newId, createdAt, markedAt);
    AtMostOneRecord(c, stored, ledger, store, newId, createdAt, markedAt);
    var r := first.inserted[0];
    assert RowsOf(first.inserted) == [ToRow(r)];
    LookupAfterInsert(rows, r);
    var rows' := rows + [ToRow(r)];
    assert Lookup(rows', c.originAccountId, c.requestId).value.status == r.status;
  }

  /** A replayed `Compensated` record throws the same message and failure
      type as the call that stored it. */
  lemma CompensatedReplayMatches(c: CreateTransferCommand, t: TransferData, e: Exception, ledger: Script, store: Script,
                                 markedAt: Timestamp)
    requires e.IsTransferException() && !e.CompensationFailedException?
    requires AfterFailure(c, t, e, true, ledger, store, markedAt).inserted != []
    ensures var record := AfterFailure(c, t, e, true, ledger, store, markedAt).inserted[0];
      record.status == Compensated
      && Replay(record) == Throws(TransferException(e.Message(), e.FailureType(), None))
      && AfterFailure(c, t, e, true, ledger, store, markedAt).outcome == Throws(e)
  {
  }

  /** As written: `WasDebitSuccessful` answers true, so when the debit
      itself fails with a `TransferException`, the origin is still sent a
      compensating credit of the full value. */
  lemma DebitFailureCompensates(c: CreateTransferCommand, ledger: Script, store: Script,
                                newId: Guid, createdAt: Timestamp, markedAt: Timestamp)
    requires c.requestId.Some?
    requires Answer(ledger, 0).Some? && Answer(ledger, 0).value.IsTransferException()
    requires !Answer(ledger, 0).value.CompensationFailedException?
    ensures var run := CreateSaga(c, None, ledger, store, newId, createdAt, markedAt);
      |run.movements| >= 2 && run.movements[1] == Compensation(c)
      && run.movements[1].kind == "C" && run.movements[1].value == c.value && run.movements[1].accountRef.None?
  {
    var tail := AfterFailure(c, Created(newId, c.requestId.value, c.originAccountId, Empty, c.value, createdAt),
                             Answer(ledger, 0).value, true, Drop(ledger, 1), store, markedAt);
    assert tail.movements[0] == Compensation(c);
  }

  /** As intended: a credit (the destination's or a compensating one) is
      issued only after the debit succeeded, and a failed debit issues
      nothing more and stores the transfer as `Failed`. */
  lemma IntendedCreditsOnlyAfterDebit(c: CreateTransferCommand, stored: Option<TransferData>, ledger: Script, store: Script,
                                      newId: Guid, createdAt: Timestamp, markedAt: Timestamp)
    ensures var run := CreateSagaIntended(c, stored, ledger, store, newId, createdAt, markedAt);
      (forall i :: 0 <= i < |run.movements| && run.movements[i].kind == "C" ==> Answer(ledger, 0).None?)
    ensures var run := CreateSagaIntended(c, stored, ledger, store, newId, createdAt, markedAt);
      stored.None? && c.requestId.Some? && Answer(ledger, 0).Some? && Answer(ledger, 0).value.IsTransferException()
      && !Answer(ledger, 0).value.CompensationFailedException? ==>
        run.movements == [Debit(c)] && (run.inserted != [] ==> run.inserted[0].status == Failed)
  {
    var run := CreateSagaIntended(c, stored, ledger, store, newId, createdAt, markedAt);
    if stored.None? && c.requestId.Some? && Answer(ledger, 0).Some? {
      assert Debit(c).kind == "D";
      var t := Created(newId, c.requestId.value, c.originAccountId, Empty, c.value, createdAt);
      var e := Answer(ledger, 0).value;
      if e.IsTransferException() && !e.CompensationFailedException? {
        assert run == Prefixed([Debit(c)], 0, Insert(Marked(t, Failed, e.Message(), e.FailureType(), markedAt), Throws(e), [], [], store, 0));
      } else {
        assert run == Prefixed([Debit(c)], 0, AfterInternalError(t, e, store, markedAt));
      }
    }
  }
}
