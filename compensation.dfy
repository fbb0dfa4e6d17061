/** What both sagas' `CompensateAsync` loops do, as functions of the ledger's
    answers: up to `MaxRetries` attempts of the same compensating credit,
    stopping at the first success, with a wait of `BackoffDelays[attempt-1]`
    after every failed attempt but the last. The `try` block the two sagas
    share is defined here too. */
module CompensationPolicy {

  import opened Primitives
  import opened Text
  import opened Exceptions
  import opened Commands

  const MaxRetries: nat := 3
  const BackoffDelays: seq<nat> := [1000, 2000, 4000]

  /** The message of the critical exception, with `maxRetries` interpolated. */
  const FailureMessage := "Falha crítica na compensação após " + NatToString(MaxRetries) + " tentativas. Contate o suporte."

  /** The compensating credit: `$"{requestId}-COMP"` (a null id prints as
      nothing), no account reference (the origin is meant), kind "C". */
  function CompensationRequest(requestId: NullableString, value: Decimal): MovementRequest {
    MovementRequest(Some(requestId.GetOr("") + "-COMP"), None, value, "C")
  }

  /** The number of attempts made when the loop is at `attempt` (1-based)
      and the ledger answers `ans` from the first attempt on. */
  function AttemptsFrom(ans: Script, attempt: nat): (n: nat)
    requires 1 <= attempt <= MaxRetries
    ensures attempt <= n <= MaxRetries
    ensures forall i :: attempt - 1 <= i < n - 1 ==> Answer(ans, i).Some?
    ensures n < MaxRetries ==> Answer(ans, n - 1).None?
    decreases MaxRetries - attempt
  {
    if Answer(ans, attempt - 1).None? || attempt == MaxRetries then attempt
    else AttemptsFrom(ans, attempt + 1)
  }

  /** The number of compensation calls: at least one, at most three; all
      but the last failed, and the last succeeded unless it was the third. */
  function Attempts(ans: Script): (n: nat)
    ensures 1 <= n <= MaxRetries
    ensures forall i :: 0 <= i < n - 1 ==> Answer(ans, i).Some?
    ensures n < MaxRetries ==> Answer(ans, n - 1).None?
  {
    AttemptsFrom(ans, 1)
  }

  /** All three attempts failed. */
  predicate Exhausted(ans: Script) {
    forall i :: 0 <= i < MaxRetries ==> Answer(ans, i).Some?
  }

  /** The exception of the last attempt when every attempt failed; it
      becomes the inner exception of the critical one. */
  function LastFailure(ans: Script): (r: Option<Exception>)
    ensures r.Some? <==> Exhausted(ans)
    ensures r.Some? ==> r == Answer(ans, MaxRetries - 1) && Attempts(ans) == MaxRetries
  {
    if Attempts(ans) == MaxRetries then Answer(ans, MaxRetries - 1) else None
  }

  /** The waits requested: one after each failed attempt but the last. */
  function Delays(ans: Script): (d: seq<nat>)
    ensures |d| == Attempts(ans) - 1
    ensures forall i :: 0 <= i < |d| ==> d[i] == BackoffDelays[i]
  {
    BackoffDelays[..Attempts(ans) - 1]
  }

  /** Only 1000 ms and 2000 ms are ever requested; the 4000 ms entry is
      never reached. */
  lemma DelaysBounded(ans: Script)
    ensures forall i :: 0 <= i < |Delays(ans)| ==> Delays(ans)[i] in {1000, 2000}
    ensures 4000 !in Delays(ans)
  {
    var d := Delays(ans);
    assert |d| <= 2;
    forall i | 0 <= i < |d| ensures d[i] in {1000, 2000} {
      assert d[i] == BackoffDelays[i];
    }
  }

  /** `n` copies of a request. */
  function Repeat(r: MovementRequest, n: nat): (s: seq<MovementRequest>)
    ensures |s| == n && forall i :: 0 <= i < n ==> s[i] == r
  {
    seq(n, _ => r)
  }

  lemma RepeatSnoc(r: MovementRequest, n: nat)
    ensures Repeat(r, n) + [r] == Repeat(r, n + 1)
  {
  }

  /** The loop continued from `attempt` makes as many attempts in all as it
      would from the start, once the earlier attempts have failed. */
  lemma AttemptsFromStep(ans: Script, attempt: nat)
    requires 1 <= attempt < MaxRetries && Answer(ans, attempt - 1).Some?
    ensures AttemptsFrom(ans, attempt + 1) == AttemptsFrom(ans, attempt)
  {
  }

  /** One more element of a prefix. */
  lemma TakeOneMore(s: seq<nat>, k: nat)
    requires k < |s|
    ensures s[..k + 1] == s[..k] + [s[k]]
  {
  }

  /** What the `try` block of either handler did: the exception it ended
      with, if any, the movements it issued and how many inserts it
      attempted. */
  datatype TryRun = TryRun(failure: Option<Exception>, movements: seq<MovementRequest>, insertCalls: nat)

  /** The `try` block both handlers share: the debit, the credit, then the
      insert, stopping at the first exception. */
  function TryBlock(debit: MovementRequest, credit: MovementRequest, ledger: Script, store: Script): (r: TryRun)
    ensures 1 <= |r.movements| <= 2 && r.movements[0] == debit
    ensures |r.movements| == 2 ==> r.movements[1] == credit
    ensures |r.movements| == 2 <==> Answer(ledger, 0).None?
    ensures r.insertCalls <= 1
    ensures r.insertCalls == 1 <==> Answer(ledger, 0).None? && Answer(ledger, 1).None?
    ensures r.failure.None? <==> Answer(ledger, 0).None? && Answer(ledger, 1).None? && Answer(store, 0).None?
    ensures Answer(ledger, 0).Some? ==> r.failure == Answer(ledger, 0)
    ensures Answer(ledger, 0).None? && Answer(ledger, 1).Some? ==> r.failure == Answer(ledger, 1)
    ensures Answer(ledger, 0).None? && Answer(ledger, 1).None? ==> r.failure == Answer(store, 0)
  {
    if Answer(ledger, 0).Some? then TryRun(Answer(ledger, 0), [debit], 0)
    else if Answer(ledger, 1).Some? then TryRun(Answer(ledger, 1), [debit, credit], 0)
    else TryRun(Answer(store, 0), [debit, credit], 1)
  }
}
