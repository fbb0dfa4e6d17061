/** The ledger as the sagas see it: `IAccountServiceClient` /
    `IContaCorrenteServiceClient`, an interface whose implementation the
    handlers cannot see. Its answers are scripted, one per call, and every
    movement it is asked for is logged. */
module Ledger {

  import opened Primitives
  import opened Exceptions
  import opened Commands
  import opened CompensationPolicy
  import LedgerClient

  /** One `CreateMovementAsync` call: the movement and the bearer token. */
  datatype Call = Call(request: MovementRequest, token: NullableString)

  class LedgerService {
    /** What the remaining calls will answer. */
    var script: Script
    /** Every call made so far, oldest first. */
    ghost var calls: seq<Call>

    constructor(script: Script)
      ensures this.script == script && calls == []
    {
      this.script := script;
      calls := [];
    }

    /** Movements issued so far, in order. */
    ghost function Issued(): seq<MovementRequest>
      reads this
    {
      seq(|calls|, i requires 0 <= i < |calls| reads this => calls[i].request)
    }

    /** Issues one movement; the answer is the head of the script. */
    method CreateMovement(request: MovementRequest, token: NullableString) returns (failure: Option<Exception>)
      modifies this
      ensures failure == Answer(old(script), 0)
      ensures script == Drop(old(script), 1)
      ensures calls == old(calls) + [Call(request, token)]
    {
      failure := Answer(script, 0);
      script := Drop(script, 1);
      calls := calls + [Call(request, token)];
    }
  }

  /** The calls made for `movements`, in order, each with the bearer token. */
  function CallsOf(movements: seq<MovementRequest>, token: NullableString): (calls: seq<Call>)
    ensures |calls| == |movements| && forall i :: 0 <= i < |calls| ==> calls[i] == Call(movements[i], token)
  {
    seq(|movements|, i requires 0 <= i < |movements| => Call(movements[i], token))
  }

  lemma CallsOfAppend(a: seq<MovementRequest>, b: seq<MovementRequest>, token: NullableString)
    ensures CallsOf(a + b, token) == CallsOf(a, token) + CallsOf(b, token)
  {
  }

  /** One more call of the same request, seen on the ledger. */
  lemma OneMoreCall(ledger: Script, calls: seq<Call>, r: MovementRequest, n: nat, token: NullableString)
    ensures Drop(Drop(ledger, n), 1) == Drop(ledger, n + 1)
    ensures calls + CallsOf(Repeat(r, n), token) + [Call(r, token)] == calls + CallsOf(Repeat(r, n + 1), token)
  {
    DropDrop(ledger, n, 1);
    RepeatSnoc(r, n);
    CallsOfAppend(Repeat(r, n), [r], token);
    assert CallsOf([r], token) == [Call(r, token)];
  }

  /** The script of a ledger reached through the English HTTP client, given
      the exchanges its calls end in. */
  function AccountServiceScript(exchanges: seq<LedgerClient.HttpOutcome>): (s: Script)
    ensures |s| == |exchanges|
    ensures forall i :: 0 <= i < |s| ==> s[i] == LedgerClient.AccountServiceFailure(exchanges[i])
  {
    seq(|exchanges|, i requires 0 <= i < |exchanges| => LedgerClient.AccountServiceFailure(exchanges[i]))
  }

  /** The same for the Portuguese client. */
  function ContaCorrenteScript(exchanges: seq<LedgerClient.HttpOutcome>): (s: Script)
    ensures |s| == |exchanges|
    ensures forall i :: 0 <= i < |s| ==> s[i] == LedgerClient.ContaCorrenteFailure(exchanges[i])
  {
    seq(|exchanges|, i requires 0 <= i < |exchanges| => LedgerClient.ContaCorrenteFailure(exchanges[i]))
  }

  /** Every failure a real English client produces is an ordinary
      `TransferException`. */
  lemma AccountServiceScriptOrdinary(exchanges: seq<LedgerClient.HttpOutcome>, i: nat)
    ensures var a := Answer(AccountServiceScript(exchanges), i);
      a.Some? ==> a.value.IsTransferException() && !a.value.CompensationFailedException?
  {
    if i < |exchanges| {
      LedgerClient.ClientFailuresAreOrdinary(exchanges[i]);
    }
  }

  lemma ContaCorrenteScriptOrdinary(exchanges: seq<LedgerClient.HttpOutcome>, i: nat)
    ensures var a := Answer(ContaCorrenteScript(exchanges), i);
      a.Some? ==> a.value.IsTransferenciaException() && !a.value.CompensacaoFalhaException?
  {
    if i < |exchanges| {
      LedgerClient.ClientFailuresAreOrdinary(exchanges[i]);
    }
  }
}
