/** The exceptions the core throws and catches. C# exceptions become values
    of one datatype; a call that may throw returns an `Outcome`. The typed
    failures carry a `FailureType`; the two critical kinds are subtypes of
    the typed ones whose `FailureType` is always "COMPENSATION_ERROR". */
module Exceptions {

  import opened Primitives

  /** FluentValidation's `ValidationFailure`, reduced to what is read. */
  datatype ValidationFailure = ValidationFailure(propertyName: string, errorMessage: string)

  datatype Exception =
    | TransferException(message: string, failureType: string, inner: Option<Exception>)
    | CompensationFailedException(message: string, inner: Option<Exception>)
    | TransferenciaException(message: string, failureType: string, inner: Option<Exception>)
    | CompensacaoFalhaException(message: string, inner: Option<Exception>)
    | ValidationException(message: string, errors: seq<ValidationFailure>)
    | UnauthorizedAccessException(message: string)
    | ArgumentException(message: string, paramName: string)
    | ArgumentNullException(paramName: string)
    | HttpRequestException(message: string)
    | TaskCanceledException(message: string)
    | OtherException(message: string)
  {
    /** `ex is TransferException`: the class itself or its critical subtype. */
    predicate IsTransferException() {
      TransferException? || CompensationFailedException?
    }

    /** `ex is TransferenciaException`: the class itself or its critical subtype. */
    predicate IsTransferenciaException() {
      TransferenciaException? || CompensacaoFalhaException?
    }

    /** The get-only `FailureType` property of the typed failures. */
    function FailureType(): string
      requires IsTransferException() || IsTransferenciaException()
    {
      match this
      case TransferException(_, t, _) => t
      case TransferenciaException(_, t, _) => t
      case CompensationFailedException(_, _) => "COMPENSATION_ERROR"
      case CompensacaoFalhaException(_, _) => "COMPENSATION_ERROR"
    }

    /** `Exception.Message`. The argument exceptions append their parameter
        name the way .NET formats it. */
    function Message(): string {
      match this
      case TransferException(m, _, _) => m
      case CompensationFailedException(m, _) => m
      case TransferenciaException(m, _, _) => m
      case CompensacaoFalhaException(m, _) => m
      case ValidationException(m, _) => m
      case UnauthorizedAccessException(m) => m
      case ArgumentException(m, p) => m + " (Parameter '" + p + "')"
      case ArgumentNullException(p) => "Value cannot be null. (Parameter '" + p + "')"
      case HttpRequestException(m) => m
      case TaskCanceledException(m) => m
      case OtherException(m) => m
    }

    /** `Exception.InnerException`. */
    function InnerException(): Option<Exception> {
      match this
      case TransferException(_, _, i) => i
      case CompensationFailedException(_, i) => i
      case TransferenciaException(_, _, i) => i
      case CompensacaoFalhaException(_, i) => i
      case _ => None
    }
  }

  /** The two constructors of `TransferException`; `inner` is `None` for the
      two-argument one. */
  function NewTransferException(message: string, failureType: string, inner: Option<Exception>): (e: Exception)
    ensures e.IsTransferException() && !e.CompensationFailedException? && !e.IsTransferenciaException()
    ensures e.Message() == message && e.FailureType() == failureType && e.InnerException() == inner
  {
    TransferException(message, failureType, inner)
  }

  /** The two constructors of `TransferenciaException`. */
  function NewTransferenciaException(message: string, failureType: string, inner: Option<Exception>): (e: Exception)
    ensures e.IsTransferenciaException() && !e.CompensacaoFalhaException? && !e.IsTransferException()
    ensures e.Message() == message && e.FailureType() == failureType && e.InnerException() == inner
  {
    TransferenciaException(message, failureType, inner)
  }

  /** The two constructors of `CompensationFailedException`: a
      `TransferException` whose kind is fixed, whatever the caller passes. */
  function NewCompensationFailedException(message: string, inner: Option<Exception>): (e: Exception)
    ensures e.IsTransferException() && e.CompensationFailedException?
    ensures e.Message() == message && e.FailureType() == "COMPENSATION_ERROR" && e.InnerException() == inner
  {
    CompensationFailedException(message, inner)
  }

  /** The two constructors of `CompensacaoFalhaException`: a
      `TransferenciaException` whose kind is fixed. */
  function NewCompensacaoFalhaException(message: string, inner: Option<Exception>): (e: Exception)
    ensures e.IsTransferenciaException() && e.CompensacaoFalhaException?
    ensures e.Message() == message && e.FailureType() == "COMPENSATION_ERROR" && e.InnerException() == inner
  {
    CompensacaoFalhaException(message, inner)
  }

  /** The result of a call that either returns a value or throws. */
  datatype Outcome<+T> = Returns(value: T) | Throws(exception: Exception)

  /** Scripted answers of a collaborator the core cannot see: the i-th call
      throws `s[i]` when that is `Some`, and returns normally otherwise or
      once the script is used up. */
  type Script = seq<Option<Exception>>

  function Answer(s: Script, i: nat): Option<Exception> {
    if i < |s| then s[i] else None
  }

  /** The script left after `n` calls. */
  function Drop(s: Script, n: nat): (r: Script)
    ensures forall i: nat :: Answer(r, i) == Answer(s, n + i)
  {
    if n <= |s| then s[n..] else []
  }

  lemma DropNone(s: Script)
    ensures Drop(s, 0) == s
  {
  }

  lemma DropDrop(s: Script, m: nat, n: nat)
    ensures Drop(Drop(s, m), n) == Drop(s, m + n)
  {
  }
}
