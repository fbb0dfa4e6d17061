/** The `Transfer` entity of the English saga: created in status `Success`,
    then possibly overwritten by one of the `MarkAs*` methods before it is
    stored. Clock readings are inputs. */
module TransferEntity {

  import opened Primitives
  import opened Guids
  import opened Exceptions

  datatype TransferStatus = Success | Failed | Compensated | CompensationFailed

  /** The fields of a `Transfer`, as one value. */
  datatype TransferData = TransferData(
    id: Guid,
    requestId: string,
    originAccountId: Guid,
    destinationAccountId: Guid,
    value: Decimal,
    status: TransferStatus,
    errorMessage: NullableString,
    errorType: NullableString,
    createdAt: Timestamp,
    updatedAt: Timestamp)

  /** The state the public constructor leaves. */
  function Created(id: Guid, requestId: string, origin: Guid, destination: Guid, value: Decimal, now: Timestamp): TransferData {
    TransferData(id, requestId, origin, destination, value, Success, None, None, now, now)
  }

  /** The state a `MarkAs*` call leaves: status, both error fields and the
      update time are overwritten, whatever the status was before. */
  function Marked(d: TransferData, status: TransferStatus, errorMessage: string, errorType: string, now: Timestamp): TransferData {
    d.(status := status, errorMessage := Some(errorMessage), errorType := Some(errorType), updatedAt := now)
  }

  /** The fields no `MarkAs*` call touches. */
  predicate SameIdentity(a: TransferData, b: TransferData) {
    a.id == b.id && a.requestId == b.requestId && a.originAccountId == b.originAccountId
    && a.destinationAccountId == b.destinationAccountId && a.value == b.value && a.createdAt == b.createdAt
  }

  /** Marking keeps the identity, and the last mark wins. */
  lemma MarkedKeepsIdentity(d: TransferData, s1: TransferStatus, m1: string, t1: string, n1: Timestamp,
                            s2: TransferStatus, m2: string, t2: string, n2: Timestamp)
    ensures SameIdentity(Marked(d, s1, m1, t1, n1), d)
    ensures Marked(Marked(d, s1, m1, t1, n1), s2, m2, t2, n2) == Marked(d, s2, m2, t2, n2)
  {
  }

  class Transfer {
    var id: Guid
    var requestId: string
    var originAccountId: Guid
    var destinationAccountId: Guid
    var value: Decimal
    var status: TransferStatus
    var errorMessage: NullableString
    var errorType: NullableString
    var createdAt: Timestamp
    var updatedAt: Timestamp

    function Data(): TransferData
      reads this
    {
      TransferData(id, requestId, originAccountId, destinationAccountId, value, status, errorMessage, errorType, createdAt, updatedAt)
    }

    /** The constructor once the null check on `requestId` has passed;
        `id` is the fresh `Guid.NewGuid()` and `now` the clock reading. */
    constructor(id: Guid, requestId: string, originAccountId: Guid, destinationAccountId: Guid, value: Decimal, now: Timestamp)
      ensures Data() == Created(id, requestId, originAccountId, destinationAccountId, value, now)
    {
      this.id := id;
      this.requestId := requestId;
      this.originAccountId := originAccountId;
      this.destinationAccountId := destinationAccountId;
      this.value := value;
      status := Success;
      errorMessage := None;
      errorType := None;
      createdAt := now;
      updatedAt := now;
    }

    /** `new Transfer(...)`: a null request id throws `ArgumentNullException`
        before anything is assigned. */
    static method New(id: Guid, requestId: NullableString, originAccountId: Guid, destinationAccountId: Guid,
                      value: Decimal, now: Timestamp) returns (r: Outcome<Transfer>)
      ensures r.Throws? <==> requestId.None?
      ensures r.Throws? ==> r.exception == ArgumentNullException("requestId")
      ensures r.Returns? ==> fresh(r.value)
      ensures r.Returns? ==> r.value.Data() == Created(id, requestId.value, originAccountId, destinationAccountId, value, now)
    {
      if requestId.None? {
        return Throws(ArgumentNullException("requestId"));
      }
      var t := new Transfer(id, requestId.value, originAccountId, destinationAccountId, value, now);
      return Returns(t);
    }

    method MarkAsFailed(errorMessage: string, errorType: string, now: Timestamp)
      modifies this
      ensures Data() == Marked(old(Data()), Failed, errorMessage, errorType, now)
    {
      status := Failed;
      this.errorMessage := Some(errorMessage);
      this.errorType := Some(errorType);
      updatedAt := now;
    }

    method MarkAsCompensated(errorMessage: string, errorType: string, now: Timestamp)
      modifies this
      ensures Data() == Marked(old(Data()), Compensated, errorMessage, errorType, now)
    {
      status := Compensated;
      this.errorMessage := Some(errorMessage);
      this.errorType := Some(errorType);
      updatedAt := now;
    }

    /** The error type is fixed to "COMPENSATION_ERROR". */
    method MarkAsCompensationFailed(errorMessage: string, now: Timestamp)
      modifies this
      ensures Data() == Marked(old(Data()), CompensationFailed, errorMessage, "COMPENSATION_ERROR", now)
    {
      status := CompensationFailed;
      this.errorMessage := Some(errorMessage);
      errorType := Some("COMPENSATION_ERROR");
      updatedAt := now;
    }
  }
}
