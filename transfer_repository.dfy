/** `TransferRepository`: the `transfers` table of the English saga. Rows
    hold text columns the way the SQL parameters are built; the lookup takes
    the first row matching both the origin and the request id. The table is
    an in-memory sequence in insertion order, and whether an insert fails is
    scripted. */
module TransferRepository {

  import opened Primitives
  import opened Guids
  import opened Exceptions
  import opened TransferEntity

  /** One row of `transfers`. */
  datatype TransferRow = TransferRow(
    id: string,
    requestId: string,
    originAccountId: string,
    destinationAccountId: string,
    value: Decimal,
    status: string,
    errorMessage: NullableString,
    errorType: NullableString,
    createdAt: Timestamp,
    updatedAt: Timestamp)

  /** `TransferStatus.ToString()`. */
  function StatusName(s: TransferStatus): string {
    match s
    case Success => "Success"
    case Failed => "Failed"
    case Compensated => "Compensated"
    case CompensationFailed => "CompensationFailed"
  }

  /** `Enum.Parse<TransferStatus>` on the four names; anything else throws. */
  function ParseStatus(s: string): Option<TransferStatus> {
    if s == "Success" then Some(Success)
    else if s == "Failed" then Some(Failed)
    else if s == "Compensated" then Some(Compensated)
    else if s == "CompensationFailed" then Some(CompensationFailed)
    else None
  }

  /** The parameters `CreateAsync` binds. */
  function ToRow(t: TransferData): TransferRow {
    TransferRow(ToText(t.id), t.requestId, ToText(t.originAccountId), ToText(t.destinationAccountId),
                t.value, StatusName(t.status), t.errorMessage, t.errorType, t.createdAt, t.updatedAt)
  }

  /** `TransferDto.ToEntity`; `None` where `Guid.Parse` or `Enum.Parse`
      would throw. */
  function ToEntity(row: TransferRow): Option<TransferData> {
    var id := TryParse(row.id);
    var origin := TryParse(row.originAccountId);
    var destination := TryParse(row.destinationAccountId);
    var status := ParseStatus(row.status);
    if id.None? || origin.None? || destination.None? || status.None? then None
    else Some(TransferData(id.value, row.requestId, origin.value, destination.value, row.value,
                           status.value, row.errorMessage, row.errorType, row.createdAt, row.updatedAt))
  }

  /** An entity read from a row keeps the row's keys. */
  lemma ToEntityKeys(row: TransferRow, origin: Guid)
    requires row.originAccountId == ToText(origin) && ToEntity(row).Some?
    ensures ToEntity(row).value.originAccountId == origin && ToEntity(row).value.requestId == row.requestId
  {
    ParseToText(origin);
  }

  /** What `CreateAsync` writes, `ToEntity` reads back. */
  lemma RowRoundTrip(t: TransferData)
    ensures ToEntity(ToRow(t)) == Some(t)
  {
    IdColumn(t);
    ParseToText(t.originAccountId);
    ParseToText(t.destinationAccountId);
    StatusRoundTrip(t.status);
    ToEntityOf(ToRow(t), t.id, t.originAccountId, t.destinationAccountId, t.status);
  }

  /** The id column parses back to the id. */
  lemma IdColumn(t: TransferData)
    ensures TryParse(ToRow(t).id) == Some(t.id)
  {
    ParseToText(t.id);
  }

  /** A row whose four parsed columns parse reads back with them and the
      other columns as they are. */
  lemma ToEntityOf(row: TransferRow, id: Guid, origin: Guid, destination: Guid, status: TransferStatus)
    requires TryParse(row.id) == Some(id) && TryParse(row.originAccountId) == Some(origin)
    requires TryParse(row.destinationAccountId) == Some(destination) && ParseStatus(row.status) == Some(status)
    ensures ToEntity(row) == Some(TransferData(id, row.requestId, origin, destination, row.value, status,
                                               row.errorMessage, row.errorType, row.createdAt, row.updatedAt))
  {
  }

  /** The enum name parses back to the same status. */
  lemma StatusRoundTrip(s: TransferStatus)
    ensures ParseStatus(StatusName(s)) == Some(s)
  {
  }

  /** The `WHERE` clause: origin and request id both equal. A null request
      id binds SQL NULL, which equals nothing. */
  predicate Matches(row: TransferRow, origin: Guid, requestId: NullableString) {
    row.originAccountId == ToText(origin) && requestId == Some(row.requestId)
  }

  /** The position of the first matching row. */
  function FirstMatch(rows: seq<TransferRow>, origin: Guid, requestId: NullableString): (r: Option<nat>)
    ensures r.None? <==> forall i :: 0 <= i < |rows| ==> !Matches(rows[i], origin, requestId)
    ensures r.Some? ==> r.value < |rows| && Matches(rows[r.value], origin, requestId)
    ensures r.Some? ==> forall i :: 0 <= i < r.value ==> !Matches(rows[i], origin, requestId)
  {
    if rows == [] then None
    else if Matches(rows[0], origin, requestId) then Some(0)
    else
      var r := FirstMatch(rows[1..], origin, requestId);
      if r.None? then None else Some(r.value + 1)
  }

  /** No two rows share an origin and a request id. */
  predicate UniqueKeys(rows: seq<TransferRow>) {
    forall i, j :: 0 <= i < j < |rows| ==>
      !(rows[i].originAccountId == rows[j].originAccountId && rows[i].requestId == rows[j].requestId)
  }

  /** Every row reads back as an entity. */
  predicate WellFormed(rows: seq<TransferRow>) {
    forall i :: 0 <= i < |rows| ==> ToEntity(rows[i]).Some?
  }

  /** Appending a row whose key no row has yet keeps the keys unique. */
  lemma AppendFreshKey(rows: seq<TransferRow>, t: TransferData)
    requires UniqueKeys(rows)
    requires FirstMatch(rows, t.originAccountId, Some(t.requestId)).None?
    ensures UniqueKeys(rows + [ToRow(t)])
  {
    var rows' := rows + [ToRow(t)];
    forall i, j | 0 <= i < j < |rows'|
      ensures !(rows'[i].originAccountId == rows'[j].originAccountId && rows'[i].requestId == rows'[j].requestId)
    {
      if j == |rows| {
        assert !Matches(rows[i], t.originAccountId, Some(t.requestId));
      }
    }
  }

  /** The query of `GetByOriginAndRequestIdAsync`: the first row with both
      keys, read back as an entity, or null. */
  function Lookup(rows: seq<TransferRow>, origin: Guid, requestId: NullableString): (r: Option<TransferData>)
    requires WellFormed(rows)
    ensures r.None? <==> forall i :: 0 <= i < |rows| ==> !Matches(rows[i], origin, requestId)
    ensures r.Some? ==> r.value.originAccountId == origin && Some(r.value.requestId) == requestId
  {
    var k := FirstMatch(rows, origin, requestId);
    if k.None? then None
    else
      var row := rows[k.value];
      ToEntityKeys(row, origin);
      ToEntity(row)
  }

  /** A row appended after rows none of which match is the first match. */
  lemma FirstMatchAppend(rows: seq<TransferRow>, row: TransferRow, origin: Guid, requestId: NullableString)
    requires FirstMatch(rows, origin, requestId).None? && Matches(row, origin, requestId)
    ensures FirstMatch(rows + [row], origin, requestId) == Some(|rows|)
  {
    var rows' := rows + [row];
    assert rows'[|rows|] == row;
    assert forall i :: 0 <= i < |rows| ==> rows'[i] == rows[i];
  }

  /** Appending a row that reads back keeps every row readable. */
  lemma WellFormedAppend(rows: seq<TransferRow>, row: TransferRow)
    requires WellFormed(rows) && ToEntity(row).Some?
    ensures WellFormed(rows + [row])
  {
    var rows' := rows + [row];
    forall i | 0 <= i < |rows'| ensures ToEntity(rows'[i]).Some? {
      if i < |rows| {
        assert rows'[i] == rows[i];
      } else {
        assert rows'[i] == row;
      }
    }
  }

  /** The lookup reads back the first matching row. */
  lemma LookupAt(rows: seq<TransferRow>, origin: Guid, requestId: NullableString, k: nat)
    requires WellFormed(rows) && FirstMatch(rows, origin, requestId) == Some(k)
    ensures Lookup(rows, origin, requestId) == ToEntity(rows[k])
  {
  }

  /** Once a transfer is stored under a fresh key, the lookup finds it with
      the fields it was stored with. */
  lemma LookupAfterInsert(rows: seq<TransferRow>, t: TransferData)
    requires WellFormed(rows) && Lookup(rows, t.originAccountId, Some(t.requestId)).None?
    ensures WellFormed(rows + [ToRow(t)])
    ensures Lookup(rows + [ToRow(t)], t.originAccountId, Some(t.requestId)) == Some(t)
  {
    var row := ToRow(t);
    RowRoundTrip(t);
    WellFormedAppend(rows, row);
    assert Matches(row, t.originAccountId, Some(t.requestId));
    FirstMatchAppend(rows, row, t.originAccountId, Some(t.requestId));
    LookupAt(rows + [row], t.originAccountId, Some(t.requestId), |rows|);
    assert (rows + [row])[|rows|] == row;
  }

  class TransferRepository {
    /** The `transfers` table. */
    var rows: seq<TransferRow>
    /** Whether each coming `CreateAsync` fails, and with what. */
    var faults: Script

    predicate Valid()
      reads this
    {
      WellFormed(rows)
    }

    constructor(faults: Script)
      ensures Valid() && rows == [] && this.faults == faults
    {
      rows := [];
      this.faults := faults;
    }

    /** `GetByOriginAndRequestIdAsync` on the current table. */
    function GetByOriginAndRequestId(origin: Guid, requestId: NullableString): (r: Option<TransferData>)
      reads this
      requires Valid()
      ensures r == Lookup(rows, origin, requestId)
      ensures r.None? <==> forall i :: 0 <= i < |rows| ==> !Matches(rows[i], origin, requestId)
      ensures r.Some? ==> exists k :: 0 <= k < |rows| && Matches(rows[k], origin, requestId) && r == ToEntity(rows[k])
                                   && forall i :: 0 <= i < k ==> !Matches(rows[i], origin, requestId)
    {
      Lookup(rows, origin, requestId)
    }

    /** `CreateAsync`: appends the row and returns the entity's id, or throws
        and leaves the table as it was. */
    method CreateAsync(t: TransferData) returns (r: Outcome<Guid>)
      requires Valid()
      modifies this
      ensures Valid()
      ensures faults == Drop(old(faults), 1)
      ensures Answer(old(faults), 0).Some? ==> r == Throws(Answer(old(faults), 0).value) && rows == old(rows)
      ensures Answer(old(faults), 0).None? ==> r == Returns(t.id) && rows == old(rows) + [ToRow(t)]
    {
      var fault := Answer(faults, 0);
      faults := Drop(faults, 1);
      if fault.Some? {
        return Throws(fault.value);
      }
      RowRoundTrip(t);
      rows := rows + [ToRow(t)];
      return Returns(t.id);
    }
  }
}
