/** `TransferenciaRepository`: the `transferencia` and `idempotencia` tables
    of the Portuguese saga. The lookup reads only `idempotencia`, under the
    key "{origin}:{requestId}", and on a hit returns a blank placeholder
    entity rather than anything stored. Tables are in-memory sequences in
    insertion order; whether a write fails is scripted. */
module TransferenciaRepository {

  import opened Primitives
  import opened Guids
  import opened Exceptions
  import opened TransferenciaEntity

  /** `$"{originAccountId}:{requestId}"`; a null request id prints as
      nothing. */
  function IdempotencyKey(origin: Guid, requestId: NullableString): (k: string)
    ensures |k| == 37 + |requestId.GetOr("")|
  {
    ToText(origin) + ":" + requestId.GetOr("")
  }

  /** The Guid part has a fixed width and no ':', so the key determines the
      origin and the printed request id. */
  lemma KeyInjective(o1: Guid, r1: NullableString, o2: Guid, r2: NullableString)
    requires IdempotencyKey(o1, r1) == IdempotencyKey(o2, r2)
    ensures o1 == o2 && r1.GetOr("") == r2.GetOr("")
  {
    var k := IdempotencyKey(o1, r1);
    assert k[..36] == ToText(o1);
    assert IdempotencyKey(o2, r2)[..36] == ToText(o2);
    assert k[37..] == r1.GetOr("");
    assert IdempotencyKey(o2, r2)[37..] == r2.GetOr("");
  }

  /** A null request id and an empty one share a key. */
  lemma NullAndEmptyShareKey(origin: Guid)
    ensures IdempotencyKey(origin, None) == IdempotencyKey(origin, Some(""))
  {
  }

  /** One row of `idempotencia`. */
  datatype IdempotenciaRow = IdempotenciaRow(key: string, requisicao: NullableString, resultado: NullableString)

  /** The position of the first row with the key. */
  function FirstWithKey(rows: seq<IdempotenciaRow>, key: string): (r: Option<nat>)
    ensures r.None? <==> forall i :: 0 <= i < |rows| ==> rows[i].key != key
    ensures r.Some? ==> r.value < |rows| && rows[r.value].key == key
    ensures r.Some? ==> forall i :: 0 <= i < r.value ==> rows[i].key != key
  {
    if rows == [] then None
    else if rows[0].key == key then Some(0)
    else
      var r := FirstWithKey(rows[1..], key);
      if r.None? then None else Some(r.value + 1)
  }

  /** `QueryFirstOrDefault<string>` of `resultado` is non-null: the first row
      with the key exists and its `resultado` is not NULL. */
  predicate Hit(rows: seq<IdempotenciaRow>, key: string) {
    var k := FirstWithKey(rows, key);
    k.Some? && rows[k.value].resultado.Some?
  }

  /** The query of `GetByOriginAndRequestIdAsync`. */
  function Lookup(rows: seq<IdempotenciaRow>, origin: Guid, requestId: NullableString): (r: Option<Transferencia>)
    ensures r.Some? <==> Hit(rows, IdempotencyKey(origin, requestId))
    ensures r.Some? ==> r.value == Blank
  {
    if Hit(rows, IdempotencyKey(origin, requestId)) then Some(Blank) else None
  }

  /** The row `SaveIdempotenciaAsync` inserts. */
  function IdempotenciaFor(origin: Guid, requestId: NullableString, requisicao: NullableString, resultado: NullableString): IdempotenciaRow {
    IdempotenciaRow(IdempotencyKey(origin, requestId), requisicao, resultado)
  }

  /** After a save with a result under a key no row had, the lookup hits. */
  lemma LookupAfterSave(rows: seq<IdempotenciaRow>, origin: Guid, requestId: NullableString,
                        requisicao: NullableString, resultado: string)
    requires FirstWithKey(rows, IdempotencyKey(origin, requestId)).None?
    ensures Lookup(rows + [IdempotenciaFor(origin, requestId, requisicao, Some(resultado))], origin, requestId) == Some(Blank)
  {
    var row := IdempotenciaFor(origin, requestId, requisicao, Some(resultado));
    var rows' := rows + [row];
    assert rows'[|rows|] == row;
    assert forall i :: 0 <= i < |rows| ==> rows'[i] == rows[i];
    var k := FirstWithKey(rows', IdempotencyKey(origin, requestId));
    assert k == Some(|rows|);
  }

  /** Rows saved later under a key that already has a row change nothing:
      the first row decides. */
  lemma LaterRowsIgnored(rows: seq<IdempotenciaRow>, more: seq<IdempotenciaRow>, origin: Guid, requestId: NullableString)
    requires FirstWithKey(rows, IdempotencyKey(origin, requestId)).Some?
    ensures Lookup(rows + more, origin, requestId) == Lookup(rows, origin, requestId)
  {
    var key := IdempotencyKey(origin, requestId);
    var k := FirstWithKey(rows, key).value;
    var rows' := rows + more;
    assert forall i :: 0 <= i < |rows| ==> rows'[i] == rows[i];
    assert FirstWithKey(rows', key) == Some(k);
  }

  /** One row of `transferencia`, as the insert binds it. */
  datatype TransferenciaRow = TransferenciaRow(
    idTransferencia: string,
    idContaCorrenteOrigem: string,
    idContaCorrenteDestino: string,
    dataMovimento: NullableString,
    valor: Decimal)

  function ToRow(t: Transferencia): TransferenciaRow {
    TransferenciaRow(ToText(t.idTransferencia), ToText(t.idContaCorrenteOrigem), ToText(t.idContaCorrenteDestino),
                     t.dataMovimento, t.valor)
  }

  class TransferenciaRepository {
    /** The `transferencia` table. */
    var transferencias: seq<TransferenciaRow>
    /** The `idempotencia` table. */
    var idempotencia: seq<IdempotenciaRow>
    /** Whether each coming write fails, and with what. */
    var faults: Script

    constructor(idempotencia: seq<IdempotenciaRow>, faults: Script)
      ensures transferencias == [] && this.idempotencia == idempotencia && this.faults == faults
    {
      transferencias := [];
      this.idempotencia := idempotencia;
      this.faults := faults;
    }

    /** `GetByOriginAndRequestIdAsync` on the current tables. */
    function GetByOriginAndRequestId(origin: Guid, requestId: NullableString): (r: Option<Transferencia>)
      reads this
      ensures r == Lookup(idempotencia, origin, requestId)
      ensures r.Some? <==> exists k :: 0 <= k < |idempotencia| && idempotencia[k].key == IdempotencyKey(origin, requestId)
                                   && idempotencia[k].resultado.Some?
                                   && forall i :: 0 <= i < k ==> idempotencia[i].key != IdempotencyKey(origin, requestId)
      ensures r.Some? ==> r.value == Blank
    {
      Lookup(idempotencia, origin, requestId)
    }

    /** `CreateAsync`: writes the `transferencia` table only and returns the
        entity's id, or throws and writes nothing. */
    method CreateAsync(t: Transferencia) returns (r: Outcome<Guid>)
      modifies this
      ensures idempotencia == old(idempotencia)
      ensures faults == Drop(old(faults), 1)
      ensures Answer(old(faults), 0).Some? ==> r == Throws(Answer(old(faults), 0).value) && transferencias == old(transferencias)
      ensures Answer(old(faults), 0).None? ==> r == Returns(t.idTransferencia) && transferencias == old(transferencias) + [ToRow(t)]
    {
      var fault := Answer(faults, 0);
      faults := Drop(faults, 1);
      if fault.Some? {
        return Throws(fault.value);
      }
      transferencias := transferencias + [ToRow(t)];
      return Returns(t.idTransferencia);
    }

    /** `SaveIdempotenciaAsync`: inserts `(key, requisicao, resultado)` under
        the same key the lookup builds. */
    method SaveIdempotenciaAsync(origin: Guid, requestId: NullableString, requisicao: NullableString, resultado: NullableString)
      returns (r: Outcome<()>)
      modifies this
      ensures transferencias == old(transferencias)
      ensures faults == Drop(old(faults), 1)
      ensures Answer(old(faults), 0).Some? ==> r == Throws(Answer(old(faults), 0).value) && idempotencia == old(idempotencia)
      ensures Answer(old(faults), 0).None? ==>
        r == Returns(()) && idempotencia == old(idempotencia) + [IdempotenciaFor(origin, requestId, requisicao, resultado)]
    {
      var fault := Answer(faults, 0);
      faults := Drop(faults, 1);
      if fault.Some? {
        return Throws(fault.value);
      }
      idempotencia := idempotencia + [IdempotenciaFor(origin, requestId, requisicao, resultado)];
      return Returns(());
    }
  }
}
