/**
 The in-memory medication store: an ordered list of records and the three
 operations over it (list, create, update). Each operation is a pure
 function from the current list to the next list and the reply the caller
 receives; the not-found exception of update is the `NaoEncontrado` reply.
 */
module Store {
  import opened Division
  import opened Remedios

  /** What an operation hands back to its caller. */
  datatype Reply =
    | Lista(itens: seq<Remedio>)
    | Gravado(remedio: Remedio)
    | NaoEncontrado

  /** The list after an operation, and the reply to the caller. */
  datatype Outcome = Outcome(store: seq<Remedio>, reply: Reply)

  /** Ids strictly increase along the list. The seed list has this shape, and
      create and update keep it. */
  ghost predicate IdsIncreasing(db: seq<Remedio>) {
    forall i, j :: 0 <= i < j < |db| ==> db[i].id < db[j].id
  }

  /** No two records share an id. */
  ghost predicate IdsUnique(db: seq<Remedio>) {
    forall i, j :: 0 <= i < |db| && 0 <= j < |db| && i != j ==> db[i].id != db[j].id
  }

  /** Record i is the first one whose id is the given id. */
  ghost predicate IsFirstMatch(db: seq<Remedio>, id: int, i: int) {
    && 0 <= i < |db|
    && db[i].id == id
    && forall j :: 0 <= j < i ==> db[j].id != id
  }

  /** The id create assigns: 1 for an empty list, otherwise one more than
      the id of the last record. */
  function NextId(db: seq<Remedio>): (id: int)
    ensures |db| == 0 ==> id == 1
    ensures |db| > 0 ==> id == db[|db| - 1].id + 1
    ensures IdsIncreasing(db) ==> forall i :: 0 <= i < |db| ==> db[i].id < id
  {
    if |db| == 0 then 1 else db[|db| - 1].id + 1
  }

  /** Position of the first record with the given id, as the update scan
      finds it; None when no record has that id. */
  function FirstIndex(db: seq<Remedio>, id: int): (k: Option<nat>)
    ensures k.None? <==> forall j :: 0 <= j < |db| ==> db[j].id != id
    ensures k.Some? ==> IsFirstMatch(db, id, k.value)
  {
    if |db| == 0 then None
    else if db[0].id == id then Some(0)
    else
      match FirstIndex(db[1..], id)
      case None => None
      case Some(k) => Some(k + 1)
  }

  /** Listing returns the list exactly as stored and leaves it alone. */
  function Listar(db: seq<Remedio>): (r: Outcome)
    ensures r.store == db
    ensures r.reply == Lista(db)
  {
    Outcome(db, Lista(db))
  }

  /** The record create stores: the client's fields with a fresh id and the
      derived days remaining. */
  function NovoRegistro(db: seq<Remedio>, pedido: Remedio): Remedio {
    pedido.(id := NextId(db),
            diasRestantes := Some(DiasPorCaixa(pedido.dosesCaixa, pedido.doseDiaria)))
  }

  /** Create: append the client's record with a fresh id, and days remaining
      derived from the box size and dose whatever the client sent. */
  function Criar(db: seq<Remedio>, pedido: Remedio): (r: Outcome)
    ensures r.reply.Gravado?
    ensures |r.store| == |db| + 1
    ensures r.store[..|db|] == db
    ensures r.store[|db|] == r.reply.remedio
    ensures r.reply.remedio.id == (if |db| == 0 then 1 else db[|db| - 1].id + 1)
    ensures SameClientFields(r.reply.remedio, pedido)
    ensures DiasConsistentes(r.reply.remedio)
    ensures pedido.doseDiaria <= 0 ==> r.reply.remedio.diasRestantes == Some(0)
    ensures IdsIncreasing(db) ==> IdsIncreasing(r.store)
  {
    var novo := NovoRegistro(db, pedido);
    Outcome(db + [novo], Gravado(novo))
  }

  /** The record update stores: the client's fields under the path id; days
      remaining recomputed only for a positive dose, otherwise kept as the
      client sent it. */
  function RegistroAtualizado(remedioId: int, pedido: Remedio): Remedio {
    var comId := pedido.(id := remedioId);
    if pedido.doseDiaria > 0 then
      comId.(diasRestantes := Some(DiasPorCaixa(pedido.dosesCaixa, pedido.doseDiaria)))
    else
      comId
  }

  /** Update: replace the first record whose id is the path id; when none
      has it, reply not-found and keep the list. */
  function Atualizar(db: seq<Remedio>, remedioId: int, pedido: Remedio): (r: Outcome)
    ensures r.reply.NaoEncontrado? <==> forall j :: 0 <= j < |db| ==> db[j].id != remedioId
    ensures r.reply.NaoEncontrado? ==> r.store == db
    ensures !r.reply.Lista?
    ensures |r.store| == |db|
    ensures r.reply.Gravado? ==>
              && r.reply.remedio.id == remedioId
              && SameClientFields(r.reply.remedio, pedido)
              && exists k :: IsFirstMatch(db, remedioId, k) && r.store == db[k := r.reply.remedio]
    ensures r.reply.Gravado? && pedido.doseDiaria > 0 ==> DiasConsistentes(r.reply.remedio)
    ensures r.reply.Gravado? && pedido.doseDiaria <= 0 ==>
              r.reply.remedio.diasRestantes == pedido.diasRestantes
    ensures forall j :: 0 <= j < |db| ==> r.store[j].id == db[j].id
    ensures IdsIncreasing(db) ==> IdsIncreasing(r.store)
  {
    match FirstIndex(db, remedioId)
    case None => Outcome(db, NaoEncontrado)
    case Some(k) =>
      var novo := RegistroAtualizado(remedioId, pedido);
      Outcome(db[k := novo], Gravado(novo))
  }

  /** Update as the service runs it: scan the list in order and replace the
      first record whose id matches. */
  method AtualizarRemedio(db: seq<Remedio>, remedioId: int, pedido: Remedio) returns (r: Outcome)
    ensures r == Atualizar(db, remedioId, pedido)
  {
    var index := 0;
    while index < |db|
      invariant 0 <= index <= |db|
      invariant forall j :: 0 <= j < index ==> db[j].id != remedioId
    {
      if db[index].id == remedioId {
        var novo := RegistroAtualizado(remedioId, pedido);
        assert IsFirstMatch(db, remedioId, index);
        return Outcome(db[index := novo], Gravado(novo));
      }
      index := index + 1;
    }
    return Outcome(db, NaoEncontrado);
  }

  /** Strictly increasing ids are unique ids. */
  lemma IncreasingIsUnique(db: seq<Remedio>)
    requires IdsIncreasing(db)
    ensures IdsUnique(db)
  {
  }

  /** With unique ids, a successful update replaces exactly the records that
      carry the path id (there is one) and no other. */
  lemma UpdateTouchesOnlyItsId(db: seq<Remedio>, remedioId: int, pedido: Remedio)
    requires IdsUnique(db)
    ensures var r := Atualizar(db, remedioId, pedido);
            r.reply.Gravado? ==>
              forall j :: 0 <= j < |db| ==>
                r.store[j] == (if db[j].id == remedioId then r.reply.remedio else db[j])
  {
  }

  /** A record just created can be updated through its new id, and the
      update replaces that last record only. */
  lemma CreateThenUpdate(db: seq<Remedio>, pedido: Remedio, outro: Remedio)
    requires IdsIncreasing(db)
    ensures var c := Criar(db, pedido);
            var u := Atualizar(c.store, c.reply.remedio.id, outro);
            && u.reply.Gravado?
            && u.store == db + [u.reply.remedio]
  {
  }

  /** The seed list has increasing ids and a consistent days value. */
  lemma SeedWellFormed()
    ensures IdsIncreasing(SeedDb)
    ensures forall i :: 0 <= i < |SeedDb| ==> DiasConsistentes(SeedDb[i])
  {
  }
}
