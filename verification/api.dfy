/**
 The service's three routes over the store, as one request datatype and a
 dispatcher, and the store after a whole sequence of requests. The lemmas
 here state what holds of the store however many requests have been served.
 */
module Api {
  import opened Remedios
  import opened Store

  /** A call to one of the store's routes: list, create, or update by id. */
  datatype Request =
    | ListarRemedios
    | CriarRemedio(pedido: Remedio)
    | AtualizarPorId(remedioId: int, pedido: Remedio)

  /** Serve one request against the current list. */
  function Handle(db: seq<Remedio>, req: Request): (r: Outcome)
    ensures req.ListarRemedios? ==> r.store == db && r.reply == Lista(db)
    ensures req.CriarRemedio? ==> |r.store| == |db| + 1 && r.store[..|db|] == db
    ensures req.AtualizarPorId? ==> |r.store| == |db|
    ensures r.reply.NaoEncontrado? ==> r.store == db
    ensures IdsIncreasing(db) ==> IdsIncreasing(r.store)
  {
    match req
    case ListarRemedios => Listar(db)
    case CriarRemedio(p) => Criar(db, p)
    case AtualizarPorId(id, p) => Atualizar(db, id, p)
  }

  /** The list after serving the requests in order. */
  function Run(db: seq<Remedio>, reqs: seq<Request>): seq<Remedio>
    decreases |reqs|
  {
    if |reqs| == 0 then db else Run(Handle(db, reqs[0]).store, reqs[1..])
  }

  /** Number of create requests in a sequence. */
  function CountCreates(reqs: seq<Request>): nat {
    if |reqs| == 0 then 0
    else (if reqs[0].CriarRemedio? then 1 else 0) + CountCreates(reqs[1..])
  }

  /** Every update request carries a positive daily dose. */
  predicate UpdatesHavePositiveDose(reqs: seq<Request>) {
    forall i :: 0 <= i < |reqs| && reqs[i].AtualizarPorId? ==> reqs[i].pedido.doseDiaria > 0
  }

  /** Every stored days-remaining value is the one the rule derives. */
  ghost predicate AllDiasConsistentes(db: seq<Remedio>) {
    forall i :: 0 <= i < |db| ==> DiasConsistentes(db[i])
  }

  /** Any sequence of requests keeps ids strictly increasing. */
  lemma {:induction false} RunPreservesIncreasing(db: seq<Remedio>, reqs: seq<Request>)
    requires IdsIncreasing(db)
    ensures IdsIncreasing(Run(db, reqs))
    decreases |reqs|
  {
    if |reqs| > 0 {
      RunPreservesIncreasing(Handle(db, reqs[0]).store, reqs[1..]);
    }
  }

  /** Starting from the seed list, ids stay unique whatever is requested. */
  lemma RunFromSeedIdsUnique(reqs: seq<Request>)
    ensures IdsUnique(Run(SeedDb, reqs))
  {
    SeedWellFormed();
    RunPreservesIncreasing(SeedDb, reqs);
    IncreasingIsUnique(Run(SeedDb, reqs));
  }

  /** The list grows by exactly one record per create request; list and
      update requests never change its length. */
  lemma {:induction false} RunLength(db: seq<Remedio>, reqs: seq<Request>)
    ensures |Run(db, reqs)| == |db| + CountCreates(reqs)
    decreases |reqs|
  {
    if |reqs| > 0 {
      RunLength(Handle(db, reqs[0]).store, reqs[1..]);
    }
  }

  /** Serving only list requests leaves the store exactly as it was. */
  lemma {:induction false} ListingIsReadOnly(db: seq<Remedio>, reqs: seq<Request>)
    requires forall i :: 0 <= i < |reqs| ==> reqs[i].ListarRemedios?
    ensures Run(db, reqs) == db
    decreases |reqs|
  {
    if |reqs| > 0 {
      ListingIsReadOnly(db, reqs[1..]);
    }
  }

  /** Each request keeps every stored days value consistent with the rule,
      except an update whose dose is not positive. */
  lemma HandleKeepsDiasConsistentes(db: seq<Remedio>, req: Request)
    requires AllDiasConsistentes(db)
    requires req.AtualizarPorId? ==> req.pedido.doseDiaria > 0
    ensures AllDiasConsistentes(Handle(db, req).store)
  {
  }

  /** Days remaining stay what the rule derives as long as no update
      arrives with a dose that is not positive. */
  lemma {:induction false} RunKeepsDiasConsistentes(db: seq<Remedio>, reqs: seq<Request>)
    requires AllDiasConsistentes(db)
    requires UpdatesHavePositiveDose(reqs)
    ensures AllDiasConsistentes(Run(db, reqs))
    decreases |reqs|
  {
    if |reqs| > 0 {
      HandleKeepsDiasConsistentes(db, reqs[0]);
      assert UpdatesHavePositiveDose(reqs[1..]) by {
        forall i | 0 <= i < |reqs[1..]| && reqs[1..][i].AtualizarPorId?
          ensures reqs[1..][i].pedido.doseDiaria > 0
        {
          assert reqs[1..][i] == reqs[i + 1];
        }
      }
      RunKeepsDiasConsistentes(Handle(db, reqs[0]).store, reqs[1..]);
    }
  }

  /** Create and update derive the same days value from the same body when
      the dose is positive. When it is not, create stores 0 while update
      stores whatever the client sent, so an update can leave a value the
      rule would not derive. */
  lemma CreateAndUpdateDias(db: seq<Remedio>, remedioId: int, pedido: Remedio)
    requires FirstIndex(db, remedioId).Some?
    ensures var c := Criar(db, pedido).reply.remedio;
            var u := Atualizar(db, remedioId, pedido).reply.remedio;
            && (pedido.doseDiaria > 0 ==> c.diasRestantes == u.diasRestantes)
            && (pedido.doseDiaria <= 0 ==>
                  c.diasRestantes == Some(0) && u.diasRestantes == pedido.diasRestantes)
            && (pedido.doseDiaria <= 0 && pedido.diasRestantes != Some(0) ==> !DiasConsistentes(u))
  {
  }
}
