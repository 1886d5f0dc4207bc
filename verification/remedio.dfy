/**
 The medication record the store keeps, the seed list the store starts
 from, and the rule that derives "days remaining" from box size and daily
 dose. Field names follow the system's own vocabulary.
 */
module Remedios {
  import opened Division

  datatype Option<T> = None | Some(value: T)

  /** One purchase of a medication. The purchase price is a float that no
      operation computes with, so only the place is carried. */
  datatype HistoricoCompra = HistoricoCompra(local: string)

  /** A medication record, as sent by a client and as stored. The client's
      `id` is overwritten by every operation that stores a record, and
      `diasRestantes` is optional because a client may send null. */
  datatype Remedio = Remedio(
    id: int,
    nome: string,
    doseDiaria: int,
    dosesCaixa: int,
    cpfConvenio: Option<string>,
    historicoCompras: seq<HistoricoCompra>,
    diasRestantes: Option<int>
  )

  /** Whole days one box lasts at the given daily dose, truncated toward
      zero; 0 when the dose is not positive. */
  function DiasPorCaixa(dosesCaixa: int, doseDiaria: int): (d: int)
    ensures doseDiaria <= 0 ==> d == 0
    ensures doseDiaria > 0 ==> IsTruncQuotient(dosesCaixa, doseDiaria, d)
    ensures doseDiaria > 0 && dosesCaixa >= 0 ==>
              0 <= d && d * doseDiaria <= dosesCaixa < (d + 1) * doseDiaria
  {
    if doseDiaria > 0 then TruncDiv(dosesCaixa, doseDiaria) else 0
  }

  /** Worked values of the rule: 30 doses at 3 a day last 10 days, 10 at 3
      a day last 3 whole days, a negative box rounds toward zero, and a dose
      of 0 yields 0. */
  lemma DiasPorCaixaExamples()
    ensures DiasPorCaixa(30, 3) == 10
    ensures DiasPorCaixa(10, 3) == 3
    ensures DiasPorCaixa(-7, 2) == -3
    ensures DiasPorCaixa(30, 0) == 0
  {
  }

  /** The fields a client supplies that every storing operation keeps as sent. */
  predicate SameClientFields(stored: Remedio, sent: Remedio) {
    && stored.nome == sent.nome
    && stored.doseDiaria == sent.doseDiaria
    && stored.dosesCaixa == sent.dosesCaixa
    && stored.cpfConvenio == sent.cpfConvenio
    && stored.historicoCompras == sent.historicoCompras
  }

  /** The stored days-remaining value is the one the rule derives. */
  predicate DiasConsistentes(r: Remedio) {
    r.diasRestantes == Some(DiasPorCaixa(r.dosesCaixa, r.doseDiaria))
  }

  /** The list the store holds when the service starts. */
  const SeedDb: seq<Remedio> := [
    Remedio(
      1, "Dipirona", 3, 30, Some("123.456.789-00"),
      [HistoricoCompra("Farmacia A"), HistoricoCompra("Farmacia B")],
      Some(10))
  ]
}
