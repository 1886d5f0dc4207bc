# Medication store — Dafny model

A model of the in-memory medication API in `main.py`. The store is an
ordered list of medication records (`remedios_db`). It starts with one
seeded record. Three routes act on it:

- `listar_remedios` returns the list as it is.
- `criar_remedio` gives the client's record a fresh id and derives its days
  remaining (`dias_restantes`) from box size and daily dose. It then appends
  the record.
- `atualizar_remedio` replaces the first record whose id matches the path id.
  When no record matches, it fails with not-found.

Days remaining is `int(doses_caixa / dose_diaria)` when the dose is positive.
Create stores 0 for a non-positive dose. Update then keeps whatever value the
client sent.

The model is functional. Records are immutable datatypes and the store is a
`seq<Remedio>`. Each route is a pure function from the current list to an
`Outcome`, which holds the next list and the reply. The not-found exception
is the `NaoEncontrado` reply.

Modules:

- `Division` (division.dfy): the truncating quotient that `int(a / b)`
  computes, characterised independently of its definition.
- `Remedios` (remedio.dfy): the record datatype, the seed list and the
  days-remaining rule.
- `Store` (store.dfy): list, create and update. Update appears twice: as a
  function, and as a method with the source's scanning loop, proved equal to
  the function. The module also proves the id-ordering facts.
- `Api` (api.dfy): a request datatype for the three routes, a dispatcher,
  and the store after a sequence of requests. Its lemmas hold for any
  number of requests.

The code modelled here has no start date and no clock. It stores days
remaining in the record when it is written, and the model computes no
elapsed days.

## Model

| member | source | states |
|---|---|---|
| Division.TruncDiv | main.py:72 | For a positive divisor b, the quotient rounded toward zero: 0 ≤ q·b ≤ a < q·b + b when a ≥ 0, and q·b − b < a ≤ q·b ≤ 0 when a < 0. |
| Division.TruncDivUnique | main.py:72 | An integer q satisfies that bracket for a and b exactly when q is TruncDiv(a, b). So TruncDiv is the one value `int(a / b)` can yield, rounded toward zero. |
| Division.TruncDivNegate | main.py:72 | Truncation is symmetric: TruncDiv(-a, b) = -TruncDiv(a, b). A negative box size therefore rounds toward zero, not down. |
| Remedios.DiasPorCaixa | main.py:71-74 | Days remaining is 0 when the daily dose is not positive. Otherwise it is the truncated quotient of box size by dose. For a non-negative box it is the number of whole days d with d·dose ≤ box < (d+1)·dose. |
| Remedios.DiasPorCaixaExamples | main.py:71-74 | Worked values: 30 doses at 3 a day last 10 days. 10 doses at 3 a day last 3 whole days. A box of -7 at 2 a day gives -3, rounded toward zero and not down. A dose of 0 gives 0. |
| Store.NextId | main.py:64-66 | The new id is 1 on an empty list and otherwise the last record's id plus 1. When ids increase along the list, it is larger than every id already stored. |
| Store.FirstIndex | main.py:82-83 | The scan finds nothing exactly when no record has the id. When it finds an index, that record has the id and no earlier record does. |
| Store.Listar | main.py:57-59 | Listing leaves the store unchanged and replies with the stored list exactly. |
| Store.Criar | main.py:61-78 | Create replies with the stored record; the model has no error path for it. The list grows by one record at the end and every earlier record is kept. The new record's id is 1 or the last id plus 1, whatever id the client sent. Its other client fields are as sent. Its days remaining is what the rule derives, 0 for a non-positive dose, whatever the client sent. Create keeps ids increasing. |
| Store.Atualizar | main.py:80-95 | Update replies not-found exactly when no record has the path id, and then leaves the list unchanged. Otherwise it replaces the first record with that id. The new record carries the path id and the client's fields. The length and every record's id are unchanged, so increasing ids stay increasing. Days remaining is recomputed for a positive dose and kept as the client sent it otherwise. |
| Store.AtualizarRemedio | main.py:82-95 | The in-order scan over the list, which returns at the first matching id and otherwise falls through to not-found, computes exactly the update function. |
| Store.IncreasingIsUnique | main.py:64-66 | Strictly increasing ids along the list are pairwise distinct. |
| Store.UpdateTouchesOnlyItsId | main.py:82-93 | With unique ids, a successful update replaces the record carrying the path id. Every other record is left exactly as it was. |
| Store.CreateThenUpdate | main.py:61-93 | On a list with increasing ids, updating the id that create just assigned succeeds. It replaces only the appended record: the earlier records are the original list. |
| Store.SeedWellFormed | main.py:36-49 | The seed list has increasing ids. Its stored days remaining (10) is what the rule derives from 30 doses at 3 a day. |
| Api.Handle | main.py:57-95 | Serving any request keeps ids increasing. A list request changes nothing. A create request appends one record. An update request keeps the length. A not-found reply leaves the list unchanged. |
| Api.RunPreservesIncreasing | main.py:61-93 | After any sequence of requests, ids still increase along the list. |
| Api.RunFromSeedIdsUnique | main.py:36-93 | Starting from the seed list, ids stay pairwise distinct whatever requests are served. |
| Api.RunLength | main.py:57-95 | After a sequence of requests, the list length is the starting length plus the number of create requests. |
| Api.ListingIsReadOnly | main.py:57-59 | Any number of list requests leaves the store exactly as it was. |
| Api.HandleKeepsDiasConsistentes | main.py:70-89 | If every stored days value matches the rule, it still does after a list, a create, or an update with a positive dose. |
| Api.RunKeepsDiasConsistentes | main.py:70-89 | Stored days values keep matching the rule over any request sequence whose updates all carry a positive dose. |
| Api.CreateAndUpdateDias | main.py:71-89 | Given the same body, create and update store the same days value when the dose is positive. Otherwise create stores 0 and update stores the client's value. An update with a non-positive dose and a client value other than 0 leaves a value the rule does not derive. |

## Left out

- FastAPI setup, the CORS middleware and the `home` route (main.py:6-16, 53-55) are framework plumbing with no store logic.
- Pydantic validation and `.dict()` conversion are treated as the identity on records.
- `HTTPException(404)` is the `NaoEncontrado` reply. Status codes and the detail text are not modelled.
- The request body's optional `id` is modelled as a plain `int`. Create and update both overwrite it before anything reads it, so whether the client sent null cannot be observed.
- The float `preco` of a purchase is dropped. Purchase history is carried as a sequence of places and nothing computes with it.
- Division.TruncDiv: `int(a / b)` goes through a float, which loses precision for very large box sizes. The model uses exact integer division truncated toward zero.
- Store.Criar: when the quotient of box size by dose is beyond the float range (about 1.8e308, e.g. a box of 10**309 at 1 a day), `int / int` raises OverflowError at main.py:72, the append at main.py:77 never runs and the list is unchanged. The model has no such failure: it always stores the record with the exact quotient.
- Store.Atualizar: for the same out-of-range quotient the source raises at main.py:89 and the replacement at main.py:92 never runs, so the list is unchanged. The model replaces the record with the exact quotient.
- Division.TruncDiv: only a positive divisor is modelled, because the source divides only under a `dose_diaria > 0` guard.
- Concurrent requests on the shared global list are not modelled. Requests are served one at a time, in order.
