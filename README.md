# Stone webhook reconciliation, modelled in Dafny

This project models the webhook handler of a small payment-notification
service (`main.py`). The service receives order and charge events from the
Stone payment provider. For each delivery it runs one database transaction
with up to three statements:

- it logs the raw event in `webhooks_stone`, once per event id;
- it upserts the embedded order into `pedidos_stone`;
- for `charge.*` events, it upserts the charge into `cobrancas_stone`.

A read endpoint, `get_pedido`, returns an order with the charges whose
`pedido_id` points at it.

The model has these modules:

- `Wrappers`: Option and Result.
- `Json`: decoded JSON values. JSON null is None, `dict.get` returns an
  Option, and Python truthiness is modelled.
- `Payload`: the `StoneWebhook` body, its validation and `.dict()`.
- `Tables`: the three tables as maps from the text key `id` to a row, with
  PostgreSQL's `INSERT ... ON CONFLICT (id) DO NOTHING / DO UPDATE SET`
  semantics.
- `Reconcile`: `Deliver`, a pure specification of one delivery (the tables
  after the call, and the reply), with the handler's properties as lemmas.
- `WebhookStore`: the handler as imperative code. A `Store` class holds the
  three tables as map fields. `StoneWebhook` executes the statements one
  by one and restores the snapshot taken at the start when one fails. Each
  of its methods is proved to match `Deliver`.
- `Query`: `GetPedido` and the lemmas linking it to the handler.

Store errors depend on a schema that is not part of this model. They are an
oracle: `rejected` is the set of statements the store raises an error on if
they are issued. Two failures follow from the input alone:

- a truthy `data["order"]` that is not a dict, where `.get` raises;
- an `id` that is null or not a string. The model assumes each table's `id`
  column is a non-null text key, as the `ON CONFLICT (id)` targets suggest.

The code and the design description of the service disagree in places. The
model follows the code:

- timestamps are stored as the strings received and never parsed;
- the charges embedded in an order are ignored;
- `cliente_id` comes from `order["customer_id"]`;
- an order is upserted for any event type whose `data["order"]` is truthy;
- on conflict, an order keeps its `moeda` and `cliente_id`;
- on conflict, a charge keeps its `pedido_id`. So a charge first stored
  without an order is never listed under that order later
  (`Query.ChargeListedUnderOrder`).

## Model

| member | source | states |
|---|---|---|
| `Payload.Validate` | main.py:33-38 | the body validates exactly when id, type and created_at are strings and account and data are objects |
| `Payload.ValidateAsDict` | main.py:54 | the stored payload `webhook_data.dict()` validates back to the same webhook |
| `Payload.AsDictValidate` | main.py:33-38 | a validated webhook keeps exactly the five declared fields of the body, with the body's values |
| `Tables.InsertOrIgnore` | main.py:46-56 | `ON CONFLICT DO NOTHING`: the key set gains the id, every stored row is kept, and a new id gets the inserted row |
| `Tables.OrderUpsertColumns` | main.py:60-80 | the order upsert leaves one row per id: code, amount, status, closed and updated_at come from the new row; currency, customer_id and created_at keep their stored values; other rows are untouched |
| `Tables.ChargeUpsertColumns` | main.py:84-105 | the charge upsert overwrites only valor_pago, status, pago_em and atualizado_em; pedido_id, codigo, valor, moeda, metodo_pagamento and criado_em keep their stored values |
| `Tables.OrderUpsertIdempotent` | main.py:60-80 | repeating the same order upsert leaves the table unchanged |
| `Tables.ChargeUpsertIdempotent` | main.py:84-105 | repeating the same charge upsert leaves the table unchanged |
| `Reconcile.Deliver` | main.py:41-110 | all or nothing: the delivery succeeds exactly when every statement it issues goes through; on failure no table changes and the reply is 500 |
| `Reconcile.DeliverLogsOnce` | main.py:46-56 | a known id leaves its raw-event row unchanged; a new id adds exactly one row with the type, created_at as received and a payload that validates back to the webhook |
| `Reconcile.DeliverOrder` | main.py:58-80 | the order table changes exactly when data["order"] is truthy, whatever the event type, and then by the upsert's column rules |
| `Reconcile.DeliverCharge` | main.py:82-105 | the charge table changes exactly for "charge." events; the row is keyed by data["id"]; a new row's pedido_id is the embedded order's id or null; on conflict the column rules hold |
| `Reconcile.DeliverOtherEventOnlyLogs` | main.py:58-110 | an event with no order that is not a charge event writes only the raw-event log and still succeeds |
| `Reconcile.DeliverIdempotent` | main.py:44-105 | once a delivery has succeeded, delivering the same webhook again leaves all three tables as they were after the first delivery |
| `Reconcile.DeliverKeepsConsistent` | main.py:44-105 | every raw-event row stays the log entry of the webhook with its id, and every set pedido_id names a stored order |
| `Reconcile.ReplayLogsEachIdOnce` | main.py:46-56 | over any history of deliveries, the raw-event log gains exactly one row per id of a successful delivery, and a row already stored is never rewritten |
| `Reconcile.ReplayKeepsOrders` | main.py:58-105 | over any history of deliveries, no order or charge row is ever deleted |
| `Reconcile.ReplayKeepsConsistent` | main.py:44-105 | over any history of deliveries, the raw-event rows and the charge-to-order links stay consistent |
| `WebhookStore.Store.StoneWebhook` | main.py:40-110 | the handler leaves the tables and reply that `Deliver` gives, keeps the invariant, and restores the previous tables on any error |
| `WebhookStore.Store.ExecInsertEvent` | main.py:46-56 | the raw-event insert, statement by statement, matches its specification step |
| `WebhookStore.Store.ExecUpsertOrder` | main.py:58-80 | the order upsert matches its specification step, including a non-dict order and a null id |
| `WebhookStore.Store.ExecUpsertCharge` | main.py:82-105 | the charge upsert matches its specification step, including a null charge id |
| `Query.GetPedido` | main.py:112-130 | not found (404) exactly when the order id is absent; otherwise the order row and exactly the charge rows whose pedido_id is that id |
| `Query.ChargeListedUnderOrder` | main.py:82-125 | after a charge event with an embedded order, the order is found, and the charge is listed under it exactly when it was new or already linked to that order |
| `Query.ChargeWithoutOrderUnlinked` | main.py:94-125 | a charge event without an order lists its charge under an order only if the charge was already linked to it |

## Left out

- The web framework wiring, routes as HTTP, the startup and shutdown hooks
  and the lazily created global connection pool (main.py:8-31). They are
  resource lifecycle and I/O.
- asyncpg and async/await. A transaction is one sequential step that
  commits or rolls back.
- Concurrent deliveries for the same id. This is a race in the database,
  outside the handler's logic.
- Which SQL errors the store raises: the table schemas are not part of
  this model. They are the `rejected` oracle.
- Column types: values are stored as received. A type mismatch the store
  would reject is one more case of the oracle.
- The detail text of the 500 response. The model gives the status and an
  abstract cause.
- `json.dumps` and the jsonb round trip. The payload is stored as the JSON
  object `webhook_data.dict()`.
- JSON floating-point numbers. Numbers are integers; the handler never does
  arithmetic on them.
- Pydantic's type coercion and the 422 response. Validation is "the five
  fields are present with the declared types".
- The order of the rows returned by `get_pedido`. SQL gives no order, so
  the charges are a map keyed by charge id.
- exemplo.py: a chat notification over HTTP, a debug printer and a
  notification insert, all I/O. config.py only reads environment variables.
