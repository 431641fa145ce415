/** What one delivery to `stone_webhook` (main.py) does to the three tables,
    as a function of the tables before the call: the specification that the
    imperative handler in module WebhookStore is proved against, and the
    properties of that handler stated as lemmas. */
module Reconcile {
  import opened Wrappers
  import opened Json
  import opened Payload
  import opened Tables

  /** The three statements the handler can issue, in the order it issues them. */
  datatype Stmt = InsertEvent | UpsertOrder | UpsertCharge

  /** Why a delivery failed. The store's own errors depend on a schema that
      is not part of this model, so they are an oracle: `rejected` is the set
      of statements the store raises an error on if they are issued. */
  datatype Cause =
    | Rejected(stmt: Stmt)   // the store raised an error on this statement
    | OrderNotAnObject       // data["order"] is truthy but not a dict, so `.get` raises
    | NullKey(stmt: Stmt)    // the id bound to the table's text key is null or not a string

  /** The response: `{"status": "sucesso", ...}` or HTTPException(500). */
  datatype Reply = Processed | ServerError(status: int, cause: Cause)

  /** The tables after the call, and the response. */
  datatype Outcome = Outcome(db: Db, reply: Reply)

  /** Status code of the handler's failure response. */
  const InternalServerError: int := 500

  /** `webhook_data.data.get("order")`. */
  function OrderData(w: StoneWebhook): Option<Value>
  {
    Get(w.data, "order")
  }

  /** `webhook_data.type.startswith("charge.")`. */
  predicate IsChargeEvent(w: StoneWebhook)
  {
    "charge." <= w.eventType
  }

  /** `order_data.get("id") if order_data else None`, as a text key: the
      order row's key and the charge row's pedido_id. */
  function OrderId(w: StoneWebhook): Option<string>
  {
    var order := OrderData(w);
    if Truthy(order) && order.value.Obj? then Text(Get(order.value.fields, "id")) else None
  }

  /** `webhook_data.data.get("id")`, as a text key: the charge row's key. */
  function ChargeId(w: StoneWebhook): Option<string>
  {
    Text(Get(w.data, "id"))
  }

  /** The raw-event row: type, the whole validated body, created_at as received. */
  function EventRowOf(w: StoneWebhook): EventRow
  {
    EventRow(w.eventType, Obj(AsDict(w)), w.createdAt)
  }

  /** The order row bound by the order upsert's VALUES. */
  function OrderRowOf(order: Dict): OrderRow
  {
    OrderRow(Get(order, "code"), Get(order, "amount"), Get(order, "currency"), Get(order, "status"),
             Get(order, "closed"), Get(order, "customer_id"), Get(order, "created_at"), Get(order, "updated_at"))
  }

  /** The charge row bound by the charge upsert's VALUES. */
  function ChargeRowOf(w: StoneWebhook): ChargeRow
  {
    var d := w.data;
    ChargeRow(OrderId(w), Get(d, "code"), Get(d, "amount"), Get(d, "paid_amount"), Get(d, "status"),
              Get(d, "currency"), Get(d, "payment_method"), Get(d, "paid_at"), Get(d, "created_at"),
              Get(d, "updated_at"))
  }

  /** The first statement: the raw-event insert. */
  function LogEvent(db: Db, w: StoneWebhook, rejected: set<Stmt>): Result<Db, Cause>
  {
    if InsertEvent in rejected then Failure(Rejected(InsertEvent))
    else Success(db.(webhooks := InsertOrIgnore(db.webhooks, w.id, EventRowOf(w))))
  }

  /** The second statement: the order upsert, issued when data["order"] is truthy. */
  function StoreOrder(db: Db, w: StoneWebhook, rejected: set<Stmt>): Result<Db, Cause>
  {
    var order := OrderData(w);
    if !Truthy(order) then Success(db)
    else if !order.value.Obj? then Failure(OrderNotAnObject)
    else if OrderId(w).None? then Failure(NullKey(UpsertOrder))
    else if UpsertOrder in rejected then Failure(Rejected(UpsertOrder))
    else Success(db.(pedidos := Upsert(db.pedidos, OrderId(w).value, OrderRowOf(order.value.fields), OrderOnConflict)))
  }

  /** The third statement: the charge upsert, issued for "charge." events. */
  function StoreCharge(db: Db, w: StoneWebhook, rejected: set<Stmt>): Result<Db, Cause>
  {
    if !IsChargeEvent(w) then Success(db)
    else if ChargeId(w).None? then Failure(NullKey(UpsertCharge))
    else if UpsertCharge in rejected then Failure(Rejected(UpsertCharge))
    else Success(db.(cobrancas := Upsert(db.cobrancas, ChargeId(w).value, ChargeRowOf(w), ChargeOnConflict)))
  }

  /** The condition under which every statement the handler issues goes
      through: none of them is rejected, a truthy order is a dict with a
      text id, and a charge event's data has a text id. */
  predicate Accepted(w: StoneWebhook, rejected: set<Stmt>)
  {
    && InsertEvent !in rejected
    && (Truthy(OrderData(w)) ==>
          OrderData(w).value.Obj? && OrderId(w).Some? && UpsertOrder !in rejected)
    && (IsChargeEvent(w) ==> ChargeId(w).Some? && UpsertCharge !in rejected)
  }

  /** One delivery: the three statements in one transaction. All or
      nothing: it succeeds exactly when every statement it issues goes
      through; the first failure rolls the transaction back, so no table
      differs from db, and the response is a 500. */
  function Deliver(db: Db, w: StoneWebhook, rejected: set<Stmt>): (r: Outcome)
    ensures r.reply.Processed? <==> Accepted(w, rejected)
    ensures r.reply.ServerError? ==> r.db == db && r.reply.status == 500
  {
    var steps :=
      match LogEvent(db, w, rejected)
      case Failure(e) => Failure(e)
      case Success(d1) =>
        match StoreOrder(d1, w, rejected)
        case Failure(e) => Failure(e)
        case Success(d2) => StoreCharge(d2, w, rejected);
    match steps
    case Success(d) => Outcome(d, Processed)
    case Failure(e) => Outcome(db, ServerError(InternalServerError, e))
  }

  /** The invariant the handler keeps on the tables: every raw-event row holds
      the body of the webhook with that id, its type and its created_at, and
      every charge's pedido_id, when set, names a stored order. */
  ghost predicate Consistent(db: Db)
  {
    LogConsistent(db.webhooks) && ChargesLinked(db.pedidos, db.cobrancas)
  }

  /** Every raw-event row is the log entry of the webhook with its id. */
  ghost predicate LogConsistent(webhooks: map<string, EventRow>)
  {
    forall id :: id in webhooks ==> LoggedAs(webhooks[id], id)
  }

  /** Every charge's pedido_id, when set, names a stored order. */
  ghost predicate ChargesLinked(pedidos: map<string, OrderRow>, cobrancas: map<string, ChargeRow>)
  {
    forall c :: c in cobrancas && cobrancas[c].pedidoId.Some? ==> cobrancas[c].pedidoId.value in pedidos
  }

  /** The raw-event row row is the log entry of a webhook whose id is id. */
  ghost predicate LoggedAs(row: EventRow, id: string)
  {
    && row.payload.Obj?
    && Validate(row.payload.fields).Some?
    && var w := Validate(row.payload.fields).value;
       w.id == id && row.tipo == w.eventType && row.criadoEm == w.createdAt
  }

  // ---------------------------------------------------------------------
  // Properties of one delivery

  /** The raw-event log: a known id leaves its row unchanged; a new id adds
      exactly one row, holding the type, the whole body (it validates back to
      the webhook) and created_at as received. */
  lemma DeliverLogsOnce(db: Db, w: StoneWebhook, rejected: set<Stmt>)
    requires Deliver(db, w, rejected).reply.Processed?
    ensures var out := Deliver(db, w, rejected).db.webhooks;
      && out.Keys == db.webhooks.Keys + {w.id}
      && (forall id :: id in db.webhooks ==> out[id] == db.webhooks[id])
      && (w.id !in db.webhooks ==>
            && out[w.id].tipo == w.eventType
            && out[w.id].criadoEm == w.createdAt
            && out[w.id].payload.Obj?
            && Validate(out[w.id].payload.fields) == Some(w))
  {
  }

  /** The order upsert fires exactly when data["order"] is truthy, whatever
      the event type: otherwise pedidos_stone is untouched; when it fires,
      the order's id holds exactly one row whose code, amount, status, closed
      and updated_at are the payload's and whose currency, customer_id and
      created_at are the stored ones (the payload's for a new id). */
  lemma DeliverOrder(db: Db, w: StoneWebhook, rejected: set<Stmt>)
    requires Deliver(db, w, rejected).reply.Processed?
    ensures !Truthy(OrderData(w)) ==> Deliver(db, w, rejected).db.pedidos == db.pedidos
    ensures Truthy(OrderData(w)) ==>
      && OrderData(w).value.Obj? && OrderId(w).Some?
      && var k, row, out := OrderId(w).value, OrderRowOf(OrderData(w).value.fields),
                            Deliver(db, w, rejected).db.pedidos;
         && out.Keys == db.pedidos.Keys + {k}
         && (forall o :: o in db.pedidos && o != k ==> out[o] == db.pedidos[o])
         && OrderUpdated(out[k]) == OrderUpdated(row)
         && OrderKept(out[k]) == (if k in db.pedidos then OrderKept(db.pedidos[k]) else OrderKept(row))
  {
  }

  /** The charge upsert fires exactly when the type starts with "charge.": it
      keys the row by data["id"]; a new row's pedido_id is the embedded
      order's id, or NULL without one; on conflict only valor_pago, status,
      pago_em and atualizado_em change, and pedido_id, codigo, valor, moeda,
      metodo_pagamento and criado_em keep their stored values. */
  lemma DeliverCharge(db: Db, w: StoneWebhook, rejected: set<Stmt>)
    requires Deliver(db, w, rejected).reply.Processed?
    ensures !IsChargeEvent(w) ==> Deliver(db, w, rejected).db.cobrancas == db.cobrancas
    ensures IsChargeEvent(w) ==>
      && ChargeId(w).Some?
      && var c, row, out := ChargeId(w).value, ChargeRowOf(w), Deliver(db, w, rejected).db.cobrancas;
         && out.Keys == db.cobrancas.Keys + {c}
         && (forall x :: x in db.cobrancas && x != c ==> out[x] == db.cobrancas[x])
         && ChargeUpdated(out[c]) == ChargeUpdated(row)
         && ChargeKept(out[c]) == (if c in db.cobrancas then ChargeKept(db.cobrancas[c]) else ChargeKept(row))
         && row.pedidoId == (if Truthy(OrderData(w)) then OrderId(w) else None)
  {
  }

  /** An event that embeds no order and is not a charge event writes only the
      raw-event log, and still succeeds when that insert goes through. */
  lemma DeliverOtherEventOnlyLogs(db: Db, w: StoneWebhook, rejected: set<Stmt>)
    requires !Truthy(OrderData(w)) && !IsChargeEvent(w) && InsertEvent !in rejected
    ensures var out := Deliver(db, w, rejected);
      && out.reply == Processed
      && out.db.pedidos == db.pedidos
      && out.db.cobrancas == db.cobrancas
      && out.db.webhooks.Keys == db.webhooks.Keys + {w.id}
  {
  }

  /** Idempotence under redelivery: once a webhook has been processed, a second
      delivery of it leaves all three tables as the first one did, whether the
      second succeeds or fails. */
  lemma DeliverIdempotent(db: Db, w: StoneWebhook, first: set<Stmt>, second: set<Stmt>)
    requires Deliver(db, w, first).reply.Processed?
    ensures var once := Deliver(db, w, first).db;
      Deliver(once, w, second).db == once
  {
  }

  /** The handler keeps the tables consistent. */
  lemma DeliverKeepsConsistent(db: Db, w: StoneWebhook, rejected: set<Stmt>)
    requires Consistent(db)
    ensures Consistent(Deliver(db, w, rejected).db)
  {
    if Accepted(w, rejected) {
      var d1 := LogEvent(db, w, rejected).value;
      LogEventKeepsConsistent(db, w, rejected);
      var d2 := StoreOrder(d1, w, rejected).value;
      StoreOrderKeepsConsistent(d1, w, rejected);
      StoreChargeKeepsConsistent(d2, w, rejected);
    }
  }

  /** The raw-event insert logs the webhook under its own id. */
  lemma LogEventKeepsConsistent(db: Db, w: StoneWebhook, rejected: set<Stmt>)
    requires Consistent(db) && LogEvent(db, w, rejected).Success?
    ensures Consistent(LogEvent(db, w, rejected).value)
  {
  }

  /** The order upsert only adds or rewrites orders, so every link still holds;
      it also leaves the embedded order's id stored. */
  lemma StoreOrderKeepsConsistent(db: Db, w: StoneWebhook, rejected: set<Stmt>)
    requires Consistent(db) && StoreOrder(db, w, rejected).Success?
    ensures Consistent(StoreOrder(db, w, rejected).value)
    ensures OrderId(w).Some? ==> OrderId(w).value in StoreOrder(db, w, rejected).value.pedidos
  {
  }

  /** The charge upsert links a new charge to an order that is stored, and
      keeps a stored charge's link. */
  lemma StoreChargeKeepsConsistent(db: Db, w: StoneWebhook, rejected: set<Stmt>)
    requires Consistent(db) && StoreCharge(db, w, rejected).Success?
    requires OrderId(w).Some? ==> OrderId(w).value in db.pedidos
    ensures Consistent(StoreCharge(db, w, rejected).value)
  {
  }

  // ---------------------------------------------------------------------
  // Properties of a history of deliveries

  /** One delivery: the webhook and the statements the store rejected then. */
  datatype Delivery = Delivery(webhook: StoneWebhook, rejected: set<Stmt>)

  /** The tables after the deliveries of log, one after the other. */
  function Replay(db: Db, log: seq<Delivery>): Db
    decreases |log|
  {
    if log == [] then db
    else Replay(Deliver(db, log[0].webhook, log[0].rejected).db, log[1..])
  }

  /** The ids of the deliveries of log that succeeded. Whether a delivery
      succeeds does not depend on the tables, only on the webhook and on what
      the store rejected. */
  function ProcessedIds(log: seq<Delivery>): set<string>
    decreases |log|
  {
    if log == [] then {}
    else (if Accepted(log[0].webhook, log[0].rejected) then {log[0].webhook.id} else {})
         + ProcessedIds(log[1..])
  }

  /** The raw-event log is append-once-per-id: after any history it has one
      row for each id it had before and each id of a successful delivery,
      and no row it held before is ever rewritten. */
  lemma {:induction false} ReplayLogsEachIdOnce(db: Db, log: seq<Delivery>)
    ensures Replay(db, log).webhooks.Keys == db.webhooks.Keys + ProcessedIds(log)
    ensures forall id :: id in db.webhooks ==> Replay(db, log).webhooks[id] == db.webhooks[id]
    decreases |log|
  {
    if log != [] {
      var w, rejected := log[0].webhook, log[0].rejected;
      var d := Deliver(db, w, rejected).db;
      if Accepted(w, rejected) {
        DeliverLogsOnce(db, w, rejected);
      }
      ReplayLogsEachIdOnce(d, log[1..]);
    }
  }

  /** Orders are never deleted: every order id stored before a history is
      still stored after it. */
  lemma {:induction false} ReplayKeepsOrders(db: Db, log: seq<Delivery>)
    ensures db.pedidos.Keys <= Replay(db, log).pedidos.Keys
    ensures db.cobrancas.Keys <= Replay(db, log).cobrancas.Keys
    decreases |log|
  {
    if log != [] {
      var w, rejected := log[0].webhook, log[0].rejected;
      var d := Deliver(db, w, rejected).db;
      if Accepted(w, rejected) {
        DeliverOrder(db, w, rejected);
        DeliverCharge(db, w, rejected);
      }
      ReplayKeepsOrders(d, log[1..]);
    }
  }

  /** Every history keeps the tables consistent. */
  lemma {:induction false} ReplayKeepsConsistent(db: Db, log: seq<Delivery>)
    requires Consistent(db)
    ensures Consistent(Replay(db, log))
    decreases |log|
  {
    if log != [] {
      var w, rejected := log[0].webhook, log[0].rejected;
      DeliverKeepsConsistent(db, w, rejected);
      ReplayKeepsConsistent(Deliver(db, w, rejected).db, log[1..]);
    }
  }
}
