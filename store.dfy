/** The webhook handler `stone_webhook` (main.py) as the imperative code it
    is: three statements against the three tables inside one transaction,
    rolled back on the first error. */
module WebhookStore {
  import opened Wrappers
  import opened Json
  import opened Payload
  import opened Tables
  import opened Reconcile

  /** The store: webhooks_stone, pedidos_stone and cobrancas_stone. */
  class Store {
    var webhooks: map<string, EventRow>
    var pedidos: map<string, OrderRow>
    var cobrancas: map<string, ChargeRow>

    /** The three tables as one value. */
    function Contents(): Db
      reads this
    {
      Db(webhooks, pedidos, cobrancas)
    }

    /** The invariant every committed state satisfies. */
    ghost predicate Valid()
      reads this
    {
      Consistent(Contents())
    }

    /** An empty store. */
    constructor ()
      ensures Valid()
      ensures Contents() == Db(map[], map[], map[])
    {
      webhooks, pedidos, cobrancas := map[], map[], map[];
    }

    /** `stone_webhook`: processes one validated delivery. The statements the
        store raises an error on are given by rejected. On success the tables
        are those of Deliver; on any error they are as before the call and the
        reply is a 500. */
    method StoneWebhook(w: StoneWebhook, rejected: set<Stmt>) returns (reply: Reply)
      requires Valid()
      modifies this
      ensures Valid()
      ensures Contents() == Deliver(old(Contents()), w, rejected).db
      ensures reply == Deliver(old(Contents()), w, rejected).reply
      ensures reply.ServerError? ==> reply.status == 500 && Contents() == old(Contents())
    {
      DeliverKeepsConsistent(Contents(), w, rejected);
      var before := Contents();
      var err := ExecInsertEvent(w, rejected);
      if err.None? {
        err := ExecUpsertOrder(w, rejected);
        if err.None? {
          err := ExecUpsertCharge(w, rejected);
        }
      }
      if err.Some? {
        // the exception leaves the transaction block: ROLLBACK
        webhooks, pedidos, cobrancas := before.webhooks, before.pedidos, before.cobrancas;
        reply := ServerError(InternalServerError, err.value);
      } else {
        reply := Processed;
      }
    }

    /** `INSERT INTO webhooks_stone (id, tipo, payload, criado_em) ...
        ON CONFLICT (id) DO NOTHING`. */
    method ExecInsertEvent(w: StoneWebhook, rejected: set<Stmt>) returns (err: Option<Cause>)
      modifies this
      ensures Executed(err, Contents()) == LogEvent(old(Contents()), w, rejected)
      ensures err.Some? ==> unchanged(this)
    {
      if InsertEvent in rejected {
        err := Some(Rejected(InsertEvent));
      } else {
        err := None;
        if w.id !in webhooks {
          webhooks := webhooks[w.id := EventRowOf(w)];
        }
      }
    }

    /** `order_data = data.get("order")`; when it is truthy, `INSERT INTO
        pedidos_stone ... ON CONFLICT (id) DO UPDATE SET codigo, valor,
        status, fechado, atualizado_em`. */
    method ExecUpsertOrder(w: StoneWebhook, rejected: set<Stmt>) returns (err: Option<Cause>)
      modifies this
      ensures Executed(err, Contents()) == StoreOrder(old(Contents()), w, rejected)
      ensures err.Some? ==> unchanged(this)
    {
      err := None;
      var orderData := Get(w.data, "order");
      if Truthy(orderData) {
        if !orderData.value.Obj? {
          err := Some(OrderNotAnObject);
        } else {
          var order := orderData.value.fields;
          var id := Text(Get(order, "id"));
          if id.None? {
            err := Some(NullKey(UpsertOrder));
          } else if UpsertOrder in rejected {
            err := Some(Rejected(UpsertOrder));
          } else {
            var row, k := OrderRowOf(order), id.value;
            if k in pedidos {
              var stored := pedidos[k];
              pedidos := pedidos[k := stored.(codigo := row.codigo, valor := row.valor, status := row.status,
                                              fechado := row.fechado, atualizadoEm := row.atualizadoEm)];
            } else {
              pedidos := pedidos[k := row];
            }
          }
        }
      }
    }

    /** When the type starts with "charge.", `INSERT INTO cobrancas_stone ...
        ON CONFLICT (id) DO UPDATE SET valor_pago, status, pago_em,
        atualizado_em`, with pedido_id from the embedded order. */
    method ExecUpsertCharge(w: StoneWebhook, rejected: set<Stmt>) returns (err: Option<Cause>)
      modifies this
      ensures Executed(err, Contents()) == StoreCharge(old(Contents()), w, rejected)
      ensures err.Some? ==> unchanged(this)
    {
      err := None;
      if "charge." <= w.eventType {
        var id := Text(Get(w.data, "id"));
        if id.None? {
          err := Some(NullKey(UpsertCharge));
        } else if UpsertCharge in rejected {
          err := Some(Rejected(UpsertCharge));
        } else {
          var row, k := ChargeRowOf(w), id.value;
          if k in cobrancas {
            var stored := cobrancas[k];
            cobrancas := cobrancas[k := stored.(valorPago := row.valorPago, status := row.status,
                                                pagoEm := row.pagoEm, atualizadoEm := row.atualizadoEm)];
          } else {
            cobrancas := cobrancas[k := row];
          }
        }
      }
    }
  }

  /** A statement's result as the step functions give it: its error, or the
      tables it leaves. */
  function Executed(err: Option<Cause>, db: Db): Result<Db, Cause>
  {
    if err.Some? then Failure(err.value) else Success(db)
  }
}
