/** `get_pedido` (main.py): an order with the charges that point at it. */
module Query {
  import opened Wrappers
  import opened Json
  import opened Payload
  import opened Tables
  import opened Reconcile

  /** The response body: the order row and the charge rows whose pedido_id is
      the order's id, keyed by their own id (SQL gives them in no set order). */
  datatype PedidoView = PedidoView(pedido: OrderRow, cobrancas: map<string, ChargeRow>)

  /** Status code of the not-found response. */
  const NotFound: int := 404

  /** `SELECT * FROM pedidos_stone WHERE id = $1`, then 404 when there is no
      row, else `SELECT * FROM cobrancas_stone WHERE pedido_id = $1`. */
  function GetPedido(db: Db, pedidoId: string): (r: Result<PedidoView, int>)
    ensures r.Failure? <==> pedidoId !in db.pedidos
    ensures r.Failure? ==> r.error == NotFound
    ensures r.Success? ==>
      && r.value.pedido == db.pedidos[pedidoId]
      && r.value.cobrancas.Keys <= db.cobrancas.Keys
      && (forall c :: c in db.cobrancas ==>
            (c in r.value.cobrancas <==> db.cobrancas[c].pedidoId == Some(pedidoId)))
      && (forall c :: c in r.value.cobrancas ==> r.value.cobrancas[c] == db.cobrancas[c])
  {
    if pedidoId !in db.pedidos then Failure(NotFound)
    else
      Success(PedidoView(db.pedidos[pedidoId],
                         map c | c in db.cobrancas && db.cobrancas[c].pedidoId == Some(pedidoId) :: db.cobrancas[c]))
  }

  /** After a charge event that embeds an order is processed, that order can be
      read back, and the charge is listed under it exactly when the charge was
      new or was already linked to that order: a stored charge keeps its
      pedido_id on conflict, so a charge first seen without an order stays
      unlisted. */
  lemma ChargeListedUnderOrder(db: Db, w: StoneWebhook, rejected: set<Stmt>)
    requires Deliver(db, w, rejected).reply.Processed?
    requires IsChargeEvent(w) && Truthy(OrderData(w))
    ensures OrderId(w).Some? && ChargeId(w).Some?
    ensures var view := GetPedido(Deliver(db, w, rejected).db, OrderId(w).value);
      && view.Success?
      && (ChargeId(w).value in view.value.cobrancas <==>
            ChargeId(w).value !in db.cobrancas || db.cobrancas[ChargeId(w).value].pedidoId == OrderId(w))
  {
  }

  /** A charge event without an embedded order never lists its charge under
      any order unless the charge was already linked to it. */
  lemma ChargeWithoutOrderUnlinked(db: Db, w: StoneWebhook, rejected: set<Stmt>, pedidoId: string)
    requires Deliver(db, w, rejected).reply.Processed?
    requires IsChargeEvent(w) && !Truthy(OrderData(w))
    requires pedidoId in db.pedidos
    ensures ChargeId(w).Some?
    ensures var view := GetPedido(Deliver(db, w, rejected).db, pedidoId);
      && view.Success?
      && (ChargeId(w).value in view.value.cobrancas <==>
            ChargeId(w).value in db.cobrancas && db.cobrancas[ChargeId(w).value].pedidoId == Some(pedidoId))
  {
  }
}
