/** The three tables the handler writes and PostgreSQL's
    `INSERT ... ON CONFLICT (id)` semantics for each of them. A table is a
    map from the text primary key `id` to the rest of the row; a column that
    holds SQL NULL holds None. */
module Tables {
  import opened Wrappers
  import opened Json

  /** A row of webhooks_stone: (tipo, payload, criado_em); the key is id. */
  datatype EventRow = EventRow(tipo: string, payload: Value, criadoEm: string)

  /** A row of pedidos_stone; the key is id. Values are stored as received. */
  datatype OrderRow = OrderRow(
    codigo: Option<Value>,
    valor: Option<Value>,
    moeda: Option<Value>,
    status: Option<Value>,
    fechado: Option<Value>,
    clienteId: Option<Value>,
    criadoEm: Option<Value>,
    atualizadoEm: Option<Value>)

  /** A row of cobrancas_stone; the key is id. pedidoId is the id of the
      embedded order, or NULL. */
  datatype ChargeRow = ChargeRow(
    pedidoId: Option<string>,
    codigo: Option<Value>,
    valor: Option<Value>,
    valorPago: Option<Value>,
    status: Option<Value>,
    moeda: Option<Value>,
    metodoPagamento: Option<Value>,
    pagoEm: Option<Value>,
    criadoEm: Option<Value>,
    atualizadoEm: Option<Value>)

  /** The three tables together. */
  datatype Db = Db(
    webhooks: map<string, EventRow>,
    pedidos: map<string, OrderRow>,
    cobrancas: map<string, ChargeRow>)

  /** `INSERT ... ON CONFLICT (id) DO NOTHING`. */
  function InsertOrIgnore<R>(table: map<string, R>, id: string, row: R): (r: map<string, R>)
    ensures r.Keys == table.Keys + {id}
    ensures forall k :: k in table ==> r[k] == table[k]
    ensures id !in table ==> r[id] == row
  {
    if id in table then table else table[id := row]
  }

  /** `ON CONFLICT (id) DO UPDATE SET codigo, valor, status, fechado,
      atualizado_em = EXCLUDED.*`: the row left by an order upsert that meets
      the stored row. */
  function OrderOnConflict(stored: OrderRow, excluded: OrderRow): OrderRow
  {
    stored.(codigo := excluded.codigo, valor := excluded.valor, status := excluded.status,
            fechado := excluded.fechado, atualizadoEm := excluded.atualizadoEm)
  }

  /** `ON CONFLICT (id) DO UPDATE SET valor_pago, status, pago_em,
      atualizado_em = EXCLUDED.*`. */
  function ChargeOnConflict(stored: ChargeRow, excluded: ChargeRow): ChargeRow
  {
    stored.(valorPago := excluded.valorPago, status := excluded.status,
            pagoEm := excluded.pagoEm, atualizadoEm := excluded.atualizadoEm)
  }

  /** `INSERT ... ON CONFLICT (id) DO UPDATE`: the new row when id is free,
      otherwise the stored row merged with the excluded one by onConflict. */
  function Upsert<R>(table: map<string, R>, id: string, row: R, onConflict: (R, R) -> R): map<string, R>
  {
    table[id := if id in table then onConflict(table[id], row) else row]
  }

  /** The columns an order upsert overwrites on conflict. */
  function OrderUpdated(r: OrderRow): (Option<Value>, Option<Value>, Option<Value>, Option<Value>, Option<Value>)
  {
    (r.codigo, r.valor, r.status, r.fechado, r.atualizadoEm)
  }

  /** The columns an order upsert keeps on conflict. */
  function OrderKept(r: OrderRow): (Option<Value>, Option<Value>, Option<Value>)
  {
    (r.moeda, r.clienteId, r.criadoEm)
  }

  /** The columns a charge upsert overwrites on conflict. */
  function ChargeUpdated(r: ChargeRow): (Option<Value>, Option<Value>, Option<Value>, Option<Value>)
  {
    (r.valorPago, r.status, r.pagoEm, r.atualizadoEm)
  }

  /** The columns a charge upsert keeps on conflict. */
  function ChargeKept(r: ChargeRow): (Option<string>, Option<Value>, Option<Value>, Option<Value>, Option<Value>, Option<Value>)
  {
    (r.pedidoId, r.codigo, r.valor, r.moeda, r.metodoPagamento, r.criadoEm)
  }

  /** An order upsert leaves exactly one row under its id: the new row when the
      id was free; otherwise the SET columns come from the new row and every
      other column keeps its stored value. Every other row is untouched. */
  lemma OrderUpsertColumns(table: map<string, OrderRow>, id: string, row: OrderRow)
    ensures var r := Upsert(table, id, row, OrderOnConflict);
      && r.Keys == table.Keys + {id}
      && (forall k :: k in table && k != id ==> r[k] == table[k])
      && (id !in table ==> r[id] == row && |r| == |table| + 1)
      && (id in table ==>
            && OrderUpdated(r[id]) == OrderUpdated(row)
            && OrderKept(r[id]) == OrderKept(table[id])
            && |r| == |table|)
  {
  }

  /** A charge upsert leaves exactly one row under its id: the new row when
      the id was free; otherwise only valor_pago, status, pago_em and
      atualizado_em come from the new row. Every other row is untouched. */
  lemma ChargeUpsertColumns(table: map<string, ChargeRow>, id: string, row: ChargeRow)
    ensures var r := Upsert(table, id, row, ChargeOnConflict);
      && r.Keys == table.Keys + {id}
      && (forall k :: k in table && k != id ==> r[k] == table[k])
      && (id !in table ==> r[id] == row && |r| == |table| + 1)
      && (id in table ==>
            && ChargeUpdated(r[id]) == ChargeUpdated(row)
            && ChargeKept(r[id]) == ChargeKept(table[id])
            && |r| == |table|)
  {
  }

  /** A row is determined by its overwritten and its kept columns, so the two
      lemmas above fix the whole order row. */
  lemma OrderColumnsDetermineRow(a: OrderRow, b: OrderRow)
    requires OrderUpdated(a) == OrderUpdated(b) && OrderKept(a) == OrderKept(b)
    ensures a == b
  {
  }

  /** The same for a charge row. */
  lemma ChargeColumnsDetermineRow(a: ChargeRow, b: ChargeRow)
    requires ChargeUpdated(a) == ChargeUpdated(b) && ChargeKept(a) == ChargeKept(b)
    ensures a == b
  {
  }

  /** Repeating the same order upsert changes nothing. */
  lemma OrderUpsertIdempotent(table: map<string, OrderRow>, id: string, row: OrderRow)
    ensures var once := Upsert(table, id, row, OrderOnConflict);
      Upsert(once, id, row, OrderOnConflict) == once
  {
  }

  /** Repeating the same charge upsert changes nothing. */
  lemma ChargeUpsertIdempotent(table: map<string, ChargeRow>, id: string, row: ChargeRow)
    ensures var once := Upsert(table, id, row, ChargeOnConflict);
      Upsert(once, id, row, ChargeOnConflict) == once
  {
  }
}
