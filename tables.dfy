/**
 * Row types of the relational tables the route handlers share (`metas`,
 * `pagos`, `gastos`), and the two pieces of foreign semantics the handlers
 * rely on: JavaScript truthiness of request fields and SQL arithmetic on
 * nullable columns.
 */
module Tables {

  /** A nullable column, or a request field that may be absent. */
  datatype Option<+T> = None | Some(value: T) {
    /** The value, or `default` when absent (a JavaScript destructuring default). */
    function GetOr(default: T): T {
      match this
      case Some(v) => v
      case None => default
    }
  }

  /** JavaScript truthiness of an optional string: absent, null and "" are falsy. */
  predicate Truthy(s: Option<string>) {
    s.Some? && s.value != ""
  }

  /** JavaScript truthiness of an optional number: absent, null and 0 are falsy. */
  predicate TruthyId(n: Option<int>) {
    n.Some? && n.value != 0
  }

  /** SQL `a + b`: NULL as soon as one operand is NULL. */
  function SqlAdd(a: Option<int>, b: Option<int>): Option<int> {
    if a.Some? && b.Some? then Some(a.value + b.value) else None
  }

  /** A row of `metas` (a savings goal); `id` is the key of the map that holds it. */
  datatype Meta = Meta(
    usuario_id: Option<int>,
    nombre: Option<string>,
    monto_objetivo: Option<int>,
    monto_actual: Option<int>,
    fecha_objetivo: Option<string>,
    categoria: Option<string>,
    descripcion: Option<string>,
    tipo_deposito: Option<string>,
    frecuencia_automatica: Option<string>,
    monto_automatico: Option<int>)

  /** `monto_actual >= monto_objetivo` as SQL evaluates it (NULL is not true). */
  predicate Completada(m: Meta) {
    m.monto_actual.Some? && m.monto_objetivo.Some? && m.monto_actual.value >= m.monto_objetivo.value
  }

  /**
   * `UPDATE metas SET monto_actual = monto_actual + amount WHERE id = id`:
   * the one goal credit used both by deposits and by settled payments.
   * An id with no row updates nothing.
   */
  function CreditGoal(metas: map<int, Meta>, id: int, amount: Option<int>): (r: map<int, Meta>)
    ensures r.Keys == metas.Keys
    ensures forall k :: k in metas && k != id ==> r[k] == metas[k]
    ensures id in metas ==> r[id] == metas[id].(monto_actual := SqlAdd(metas[id].monto_actual, amount))
  {
    if id in metas then metas[id := metas[id].(monto_actual := SqlAdd(metas[id].monto_actual, amount))] else metas
  }

  datatype Estado = Completado | Rechazado

  /** A row of `pagos`: one settlement attempt, never updated afterwards. */
  datatype Pago = Pago(
    id: int,
    usuario_id: int,
    meta_id: Option<int>,
    monto: int,
    descripcion: Option<string>,
    tipo: string,
    metodo_pago: Option<string>,
    referencia_pago: Option<string>,
    numero_tarjeta: Option<string>,
    nombre_titular: Option<string>,
    estado: Estado,
    saldo_anterior: int,
    saldo_posterior: int,
    automatico: bool)

  /** A row of `gastos`, reduced to the two columns the statistics read. */
  datatype Gasto = Gasto(monto: Option<int>, tipo: Option<string>)
}
