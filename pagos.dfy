/**
 * The payment settlement engine of routes/pagos.js.
 *
 * The router keeps two pieces of process-wide state, the mock bank balance
 * `saldoBancario` and the in-memory table `referenciasPago` of registered
 * payment methods, and writes to two database tables, `metas` and `pagos`.
 * `Bank` is the value of all four; the pure functions below (Register,
 * Settle, RunBatch, FirstReference, MethodsOf) say what each handler does to
 * that value and carry the properties the handlers promise; the class
 * PaymentEngine runs the handlers step by step on mutable fields and is
 * proved to agree with those functions.
 *
 * The bank's accept/decline draw (`Math.random`) is an `accept` parameter,
 * `new Date()` is a `now` parameter, and the generated token is a `token`
 * parameter that must not be in the table yet.
 */
module Pagos {
  import opened Tables

  /** The value `saldoBancario` starts from. */
  const SaldoInicial: int := 10000

  /**
   * A stored payment-method reference. There is deliberately no field for
   * the card number, the CVV, the expiry or the account number.
   */
  datatype MetodoPago = MetodoPago(
    usuario_id: int,
    tipo_metodo: Option<string>,
    ultimos_digitos: string,
    nombre_titular: Option<string>,
    fecha_registro: int)

  /** The body of `POST /registrar-metodo-pago`. */
  datatype RegistroMetodo = RegistroMetodo(
    usuario_id: int,
    tipo_metodo: Option<string>,
    numero_tarjeta: Option<string>,
    fecha_vencimiento: Option<string>,
    cvv: Option<string>,
    nombre_titular: Option<string>,
    numero_cuenta: Option<string>,
    banco: Option<string>)

  /** The four 400 answers of the registration checks. */
  datatype RegistroError = TarjetaInvalida | CvvInvalido | VencimientoRequerido | CuentaRequerida

  datatype Registro =
    | RegistroFallido(error: RegistroError)
    | Registrado(referencia_pago: string, ultimos_digitos: string)

  /** The body of `POST /pagos`; `tipo` absent means the default 'meta_ahorro'. */
  datatype SolicitudPago = SolicitudPago(
    usuario_id: int,
    meta_id: Option<int>,
    monto: int,
    descripcion: Option<string>,
    tipo: Option<string>,
    referencia_pago: Option<string>,
    es_automatico: bool)

  /** The answers of `POST /pagos`. */
  datatype Resultado =
    | SaldoInsuficiente(saldo_disponible: int, monto_solicitado: int)
    | ReferenciaInvalida
    | PagoCompletado(pago: Pago, saldo_actual: int)
    | PagoRechazado(pago: Pago, saldo_actual: int)

  /** One entry of `resultados` in `POST /pagos/procesar-automaticos`. */
  datatype EstadoLote =
    | LoteCompletado(saldo_actual: int, pago_id: int)
    | LoteSinSaldo(saldo_disponible: int)
    | LoteRechazado

  datatype ResultadoMeta = ResultadoMeta(meta_id: int, meta_nombre: Option<string>, monto: int, estado: EstadoLote)

  /** The answers of `POST /pagos/procesar-automaticos`. */
  datatype ResultadoLote =
    | SinMetodoPago
    | Procesados(procesados: int, resultados: seq<ResultadoMeta>, saldo_actual: int)

  /** One entry of the answer of `GET /pagos/metodos-pago/:usuario_id`. */
  datatype MetodoResumen = MetodoResumen(
    referencia: string,
    tipo_metodo: Option<string>,
    ultimos_digitos: string,
    nombre_titular: Option<string>,
    fecha_registro: int)

  /**
   * The state the router reads and writes: the balance, the reference table
   * with its insertion order (a JavaScript Map iterates in insertion order),
   * and the `metas` and `pagos` tables.
   */
  datatype Bank = Bank(
    saldo: int,
    referencias: map<string, MetodoPago>,
    orden: seq<string>,
    metas: map<int, Meta>,
    pagos: seq<Pago>)

  /** What a handler answers, and the state it leaves. */
  datatype Step<+O> = Step(out: O, bank: Bank)

  /** A batch run so far: the state and the per-goal results. */
  datatype Lote = Lote(bank: Bank, resultados: seq<ResultadoMeta>)

  /**
   * The invariant the router keeps: the balance is never negative, `orden`
   * lists each stored token exactly once, and a stored reference holds at
   * most four characters of any number.
   */
  predicate BankValid(b: Bank) {
    && b.saldo >= 0
    && (forall i :: 0 <= i < |b.orden| ==> b.orden[i] in b.referencias)
    && (forall t :: t in b.referencias ==> t in b.orden)
    && (forall i, j :: 0 <= i < j < |b.orden| ==> b.orden[i] != b.orden[j])
    && (forall t :: t in b.referencias ==> |b.referencias[t].ultimos_digitos| <= 4)
  }

  // ---------------------------------------------------------------------
  // Registering a payment method
  // ---------------------------------------------------------------------

  predicate IsTarjeta(tipo: Option<string>) {
    tipo == Some("tarjeta")
  }

  predicate IsCuenta(tipo: Option<string>) {
    tipo == Some("cuenta_bancaria")
  }

  /** A present string of exactly `n` characters. */
  predicate HasLength(s: Option<string>, n: nat) {
    s.Some? && |s.value| == n
  }

  /** JavaScript `s.slice(-4)`: the last four characters, or all of them when there are fewer. */
  function Last4(s: string): (r: string)
    ensures |r| == if |s| < 4 then |s| else 4
    ensures r == s[|s| - |r|..]
  {
    if |s| < 4 then s else s[|s| - 4..]
  }

  /**
   * The input checks of the registration, in the order the handler makes
   * them: card number, CVV and expiry for 'tarjeta', then the account
   * number for 'cuenta_bancaria'. Any other method kind passes unchecked.
   */
  function Validate(body: RegistroMetodo): (r: Option<RegistroError>)
    ensures r.None? <==>
      && (IsTarjeta(body.tipo_metodo) ==>
            HasLength(body.numero_tarjeta, 16) && HasLength(body.cvv, 3) && Truthy(body.fecha_vencimiento))
      && (IsCuenta(body.tipo_metodo) ==> Truthy(body.numero_cuenta))
    ensures r == Some(TarjetaInvalida) <==> IsTarjeta(body.tipo_metodo) && !HasLength(body.numero_tarjeta, 16)
    ensures r == Some(CvvInvalido) ==> HasLength(body.numero_tarjeta, 16) && !HasLength(body.cvv, 3)
    ensures r == Some(VencimientoRequerido) ==> HasLength(body.numero_tarjeta, 16) && HasLength(body.cvv, 3)
    ensures r == Some(CuentaRequerida) <==> IsCuenta(body.tipo_metodo) && !Truthy(body.numero_cuenta)
  {
    if IsTarjeta(body.tipo_metodo) && !(Truthy(body.numero_tarjeta) && |body.numero_tarjeta.value| == 16) then
      Some(TarjetaInvalida)
    else if IsTarjeta(body.tipo_metodo) && !(Truthy(body.cvv) && |body.cvv.value| == 3) then
      Some(CvvInvalido)
    else if IsTarjeta(body.tipo_metodo) && !Truthy(body.fecha_vencimiento) then
      Some(VencimientoRequerido)
    else if IsCuenta(body.tipo_metodo) && !Truthy(body.numero_cuenta) then
      Some(CuentaRequerida)
    else
      None
  }

  /**
   * The masked identifier stored for a validated method: the last four
   * characters of the card number for a card, otherwise of the account
   * number when one is given, otherwise "".
   */
  function UltimosDigitos(body: RegistroMetodo): (r: string)
    requires Validate(body).None?
    ensures |r| <= 4
    ensures IsTarjeta(body.tipo_metodo) ==>
      r == body.numero_tarjeta.value[12..] && r != body.numero_tarjeta.value
    ensures !IsTarjeta(body.tipo_metodo) && !Truthy(body.numero_cuenta) ==> r == ""
    ensures !IsTarjeta(body.tipo_metodo) && Truthy(body.numero_cuenta) ==>
      var n := body.numero_cuenta.value;
      |r| == (if |n| < 4 then |n| else 4) && r == n[|n| - |r|..] && (|n| > 4 ==> r != n)
  {
    if IsTarjeta(body.tipo_metodo) then Last4(body.numero_tarjeta.value)
    else if Truthy(body.numero_cuenta) then Last4(body.numero_cuenta.value)
    else ""
  }

  /** `POST /registrar-metodo-pago` on the state `b`, with `token` drawn by the generator. */
  function Register(b: Bank, body: RegistroMetodo, token: string, now: int): (r: Step<Registro>)
    requires token !in b.referencias
    ensures BankValid(b) ==> BankValid(r.bank)
    ensures r.out.RegistroFallido? <==> Validate(body).Some?
    ensures r.out.RegistroFallido? ==> r.out.error == Validate(body).value && r.bank == b
    ensures r.out.Registrado? ==>
      && r.out.referencia_pago == token
      && r.out.ultimos_digitos == UltimosDigitos(body)
      && r.bank == b.(referencias := b.referencias[token := MetodoPago(body.usuario_id, body.tipo_metodo,
                                                                        r.out.ultimos_digitos, body.nombre_titular, now)],
                      orden := b.orden + [token])
  {
    match Validate(body)
    case Some(e) => Step(RegistroFallido(e), b)
    case None =>
      var digitos := UltimosDigitos(body);
      var metodo := MetodoPago(body.usuario_id, body.tipo_metodo, digitos, body.nombre_titular, now);
      Step(Registrado(token, digitos), b.(referencias := b.referencias[token := metodo], orden := b.orden + [token]))
  }

  /** A body that passes the checks is stored, masked, under the token. */
  lemma RegisterStores(b: Bank, body: RegistroMetodo, token: string, now: int)
    requires token !in b.referencias && Validate(body).None?
    ensures var metodo := MetodoPago(body.usuario_id, body.tipo_metodo, UltimosDigitos(body), body.nombre_titular, now);
      Register(b, body, token, now) ==
        Step(Registrado(token, UltimosDigitos(body)), b.(referencias := b.referencias[token := metodo], orden := b.orden + [token]))
  {
  }

  /** The CVV never reaches the stored reference: registering with another valid CVV stores the same thing. */
  lemma CvvNeverStored(b: Bank, body: RegistroMetodo, token: string, now: int, cvv: string)
    requires token !in b.referencias
    requires |cvv| == 3 <==> HasLength(body.cvv, 3)
    ensures Register(b, body.(cvv := Some(cvv)), token, now) == Register(b, body, token, now)
  {
  }

  /** Of a card number only the last four digits reach the stored reference. */
  lemma CardNumberStoredOnlyAsLast4(b: Bank, body: RegistroMetodo, token: string, now: int, card: string)
    requires token !in b.referencias
    requires HasLength(body.numero_tarjeta, 16) && |card| == 16
    requires card[12..] == body.numero_tarjeta.value[12..]
    ensures Register(b, body.(numero_tarjeta := Some(card)), token, now) == Register(b, body, token, now)
  {
  }

  // ---------------------------------------------------------------------
  // Settling a single payment
  // ---------------------------------------------------------------------

  /** The handler looks the reference up only for a truthy reference on a non-automatic payment. */
  predicate ChecksReference(req: SolicitudPago) {
    Truthy(req.referencia_pago) && !req.es_automatico
  }

  predicate OwnedBy(refs: map<string, MetodoPago>, token: string, uid: int) {
    token in refs && refs[token].usuario_id == uid
  }

  /** An accepted payment credits its goal: `meta_id && tipo === 'meta_ahorro'`. */
  predicate CreditsGoal(req: SolicitudPago) {
    TruthyId(req.meta_id) && req.tipo.GetOr("meta_ahorro") == "meta_ahorro"
  }

  /** The payment passes the funds check and the reference check. */
  predicate Admitted(b: Bank, req: SolicitudPago) {
    req.monto <= b.saldo
    && (ChecksReference(req) ==> OwnedBy(b.referencias, req.referencia_pago.value, req.usuario_id))
  }

  /** `POST /pagos` on the state `b`, with the bank's draw `accept`. */
  function Settle(b: Bank, req: SolicitudPago, accept: bool): (r: Step<Resultado>)
    ensures r.bank.referencias == b.referencias && r.bank.orden == b.orden
    ensures BankValid(b) ==> BankValid(r.bank)
    // the funds check comes first and changes nothing; monto == saldo passes
    ensures r.out.SaldoInsuficiente? <==> req.monto > b.saldo
    ensures r.out.SaldoInsuficiente? ==> r.out == SaldoInsuficiente(b.saldo, req.monto) && r.bank == b
    // a reference is honoured only for its owner; refusing it changes nothing
    ensures r.out.ReferenciaInvalida? <==>
      req.monto <= b.saldo && ChecksReference(req) && !OwnedBy(b.referencias, req.referencia_pago.value, req.usuario_id)
    ensures r.out.ReferenciaInvalida? ==> r.bank == b
    // every admitted attempt appends exactly one record; the draw decides which
    ensures r.out.PagoCompletado? <==> Admitted(b, req) && accept
    ensures r.out.PagoRechazado? <==> Admitted(b, req) && !accept
    ensures r.out.PagoCompletado? || r.out.PagoRechazado? ==>
      var p := r.out.pago;
      && r.bank.pagos == b.pagos + [p]
      && p.usuario_id == req.usuario_id && p.meta_id == req.meta_id && p.monto == req.monto
      && p.referencia_pago == req.referencia_pago && p.automatico == req.es_automatico
      && p.saldo_anterior == b.saldo
      && r.bank.saldo == p.saldo_posterior == r.out.saldo_actual
    ensures r.out.PagoCompletado? ==>
      r.out.pago.estado == Completado && r.out.pago.saldo_posterior == r.out.pago.saldo_anterior - req.monto
    ensures r.out.PagoRechazado? ==>
      r.out.pago.estado == Rechazado && r.out.pago.saldo_posterior == r.out.pago.saldo_anterior
      && r.bank.metas == b.metas
    // the recorded method data come from the owner's reference, masked
    ensures r.out.PagoCompletado? || r.out.PagoRechazado? ==>
      var p := r.out.pago;
      && (p.numero_tarjeta.Some? <==> ChecksReference(req))
      && (p.numero_tarjeta.Some? ==>
            p.numero_tarjeta.value == b.referencias[req.referencia_pago.value].ultimos_digitos)
      && (p.metodo_pago == Some("tarjeta") || p.metodo_pago == Some("transferencia"))
      && (p.metodo_pago == Some("tarjeta") <==>
            ChecksReference(req) && IsTarjeta(b.referencias[req.referencia_pago.value].tipo_metodo))
    // only an accepted goal payment changes a goal, and only that goal, by exactly monto
    ensures r.bank.metas.Keys == b.metas.Keys
    ensures forall id :: id in b.metas && !(r.out.PagoCompletado? && CreditsGoal(req) && id == req.meta_id.value) ==>
      r.bank.metas[id] == b.metas[id]
    ensures r.out.PagoCompletado? && CreditsGoal(req) && req.meta_id.value in b.metas ==>
      var id := req.meta_id.value;
      r.bank.metas[id] == b.metas[id].(monto_actual := SqlAdd(b.metas[id].monto_actual, Some(req.monto)))
  {
    if req.monto > b.saldo then
      Step(SaldoInsuficiente(b.saldo, req.monto), b)
    else if ChecksReference(req) && !OwnedBy(b.referencias, req.referencia_pago.value, req.usuario_id) then
      Step(ReferenciaInvalida, b)
    else
      var metodo := if ChecksReference(req) then Some(b.referencias[req.referencia_pago.value]) else None;
      var metodoPago := if metodo.Some? && IsTarjeta(metodo.value.tipo_metodo) then "tarjeta" else "transferencia";
      var numeroTarjeta := if metodo.Some? then Some(metodo.value.ultimos_digitos) else None;
      var nombreTitular := if metodo.Some? then metodo.value.nombre_titular else None;
      var tipo := req.tipo.GetOr("meta_ahorro");
      if accept then
        var pago := Pago(|b.pagos| + 1, req.usuario_id, req.meta_id, req.monto, req.descripcion, tipo,
                         Some(metodoPago), req.referencia_pago, numeroTarjeta, nombreTitular,
                         Completado, b.saldo, b.saldo - req.monto, req.es_automatico);
        var metas := if TruthyId(req.meta_id) && tipo == "meta_ahorro"
                     then CreditGoal(b.metas, req.meta_id.value, Some(req.monto)) else b.metas;
        Step(PagoCompletado(pago, b.saldo - req.monto),
             b.(saldo := b.saldo - req.monto, metas := metas, pagos := b.pagos + [pago]))
      else
        var pago := Pago(|b.pagos| + 1, req.usuario_id, req.meta_id, req.monto, req.descripcion, tipo,
                         Some(metodoPago), req.referencia_pago, numeroTarjeta, nombreTitular,
                         Rechazado, b.saldo, b.saldo, req.es_automatico);
        Step(PagoRechazado(pago, b.saldo), b.(pagos := b.pagos + [pago]))
  }

  // ---------------------------------------------------------------------
  // Looking up and listing references
  // ---------------------------------------------------------------------

  /** The first token, in insertion order, whose reference belongs to `uid`. */
  function FirstReference(orden: seq<string>, refs: map<string, MetodoPago>, uid: int): (r: Option<string>)
    ensures r.Some? ==> OwnedBy(refs, r.value, uid) && r.value in orden
  {
    if orden == [] then None
    else if OwnedBy(refs, orden[0], uid) then Some(orden[0])
    else FirstReference(orden[1..], refs, uid)
  }

  /** FirstReference finds a reference exactly when `uid` owns one, and it finds the earliest registered. */
  lemma {:induction false} FirstReferenceIsFirst(orden: seq<string>, refs: map<string, MetodoPago>, uid: int)
    ensures FirstReference(orden, refs, uid).None? <==>
      forall k :: 0 <= k < |orden| ==> !OwnedBy(refs, orden[k], uid)
    ensures FirstReference(orden, refs, uid).Some? ==>
      exists k :: 0 <= k < |orden| && orden[k] == FirstReference(orden, refs, uid).value
        && forall j :: 0 <= j < k ==> !OwnedBy(refs, orden[j], uid)
  {
    if orden != [] && !OwnedBy(refs, orden[0], uid) {
      FirstReferenceIsFirst(orden[1..], refs, uid);
      if FirstReference(orden, refs, uid).Some? {
        var k :| 0 <= k < |orden[1..]| && orden[1..][k] == FirstReference(orden, refs, uid).value
          && forall j :: 0 <= j < k ==> !OwnedBy(refs, orden[1..][j], uid);
        assert orden[k + 1] == FirstReference(orden, refs, uid).value;
        assert forall j :: 0 <= j < k + 1 ==> !OwnedBy(refs, orden[j], uid) by {
          forall j | 0 <= j < k + 1 ensures !OwnedBy(refs, orden[j], uid) {
            if j > 0 { assert orden[j] == orden[1..][j - 1]; }
          }
        }
      } else {
        forall k | 0 <= k < |orden| ensures !OwnedBy(refs, orden[k], uid) {
          if k > 0 { assert orden[k] == orden[1..][k - 1]; }
        }
      }
    }
  }

  function Summary(token: string, m: MetodoPago): MetodoResumen {
    MetodoResumen(token, m.tipo_metodo, m.ultimos_digitos, m.nombre_titular, m.fecha_registro)
  }

  /** The methods of `uid`, in insertion order, as `GET /pagos/metodos-pago/:usuario_id` lists them. */
  function MethodsOf(orden: seq<string>, refs: map<string, MetodoPago>, uid: int): (r: seq<MetodoResumen>)
    ensures |r| <= |orden|
    ensures forall i :: 0 <= i < |r| ==>
      OwnedBy(refs, r[i].referencia, uid) && r[i] == Summary(r[i].referencia, refs[r[i].referencia])
  {
    if orden == [] then []
    else (if OwnedBy(refs, orden[0], uid) then [Summary(orden[0], refs[orden[0]])] else [])
         + MethodsOf(orden[1..], refs, uid)
  }

  /** Every method of `uid` is listed. */
  lemma {:induction false} MethodsOfComplete(orden: seq<string>, refs: map<string, MetodoPago>, uid: int)
    ensures forall k :: 0 <= k < |orden| && OwnedBy(refs, orden[k], uid) ==>
      exists i :: 0 <= i < |MethodsOf(orden, refs, uid)| && MethodsOf(orden, refs, uid)[i].referencia == orden[k]
  {
    if orden != [] {
      MethodsOfComplete(orden[1..], refs, uid);
      var head: seq<MetodoResumen> := if OwnedBy(refs, orden[0], uid) then [Summary(orden[0], refs[orden[0]])] else [];
      var tail := MethodsOf(orden[1..], refs, uid);
      assert MethodsOf(orden, refs, uid) == head + tail;
      forall k | 0 <= k < |orden| && OwnedBy(refs, orden[k], uid)
        ensures exists i :: 0 <= i < |head + tail| && (head + tail)[i].referencia == orden[k]
      {
        if k == 0 {
          assert (head + tail)[0].referencia == orden[0];
        } else {
          assert orden[k] == orden[1..][k - 1];
          var i :| 0 <= i < |tail| && tail[i].referencia == orden[1..][k - 1];
          assert (head + tail)[|head| + i].referencia == orden[k];
        }
      }
    }
  }

  /** Listing a concatenation of scans lists each part in turn. */
  lemma {:induction false} MethodsOfAppend(xs: seq<string>, ys: seq<string>, refs: map<string, MetodoPago>, uid: int)
    ensures MethodsOf(xs + ys, refs, uid) == MethodsOf(xs, refs, uid) + MethodsOf(ys, refs, uid)
  {
    if xs == [] {
      assert xs + ys == ys;
    } else {
      assert (xs + ys)[1..] == xs[1..] + ys;
      MethodsOfAppend(xs[1..], ys, refs, uid);
    }
  }

  // ---------------------------------------------------------------------
  // The automatic batch
  // ---------------------------------------------------------------------

  /** The goals `procesar-automaticos` selects: owned by `uid`, automatic, a positive amount, not yet reached. */
  predicate Eligible(m: Meta, uid: int) {
    && m.usuario_id == Some(uid)
    && m.tipo_deposito == Some("automatico")
    && m.monto_automatico.Some? && m.monto_automatico.value > 0
    && m.monto_actual.Some? && m.monto_objetivo.Some? && m.monto_actual.value < m.monto_objetivo.value
  }

  /**
   * `rows` is the answer of the eligible-goals query: every eligible goal
   * once, in the order the database returns them (the query has no ORDER BY).
   */
  predicate EligibleRows(metas: map<int, Meta>, uid: int, rows: seq<int>) {
    && (forall i :: 0 <= i < |rows| ==> rows[i] in metas && Eligible(metas[rows[i]], uid))
    && (forall i, j :: 0 <= i < j < |rows| ==> rows[i] != rows[j])
    && (forall id :: id in metas && Eligible(metas[id], uid) ==> id in rows)
  }

  /** Every row is a goal of the snapshot with an automatic amount. */
  predicate BatchRows(snap: map<int, Meta>, rows: seq<int>) {
    forall i :: 0 <= i < |rows| ==> rows[i] in snap && snap[rows[i]].monto_automatico.Some?
  }

  /** The description the batch writes: a template string, so a NULL name prints as "null". */
  function DescripcionAutomatica(nombre: Option<string>): string {
    "Depósito automático - " + nombre.GetOr("null")
  }

  /** One iteration of the batch loop for goal `id`, whose row read before the loop is `meta`. */
  function BatchStep(b: Bank, token: string, uid: int, id: int, meta: Meta, accept: bool): (r: Step<ResultadoMeta>)
    requires token in b.referencias && meta.monto_automatico.Some?
    ensures r.bank.referencias == b.referencias && r.bank.orden == b.orden
    ensures BankValid(b) ==> BankValid(r.bank)
  {
    var monto := meta.monto_automatico.value;
    if monto > b.saldo then
      Step(ResultadoMeta(id, meta.nombre, monto, LoteSinSaldo(b.saldo)), b)
    else if accept then
      var metodo := b.referencias[token];
      var pago := Pago(|b.pagos| + 1, uid, Some(id), monto, Some(DescripcionAutomatica(meta.nombre)), "meta_ahorro",
                       metodo.tipo_metodo, Some(token), Some(metodo.ultimos_digitos), metodo.nombre_titular,
                       Completado, b.saldo, b.saldo - monto, true);
      Step(ResultadoMeta(id, meta.nombre, monto, LoteCompletado(b.saldo - monto, pago.id)),
           b.(saldo := b.saldo - monto, metas := CreditGoal(b.metas, id, Some(monto)), pagos := b.pagos + [pago]))
    else
      Step(ResultadoMeta(id, meta.nombre, monto, LoteRechazado), b)
  }

  /**
   * The batch loop over `rows` (goal rows read once into `snap`) against the
   * running state, with the bank's draw `accepts[i]` for the i-th goal.
   */
  function RunBatch(b: Bank, token: string, uid: int, snap: map<int, Meta>, rows: seq<int>, accepts: seq<bool>): (r: Lote)
    requires token in b.referencias
    requires BatchRows(snap, rows) && |accepts| == |rows|
    ensures r.bank.referencias == b.referencias && r.bank.orden == b.orden
    ensures BankValid(b) ==> BankValid(r.bank)
    ensures |r.resultados| == |rows|
    ensures forall i :: 0 <= i < |rows| ==>
      r.resultados[i].meta_id == rows[i] && r.resultados[i].monto == snap[rows[i]].monto_automatico.value
    decreases |rows|
  {
    if rows == [] then Lote(b, [])
    else
      var n := |rows| - 1;
      BatchRowsPrefix(snap, rows, n);
      var prev := RunBatch(b, token, uid, snap, rows[..n], accepts[..n]);
      var step := BatchStep(prev.bank, token, uid, rows[n], snap[rows[n]], accepts[n]);
      Lote(step.bank, prev.resultados + [step.out])
  }

  /** A prefix of the batch rows is batch rows too. */
  lemma BatchRowsPrefix(snap: map<int, Meta>, rows: seq<int>, n: nat)
    requires BatchRows(snap, rows) && n <= |rows|
    ensures BatchRows(snap, rows[..n])
  {
    forall i | 0 <= i < n ensures rows[..n][i] in snap && snap[rows[..n][i]].monto_automatico.Some? {
      assert rows[..n][i] == rows[i];
    }
  }

  /** The sum of the amounts the batch completed. */
  function SumCompletados(rs: seq<ResultadoMeta>): int {
    if rs == [] then 0
    else SumCompletados(rs[..|rs| - 1]) + (if rs[|rs| - 1].estado.LoteCompletado? then rs[|rs| - 1].monto else 0)
  }

  /** The number of goals the batch completed. */
  function CountCompletados(rs: seq<ResultadoMeta>): nat {
    if rs == [] then 0
    else CountCompletados(rs[..|rs| - 1]) + (if rs[|rs| - 1].estado.LoteCompletado? then 1 else 0)
  }

  /** The batch's final balance is the initial one minus the amounts it completed. */
  lemma {:induction false} BatchBalance(b: Bank, token: string, uid: int, snap: map<int, Meta>, rows: seq<int>, accepts: seq<bool>)
    requires token in b.referencias
    requires BatchRows(snap, rows) && |accepts| == |rows|
    ensures var r := RunBatch(b, token, uid, snap, rows, accepts);
      r.bank.saldo == b.saldo - SumCompletados(r.resultados)
    decreases |rows|
  {
    if rows != [] {
      var n := |rows| - 1;
      BatchRowsPrefix(snap, rows, n);
      BatchBalance(b, token, uid, snap, rows[..n], accepts[..n]);
      var prev := RunBatch(b, token, uid, snap, rows[..n], accepts[..n]);
      var r := RunBatch(b, token, uid, snap, rows, accepts);
      assert r.resultados[..n] == prev.resultados;
    }
  }

  /**
   * What the i-th result of a batch says, given the balance `before` its
   * funds check: unfunded exactly when its amount exceeds `before`, and
   * otherwise completed exactly when the bank accepted.
   */
  predicate SequentialAt(rs: seq<ResultadoMeta>, i: nat, saldo0: int, accept: bool)
    requires i < |rs|
  {
    var before := saldo0 - SumCompletados(rs[..i]);
    && (rs[i].estado.LoteSinSaldo? <==> rs[i].monto > before)
    && (rs[i].estado.LoteSinSaldo? ==> rs[i].estado.saldo_disponible == before)
    && (rs[i].estado.LoteCompletado? <==> rs[i].monto <= before && accept)
    && (rs[i].estado.LoteCompletado? ==> rs[i].estado.saldo_actual == before - rs[i].monto)
  }

  /**
   * The batch is sequential: goal i's funds check sees the initial balance
   * minus what goals 0..i-1 completed, so an earlier debit can leave a later
   * goal unfunded within the same batch.
   */
  lemma {:induction false} BatchSequential(b: Bank, token: string, uid: int, snap: map<int, Meta>, rows: seq<int>, accepts: seq<bool>)
    requires token in b.referencias
    requires BatchRows(snap, rows) && |accepts| == |rows|
    ensures var r := RunBatch(b, token, uid, snap, rows, accepts);
      forall i :: 0 <= i < |rows| ==> SequentialAt(r.resultados, i, b.saldo, accepts[i])
    decreases |rows|
  {
    if rows != [] {
      var n := |rows| - 1;
      BatchRowsPrefix(snap, rows, n);
      BatchSequential(b, token, uid, snap, rows[..n], accepts[..n]);
      BatchBalance(b, token, uid, snap, rows[..n], accepts[..n]);
      var prev := RunBatch(b, token, uid, snap, rows[..n], accepts[..n]);
      var r := RunBatch(b, token, uid, snap, rows, accepts);
      forall i | 0 <= i < |rows| ensures SequentialAt(r.resultados, i, b.saldo, accepts[i]) {
        if i < n {
          assert r.resultados[i] == prev.resultados[i];
          assert r.resultados[..i] == prev.resultados[..i];
          assert accepts[..n][i] == accepts[i];
          assert SequentialAt(prev.resultados, i, b.saldo, accepts[..n][i]);
        } else {
          assert r.resultados[..n] == prev.resultados;
        }
      }
    }
  }

  /** A record the batch writes: completed, automatic, balance equation kept, the raw registered method kind. */
  predicate BatchRecord(p: Pago, b: Bank, token: string, uid: int)
    requires token in b.referencias
  {
    && p.estado == Completado && p.automatico && p.tipo == "meta_ahorro" && p.usuario_id == uid
    && p.metodo_pago == b.referencias[token].tipo_metodo && p.referencia_pago == Some(token)
    && p.numero_tarjeta == Some(b.referencias[token].ultimos_digitos)
    && p.saldo_posterior == p.saldo_anterior - p.monto
    && (b.saldo >= 0 ==> p.saldo_posterior >= 0)
  }

  /**
   * The record a completed result names by `pago_id`: one the batch appended,
   * with that id, for the result's goal `id` and amount.
   */
  predicate RecordsGoal(pagos: seq<Pago>, lo: nat, res: ResultadoMeta, id: int) {
    res.estado.LoteCompletado? ==>
      && lo < res.estado.pago_id <= |pagos|
      && var p := pagos[res.estado.pago_id - 1];
         p.id == res.estado.pago_id && p.meta_id == Some(id) && p.monto == res.monto
  }

  /**
   * The batch appends one `pagos` record per completed goal and none for a
   * declined or unfunded goal; the records before it are untouched, and each
   * completed result names the record written for its goal.
   */
  lemma {:induction false} BatchLedger(b: Bank, token: string, uid: int, snap: map<int, Meta>, rows: seq<int>, accepts: seq<bool>)
    requires token in b.referencias
    requires BatchRows(snap, rows) && |accepts| == |rows|
    ensures var r := RunBatch(b, token, uid, snap, rows, accepts);
      && |r.bank.pagos| == |b.pagos| + CountCompletados(r.resultados)
      && r.bank.pagos[..|b.pagos|] == b.pagos
      && (forall j :: |b.pagos| <= j < |r.bank.pagos| ==> BatchRecord(r.bank.pagos[j], b, token, uid))
      && forall i :: 0 <= i < |rows| ==> RecordsGoal(r.bank.pagos, |b.pagos|, r.resultados[i], rows[i])
    decreases |rows|
  {
    if rows != [] {
      var n := |rows| - 1;
      BatchRowsPrefix(snap, rows, n);
      BatchLedger(b, token, uid, snap, rows[..n], accepts[..n]);
      BatchSaldoNonNegative(b, token, uid, snap, rows[..n], accepts[..n]);
      var prev := RunBatch(b, token, uid, snap, rows[..n], accepts[..n]);
      var r := RunBatch(b, token, uid, snap, rows, accepts);
      assert r.resultados[..n] == prev.resultados;
      assert r.bank.pagos[..|prev.bank.pagos|] == prev.bank.pagos;
      assert prev.bank.pagos[..|b.pagos|] == b.pagos;
      forall j | |b.pagos| <= j < |r.bank.pagos| ensures BatchRecord(r.bank.pagos[j], b, token, uid) {
        if j < |prev.bank.pagos| {
          assert r.bank.pagos[j] == prev.bank.pagos[j];
        }
      }
      forall i | 0 <= i < |rows| ensures RecordsGoal(r.bank.pagos, |b.pagos|, r.resultados[i], rows[i]) {
        if i < n {
          assert r.resultados[i] == prev.resultados[i] && rows[..n][i] == rows[i];
          assert RecordsGoal(prev.bank.pagos, |b.pagos|, prev.resultados[i], rows[..n][i]);
          if r.resultados[i].estado.LoteCompletado? {
            assert r.bank.pagos[r.resultados[i].estado.pago_id - 1] == prev.bank.pagos[r.resultados[i].estado.pago_id - 1];
          }
        }
      }
    }
  }

  /** The running balance of a batch stays non-negative. */
  lemma {:induction false} BatchSaldoNonNegative(b: Bank, token: string, uid: int, snap: map<int, Meta>, rows: seq<int>, accepts: seq<bool>)
    requires token in b.referencias
    requires BatchRows(snap, rows) && |accepts| == |rows|
    ensures b.saldo >= 0 ==> RunBatch(b, token, uid, snap, rows, accepts).bank.saldo >= 0
    decreases |rows|
  {
    if rows != [] {
      var n := |rows| - 1;
      BatchRowsPrefix(snap, rows, n);
      BatchSaldoNonNegative(b, token, uid, snap, rows[..n], accepts[..n]);
    }
  }

  /**
   * Over distinct rows read from the current table, the batch credits each
   * completed goal by exactly its automatic amount and changes no other goal.
   */
  lemma {:induction false} BatchGoals(b: Bank, token: string, uid: int, rows: seq<int>, accepts: seq<bool>)
    requires token in b.referencias
    requires BatchRows(b.metas, rows) && |accepts| == |rows|
    requires forall i, j :: 0 <= i < j < |rows| ==> rows[i] != rows[j]
    ensures var r := RunBatch(b, token, uid, b.metas, rows, accepts);
      && r.bank.metas.Keys == b.metas.Keys
      && (forall id :: id in b.metas && id !in rows ==> r.bank.metas[id] == b.metas[id])
      && (forall i :: 0 <= i < |rows| ==>
            r.bank.metas[rows[i]] ==
              if r.resultados[i].estado.LoteCompletado?
              then b.metas[rows[i]].(monto_actual := SqlAdd(b.metas[rows[i]].monto_actual, Some(r.resultados[i].monto)))
              else b.metas[rows[i]])
    decreases |rows|
  {
    if rows != [] {
      var n := |rows| - 1;
      BatchRowsPrefix(b.metas, rows, n);
      BatchGoals(b, token, uid, rows[..n], accepts[..n]);
      var prev := RunBatch(b, token, uid, b.metas, rows[..n], accepts[..n]);
      var r := RunBatch(b, token, uid, b.metas, rows, accepts);
      assert r.resultados == prev.resultados + [r.resultados[n]];
      assert rows[n] !in rows[..n];
      forall id | id in b.metas && id !in rows ensures r.bank.metas[id] == b.metas[id] {
        assert id !in rows[..n];
      }
      forall i | 0 <= i < n ensures rows[i] != rows[n] && rows[..n][i] == rows[i] { }
    }
  }

  // ---------------------------------------------------------------------
  // The router's state and handlers
  // ---------------------------------------------------------------------

  class PaymentEngine {
    /** The mock bank balance. */
    var saldoBancario: int
    /** The in-memory reference table. */
    var referenciasPago: map<string, MetodoPago>
    /** The insertion order of `referenciasPago`. */
    var orden: seq<string>
    /** The `metas` table. */
    var metas: map<int, Meta>
    /** The `pagos` table, in insertion order. */
    var pagos: seq<Pago>

    function State(): Bank
      reads this
    {
      Bank(saldoBancario, referenciasPago, orden, metas, pagos)
    }

    predicate Valid()
      reads this
    {
      BankValid(State())
    }

    /** Process start: the balance is 10000 and no method is registered; the tables are what the database holds. */
    constructor (metas0: map<int, Meta>, pagos0: seq<Pago>)
      ensures Valid()
      ensures State() == Bank(SaldoInicial, map[], [], metas0, pagos0)
    {
      saldoBancario := SaldoInicial;
      referenciasPago := map[];
      orden := [];
      metas := metas0;
      pagos := pagos0;
    }

    /** `POST /registrar-metodo-pago`: the input checks, then the masked reference stored under `token`. */
    method RegisterMethod(body: RegistroMetodo, token: string, now: int) returns (r: Registro)
      requires Valid()
      requires token !in referenciasPago
      modifies this
      ensures Valid()
      ensures Step(r, State()) == Register(old(State()), body, token, now)
    {
      var error := Validate(body);
      if error.Some? {
        return RegistroFallido(error.value);
      }
      var digitos := UltimosDigitos(body);
      RegisterStores(State(), body, token, now);
      referenciasPago := referenciasPago[token := MetodoPago(body.usuario_id, body.tipo_metodo, digitos, body.nombre_titular, now)];
      orden := orden + [token];
      r := Registrado(token, digitos);
    }

    /** `POST /pagos`, with the bank's draw `accept`. */
    method Pay(req: SolicitudPago, accept: bool) returns (r: Resultado)
      requires Valid()
      modifies this
      ensures Valid()
      ensures Step(r, State()) == Settle(old(State()), req, accept)
    {
      if req.monto > saldoBancario {
        return SaldoInsuficiente(saldoBancario, req.monto);
      }
      var metodo: Option<MetodoPago> := None;
      if Truthy(req.referencia_pago) && !req.es_automatico {
        var token := req.referencia_pago.value;
        if token !in referenciasPago || referenciasPago[token].usuario_id != req.usuario_id {
          return ReferenciaInvalida;
        }
        metodo := Some(referenciasPago[token]);
      }
      var metodoPago := if metodo.Some? && IsTarjeta(metodo.value.tipo_metodo) then "tarjeta" else "transferencia";
      var numeroTarjeta := if metodo.Some? then Some(metodo.value.ultimos_digitos) else None;
      var nombreTitular := if metodo.Some? then metodo.value.nombre_titular else None;
      var tipo := req.tipo.GetOr("meta_ahorro");
      if accept {
        if TruthyId(req.meta_id) && tipo == "meta_ahorro" {
          metas := CreditGoal(metas, req.meta_id.value, Some(req.monto));
        }
        var pago := Pago(|pagos| + 1, req.usuario_id, req.meta_id, req.monto, req.descripcion, tipo,
                         Some(metodoPago), req.referencia_pago, numeroTarjeta, nombreTitular,
                         Completado, saldoBancario, saldoBancario - req.monto, req.es_automatico);
        pagos := pagos + [pago];
        saldoBancario := saldoBancario - req.monto;
        r := PagoCompletado(pago, saldoBancario);
      } else {
        var pago := Pago(|pagos| + 1, req.usuario_id, req.meta_id, req.monto, req.descripcion, tipo,
                         Some(metodoPago), req.referencia_pago, numeroTarjeta, nombreTitular,
                         Rechazado, saldoBancario, saldoBancario, req.es_automatico);
        pagos := pagos + [pago];
        r := PagoRechazado(pago, saldoBancario);
      }
    }

    /** The scan for the user's reference at the start of `procesar-automaticos`. */
    method FindReference(uid: int) returns (t: Option<string>)
      requires Valid()
      ensures t == FirstReference(orden, referenciasPago, uid)
    {
      var i := 0;
      while i < |orden|
        invariant 0 <= i <= |orden|
        invariant FirstReference(orden[i..], referenciasPago, uid) == FirstReference(orden, referenciasPago, uid)
      {
        assert orden[i..][1..] == orden[i + 1..];
        if referenciasPago[orden[i]].usuario_id == uid {
          return Some(orden[i]);
        }
        i := i + 1;
      }
      t := None;
    }

    /** `POST /pagos/procesar-automaticos` for the goal rows `rows` the query returns, with one draw per goal. */
    method ProcessAutomatic(uid: int, rows: seq<int>, accepts: seq<bool>) returns (r: ResultadoLote)
      requires Valid()
      requires EligibleRows(metas, uid, rows)
      requires |accepts| == |rows|
      modifies this
      ensures Valid()
      ensures FirstReference(old(orden), old(referenciasPago), uid).None? ==>
        r == SinMetodoPago && State() == old(State())
      ensures FirstReference(old(orden), old(referenciasPago), uid).Some? ==>
        var run := RunBatch(old(State()), FirstReference(old(orden), old(referenciasPago), uid).value,
                            uid, old(metas), rows, accepts);
        r == Procesados(|run.resultados|, run.resultados, run.bank.saldo) && State() == run.bank
    {
      var referencia := FindReference(uid);
      if referencia.None? {
        return SinMetodoPago;
      }
      var token := referencia.value;
      var resultados := SettleGoals(token, uid, metas, rows, accepts);
      r := Procesados(|resultados|, resultados, saldoBancario);
    }

    /** The loop of `procesar-automaticos` over the goal rows read into `snapshot`. */
    method SettleGoals(token: string, uid: int, snapshot: map<int, Meta>, rows: seq<int>, accepts: seq<bool>)
      returns (resultados: seq<ResultadoMeta>)
      requires token in referenciasPago
      requires BatchRows(snapshot, rows) && |accepts| == |rows|
      modifies this
      ensures Lote(State(), resultados) == RunBatch(old(State()), token, uid, snapshot, rows, accepts)
    {
      ghost var b0 := State();
      resultados := [];
      var i := 0;
      while i < |rows|
        invariant 0 <= i <= |rows|
        invariant token in b0.referencias && referenciasPago == b0.referencias
        invariant BatchRows(snapshot, rows[..i])
        invariant Lote(State(), resultados) == RunBatch(b0, token, uid, snapshot, rows[..i], accepts[..i])
      {
        BatchRowsPrefix(snapshot, rows, i + 1);
        assert rows[..i + 1][..i] == rows[..i] && accepts[..i + 1][..i] == accepts[..i];
        var id := rows[i];
        var resultado := AutomaticStep(token, uid, id, snapshot[id], accepts[i]);
        resultados := resultados + [resultado];
        i := i + 1;
      }
      assert rows[..i] == rows && accepts[..i] == accepts;
    }

    /** One iteration of the loop of `procesar-automaticos`: goal `id`, whose row was read as `meta`. */
    method AutomaticStep(token: string, uid: int, id: int, meta: Meta, accept: bool) returns (resultado: ResultadoMeta)
      requires token in referenciasPago && meta.monto_automatico.Some?
      modifies this
      ensures Step(resultado, State()) == BatchStep(old(State()), token, uid, id, meta, accept)
    {
      var monto := meta.monto_automatico.value;
      if monto > saldoBancario {
        return ResultadoMeta(id, meta.nombre, monto, LoteSinSaldo(saldoBancario));
      }
      if accept {
        metas := CreditGoal(metas, id, Some(monto));
        var metodo := referenciasPago[token];
        var pago := Pago(|pagos| + 1, uid, Some(id), monto, Some(DescripcionAutomatica(meta.nombre)), "meta_ahorro",
                         metodo.tipo_metodo, Some(token), Some(metodo.ultimos_digitos), metodo.nombre_titular,
                         Completado, saldoBancario, saldoBancario - monto, true);
        pagos := pagos + [pago];
        saldoBancario := saldoBancario - monto;
        resultado := ResultadoMeta(id, meta.nombre, monto, LoteCompletado(saldoBancario, pago.id));
      } else {
        resultado := ResultadoMeta(id, meta.nombre, monto, LoteRechazado);
      }
    }

    /** `GET /pagos/metodos-pago/:usuario_id`. */
    method ListMethods(uid: int) returns (metodos: seq<MetodoResumen>)
      requires Valid()
      ensures metodos == MethodsOf(orden, referenciasPago, uid)
    {
      metodos := [];
      var i := 0;
      while i < |orden|
        invariant 0 <= i <= |orden|
        invariant metodos == MethodsOf(orden[..i], referenciasPago, uid)
      {
        var ref := orden[i];
        var data := referenciasPago[ref];
        assert orden[..i + 1] == orden[..i] + [ref];
        MethodsOfAppend(orden[..i], [ref], referenciasPago, uid);
        assert MethodsOf([ref], referenciasPago, uid) == (if data.usuario_id == uid then [Summary(ref, data)] else []) by {
          assert [ref][1..] == [];
        }
        if data.usuario_id == uid {
          metodos := metodos + [Summary(ref, data)];
        }
        i := i + 1;
      }
      assert orden[..i] == orden;
    }

    /** `GET /pagos/saldo`. */
    method Saldo() returns (s: int)
      requires Valid()
      ensures s == saldoBancario && s >= 0
    {
      s := saldoBancario;
    }
  }
}
