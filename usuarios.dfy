/**
 * The user router of routes/usuarios.js: the `usuarios` table with its
 * create, update, delete, activate and login handlers (class UserTable),
 * and the statistics endpoint, which only counts and sums over the tables
 * (function Stats).
 */
module Usuarios {
  import opened Tables

  /** A row of `usuarios`; `id` is the key of the map that holds it. */
  datatype Usuario = Usuario(
    nombre: Option<string>,
    email: Option<string>,
    password: Option<string>,
    role: Option<string>,
    activo: Option<bool>,
    created_at: int,
    ultimo_acceso: Option<int>)

  /** Why a request was answered 400. */
  datatype Motivo = CamposObligatorios | EmailRegistrado | UltimoAdministrador

  /** The outcome kind of a handler: 200/201, 400, 404 or 401. */
  datatype Respuesta<+T> = Ok(value: T) | Invalida(motivo: Motivo) | NoEncontrado | NoAutorizado

  // ---------------------------------------------------------------------
  // Table predicates
  // ---------------------------------------------------------------------

  /** No two users share a non-NULL email. */
  predicate UniqueEmails(us: map<int, Usuario>) {
    forall a, b :: a in us && b in us && a != b && us[a].email.Some? ==> us[a].email != us[b].email
  }

  /** `SELECT ... FROM usuarios WHERE email = e` finds a row. */
  predicate Held(us: map<int, Usuario>, e: string) {
    exists k :: k in us && us[k].email == Some(e)
  }

  /** `SELECT id FROM usuarios WHERE email = e AND id != id` finds a row. */
  predicate HeldByOther(us: map<int, Usuario>, e: string, id: int) {
    exists k :: k in us && k != id && us[k].email == Some(e)
  }

  predicate IsAdmin(u: Usuario) {
    u.role == Some("admin")
  }

  /** `SELECT COUNT(*) FROM usuarios WHERE role = 'admin' AND id != id` is not 0. */
  predicate OtherAdmin(us: map<int, Usuario>, id: int) {
    exists k :: k in us && k != id && IsAdmin(us[k])
  }

  predicate HasAdmin(us: map<int, Usuario>) {
    exists k :: k in us && IsAdmin(us[k])
  }

  /** `WHERE email = $1 AND password = $2`: SQL equality, so a NULL on either side never matches. */
  predicate Matches(u: Usuario, email: Option<string>, password: Option<string>) {
    email.Some? && password.Some? && u.email == email && u.password == password
  }

  /** `SET col = COALESCE($n, col)` on the four editable columns. */
  function Coalesced(u: Usuario, nombre: Option<string>, email: Option<string>, role: Option<string>, activo: Option<bool>): Usuario {
    u.(nombre := if nombre.Some? then nombre else u.nombre,
       email := if email.Some? then email else u.email,
       role := if role.Some? then role else u.role,
       activo := if activo.Some? then activo else u.activo)
  }

  // ---------------------------------------------------------------------
  // The duplicate-email guard of PUT /usuarios/:id
  // ---------------------------------------------------------------------

  /**
   * The guard as written: the duplicate check only runs when `email` is
   * truthy, so an empty string skips it, yet COALESCE still writes it.
   */
  predicate AdmitsEmailAsWritten(us: map<int, Usuario>, id: int, email: Option<string>) {
    !(Truthy(email) && HeldByOther(us, email.value, id))
  }

  /** The guard as intended: every email the UPDATE would write is checked. */
  predicate AdmitsEmail(us: map<int, Usuario>, id: int, email: Option<string>) {
    !(email.Some? && HeldByOther(us, email.value, id))
  }

  /** Two users, one with the empty email: the guard as written lets the second take it too. */
  lemma AsWrittenGuardBreaksUniqueness()
    ensures var us := map[1 := Usuario(Some("a"), Some(""), Some("p"), Some("user"), Some(true), 0, None),
                          2 := Usuario(Some("b"), Some("b@x"), Some("q"), Some("user"), Some(true), 0, None)];
            && UniqueEmails(us)
            && AdmitsEmailAsWritten(us, 2, Some(""))
            && !AdmitsEmail(us, 2, Some(""))
            && !UniqueEmails(us[2 := Coalesced(us[2], None, Some(""), None, None)])
  {
    var us := map[1 := Usuario(Some("a"), Some(""), Some("p"), Some("user"), Some(true), 0, None),
                  2 := Usuario(Some("b"), Some("b@x"), Some("q"), Some("user"), Some(true), 0, None)];
    assert HeldByOther(us, "", 2) by { assert us[1].email == Some(""); }
    var after := us[2 := Coalesced(us[2], None, Some(""), None, None)];
    assert after[1].email == after[2].email;
  }

  /** With the intended guard, an update keeps emails unique. */
  lemma {:induction false} AdmittedUpdateKeepsUnique(us: map<int, Usuario>, id: int, nombre: Option<string>,
                                                     email: Option<string>, role: Option<string>, activo: Option<bool>)
    requires UniqueEmails(us) && id in us && AdmitsEmail(us, id, email)
    ensures UniqueEmails(us[id := Coalesced(us[id], nombre, email, role, activo)])
  {
    var after := us[id := Coalesced(us[id], nombre, email, role, activo)];
    forall a, b | a in after && b in after && a != b && after[a].email.Some?
      ensures after[a].email != after[b].email
    {
      if email.Some? {
        if a == id {
          assert !(us[b].email == email);
        } else if b == id {
          assert !(us[a].email == email);
        }
      }
    }
  }

  // ---------------------------------------------------------------------
  // Statistics
  // ---------------------------------------------------------------------

  /** The JSON of `GET /usuarios/estadisticas`, amounts as integers. */
  datatype Estadisticas = Estadisticas(
    usuarios_total: int, activos: int, inactivos: int,
    metas_total: int, completadas: int, en_progreso: int,
    pagos_totales: int, pagos_exitosos: int, gastos_totales: int,
    total_ingresos: int, total_gastos: int, total_ahorrado: int, balance_general: int)

  /** `SELECT COUNT(*) FROM usuarios WHERE activo = true`. */
  function ActivosDe(us: map<int, Usuario>): set<int> {
    set k | k in us && us[k].activo == Some(true)
  }

  /** `SELECT COUNT(*) FROM metas WHERE monto_actual >= monto_objetivo`. */
  function CompletadasDe(metas: map<int, Meta>): set<int> {
    set k | k in metas && Completada(metas[k])
  }

  /** The positions of the ledger that `WHERE estado = 'completado'` selects. */
  function PagosCompletadosDe(ps: seq<Pago>): set<int> {
    set i | 0 <= i < |ps| && ps[i].estado == Completado
  }

  /** `SELECT COUNT(*) FROM pagos WHERE estado = 'completado'`, counted along the ledger. */
  function CountPagosCompletados(ps: seq<Pago>): nat {
    if ps == [] then 0 else CountPagosCompletados(ps[..|ps| - 1]) + (if ps[|ps| - 1].estado == Completado then 1 else 0)
  }

  /** A payment that `SUM(monto) ... WHERE estado = 'completado' AND tipo = 'ingreso'` adds. */
  predicate EsIngreso(p: Pago) {
    p.estado == Completado && p.tipo == "ingreso"
  }

  /** `COALESCE(SUM(monto), 0)` over completed income payments. */
  function Ingresos(ps: seq<Pago>): int {
    if ps == [] then 0 else Ingresos(ps[..|ps| - 1]) + (if EsIngreso(ps[|ps| - 1]) then ps[|ps| - 1].monto else 0)
  }

  /** `COALESCE(SUM(monto), 0) FROM gastos WHERE tipo = 'gasto'`; SUM skips NULL amounts. */
  function GastosMonto(gs: seq<Gasto>): int {
    if gs == [] then 0
    else GastosMonto(gs[..|gs| - 1])
         + (if gs[|gs| - 1].tipo == Some("gasto") then gs[|gs| - 1].monto.GetOr(0) else 0)
  }

  lemma NonEmptyHasKey(s: set<int>)
    requires |s| != 0
    ensures exists k :: k in s
  {
    if forall k :: k !in s {
      assert false;
    }
  }

  /** `COALESCE(SUM(monto_actual), 0) FROM metas`; the order of summation does not matter. */
  ghost function Ahorrado(metas: map<int, Meta>): int
    decreases |metas|
  {
    if |metas.Keys| == 0 then 0
    else
      NonEmptyHasKey(metas.Keys);
      var k :| k in metas.Keys;
      assert |(metas - {k}).Keys| < |metas.Keys| by {
        assert (metas - {k}).Keys == metas.Keys - {k};
      }
      metas[k].monto_actual.GetOr(0) + Ahorrado(metas - {k})
  }

  /** Removing the NULL-or-false users from a table leaves the active ones. */
  lemma {:induction false} SplitUsers(us: map<int, Usuario>)
    ensures |us| == |ActivosDe(us)| + |set k | k in us && us[k].activo != Some(true)|
  {
    var act := ActivosDe(us);
    var rest := set k | k in us && us[k].activo != Some(true);
    assert us.Keys == act + rest;
    assert act * rest == {};
  }

  lemma {:induction false} SplitGoals(metas: map<int, Meta>)
    ensures |metas| == |CompletadasDe(metas)| + |set k | k in metas && !Completada(metas[k])|
  {
    var done := CompletadasDe(metas);
    var rest := set k | k in metas && !Completada(metas[k]);
    assert metas.Keys == done + rest;
    assert done * rest == {};
  }

  lemma {:induction false} CountPagosCompletadosBound(ps: seq<Pago>)
    ensures CountPagosCompletados(ps) <= |ps|
  {
    if ps != [] {
      CountPagosCompletadosBound(ps[..|ps| - 1]);
    }
  }

  /** Counting along the ledger counts exactly the completed records. */
  lemma {:induction false} CountPagosCompletadosIsCount(ps: seq<Pago>)
    ensures CountPagosCompletados(ps) == |PagosCompletadosDe(ps)|
  {
    if ps != [] {
      var n := |ps| - 1;
      CountPagosCompletadosIsCount(ps[..n]);
      var prev := PagosCompletadosDe(ps[..n]);
      var last: set<int> := if ps[n].estado == Completado then {n} else {};
      assert PagosCompletadosDe(ps) == prev + last by {
        forall i | 0 <= i < n ensures ps[..n][i] == ps[i] { }
      }
      assert n !in prev;
    }
  }

  /** The statistics: every derived figure is the count or difference the endpoint promises. */
  ghost function Stats(us: map<int, Usuario>, metas: map<int, Meta>, pagos: seq<Pago>, gastos: seq<Gasto>): (r: Estadisticas)
    ensures r.usuarios_total == |us| && r.metas_total == |metas| && r.pagos_totales == |pagos| && r.gastos_totales == |gastos|
    ensures r.activos + r.inactivos == r.usuarios_total
    ensures r.inactivos == |set k | k in us && us[k].activo != Some(true)|
    ensures r.completadas + r.en_progreso == r.metas_total
    ensures r.en_progreso == |set k | k in metas && !Completada(metas[k])|
    ensures r.activos == |ActivosDe(us)| && r.completadas == |CompletadasDe(metas)|
    ensures r.pagos_exitosos == |PagosCompletadosDe(pagos)| <= r.pagos_totales
    ensures r.total_ingresos == Ingresos(pagos) && r.total_gastos == GastosMonto(gastos)
    ensures r.total_ahorrado == Ahorrado(metas)
    ensures r.balance_general == r.total_ingresos - r.total_gastos
  {
    SplitUsers(us);
    SplitGoals(metas);
    CountPagosCompletadosBound(pagos);
    CountPagosCompletadosIsCount(pagos);
    var ingresos := Ingresos(pagos);
    var gastosMonto := GastosMonto(gastos);
    Estadisticas(
      |us|, |ActivosDe(us)|, |us| - |ActivosDe(us)|,
      |metas|, |CompletadasDe(metas)|, |metas| - |CompletadasDe(metas)|,
      |pagos|, CountPagosCompletados(pagos), |gastos|,
      ingresos, gastosMonto, Ahorrado(metas), ingresos - gastosMonto)
  }

  /** Only a completed income payment moves `total_ingresos`, and by exactly its amount. */
  lemma {:induction false} IngresosAppend(ps: seq<Pago>, qs: seq<Pago>)
    ensures Ingresos(ps + qs) == Ingresos(ps) + Ingresos(qs)
    ensures forall p :: Ingresos(ps + [p]) == Ingresos(ps) + if EsIngreso(p) then p.monto else 0
    decreases |qs|
  {
    assert forall p :: (ps + [p])[..|ps + [p]| - 1] == ps;
    if qs == [] {
      assert ps + qs == ps;
    } else {
      var q := qs[..|qs| - 1];
      assert (ps + qs)[..|ps + qs| - 1] == ps + q;
      IngresosAppend(ps, q);
    }
  }
  /** `total_gastos` adds up over any split of the table; one more row adds its amount only when it is a `'gasto'` with a non-NULL amount. */
  lemma {:induction false} GastosMontoAppend(gs: seq<Gasto>, hs: seq<Gasto>)
    ensures GastosMonto(gs + hs) == GastosMonto(gs) + GastosMonto(hs)
    ensures forall g :: GastosMonto(gs + [g]) == GastosMonto(gs) + if g.tipo == Some("gasto") then g.monto.GetOr(0) else 0
    decreases |hs|
  {
    assert forall g :: (gs + [g])[..|gs + [g]| - 1] == gs;
    if hs == [] {
      assert gs + hs == gs;
    } else {
      var h := hs[..|hs| - 1];
      assert (gs + hs)[..|gs + hs| - 1] == gs + h;
      GastosMontoAppend(gs, h);
    }
  }


  // ---------------------------------------------------------------------
  // The handlers
  // ---------------------------------------------------------------------

  class UserTable {
    /** The `usuarios` table, by id. */
    var usuarios: map<int, Usuario>
    /** The next value of the id sequence. */
    var nextId: int
    /** The column default of `activo`, which the public registration does not set. */
    const activoPorDefecto: Option<bool>

    predicate Valid()
      reads this
    {
      && (forall k :: k in usuarios ==> k < nextId)
      && UniqueEmails(usuarios)
    }

    constructor (activoPorDefecto: Option<bool>)
      ensures Valid()
      ensures usuarios == map[] && this.activoPorDefecto == activoPorDefecto
    {
      usuarios := map[];
      nextId := 1;
      this.activoPorDefecto := activoPorDefecto;
    }

    /** `POST /usuarios`: all three fields required and truthy, email not yet registered, role 'user'. */
    method Register(nombre: Option<string>, email: Option<string>, password: Option<string>, now: int)
      returns (r: Respuesta<int>)
      requires Valid()
      modifies this
      ensures Valid()
      ensures !(Truthy(nombre) && Truthy(email) && Truthy(password)) ==> r == Invalida(CamposObligatorios)
      ensures Truthy(nombre) && Truthy(email) && Truthy(password) && Held(old(usuarios), email.value) ==>
                r == Invalida(EmailRegistrado)
      ensures r.Invalida? ==> usuarios == old(usuarios)
      ensures r.Ok? <==> Truthy(nombre) && Truthy(email) && Truthy(password) && !Held(old(usuarios), email.value)
      ensures r.Ok? ==>
        && r.value == old(nextId) && r.value !in old(usuarios)
        && usuarios == old(usuarios)[r.value := Usuario(nombre, email, password, Some("user"), activoPorDefecto, now, None)]
      ensures r.Ok? || r.Invalida?
    {
      if !(Truthy(nombre) && Truthy(email) && Truthy(password)) {
        return Invalida(CamposObligatorios);
      }
      if exists k :: k in usuarios && usuarios[k].email == email {
        return Invalida(EmailRegistrado);
      }
      var id := nextId;
      usuarios := usuarios[id := Usuario(nombre, email, password, Some("user"), activoPorDefecto, now, None)];
      nextId := nextId + 1;
      r := Ok(id);
    }

    /** `POST /usuarios/admin`: no required fields; role defaults to 'user', activo to true; email must be free. */
    method CreateByAdmin(nombre: Option<string>, email: Option<string>, password: Option<string>,
                         role: Option<string>, activo: Option<bool>, now: int)
      returns (r: Respuesta<int>)
      requires Valid()
      modifies this
      ensures Valid()
      ensures r.Invalida? <==> email.Some? && Held(old(usuarios), email.value)
      ensures r.Invalida? ==> r.motivo == EmailRegistrado && usuarios == old(usuarios)
      ensures r.Ok? ==>
        && r.value == old(nextId) && r.value !in old(usuarios)
        && usuarios == old(usuarios)[r.value := Usuario(nombre, email, password, Some(role.GetOr("user")),
                                                          Some(activo.GetOr(true)), now, None)]
      ensures r.Ok? || r.Invalida?
    {
      if email.Some? && exists k :: k in usuarios && usuarios[k].email == email {
        return Invalida(EmailRegistrado);
      }
      var id := nextId;
      usuarios := usuarios[id := Usuario(nombre, email, password, Some(role.GetOr("user")), Some(activo.GetOr(true)), now, None)];
      nextId := nextId + 1;
      r := Ok(id);
    }

    /**
     * `PUT /usuarios/:id`: an email held by another user is refused (checked
     * before the id is looked up); absent fields keep their values; 404 for
     * an unknown id. The guard is the intended one, `AdmitsEmail`.
     */
    method Update(id: int, nombre: Option<string>, email: Option<string>, role: Option<string>, activo: Option<bool>)
      returns (r: Respuesta<Usuario>)
      requires Valid()
      modifies this
      ensures Valid()
      ensures r.Invalida? <==> !AdmitsEmail(old(usuarios), id, email)
      ensures r.Invalida? ==> r.motivo == EmailRegistrado
      ensures r.NoEncontrado? <==> AdmitsEmail(old(usuarios), id, email) && id !in old(usuarios)
      ensures !r.Ok? ==> usuarios == old(usuarios)
      ensures r.Ok? ==>
        && id in old(usuarios)
        && r.value == Coalesced(old(usuarios)[id], nombre, email, role, activo)
        && usuarios == old(usuarios)[id := r.value]
      ensures !r.NoAutorizado? && nextId == old(nextId)
    {
      if email.Some? && exists k :: k in usuarios && k != id && usuarios[k].email == email {
        return Invalida(EmailRegistrado);
      }
      if id !in usuarios {
        return NoEncontrado;
      }
      AdmittedUpdateKeepsUnique(usuarios, id, nombre, email, role, activo);
      var row := Coalesced(usuarios[id], nombre, email, role, activo);
      usuarios := usuarios[id := row];
      r := Ok(row);
    }

    /**
     * `DELETE /usuarios/:id`: refused when no admin other than the target
     * exists (checked before the id is looked up), 404 for an unknown id.
     */
    method Delete(id: int) returns (r: Respuesta<int>)
      requires Valid()
      modifies this
      ensures Valid()
      ensures r.Invalida? <==> !OtherAdmin(old(usuarios), id)
      ensures r.Invalida? ==> r.motivo == UltimoAdministrador
      ensures r.NoEncontrado? <==> OtherAdmin(old(usuarios), id) && id !in old(usuarios)
      ensures r.Ok? ==> r.value == id && usuarios == old(usuarios) - {id}
      ensures !r.Ok? ==> usuarios == old(usuarios)
      ensures r.Ok? ==> HasAdmin(usuarios)
      ensures HasAdmin(old(usuarios)) ==> HasAdmin(usuarios)
      ensures !r.NoAutorizado? && nextId == old(nextId)
    {
      if !exists k :: k in usuarios && k != id && IsAdmin(usuarios[k]) {
        return Invalida(UltimoAdministrador);
      }
      if id !in usuarios {
        return NoEncontrado;
      }
      var k :| k in usuarios && k != id && IsAdmin(usuarios[k]);
      usuarios := usuarios - {id};
      assert k in usuarios;
      r := Ok(id);
    }

    /** `PATCH /usuarios/:id/estado`: sets `activo` (NULL when absent) and nothing else, or 404. */
    method SetActivo(id: int, activo: Option<bool>) returns (r: Respuesta<Usuario>)
      requires Valid()
      modifies this
      ensures Valid()
      ensures r.NoEncontrado? <==> id !in old(usuarios)
      ensures r.NoEncontrado? ==> usuarios == old(usuarios)
      ensures r.Ok? ==> r.value == old(usuarios)[id].(activo := activo) && usuarios == old(usuarios)[id := r.value]
      ensures (r.Ok? || r.NoEncontrado?) && nextId == old(nextId)
    {
      if id !in usuarios {
        return NoEncontrado;
      }
      var row := usuarios[id].(activo := activo);
      usuarios := usuarios[id := row];
      r := Ok(row);
    }

    /**
     * `POST /usuarios/login`: succeeds iff a user has exactly this email and
     * password (whether active or not), and then stamps only that user's
     * `ultimo_acceso`; otherwise 401.
     */
    method Login(email: Option<string>, password: Option<string>, now: int) returns (r: Respuesta<int>)
      requires Valid()
      modifies this
      ensures Valid()
      ensures r.Ok? <==> exists k :: k in old(usuarios) && Matches(old(usuarios)[k], email, password)
      ensures r.Ok? ==>
        && r.value in old(usuarios) && Matches(old(usuarios)[r.value], email, password)
        && (forall k :: k in old(usuarios) && Matches(old(usuarios)[k], email, password) ==> k == r.value)
        && usuarios == old(usuarios)[r.value := old(usuarios)[r.value].(ultimo_acceso := Some(now))]
      ensures !r.Ok? ==> r.NoAutorizado? && usuarios == old(usuarios)
      ensures nextId == old(nextId)
    {
      if !exists k :: k in usuarios && Matches(usuarios[k], email, password) {
        return NoAutorizado;
      }
      var k :| k in usuarios && Matches(usuarios[k], email, password);
      usuarios := usuarios[k := usuarios[k].(ultimo_acceso := Some(now))];
      r := Ok(k);
    }
  }
}
