/**
 * The goal store of routes/metas.js: the `metas` table of savings goals and
 * the `depositos_metas` log of deposits into them. Every handler is a short
 * sequence of table writes; GoalStore holds the two tables and performs
 * those writes in the handlers' order. The database's SERIAL keys are the
 * counters `nextMetaId` and `nextDepositoId`.
 */
module Metas {
  import opened Tables

  /** The body of `POST /metas` and `PUT /metas/:id`; an absent field is None. */
  datatype MetaBody = MetaBody(
    usuario_id: Option<int>,
    nombre: Option<string>,
    monto_objetivo: Option<int>,
    monto_actual: Option<int>,
    fecha_objetivo: Option<string>,
    categoria: Option<string>,
    descripcion: Option<string>,
    tipo_deposito: Option<string>,
    frecuencia_automatica: Option<string>,
    monto_automatico: Option<int>)

  /** A row of `depositos_metas`. */
  datatype Deposito = Deposito(
    id: int,
    meta_id: int,
    monto: Option<int>,
    fecha: Option<int>,
    descripcion: Option<string>,
    tipo: string)

  /** The body of `POST /metas/:id/depositos`; `tipo` absent means 'manual'. */
  datatype DepositoBody = DepositoBody(
    monto: Option<int>,
    fecha: Option<int>,
    descripcion: Option<string>,
    tipo: Option<string>)

  /** The row `PUT /metas/:id` leaves: the owner kept, the nine editable columns taken from the body. */
  function Replaced(m: Meta, body: MetaBody): Meta {
    Meta(m.usuario_id, body.nombre, body.monto_objetivo, body.monto_actual, body.fecha_objetivo,
         body.categoria, body.descripcion, body.tipo_deposito, body.frecuencia_automatica, body.monto_automatico)
  }

  // ---------------------------------------------------------------------
  // Deposit queries
  // ---------------------------------------------------------------------

  /** `DELETE FROM depositos_metas WHERE meta_id = id`: the other deposits, in their order. */
  function WithoutDepositsOf(ds: seq<Deposito>, id: int): (r: seq<Deposito>)
    ensures forall d :: d in r <==> d in ds && d.meta_id != id
    ensures (forall i :: 0 <= i < |ds| ==> ds[i].meta_id != id) ==> r == ds
  {
    if ds == [] then []
    else (if ds[0].meta_id == id then [] else [ds[0]]) + WithoutDepositsOf(ds[1..], id)
  }

  /** `SELECT * FROM depositos_metas WHERE meta_id = id`, before ordering. */
  function DepositsOf(ds: seq<Deposito>, id: int): (r: seq<Deposito>)
    ensures forall d :: d in r <==> d in ds && d.meta_id == id
    ensures |r| <= |ds|
  {
    if ds == [] then []
    else (if ds[0].meta_id == id then [ds[0]] else []) + DepositsOf(ds[1..], id)
  }

  /**
   * `a` may precede `b` under `ORDER BY fecha DESC`: PostgreSQL sorts NULL
   * as larger than every value, so with DESC a NULL date comes first.
   */
  predicate FechaFirst(a: Option<int>, b: Option<int>) {
    a.None? || (b.Some? && a.value >= b.value)
  }

  /** Newest `fecha` first. */
  predicate SortedDesc(s: seq<Deposito>) {
    forall i, j :: 0 <= i < j < |s| ==> FechaFirst(s[i].fecha, s[j].fecha)
  }

  /** Insert `d` before the first deposit it may precede. */
  function InsertDesc(d: Deposito, s: seq<Deposito>): seq<Deposito> {
    if s == [] || FechaFirst(d.fecha, s[0].fecha) then [d] + s
    else [s[0]] + InsertDesc(d, s[1..])
  }

  /** Insertion sort on `fecha`, newest first; ties keep their order. */
  function SortDesc(s: seq<Deposito>): seq<Deposito> {
    if s == [] then [] else InsertDesc(s[0], SortDesc(s[1..]))
  }

  /** A deposit that may precede every element of a sorted list may head it. */
  lemma ConsSorted(x: Deposito, s: seq<Deposito>)
    requires SortedDesc(s)
    requires forall j :: 0 <= j < |s| ==> FechaFirst(x.fecha, s[j].fecha)
    ensures SortedDesc([x] + s)
  {
    var r := [x] + s;
    forall i, j | 0 <= i < j < |r| ensures FechaFirst(r[i].fecha, r[j].fecha) {
      assert r[j] == s[j - 1];
      if i > 0 {
        assert r[i] == s[i - 1];
      }
    }
  }

  /** Inserting keeps the multiset and the order. */
  lemma {:induction false} InsertDescCorrect(d: Deposito, s: seq<Deposito>)
    requires SortedDesc(s)
    ensures multiset(InsertDesc(d, s)) == multiset(s) + multiset{d}
    ensures SortedDesc(InsertDesc(d, s))
  {
    if s == [] || FechaFirst(d.fecha, s[0].fecha) {
      forall j | 0 <= j < |s| ensures FechaFirst(d.fecha, s[j].fecha) {
        assert FechaFirst(s[0].fecha, s[j].fecha) || j == 0;
      }
      ConsSorted(d, s);
    } else {
      var t := s[1..];
      assert s == [s[0]] + t;
      InsertDescCorrect(d, t);
      var rest := InsertDesc(d, t);
      forall j | 0 <= j < |rest| ensures FechaFirst(s[0].fecha, rest[j].fecha) {
        assert rest[j] in multiset(t) + multiset{d};
        if rest[j] != d {
          var k :| 0 <= k < |t| && t[k] == rest[j];
          assert s[k + 1] == rest[j];
        }
      }
      ConsSorted(s[0], rest);
    }
  }

  /** The sort is a permutation into newest-first order. */
  lemma {:induction false} SortDescCorrect(s: seq<Deposito>)
    ensures multiset(SortDesc(s)) == multiset(s)
    ensures SortedDesc(SortDesc(s))
  {
    if s != [] {
      SortDescCorrect(s[1..]);
      InsertDescCorrect(s[0], SortDesc(s[1..]));
      assert s == [s[0]] + s[1..];
    }
  }

  // ---------------------------------------------------------------------
  // The router's tables and handlers
  // ---------------------------------------------------------------------

  class GoalStore {
    /** The `metas` table, by id. */
    var metas: map<int, Meta>
    /** The `depositos_metas` table, in insertion order. */
    var depositos: seq<Deposito>
    /** The next value of the `metas` id sequence. */
    var nextMetaId: int
    /** The next value of the `depositos_metas` id sequence. */
    var nextDepositoId: int

    /**
     * Keys come from the sequences, and every deposit belongs to an existing
     * goal: a deposit is only inserted for a goal that exists, and deleting a
     * goal deletes its deposits first.
     */
    predicate Valid()
      reads this
    {
      && (forall id :: id in metas ==> id < nextMetaId)
      && (forall i :: 0 <= i < |depositos| ==> depositos[i].meta_id in metas && depositos[i].id < nextDepositoId)
    }

    constructor ()
      ensures Valid()
      ensures metas == map[] && depositos == []
    {
      metas := map[];
      depositos := [];
      nextMetaId := 1;
      nextDepositoId := 1;
    }

    /** `POST /metas`: owner 1, current amount 0 and mode 'manual' unless the body says otherwise. */
    method Create(body: MetaBody) returns (id: int, meta: Meta)
      requires Valid()
      modifies this
      ensures Valid()
      ensures id == old(nextMetaId) && id !in old(metas)
      ensures meta.usuario_id == Some(body.usuario_id.GetOr(1))
      ensures meta.monto_actual == Some(body.monto_actual.GetOr(0))
      ensures meta.tipo_deposito == Some(body.tipo_deposito.GetOr("manual"))
      ensures meta == Replaced(meta, body).(monto_actual := meta.monto_actual, tipo_deposito := meta.tipo_deposito)
      ensures metas == old(metas)[id := meta] && depositos == old(depositos)
    {
      id := nextMetaId;
      meta := Meta(Some(body.usuario_id.GetOr(1)), body.nombre, body.monto_objetivo, Some(body.monto_actual.GetOr(0)),
                   body.fecha_objetivo, body.categoria, body.descripcion, Some(body.tipo_deposito.GetOr("manual")),
                   body.frecuencia_automatica, body.monto_automatico);
      metas := metas[id := meta];
      nextMetaId := nextMetaId + 1;
    }

    /** `PUT /metas/:id`: replaces all nine editable columns (absent ones become NULL), or 404. */
    method Update(id: int, body: MetaBody) returns (r: Option<Meta>)
      requires Valid()
      modifies this
      ensures Valid()
      ensures r.None? <==> id !in old(metas)
      ensures r.None? ==> metas == old(metas)
      ensures r.Some? ==> r.value == Replaced(old(metas)[id], body) && metas == old(metas)[id := r.value]
      ensures depositos == old(depositos) && nextMetaId == old(nextMetaId) && nextDepositoId == old(nextDepositoId)
    {
      if id !in metas {
        return None;
      }
      var row := Replaced(metas[id], body);
      metas := metas[id := row];
      r := Some(row);
    }

    /** `DELETE /metas/:id`: deletes the goal's deposits, then the goal, or answers 404. */
    method Delete(id: int) returns (found: bool)
      requires Valid()
      modifies this
      ensures Valid()
      ensures found <==> id in old(metas)
      ensures metas == old(metas) - {id}
      ensures depositos == WithoutDepositsOf(old(depositos), id)
      ensures forall d :: d in depositos ==> d.meta_id != id
      ensures !found ==> depositos == old(depositos)
      ensures nextMetaId == old(nextMetaId) && nextDepositoId == old(nextDepositoId)
    {
      depositos := WithoutDepositsOf(depositos, id);
      if id !in metas {
        return false;
      }
      metas := metas - {id};
      found := true;
    }

    /** `GET /metas/:id/depositos`: the goal's deposits, newest `fecha` first. */
    function ListDeposits(id: int): (r: seq<Deposito>)
      reads this
      ensures SortedDesc(r)
      ensures multiset(r) == multiset(DepositsOf(depositos, id))
      ensures forall d :: d in r <==> d in depositos && d.meta_id == id
    {
      var own := DepositsOf(depositos, id);
      SortDescCorrect(own);
      assert forall d :: (d in SortDesc(own) <==> d in multiset(SortDesc(own))) && (d in multiset(own) <==> d in own);
      SortDesc(own)
    }

    /** `POST /metas/:id/depositos`: 404 for a missing goal; otherwise logs the deposit and credits the goal. */
    method AddDeposit(id: int, body: DepositoBody) returns (r: Option<Deposito>)
      requires Valid()
      modifies this
      ensures Valid()
      ensures r.None? <==> id !in old(metas)
      ensures r.None? ==> metas == old(metas) && depositos == old(depositos)
      ensures r.Some? ==>
        && r.value == Deposito(old(nextDepositoId), id, body.monto, body.fecha, body.descripcion, body.tipo.GetOr("manual"))
        && depositos == old(depositos) + [r.value]
        && metas == CreditGoal(old(metas), id, body.monto)
      ensures nextMetaId == old(nextMetaId)
    {
      if id !in metas {
        return None;
      }
      var deposito := Deposito(nextDepositoId, id, body.monto, body.fecha, body.descripcion, body.tipo.GetOr("manual"));
      depositos := depositos + [deposito];
      nextDepositoId := nextDepositoId + 1;
      metas := CreditGoal(metas, id, body.monto);
      r := Some(deposito);
    }
  }
}
