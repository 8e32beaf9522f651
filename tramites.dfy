/** The `/tramites` routes over the `costos` table: a request with several
    items becomes one cost row per item, all of kind "tramite" and sharing the
    request's reference, and the answer carries their total and their ids. */
module Tramites {
  import opened Store

  /** The `tipo` of the rows these routes create and read. */
  const Tramite: string := "tramite"

  /** One row of `costos`; `monto` is a mathematical real. Other kinds of
      cost ("compra", "transporte", ...) share the table. */
  datatype Costo = Costo(
    id: int,
    descripcion: string,
    monto: real,
    tipo: string,
    referencia: Option<string>,
    vehiculoId: Option<int>)

  /** One item of a request (`TramiteItemIn`). */
  datatype TramiteItem = TramiteItem(descripcion: string, monto: real)

  /** A request (`TramiteIn`). */
  datatype TramiteIn = TramiteIn(referencia: Option<string>, items: seq<TramiteItem>)

  /** The answer of `crear_tramite`. */
  datatype Receipt = Receipt(referencia: Option<string>, total: real, itemsCreados: seq<int>)

  /** The sum of the item amounts, added up from the first item on. */
  function SumMontos(items: seq<TramiteItem>): real
  {
    if items == [] then 0.0 else SumMontos(items[..|items| - 1]) + items[|items| - 1].monto
  }

  /** The running total after one more item. */
  lemma SumMontosStep(items: seq<TramiteItem>, i: int)
    requires 0 <= i < |items|
    ensures SumMontos(items[..i + 1]) == SumMontos(items[..i]) + items[i].monto
  {
    assert items[..i + 1][..i] == items[..i];
  }

  /** Amounts add up across a split of the items. */
  lemma {:induction false} SumMontosAppend(a: seq<TramiteItem>, b: seq<TramiteItem>)
    ensures SumMontos(a + b) == SumMontos(a) + SumMontos(b)
    decreases |b|
  {
    if b == [] {
      assert a + b == a;
    } else {
      var init := b[..|b| - 1];
      assert (a + b)[..|a + b| - 1] == a + init;
      SumMontosAppend(a, init);
    }
  }

  /** With no negative amount, the total bounds each amount from above and is never negative. */
  lemma {:induction false} SumMontosBounds(items: seq<TramiteItem>)
    requires forall i :: 0 <= i < |items| ==> items[i].monto >= 0.0
    ensures SumMontos(items) >= 0.0
    ensures forall i :: 0 <= i < |items| ==> items[i].monto <= SumMontos(items)
  {
    if items != [] {
      var init := items[..|items| - 1];
      SumMontosBounds(init);
      forall i | 0 <= i < |items|
        ensures items[i].monto <= SumMontos(items)
      {
        if i < |items| - 1 {
          assert items[i] == init[i];
        }
      }
    }
  }

  /** The row `crear_tramite` adds for one item. */
  function ItemRow(id: int, item: TramiteItem, referencia: Option<string>): (c: Costo)
    ensures c.id == id && c.tipo == Tramite && c.referencia == referencia
    ensures c.descripcion == item.descripcion && c.monto == item.monto && c.vehiculoId.None?
  {
    Costo(id, item.descripcion, item.monto, Tramite, referencia, None)
  }

  /** The rows `listar_tramites` returns: those of kind "tramite", by id. */
  function TramitesIn(m: map<int, Costo>): (r: map<int, Costo>)
    ensures forall id :: id in r <==> id in m && m[id].tipo == Tramite
    ensures forall id :: id in r ==> r[id] == m[id]
  {
    map id | id in m && m[id].tipo == Tramite :: m[id]
  }

  /** The rows `crear_tramite` adds for `items` when the next row id is `base`:
      item `k` under id `base + k`. */
  function NewRows(base: int, items: seq<TramiteItem>, referencia: Option<string>): map<int, Costo>
  {
    map id | base <= id < base + |items| && InRange(base, |items|, id) :: ItemRow(id, items[id - base], referencia)
  }

  /** `id` is one of the `n` ids from `base` on. */
  predicate InRange(base: int, n: int, id: int)
  {
    base <= id < base + n
  }

  /** Adding the row for item `i` extends the rows for the items before it. */
  lemma NewRowsStep(m: map<int, Costo>, base: int, items: seq<TramiteItem>, referencia: Option<string>, i: int)
    requires 0 <= i < |items|
    ensures (m + NewRows(base, items[..i], referencia))[base + i := ItemRow(base + i, items[i], referencia)]
         == m + NewRows(base, items[..i + 1], referencia)
  {
    assert items[..i + 1][..i] == items[..i];
  }

  /** After the rows for `items` are added, the next row id is `|items|` further on. */
  lemma NextAfterRows(m: map<int, Costo>, items: seq<TramiteItem>, referencia: Option<string>)
    ensures NextRowId((m + NewRows(NextRowId(m.Keys), items, referencia)).Keys) == NextRowId(m.Keys) + |items|
  {
    var base := NextRowId(m.Keys);
    var keys := (m + NewRows(base, items, referencia)).Keys;
    if items != [] {
      var top := base + |items| - 1;
      assert top in keys;
      assert forall x :: x in keys ==> x <= top;
    }
  }

  /** Item `k` lands under id `base + k`, an id no row had, as a row of kind
      "tramite" with the item's description and amount and the shared reference. */
  lemma NewRowsItemised(m: map<int, Costo>, items: seq<TramiteItem>, referencia: Option<string>, k: int)
    requires 0 <= k < |items|
    ensures NextRowId(m.Keys) + k !in m
    ensures NextRowId(m.Keys) + k in m + NewRows(NextRowId(m.Keys), items, referencia)
    ensures (m + NewRows(NextRowId(m.Keys), items, referencia))[NextRowId(m.Keys) + k]
         == ItemRow(NextRowId(m.Keys) + k, items[k], referencia)
  {
    assert InRange(NextRowId(m.Keys), |items|, NextRowId(m.Keys) + k);
  }

  /** The rows already in the table are kept, and nothing but the items' rows is added. */
  lemma NewRowsOnly(m: map<int, Costo>, items: seq<TramiteItem>, referencia: Option<string>)
    ensures forall id :: id in m ==> (m + NewRows(NextRowId(m.Keys), items, referencia))[id] == m[id]
    ensures forall id :: id in m + NewRows(NextRowId(m.Keys), items, referencia) ==>
      id in m || NextRowId(m.Keys) <= id < NextRowId(m.Keys) + |items|
  {
  }

  /** After `crear_tramite` the listing holds what it held before and exactly the new rows besides. */
  lemma ListedAfterCrear(m: map<int, Costo>, items: seq<TramiteItem>, referencia: Option<string>)
    ensures TramitesIn(m + NewRows(NextRowId(m.Keys), items, referencia))
         == TramitesIn(m) + NewRows(NextRowId(m.Keys), items, referencia)
  {
    var added := NewRows(NextRowId(m.Keys), items, referencia);
    var after := TramitesIn(m + added);
    assert forall id :: id in after ==> after[id] == (TramitesIn(m) + added)[id];
  }

  /** Adding the rows keeps every row under its own positive id. */
  lemma NewRowsKeyed(m: map<int, Costo>, items: seq<TramiteItem>, referencia: Option<string>)
    requires forall id :: id in m ==> id >= 1 && m[id].id == id
    ensures forall id :: id in m + NewRows(NextRowId(m.Keys), items, referencia) ==>
      id >= 1 && (m + NewRows(NextRowId(m.Keys), items, referencia))[id].id == id
  {
  }

  /** Adds the row for item `i` under the next row id of `rows`, which holds
      `table` and the rows of the items before `i`. */
  method AddRow(table: map<int, Costo>, rows: map<int, Costo>, items: seq<TramiteItem>, referencia: Option<string>, i: int)
    returns (rows': map<int, Costo>, id: int)
    requires 0 <= i < |items|
    requires rows == table + NewRows(NextRowId(table.Keys), items[..i], referencia)
    ensures id == NextRowId(table.Keys) + i
    ensures rows' == table + NewRows(NextRowId(table.Keys), items[..i + 1], referencia)
  {
    ghost var base := NextRowId(table.Keys);
    NextAfterRows(table, items[..i], referencia);
    id := NextRowId(rows.Keys);
    assert id == base + i;
    NewRowsStep(table, base, items, referencia, i);
    rows' := rows[id := ItemRow(id, items[i], referencia)];
  }

  /** The `costos` table. */
  class CostTable {
    var costos: map<int, Costo>

    ghost predicate Valid()
      reads this
    {
      forall id :: id in costos ==> id >= 1 && costos[id].id == id
    }

    constructor ()
      ensures Valid() && costos == map[]
    {
      costos := map[];
    }

    /** `listar_tramites`: every row of kind "tramite", and no other. */
    function ListarTramites(): (r: map<int, Costo>)
      reads this
      ensures forall id :: id in r <==> id in costos && costos[id].tipo == Tramite
      ensures forall id :: id in r ==> r[id] == costos[id]
    {
      TramitesIn(costos)
    }

    /** `obtener_tramite`: the row, when it exists and is of kind "tramite". */
    function ObtenerTramite(id: int): (r: Option<Costo>)
      reads this
      ensures r.Some? <==> id in costos && costos[id].tipo == Tramite
      ensures r.Some? ==> r.value == costos[id]
    {
      if id in costos && costos[id].tipo == Tramite then Some(costos[id]) else None
    }

    /** `crear_tramite`: one row per item, in item order, with the request's
        reference, under consecutive ids starting at the next row id, written
        by the one commit after the loop; the total of the amounts and the new
        ids are returned. */
    method CrearTramite(payload: TramiteIn) returns (receipt: Receipt)
      requires Valid()
      modifies this
      ensures Valid()
      ensures costos == old(costos) + NewRows(NextRowId(old(costos).Keys), payload.items, payload.referencia)
      ensures receipt.referencia == payload.referencia
      ensures receipt.total == SumMontos(payload.items)
      ensures payload.items == [] ==> receipt.total == 0.0 && costos == old(costos)
      ensures |receipt.itemsCreados| == |payload.items|
      ensures forall k :: 0 <= k < |receipt.itemsCreados| ==> receipt.itemsCreados[k] == NextRowId(old(costos).Keys) + k
    {
      var rows := costos;
      ghost var base := NextRowId(costos.Keys);
      var total := 0.0;
      var creados: seq<int> := [];
      for i := 0 to |payload.items|
        invariant costos == old(costos)
        invariant rows == costos + NewRows(base, payload.items[..i], payload.referencia)
        invariant total == SumMontos(payload.items[..i])
        invariant |creados| == i
        invariant forall k :: 0 <= k < i ==> creados[k] == base + k
      {
        var item := payload.items[i];
        var id;
        rows, id := AddRow(costos, rows, payload.items, payload.referencia, i);
        creados := creados + [id];
        SumMontosStep(payload.items, i);
        total := total + item.monto;
      }
      assert payload.items[..|payload.items|] == payload.items;
      NewRowsKeyed(costos, payload.items, payload.referencia);
      costos := rows;
      receipt := Receipt(payload.referencia, total, creados);
    }
  }
}
