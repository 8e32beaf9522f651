/** The `/autos` routes: a table of autos whose VINs are unique and stored
    normalised, listed newest first, with create, get, full edit and delete.
    A body is validated against `AutoCreate` before a route runs, so an
    invalid body is refused (422) before any lookup. */
module Autos {
  import opened Store
  import opened Text
  import opened AutoSchemas

  /** One row of `autos`; `precio` is a mathematical real. */
  datatype Auto = Auto(id: int, vin: string, marca: string, modelo: string, anio: int, color: string, precio: real)

  datatype AutoError = Unprocessable(errors: seq<SchemaError>) | DuplicateVin | NotFound

  /** The row a route writes from a validated body. */
  function StoredAuto(id: int, a: AutoCreate): Auto
  {
    Auto(id, Trim(Upper(a.vin)), Trim(a.marca), Trim(a.modelo), a.anio, Trim(a.color), a.precio)
  }

  /** A normalised VIN goes through `.upper().strip()` unchanged. */
  lemma NormalVinKept(v: string)
    requires NormalVin(v)
    ensures Trim(Upper(v)) == v
  {
    UpperOfNoLower(v);
    TrimOfTrimmed(v);
  }

  /** A written row holds the VIN of the validated body, and its year and price as sent. */
  lemma StoredAutoKeys(id: int, a: AutoCreate)
    requires Conforms(a)
    ensures StoredAuto(id, a).id == id && StoredAuto(id, a).vin == a.vin
    ensures StoredAuto(id, a).anio == a.anio && StoredAuto(id, a).precio == a.precio
  {
    NormalVinKept(a.vin);
  }

  /** A written row holds brand, model and colour stripped. */
  lemma StoredAutoTrimmed(id: int, a: AutoCreate)
    ensures Trimmed(StoredAuto(id, a).marca) && Trimmed(StoredAuto(id, a).modelo)
    ensures Trimmed(StoredAuto(id, a).color)
  {
  }

  /** The fields of a row as the response schema `AutoOut` reads them. */
  function AsCreate(x: Auto): AutoCreate
  {
    AutoCreate(x.vin, x.marca, x.modelo, x.anio, x.color, x.precio)
  }

  /** A row written from a validated body passes the response schema. */
  lemma StoredConforms(id: int, a: AutoCreate)
    requires Conforms(a)
    ensures Conforms(AsCreate(StoredAuto(id, a)))
  {
    StoredAutoKeys(id, a);
  }

  predicate VinInUse(m: map<int, Auto>, vin: string)
  {
    exists id :: id in m && m[id].vin == vin
  }

  /** The VIN `crear_auto` looks up (`payload.vin.upper()`) is the VIN it
      stores (`payload.vin.upper().strip()`), because validation already
      normalised it: the lookup finds a row exactly when the stored VIN is taken. */
  lemma LookupVinIsStoredVin(m: map<int, Auto>, a: AutoCreate)
    requires Conforms(a)
    ensures VinInUse(m, Upper(a.vin)) <==> VinInUse(m, StoredAuto(0, a).vin)
  {
    UpperOfNoLower(a.vin);
    StoredAutoKeys(0, a);
  }

  predicate VinInUseByOther(m: map<int, Auto>, vin: string, self: int)
  {
    exists id :: id in m && id != self && m[id].vin == vin
  }

  /** Rows sit under their own positive ids, every row passes the response
      schema, and no two rows share a VIN. */
  predicate ValidGarage(m: map<int, Auto>)
  {
    && (forall id :: id in m ==> id >= 1 && m[id].id == id && Conforms(AsCreate(m[id])))
    && (forall a, b :: a in m && b in m && a != b ==> m[a].vin != m[b].vin)
  }

  lemma InsertKeepsValid(m: map<int, Auto>, x: Auto)
    requires ValidGarage(m) && x.id >= 1 && x.id !in m && Conforms(AsCreate(x))
    requires !VinInUse(m, x.vin)
    ensures ValidGarage(m[x.id := x])
  {
    var m' := m[x.id := x];
    forall a, b | a in m' && b in m' && a != b
      ensures m'[a].vin != m'[b].vin
    {
      if a == x.id {
        assert m[b] == m'[b];
      } else if b == x.id {
        assert m[a] == m'[a];
      }
    }
  }

  lemma ReplaceKeepsValid(m: map<int, Auto>, x: Auto)
    requires ValidGarage(m) && x.id in m && Conforms(AsCreate(x))
    requires !VinInUseByOther(m, x.vin, x.id)
    ensures ValidGarage(m[x.id := x])
  {
    var m' := m[x.id := x];
    forall a, b | a in m' && b in m' && a != b
      ensures m'[a].vin != m'[b].vin
    {
      if a == x.id {
        assert m[b] == m'[b];
      } else if b == x.id {
        assert m[a] == m'[a];
      }
    }
  }

  /** Rows are stored under their own ids. */
  predicate KeyedById(m: map<int, Auto>)
  {
    forall id :: id in m ==> m[id].id == id
  }

  /** The rows stored under `ids`, in that order. */
  function RowsOf(m: map<int, Auto>, ids: seq<int>): (r: seq<Auto>)
    requires forall i :: 0 <= i < |ids| ==> ids[i] in m
    ensures |r| == |ids|
    ensures forall i :: 0 <= i < |ids| ==> r[i] == m[ids[i]]
  {
    if ids == [] then [] else [m[ids[0]]] + RowsOf(m, ids[1..])
  }

  lemma ListingSize(m: map<int, Auto>)
    ensures |RowsOf(m, DescendingIds(m.Keys))| == |m|
  {
  }

  lemma ListingRows(m: map<int, Auto>)
    requires KeyedById(m)
    ensures forall i :: 0 <= i < |RowsOf(m, DescendingIds(m.Keys))| ==>
      var x := RowsOf(m, DescendingIds(m.Keys))[i]; x.id in m && m[x.id] == x
  {
  }

  lemma ListingComplete(m: map<int, Auto>)
    ensures forall id :: id in m ==> m[id] in RowsOf(m, DescendingIds(m.Keys))
  {
    var ids := DescendingIds(m.Keys);
    forall id | id in m
      ensures m[id] in RowsOf(m, ids)
    {
      var k :| 0 <= k < |ids| && ids[k] == id;
      assert RowsOf(m, ids)[k] == m[id];
    }
  }

  lemma ListingDescending(m: map<int, Auto>)
    requires KeyedById(m)
    ensures forall i, j :: 0 <= i < j < |RowsOf(m, DescendingIds(m.Keys))| ==>
      RowsOf(m, DescendingIds(m.Keys))[i].id > RowsOf(m, DescendingIds(m.Keys))[j].id
  {
  }

  /** The rows of a table, newest (largest id) first: every row exactly once. */
  function NewestFirst(m: map<int, Auto>): (r: seq<Auto>)
    requires KeyedById(m)
    ensures |r| == |m|
    ensures forall i :: 0 <= i < |r| ==> r[i].id in m && m[r[i].id] == r[i]
    ensures forall id :: id in m ==> m[id] in r
    ensures forall i, j :: 0 <= i < j < |r| ==> r[i].id > r[j].id
  {
    ListingSize(m);
    ListingRows(m);
    ListingComplete(m);
    ListingDescending(m);
    RowsOf(m, DescendingIds(m.Keys))
  }

  /** The auto table. */
  class AutoRegistry {
    var autos: map<int, Auto>

    ghost predicate Valid()
      reads this
    {
      ValidGarage(autos)
    }

    constructor ()
      ensures Valid() && autos == map[]
    {
      autos := map[];
    }

    /** `listar_autos`: every row once, ordered by id descending. */
    function ListarAutos(): (r: seq<Auto>)
      reads this
      requires Valid()
      ensures |r| == |autos|
      ensures forall i :: 0 <= i < |r| ==> r[i].id in autos && autos[r[i].id] == r[i]
      ensures forall id :: id in autos ==> autos[id] in r
      ensures forall i, j :: 0 <= i < j < |r| ==> r[i].id > r[j].id
    {
      NewestFirst(autos)
    }

    /** `obtener_auto`: the row, or not-found. */
    function ObtenerAuto(id: int): (r: Result<Auto, AutoError>)
      reads this
      ensures r.Ok? <==> id in autos
      ensures r.Ok? ==> r.value == autos[id]
      ensures r.Err? ==> r.error == NotFound
    {
      if id in autos then Ok(autos[id]) else Err(NotFound)
    }

    /** `crear_auto`: validate the body, refuse a VIN whose upper-case form is
        taken, add the normalised row under the next row id. */
    method CrearAuto(p: AutoPayload) returns (r: Result<Auto, AutoError>)
      requires Valid()
      modifies this
      ensures Valid()
      ensures r.Err? && r.error.Unprocessable? <==> Validate(p).Err?
      ensures r.Err? && r.error.Unprocessable? ==> r.error.errors == Validate(p).error
      ensures r == Err(DuplicateVin) <==> Validate(p).Ok? && VinInUse(old(autos), Validate(p).value.vin)
      ensures r.Ok? <==> Validate(p).Ok? && !VinInUse(old(autos), Validate(p).value.vin)
      ensures r.Ok? ==> r.value == StoredAuto(NextRowId(old(autos).Keys), Validate(p).value)
      ensures r.Ok? ==> r.value.id !in old(autos) && autos == old(autos)[r.value.id := r.value]
      ensures r.Err? ==> autos == old(autos)
    {
      var v := Validate(p);
      if v.Err? {
        return Err(Unprocessable(v.error));
      }
      var payload := v.value;
      LookupVinIsStoredVin(autos, payload);
      StoredAutoKeys(0, payload);
      if VinInUse(autos, Upper(payload.vin)) {
        return Err(DuplicateVin);
      }
      var auto := StoredAuto(NextRowId(autos.Keys), payload);
      StoredConforms(auto.id, payload);
      StoredAutoKeys(auto.id, payload);
      InsertKeepsValid(autos, auto);
      autos := autos[auto.id := auto];
      r := Ok(auto);
    }

    /** `editar_auto`: validate the body, look the row up, refuse a VIN held
        by another row, overwrite all six fields. */
    method EditarAuto(id: int, p: AutoPayload) returns (r: Result<Auto, AutoError>)
      requires Valid()
      modifies this
      ensures Valid()
      ensures r.Err? && r.error.Unprocessable? <==> Validate(p).Err?
      ensures r.Err? && r.error.Unprocessable? ==> r.error.errors == Validate(p).error
      ensures r == Err(NotFound) <==> Validate(p).Ok? && id !in old(autos)
      ensures r == Err(DuplicateVin)
          <==> Validate(p).Ok? && id in old(autos) && VinInUseByOther(old(autos), Validate(p).value.vin, id)
      ensures r.Ok?
          <==> Validate(p).Ok? && id in old(autos) && !VinInUseByOther(old(autos), Validate(p).value.vin, id)
      ensures r.Ok? ==> r.value == StoredAuto(id, Validate(p).value)
      ensures r.Ok? ==> id in old(autos) && autos == old(autos)[id := r.value]
      ensures r.Err? ==> autos == old(autos)
    {
      var v := Validate(p);
      if v.Err? {
        return Err(Unprocessable(v.error));
      }
      if id !in autos {
        return Err(NotFound);
      }
      var payload := v.value;
      var auto := StoredAuto(id, payload);
      StoredConforms(id, payload);
      StoredAutoKeys(id, payload);
      if VinInUseByOther(autos, auto.vin, id) {
        return Err(DuplicateVin);
      }
      ReplaceKeepsValid(autos, auto);
      autos := autos[id := auto];
      r := Ok(auto);
    }

    /** `eliminar_auto`: not-found, or exactly that row removed. */
    method EliminarAuto(id: int) returns (r: Result<Auto, AutoError>)
      requires Valid()
      modifies this
      ensures Valid()
      ensures r.Ok? <==> id in old(autos)
      ensures r.Ok? ==> r.value == old(autos)[id] && autos == old(autos) - {id}
      ensures r.Err? ==> r.error == NotFound && autos == old(autos)
    {
      if id !in autos {
        return Err(NotFound);
      }
      r := Ok(autos[id]);
      autos := autos - {id};
    }
  }
}
