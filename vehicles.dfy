/** The `/vehicles` routes: a table of vehicles in which no two rows share a
    VIN and no two rows share a plate, plates being stored trimmed and
    upper-cased, with create, get, partial update and delete. */
module Vehicles {
  import opened Store
  import opened Text
  import opened Dates

  datatype AcquisitionType = TradeIn | DirectSale

  /** A value of the `VehicleStatus` enumeration, whose members are not part of this model. */
  datatype VehicleStatus = VehicleStatus(name: string)

  /** One row of `vehicles`. `status` is `None` while the row holds the
      column's default, which is not part of this model; `odometerKm` is a
      mathematical real. */
  datatype Vehicle = Vehicle(
    id: int,
    vin: string,
    plate: Option<string>,
    brand: string,
    model: string,
    year: int,
    odometerKm: real,
    acquisitionType: AcquisitionType,
    sellerName: string,
    sellerContact: Option<string>,
    sellerDocument: Option<string>,
    receivedDate: Option<Date>,
    status: Option<VehicleStatus>)

  /** The body of a create request (`VehicleCreate`). */
  datatype VehicleCreate = VehicleCreate(
    vin: string,
    plate: Option<string>,
    brand: string,
    model: string,
    year: int,
    odometerKm: real,
    acquisitionType: AcquisitionType,
    sellerName: string,
    sellerContact: Option<string>,
    sellerDocument: Option<string>,
    receivedDate: Option<Date>)

  /** The body of a PATCH request (`VehicleUpdate`): `None` is a field the
      client did not send. For the nullable columns the inner option is the
      value sent, so `Some(None)` is an explicit null. */
  datatype VehicleUpdate = VehicleUpdate(
    vin: Option<string>,
    plate: Option<Option<string>>,
    brand: Option<string>,
    model: Option<string>,
    year: Option<int>,
    odometerKm: Option<real>,
    acquisitionType: Option<AcquisitionType>,
    sellerName: Option<string>,
    sellerContact: Option<Option<string>>,
    sellerDocument: Option<Option<string>>,
    receivedDate: Option<Option<Date>>,
    status: Option<VehicleStatus>)

  // ---------------------------------------------------------------------------
  // Plates

  /** A plate as it is stored: absent, or non-blank, stripped and upper-case. */
  predicate NormalPlate(p: Option<string>)
  {
    p.Some? ==> p.value != "" && Trimmed(p.value) && NoLower(p.value)
  }

  /** `_norm_plate`: strip, upper-case, and read a blank result as no plate. */
  function NormPlate(p: Option<string>): (r: Option<string>)
    ensures NormalPlate(r)
    ensures r.None? <==> p.None? || Trim(p.value) == ""
    ensures r.Some? ==> r.value == Upper(Trim(p.value))
  {
    if p.None? then None
    else
      var t := Upper(Trim(p.value));
      UpperTrimCommute(p.value);
      assert Trimmed(t);
      if t == "" then None else Some(t)
  }

  /** A stored plate normalises to itself. */
  lemma NormPlateFixes(p: Option<string>)
    requires NormalPlate(p)
    ensures NormPlate(p) == p
  {
    if p.Some? {
      TrimOfTrimmed(p.value);
      UpperOfNoLower(p.value);
    }
  }

  /** Normalising twice is normalising once. */
  lemma NormPlateIdempotent(p: Option<string>)
    ensures NormPlate(NormPlate(p)) == NormPlate(p)
  {
    NormPlateFixes(NormPlate(p));
  }

  // ---------------------------------------------------------------------------
  // The table

  datatype VehicleError = NotFound | DuplicateVin(vin: string) | DuplicatePlate(plate: string)

  predicate VinInUse(m: map<int, Vehicle>, vin: string)
  {
    exists id :: id in m && m[id].vin == vin
  }

  predicate VinInUseByOther(m: map<int, Vehicle>, vin: string, self: int)
  {
    exists id :: id in m && id != self && m[id].vin == vin
  }

  predicate PlateInUse(m: map<int, Vehicle>, plate: string)
  {
    exists id :: id in m && m[id].plate == Some(plate)
  }

  predicate PlateInUseByOther(m: map<int, Vehicle>, plate: string, self: int)
  {
    exists id :: id in m && id != self && m[id].plate == Some(plate)
  }

  /** Rows sit under their own positive ids and hold normalised plates; no two
      rows share a VIN, and no two rows share a plate (rows without one never clash). */
  predicate ValidFleet(m: map<int, Vehicle>)
  {
    && (forall id :: id in m ==> id >= 1 && m[id].id == id && NormalPlate(m[id].plate))
    && (forall a, b :: a in m && b in m && a != b ==> m[a].vin != m[b].vin)
    && (forall a, b :: a in m && b in m && a != b && m[a].plate.Some? ==> m[a].plate != m[b].plate)
  }

  /** Adding a row under a fresh id with a free VIN and a free, normalised plate keeps the table valid. */
  lemma InsertKeepsValid(m: map<int, Vehicle>, v: Vehicle)
    requires ValidFleet(m) && v.id >= 1 && v.id !in m && NormalPlate(v.plate)
    requires !VinInUse(m, v.vin)
    requires v.plate.Some? ==> !PlateInUse(m, v.plate.value)
    ensures ValidFleet(m[v.id := v])
  {
    var m' := m[v.id := v];
    forall a, b | a in m' && b in m' && a != b
      ensures m'[a].vin != m'[b].vin
      ensures m'[a].plate.Some? ==> m'[a].plate != m'[b].plate
    {
      if a == v.id {
        assert m[b] == m'[b];
      } else if b == v.id {
        assert m[a] == m'[a];
      }
    }
  }

  /** Overwriting a row with a VIN and a plate that no other row holds keeps the table valid. */
  lemma ReplaceKeepsValid(m: map<int, Vehicle>, v: Vehicle)
    requires ValidFleet(m) && v.id in m && NormalPlate(v.plate)
    requires !VinInUseByOther(m, v.vin, v.id)
    requires v.plate.Some? ==> !PlateInUseByOther(m, v.plate.value, v.id)
    ensures ValidFleet(m[v.id := v])
  {
    var m' := m[v.id := v];
    forall a, b | a in m' && b in m' && a != b
      ensures m'[a].vin != m'[b].vin
      ensures m'[a].plate.Some? ==> m'[a].plate != m'[b].plate
    {
      if a == v.id {
        assert m[b] == m'[b];
      } else if b == v.id {
        assert m[a] == m'[a];
      }
    }
  }

  /** The row `create_vehicle` builds: the payload as sent, the plate normalised,
      the status left to the column default. */
  function NewVehicle(id: int, p: VehicleCreate): (v: Vehicle)
    ensures v.id == id && v.plate == NormPlate(p.plate) && NormalPlate(v.plate)
    ensures v.vin == p.vin && v.brand == p.brand && v.model == p.model && v.year == p.year
    ensures v.odometerKm == p.odometerKm && v.acquisitionType == p.acquisitionType
    ensures v.sellerName == p.sellerName && v.sellerContact == p.sellerContact
    ensures v.sellerDocument == p.sellerDocument && v.receivedDate == p.receivedDate
    ensures v.status.None?
  {
    Vehicle(id, p.vin, NormPlate(p.plate), p.brand, p.model, p.year, p.odometerKm,
            p.acquisitionType, p.sellerName, p.sellerContact, p.sellerDocument,
            p.receivedDate, None)
  }

  // ---------------------------------------------------------------------------
  // Partial updates, field by field

  /** The attributes a PATCH may set, in the order `VehicleUpdate` declares them. */
  datatype VehicleField =
    | Vin | Plate | Brand | Model | Year | OdometerKm | Acquisition
    | SellerName | SellerContact | SellerDocument | ReceivedDate | Status

  const Fields: seq<VehicleField> :=
    [Vin, Plate, Brand, Model, Year, OdometerKm, Acquisition,
     SellerName, SellerContact, SellerDocument, ReceivedDate, Status]

  /** The value held in one attribute, whatever its type. */
  datatype FieldValue =
    | Text(s: string)
    | MaybeText(t: Option<string>)
    | Whole(i: int)
    | Measure(r: real)
    | Acquired(a: AcquisitionType)
    | Day(d: Option<Date>)
    | Stage(st: Option<VehicleStatus>)

  /** `getattr(v, f)` */
  function FieldOf(v: Vehicle, f: VehicleField): FieldValue
  {
    match f
    case Vin => Text(v.vin)
    case Plate => MaybeText(v.plate)
    case Brand => Text(v.brand)
    case Model => Text(v.model)
    case Year => Whole(v.year)
    case OdometerKm => Measure(v.odometerKm)
    case Acquisition => Acquired(v.acquisitionType)
    case SellerName => Text(v.sellerName)
    case SellerContact => MaybeText(v.sellerContact)
    case SellerDocument => MaybeText(v.sellerDocument)
    case ReceivedDate => Day(v.receivedDate)
    case Status => Stage(v.status)
  }

  /** A value of the attribute's own type. */
  predicate Fits(f: VehicleField, x: FieldValue)
  {
    match f
    case Vin => x.Text?
    case Plate => x.MaybeText?
    case Brand => x.Text?
    case Model => x.Text?
    case Year => x.Whole?
    case OdometerKm => x.Measure?
    case Acquisition => x.Acquired?
    case SellerName => x.Text?
    case SellerContact => x.MaybeText?
    case SellerDocument => x.MaybeText?
    case ReceivedDate => x.Day?
    case Status => x.Stage?
  }

  /** `setattr(v, f, x)`: that attribute reads `x`, every other reads as before. */
  function SetField(v: Vehicle, f: VehicleField, x: FieldValue): (r: Vehicle)
    requires Fits(f, x)
    ensures r.id == v.id
    ensures FieldOf(r, f) == x
    ensures forall g :: g != f ==> FieldOf(r, g) == FieldOf(v, g)
  {
    match f
    case Vin => v.(vin := x.s)
    case Plate => v.(plate := x.t)
    case Brand => v.(brand := x.s)
    case Model => v.(model := x.s)
    case Year => v.(year := x.i)
    case OdometerKm => v.(odometerKm := x.r)
    case Acquisition => v.(acquisitionType := x.a)
    case SellerName => v.(sellerName := x.s)
    case SellerContact => v.(sellerContact := x.t)
    case SellerDocument => v.(sellerDocument := x.t)
    case ReceivedDate => v.(receivedDate := x.d)
    case Status => v.(status := x.st)
  }

  /** Two rows with the same id that agree on every attribute are the same row. */
  lemma FieldsDetermine(a: Vehicle, b: Vehicle)
    requires a.id == b.id
    requires forall g :: FieldOf(a, g) == FieldOf(b, g)
    ensures a == b
  {
    assert a.vin == b.vin by { assert FieldOf(a, Vin) == FieldOf(b, Vin); }
    assert a.plate == b.plate by { assert FieldOf(a, Plate) == FieldOf(b, Plate); }
    assert a.brand == b.brand by { assert FieldOf(a, Brand) == FieldOf(b, Brand); }
    assert a.model == b.model by { assert FieldOf(a, Model) == FieldOf(b, Model); }
    assert a.year == b.year by { assert FieldOf(a, Year) == FieldOf(b, Year); }
    assert a.odometerKm == b.odometerKm by { assert FieldOf(a, OdometerKm) == FieldOf(b, OdometerKm); }
    assert a.acquisitionType == b.acquisitionType by { assert FieldOf(a, Acquisition) == FieldOf(b, Acquisition); }
    assert a.sellerName == b.sellerName by { assert FieldOf(a, SellerName) == FieldOf(b, SellerName); }
    assert a.sellerContact == b.sellerContact by { assert FieldOf(a, SellerContact) == FieldOf(b, SellerContact); }
    assert a.sellerDocument == b.sellerDocument by { assert FieldOf(a, SellerDocument) == FieldOf(b, SellerDocument); }
    assert a.receivedDate == b.receivedDate by { assert FieldOf(a, ReceivedDate) == FieldOf(b, ReceivedDate); }
    assert a.status == b.status by { assert FieldOf(a, Status) == FieldOf(b, Status); }
  }

  /** The entry of `payload.dict(exclude_unset=True)` for an attribute: the
      value sent, or nothing when the client did not send that field. */
  function Supplied(u: VehicleUpdate, f: VehicleField): (x: Option<FieldValue>)
    ensures x.Some? ==> Fits(f, x.value)
  {
    match f
    case Vin => if u.vin.Some? then Some(Text(u.vin.value)) else None
    case Plate => if u.plate.Some? then Some(MaybeText(u.plate.value)) else None
    case Brand => if u.brand.Some? then Some(Text(u.brand.value)) else None
    case Model => if u.model.Some? then Some(Text(u.model.value)) else None
    case Year => if u.year.Some? then Some(Whole(u.year.value)) else None
    case OdometerKm => if u.odometerKm.Some? then Some(Measure(u.odometerKm.value)) else None
    case Acquisition => if u.acquisitionType.Some? then Some(Acquired(u.acquisitionType.value)) else None
    case SellerName => if u.sellerName.Some? then Some(Text(u.sellerName.value)) else None
    case SellerContact => if u.sellerContact.Some? then Some(MaybeText(u.sellerContact.value)) else None
    case SellerDocument => if u.sellerDocument.Some? then Some(MaybeText(u.sellerDocument.value)) else None
    case ReceivedDate => if u.receivedDate.Some? then Some(Day(u.receivedDate.value)) else None
    case Status => if u.status.Some? then Some(Stage(Some(u.status.value))) else None
  }

  /** `data["plate"] = _norm_plate(data["plate"])` when a plate was sent. */
  function Normalized(u: VehicleUpdate): (d: VehicleUpdate)
    ensures d.plate.Some? <==> u.plate.Some?
    ensures d.plate.Some? ==> d.plate.value == NormPlate(u.plate.value)
    ensures d.(plate := u.plate) == u
  {
    if u.plate.Some? then u.(plate := Some(NormPlate(u.plate.value))) else u
  }

  /** Where an attribute stands in `Fields`. */
  function Index(f: VehicleField): (k: nat)
    ensures k < |Fields| && Fields[k] == f
  {
    match f
    case Vin => 0
    case Plate => 1
    case Brand => 2
    case Model => 3
    case Year => 4
    case OdometerKm => 5
    case Acquisition => 6
    case SellerName => 7
    case SellerContact => 8
    case SellerDocument => 9
    case ReceivedDate => 10
    case Status => 11
  }

  lemma IndexOfField(k: nat)
    requires k < |Fields|
    ensures Index(Fields[k]) == k
  {
  }

  /** The row after the `setattr` loop has run over the first `k` attributes. */
  function UpdatedUpTo(v: Vehicle, u: VehicleUpdate, k: nat): Vehicle
    requires k <= |Fields|
  {
    if k == 0 then v
    else
      var w := UpdatedUpTo(v, u, k - 1);
      var x := Supplied(u, Fields[k - 1]);
      if x.Some? then SetField(w, Fields[k - 1], x.value) else w
  }

  /** The row after the whole `setattr` loop. */
  function Updated(v: Vehicle, u: VehicleUpdate): Vehicle
  {
    UpdatedUpTo(v, u, |Fields|)
  }

  /** One pass of the loop body: the attribute it sets, if any, takes the value sent. */
  lemma StepFields(w: Vehicle, f: VehicleField, x: Option<FieldValue>, g: VehicleField)
    requires x.Some? ==> Fits(f, x.value)
    ensures (if x.Some? then SetField(w, f, x.value) else w).id == w.id
    ensures FieldOf(if x.Some? then SetField(w, f, x.value) else w, g)
         == if g == f && x.Some? then x.value else FieldOf(w, g)
  {
  }

  lemma {:induction false} UpdatedUpToFields(v: Vehicle, u: VehicleUpdate, k: nat, g: VehicleField)
    requires k <= |Fields|
    ensures UpdatedUpTo(v, u, k).id == v.id
    ensures FieldOf(UpdatedUpTo(v, u, k), g)
         == if Index(g) < k && Supplied(u, g).Some? then Supplied(u, g).value else FieldOf(v, g)
  {
    if k > 0 {
      UpdatedUpToFields(v, u, k - 1, g);
      IndexOfField(k - 1);
      StepFields(UpdatedUpTo(v, u, k - 1), Fields[k - 1], Supplied(u, Fields[k - 1]), g);
    }
  }

  /** The loop sets exactly the attributes that were sent, to the values sent,
      and keeps the id and every other attribute. */
  lemma UpdatedFields(v: Vehicle, u: VehicleUpdate)
    ensures Updated(v, u).id == v.id
    ensures forall g :: FieldOf(Updated(v, u), g)
                     == if Supplied(u, g).Some? then Supplied(u, g).value else FieldOf(v, g)
  {
    forall g
      ensures FieldOf(Updated(v, u), g)
           == if Supplied(u, g).Some? then Supplied(u, g).value else FieldOf(v, g)
    {
      UpdatedUpToFields(v, u, |Fields|, g);
    }
    UpdatedUpToFields(v, u, |Fields|, Vin);
  }

  /** An empty PATCH changes nothing. */
  lemma UpdatedNothing(v: Vehicle)
    ensures Updated(v, VehicleUpdate(None, None, None, None, None, None, None, None, None, None, None, None)) == v
  {
    UpdatedFields(v, VehicleUpdate(None, None, None, None, None, None, None, None, None, None, None, None));
    FieldsDetermine(Updated(v, VehicleUpdate(None, None, None, None, None, None, None, None, None, None, None, None)), v);
  }

  /** What the update stores as VIN and plate: the ones sent (the plate normalised), else the old ones. */
  lemma UpdatedKeys(v: Vehicle, u: VehicleUpdate)
    ensures var w := Updated(v, Normalized(u));
      && w.id == v.id
      && w.vin == (if u.vin.Some? then u.vin.value else v.vin)
      && w.plate == (if u.plate.Some? then NormPlate(u.plate.value) else v.plate)
  {
    UpdatedFields(v, Normalized(u));
    assert FieldOf(Updated(v, Normalized(u)), Vin) == FieldOf(Updated(v, Normalized(u)), Vin);
    assert FieldOf(Updated(v, Normalized(u)), Plate) == FieldOf(Updated(v, Normalized(u)), Plate);
  }

  /** `update_vehicle`'s answer: not-found; a VIN that was sent and that
      another row holds; a plate that was sent, normalises to a plate, and
      another row holds; or the updated row. */
  function UpdateOutcome(m: map<int, Vehicle>, id: int, u: VehicleUpdate): Result<Vehicle, VehicleError>
  {
    if id !in m then Err(NotFound)
    else if u.vin.Some? && VinInUseByOther(m, u.vin.value, id) then Err(DuplicateVin(u.vin.value))
    else if u.plate.Some? && NormPlate(u.plate.value).Some?
            && PlateInUseByOther(m, NormPlate(u.plate.value).value, id)
    then Err(DuplicatePlate(NormPlate(u.plate.value).value))
    else Ok(Updated(m[id], Normalized(u)))
  }

  /** A successful update keeps the table free of shared VINs and plates. */
  lemma UpdateKeepsValid(m: map<int, Vehicle>, id: int, u: VehicleUpdate)
    requires ValidFleet(m) && UpdateOutcome(m, id, u).Ok?
    ensures ValidFleet(m[id := UpdateOutcome(m, id, u).value])
  {
    var v := m[id];
    var w := Updated(v, Normalized(u));
    UpdatedKeys(v, u);
    if u.vin.None? {
      forall o | o in m && o != id
        ensures m[o].vin != w.vin
      {
      }
    }
    if u.plate.None? && w.plate.Some? {
      forall o | o in m && o != id
        ensures m[o].plate != w.plate
      {
      }
    }
    ReplaceKeepsValid(m, w);
  }

  /** Sending back a row's own VIN and plate is never a clash: only other rows count. */
  lemma OwnKeysAllowed(m: map<int, Vehicle>, id: int, u: VehicleUpdate)
    requires ValidFleet(m) && id in m
    requires u.vin.None? || u.vin == Some(m[id].vin)
    requires u.plate.None? || u.plate == Some(m[id].plate)
    ensures UpdateOutcome(m, id, u).Ok?
  {
    if u.vin.Some? {
      assert !VinInUseByOther(m, m[id].vin, id);
    }
    if u.plate.Some? {
      NormPlateFixes(m[id].plate);
      if m[id].plate.Some? {
        assert !PlateInUseByOther(m, m[id].plate.value, id);
      }
    }
  }

  /** `for k, val in data.items(): setattr(v, k, val)` over the sent attributes. */
  method SetAttributes(orig: Vehicle, data: VehicleUpdate) returns (v: Vehicle)
    ensures v == Updated(orig, data)
  {
    v := orig;
    for i := 0 to |Fields|
      invariant v == UpdatedUpTo(orig, data, i)
    {
      var x := Supplied(data, Fields[i]);
      if x.Some? {
        v := SetField(v, Fields[i], x.value);
      }
    }
  }

  /** The vehicle table. */
  class VehicleRegistry {
    var vehicles: map<int, Vehicle>

    ghost predicate Valid()
      reads this
    {
      ValidFleet(vehicles)
    }

    constructor ()
      ensures Valid() && vehicles == map[]
    {
      vehicles := map[];
    }

    /** `get_vehicle`: the row, or not-found. */
    function GetVehicle(id: int): (r: Result<Vehicle, VehicleError>)
      reads this
      ensures r.Ok? <==> id in vehicles
      ensures r.Ok? ==> r.value == vehicles[id]
      ensures r.Err? ==> r.error == NotFound
    {
      if id in vehicles then Ok(vehicles[id]) else Err(NotFound)
    }

    /** `db.add(v)` for a row whose id, VIN and plate are free. */
    method Insert(v: Vehicle)
      requires Valid() && v.id >= 1 && v.id !in vehicles && NormalPlate(v.plate)
      requires !VinInUse(vehicles, v.vin)
      requires v.plate.Some? ==> !PlateInUse(vehicles, v.plate.value)
      modifies this
      ensures Valid()
      ensures vehicles == old(vehicles)[v.id := v]
    {
      InsertKeepsValid(vehicles, v);
      vehicles := vehicles[v.id := v];
    }

    /** `create_vehicle`: the VIN is checked first, then the normalised plate
        if there is one; the row gets the next row id. */
    method CreateVehicle(p: VehicleCreate) returns (r: Result<Vehicle, VehicleError>)
      requires Valid()
      modifies this
      ensures Valid()
      ensures r == Err(DuplicateVin(p.vin)) <==> VinInUse(old(vehicles), p.vin)
      ensures r.Err? && r.error.DuplicatePlate?
          <==> !VinInUse(old(vehicles), p.vin) && NormPlate(p.plate).Some?
               && PlateInUse(old(vehicles), NormPlate(p.plate).value)
      ensures r.Err? && r.error.DuplicatePlate? ==> Some(r.error.plate) == NormPlate(p.plate)
      ensures r.Err? ==> r.error == DuplicateVin(p.vin) || r.error.DuplicatePlate?
      ensures r.Ok?
          <==> !VinInUse(old(vehicles), p.vin)
               && (NormPlate(p.plate).None? || !PlateInUse(old(vehicles), NormPlate(p.plate).value))
      ensures r.Ok? ==> r.value == NewVehicle(NextRowId(old(vehicles).Keys), p)
      ensures r.Ok? ==> r.value.id !in old(vehicles) && vehicles == old(vehicles)[r.value.id := r.value]
      ensures r.Err? ==> vehicles == old(vehicles)
    {
      if VinInUse(vehicles, p.vin) {
        return Err(DuplicateVin(p.vin));
      }
      var plate := NormPlate(p.plate);
      if plate.Some? && PlateInUse(vehicles, plate.value) {
        return Err(DuplicatePlate(plate.value));
      }
      var v := NewVehicle(NextRowId(vehicles.Keys), p);
      Insert(v);
      r := Ok(v);
    }

    /** `update_vehicle`: look the row up, check a sent VIN and a sent
        (normalised) plate against the other rows, then set each sent
        attribute in turn. */
    method UpdateVehicle(id: int, u: VehicleUpdate) returns (r: Result<Vehicle, VehicleError>)
      requires Valid()
      modifies this
      ensures Valid()
      ensures r == UpdateOutcome(old(vehicles), id, u)
      ensures r.Ok? ==> vehicles == old(vehicles)[id := r.value]
      ensures r.Err? ==> vehicles == old(vehicles)
    {
      if id !in vehicles {
        return Err(NotFound);
      }
      if u.vin.Some? && VinInUseByOther(vehicles, u.vin.value, id) {
        return Err(DuplicateVin(u.vin.value));
      }
      var data := Normalized(u);
      if u.plate.Some? {
        var plate := data.plate.value;
        if plate.Some? && PlateInUseByOther(vehicles, plate.value, id) {
          return Err(DuplicatePlate(plate.value));
        }
      }
      var v := SetAttributes(vehicles[id], data);
      UpdateKeepsValid(vehicles, id, u);
      vehicles := vehicles[id := v];
      r := Ok(v);
    }

    /** `delete_vehicle`: not-found, or exactly that row removed. */
    method DeleteVehicle(id: int) returns (r: Result<Vehicle, VehicleError>)
      requires Valid()
      modifies this
      ensures Valid()
      ensures r.Ok? <==> id in old(vehicles)
      ensures r.Ok? ==> r.value == old(vehicles)[id] && vehicles == old(vehicles) - {id}
      ensures r.Err? ==> r.error == NotFound && vehicles == old(vehicles)
    {
      if id !in vehicles {
        return Err(NotFound);
      }
      r := Ok(vehicles[id]);
      vehicles := vehicles - {id};
    }
  }
}
