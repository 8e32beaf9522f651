/** `cargar_demo_si_vacio`: two demo vehicles, added only to an empty table. */
module Seed {
  import opened Store
  import opened Dates
  import opened Vehicles

  const DemoVin1: string := "DEMO1234567890001"
  const DemoVin2: string := "DEMO1234567890002"

  /** The first demo vehicle, under the id the table gives it. */
  function DemoCorolla(id: int): (v: Vehicle)
    ensures v.id == id && v.vin == DemoVin1 && v.plate.None?
  {
    Vehicle(id, DemoVin1, None, "Toyota", "Corolla", 2018, 65432.0, DirectSale,
            "Demo Seller 1", Some("+50760000001"), Some("CED-8-111-111"),
            Some(Date(2025, 8, 1)), None)
  }

  /** The second demo vehicle, under the id the table gives it. */
  function DemoElantra(id: int): (v: Vehicle)
    ensures v.id == id && v.vin == DemoVin2 && v.plate.None?
  {
    Vehicle(id, DemoVin2, None, "Hyundai", "Elantra", 2019, 40210.0, TradeIn,
            "Demo Seller 2", Some("+50760000002"), Some("CED-8-222-222"),
            Some(Date(2025, 8, 5)), None)
  }

  /** The table after seeding: unchanged when it has any row, else the two
      demo vehicles under the ids SQLite hands out in turn. */
  function Seeded(m: map<int, Vehicle>): map<int, Vehicle>
  {
    if |m| > 0 then m
    else
      var first := DemoCorolla(NextRowId({}));
      var second := DemoElantra(NextRowId({first.id}));
      map[first.id := first, second.id := second]
  }

  /** On an empty table seeding adds exactly two rows, ids 1 and 2, with
      distinct VINs; a table with rows is left as it is. */
  lemma SeededContents(m: map<int, Vehicle>)
    ensures |m| > 0 ==> Seeded(m) == m
    ensures |m| == 0 ==> Seeded(m) == map[1 := DemoCorolla(1), 2 := DemoElantra(2)]
    ensures |m| == 0 ==> |Seeded(m)| == 2 && Seeded(m)[1].vin != Seeded(m)[2].vin
  {
    if |m| == 0 {
      assert IsMax(1, {1});
      assert NextRowId({1}) == 2;
      assert DemoVin1[16] != DemoVin2[16];
      assert map[1 := DemoCorolla(1), 2 := DemoElantra(2)].Keys == {1, 2};
    }
  }

  /** Seeding keeps the table free of shared VINs and plates. */
  lemma SeededValid(m: map<int, Vehicle>)
    requires ValidFleet(m)
    ensures ValidFleet(Seeded(m))
  {
    SeededContents(m);
    if |m| == 0 {
      var one: map<int, Vehicle> := map[1 := DemoCorolla(1)];
      InsertKeepsValid(map[], DemoCorolla(1));
      assert !VinInUse(one, DemoVin2) by {
        assert DemoVin1[16] != DemoVin2[16];
      }
      InsertKeepsValid(one, DemoElantra(2));
      assert one[2 := DemoElantra(2)] == Seeded(m);
    }
  }

  /** Seeding twice gives the table seeding once gives. */
  lemma SeedIdempotent(m: map<int, Vehicle>)
    ensures Seeded(Seeded(m)) == Seeded(m)
  {
    SeededContents(m);
    SeededContents(Seeded(m));
  }

  /** `cargar_demo_si_vacio`: return when the table has a row, else add the two demo vehicles. */
  method LoadDemoIfEmpty(reg: VehicleRegistry)
    requires reg.Valid()
    modifies reg
    ensures reg.Valid()
    ensures reg.vehicles == Seeded(old(reg.vehicles))
  {
    if |reg.vehicles| > 0 {
      return;
    }
    var first := DemoCorolla(NextRowId(reg.vehicles.Keys));
    reg.Insert(first);
    assert reg.vehicles.Keys == {first.id};
    var second := DemoElantra(NextRowId(reg.vehicles.Keys));
    assert !VinInUse(reg.vehicles, second.vin) by {
      assert DemoVin1[16] != DemoVin2[16];
    }
    reg.Insert(second);
  }
}
