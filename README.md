# AutoGo ERP inventory core in Dafny

This project models the core of the AutoGo ERP demo, a small dealership
inventory. The inventory has four tables:

- **cars**: a Flask application with HTML form routes and JSON routes, and
  the `Car` record with its JSON form.
- **vehicles**: FastAPI routes. VINs are unique, and plates are unique and
  stored normalised.
- **autos**: FastAPI routes whose bodies pass a pydantic schema first. The
  schema normalises the VIN and bounds the year and the price.
- **costos** (trámites): one cost row per item of a request. The answer
  carries the total and the new ids.

A start-up seeding routine fills an empty vehicle table with two demo
vehicles.

Each table is a class holding a `map` from row id to row, with a `Valid()`
invariant. The invariant says:

- every row is stored under its own positive id;
- the table's uniqueness constraints hold.

Every route is a method of that class. It either returns an error kind and
leaves the table exactly as it was, or it makes the one change the route
makes. New rows get SQLite's next row id: one more than the largest id in
use, or 1 for an empty table. Pure logic is written as functions and lemmas:
the `strip`/`upper`/`isdigit` text helpers, ISO dates, form validation, the
schema validators and the JSON form of a car.

Modules, in dependency order:

- `Store` (`store.dfy`): `Option`, `Result`, row-id allocation and
  `ORDER BY id DESC`.
- `Text` (`text.dfy`): `strip`, `upper`, digit strings and zero padding.
- `Dates` (`dates.dfy`): `datetime.date` and `isoformat`.
- `Python` (`python.dfy`): JSON scalars, truthiness, `int()` and `float()`.
  It also holds the `Env` parameter, which stands for the library parsers
  and the clock.
- `CarModel` (`cars.dfy`): the `Car` record and `to_dict`.
- `CarViews` (`car_views.dfy`): the Flask views.
- `Vehicles` (`vehicles.dfy`) and `Seed` (`seed.dfy`).
- `AutoSchemas` (`auto_schemas.dfy`) and `Autos` (`autos.dfy`).
- `Tramites` (`tramites.dfy`).

## Model

| member | source | states |
|---|---|---|
| Store.NextRowId | autogo_erp/views.py:105-116 | A new row's id is at least 1 and larger than every id in use. It is 1 or follows an id in use, so consecutive inserts get consecutive ids. |
| Store.DescendingIds | autogo_erp/routers/autos.py:16-17 | `ORDER BY id DESC` lists every id of the table exactly once, strictly decreasing. |
| Text.TrimIdempotent | autogo_erp/views.py:51-58 | Stripping a stripped form field changes nothing. |
| Text.BlankIffAllSpace | autogo_erp/views.py:51-58 | `strip()` gives the empty string exactly when every character is whitespace. |
| Text.UpperTrimCommute | autogo_erp/routers/vehicles.py:19-23 | `strip().upper()` equals `upper().strip()`. The plate normaliser, the VIN validator and the auto routes use both orders, and this shows they agree. |
| Text.PadOfDigitsValue | autogo_erp/views.py:66 | A string that passes `isdigit()` reads as a number below 10^len. Padding that number to the string's width gives the string back. |
| Dates.IsoRoundTrip | autogo_erp/models.py:61 | The `isoformat()` text of a valid date parses back to that date. |
| Dates.IsoCanonical | autogo_erp/models.py:61 | Any text that `CarModel.FromDict` accepts as an entry date in strict `YYYY-MM-DD` form is exactly the `isoformat()` text of the date it reads. Each date has one spelling, so the JSON form of a car is canonical. |
| CarModel.ToDict | autogo_erp/models.py:50-62 | `to_dict` has exactly the nine column keys. Each key holds its column's value, and the entry date is its ISO text or null. |
| CarModel.ColumnNamesDistinct | autogo_erp/models.py:52-62 | Distinct columns are written under distinct JSON keys. |
| CarModel.ToDictRoundTrip | autogo_erp/models.py:50-62 | Reading the JSON form of a car back gives the same car, so no column is lost. |
| CarViews.FormField | autogo_erp/views.py:51-58 | A present field reads as its value with `strip()` applied. An absent field reads as the empty string. Either way the text is stripped. |
| CarViews.BlankField | autogo_erp/views.py:51-73 | A field counts as blank for the `not …` checks exactly when it is absent or all whitespace. |
| CarViews.FailedMembers | autogo_erp/views.py:61-73 | The error filter keeps exactly the checks that fail on the form. |
| CarViews.FailedInOrder | autogo_erp/views.py:61-73 | Filtering keeps the order in which the checks run. |
| CarViews.FormValidIff | autogo_erp/views.py:61-89 | A form is accepted exactly when none of the seven checks fails. |
| CarViews.FailedReportsExactly | autogo_erp/views.py:61-83 | The error list names each failing check once, in check order, and names no other check. |
| CarViews.ValidateForm | autogo_erp/views.py:61-89 | The list the views build is the failing checks, in check order (`Failed(Checks, …)`). It is empty exactly when the form is valid. |
| CarViews.ReportUnique | autogo_erp/views.py:61-83 | Two error lists that both report a form exactly are equal, so the flashed messages are determined by the form. |
| CarViews.SameMembersInOrder | autogo_erp/views.py:61-83 | Two lists in check order with the same members are equal. |
| CarViews.StatusOrDefault | autogo_erp/views.py:57 | The stored status is never empty. It is the sent status, or "Disponible" when the field is blank. |
| CarViews.EntryDateOr | autogo_erp/views.py:76-83 | A blank entry date gives the fallback. The fallback is today on create (line 83) and the old date on edit (lines 158-159). Otherwise the parsed date is used. |
| CarViews.FormCar | autogo_erp/views.py:92-116 | The car built from a valid form has the given id and the chosen entry date. Brand, model, VIN and colour are the stripped fields. The year is `int()` of the digits and the price is `float()` of the field. The status is the sent one, or "Disponible" when blank. Brand, model, colour and status are non-empty. |
| CarViews.FormYearRoundTrip | autogo_erp/views.py:66 | The `int()` of an accepted year field reads back digit for digit. Leading zeros are the exception: `int()` drops them, and padding to the field's width restores them. |
| CarViews.OwnVinAllowed | autogo_erp/views.py:174-177 | On edit, a car's own VIN never counts as taken by another car, though the VIN is in use. |
| CarViews.InsertKeepsValid | autogo_erp/models.py:41 | Adding a row under a fresh id with an unused VIN keeps ids well keyed and VINs unique. |
| CarViews.ReplaceKeepsValid | autogo_erp/models.py:41 | Overwriting a row with a VIN that no other row holds keeps the table valid. |
| CarViews.PatchedFields | autogo_erp/views.py:251-260 | A successful JSON update sets each named column to the payload's (converted) value. Every other column and the id keep their values. |
| CarViews.PatchedWellKeyed | autogo_erp/views.py:251-260 | The JSON update keeps the id and stores only real dates. |
| CarViews.PatchedEmpty | autogo_erp/views.py:251-260 | An empty payload changes nothing. |
| CarViews.PatchedIdempotent | autogo_erp/views.py:251-260 | Applying the same payload twice has the effect of applying it once. |
| CarViews.PatchFailureSticks | autogo_erp/views.py:251-260 | Once one named column fails to convert, the whole update fails. |
| CarViews.PatchAssign | autogo_erp/views.py:251-260 | Each pass of the `setattr` loop converts and sets the named column: `int` for the year, `float` for the price, `strptime` for the entry date, the text otherwise. |
| CarViews.MissingFrom | autogo_erp/views.py:215-218 | The missing list holds exactly the required fields whose value is absent or falsy, in the order of `required_fields`. |
| CarViews.PayloadStatus | autogo_erp/views.py:227 | The status `api_create_car` stores: an absent key or a JSON null gives the column default "Disponible" (models.py:44, the ORM leaves a null column out), and any other value must be text and is kept as sent. |
| CarViews.PayloadCar | autogo_erp/views.py:220-229 | Building the car succeeds exactly when every conversion succeeds. Those are the text of brand, model, VIN and colour, `int()` of the year, `float()` of the price, the status (the column default "Disponible" when absent or null), and the entry date (the sent one, else today's ISO text). On success each column holds its converted value under the allocated id. |
| CarViews.PayloadDefaults | autogo_erp/views.py:220-229 | With `status` absent or null and no `entry_date`, the car is stored as "Disponible" and dated today. |
| CarViews.UpdateOutcomeCases | autogo_erp/views.py:247-266 | The JSON update answers not-found exactly for a missing id and a server error exactly when a conversion fails. It succeeds exactly when no other car holds the resulting VIN, and a payload without `vin` never clashes. |
| CarViews.CreateOutcomeCases | autogo_erp/views.py:61-118 | `create_car` answers, in order: an invalid form (the exact error list), a non-numeric price, a taken VIN. Each holds iff its condition holds. Otherwise the form's car goes under a fresh next row id, with the VIN, brand and status read from the form, dated today when the date is blank. |
| CarViews.EditOutcomeCases | autogo_erp/views.py:124-190 | `edit_car` answers, in order: not-found, an invalid form, a non-numeric price, a VIN held by another car. Each holds iff its condition holds. A blank date keeps the old one. A car sending back its own VIN in a valid form with a numeric price is saved. |
| CarViews.CarRegistry.Get | autogo_erp/views.py:241-243 | Returns the row when the id exists, else not-found. |
| CarViews.CarRegistry.CreateCar | autogo_erp/views.py:43-118 | Reads and strips the raw form (lines 51-58). The answer is `CreateOutcome` of that form. A success adds exactly that car under a fresh id, an error leaves the table unchanged, and the uniqueness invariant is kept. |
| CarViews.CarRegistry.SubmitNew | autogo_erp/views.py:61-116 | The checks, conversions, VIN lookup and insert on a read form give `CreateOutcome`, and only a success changes the table. |
| CarViews.CarRegistry.EditCar | autogo_erp/views.py:124-190 | Looks the car up, then reads and strips the raw form (lines 129-136). The answer is `EditOutcome` of that form. A success overwrites only that row, and an error changes nothing. |
| CarViews.CarRegistry.SubmitEdit | autogo_erp/views.py:138-190 | The checks, conversions, VIN lookup and overwrite on a read form give `EditOutcome` for an existing car, and only a success changes the table. |
| CarViews.CarRegistry.DeleteCar | autogo_erp/views.py:196-202 | Not-found, or exactly that row removed. The same operation serves `api_delete_car` (lines 270-274). |
| CarViews.CarRegistry.ApiCreateCar | autogo_erp/views.py:208-237 | Each outcome holds iff its condition holds: missing fields (the exact list), an unconvertible value, a taken VIN. Otherwise the built car is added under the next row id. |
| CarViews.CarRegistry.ApiUpdateCar | autogo_erp/views.py:247-266 | The `setattr` loop over the eight columns gives `UpdateOutcome`. Only the updated row changes, and nothing changes on an error. |
| Vehicles.NormPlate | autogo_erp/routers/vehicles.py:19-23 | A normalised plate is `plate.strip().upper()`, which is in stored form. The result is None exactly when no plate was sent or the plate is blank after stripping. |
| Vehicles.NormPlateFixes | autogo_erp/routers/vehicles.py:19-23 | A stored plate normalises to itself. |
| Vehicles.NormPlateIdempotent | autogo_erp/routers/vehicles.py:19-23 | Normalising twice is normalising once. |
| Vehicles.InsertKeepsValid | autogo_erp/routers/vehicles.py:40-69 | Adding a row with a fresh id, a free VIN and a free normalised plate keeps VINs and plates unique. |
| Vehicles.ReplaceKeepsValid | autogo_erp/routers/vehicles.py:73-106 | Overwriting a row with a VIN and a plate that no other row holds keeps the table valid. |
| Vehicles.NewVehicle | autogo_erp/routers/vehicles.py:53-65 | The created row has the allocated id and the normalised plate. Every other column holds the payload's value, and the status is unset. |
| Vehicles.SetField | autogo_erp/routers/vehicles.py:101-102 | `setattr` makes the attribute read the new value and leaves the id and every other attribute as they were. |
| Vehicles.FieldsDetermine | autogo_erp/routers/vehicles.py:101-102 | Two rows with the same id that agree on every attribute are equal. |
| Vehicles.Normalized | autogo_erp/routers/vehicles.py:90-99 | A sent plate is replaced by its normalised form and nothing else in the payload changes. |
| Vehicles.UpdatedUpToFields | autogo_erp/routers/vehicles.py:101-102 | After the loop's first k passes, each attribute among those k that was sent holds the sent value. Every other attribute holds its old value. |
| Vehicles.UpdatedFields | autogo_erp/routers/vehicles.py:78-102 | A partial update sets exactly the sent attributes (the `exclude_unset` fields) to the sent values. |
| Vehicles.UpdatedNothing | autogo_erp/routers/vehicles.py:78-102 | An empty PATCH changes nothing. |
| Vehicles.UpdatedKeys | autogo_erp/routers/vehicles.py:78-102 | The stored VIN and plate are the sent ones, with the plate normalised, else the old ones. |
| Vehicles.UpdateKeepsValid | autogo_erp/routers/vehicles.py:73-106 | A successful update keeps VINs and plates unique. |
| Vehicles.OwnKeysAllowed | autogo_erp/routers/vehicles.py:81-99 | Sending back a row's own VIN and plate never clashes. |
| Vehicles.SetAttributes | autogo_erp/routers/vehicles.py:101-102 | The `setattr` loop yields `Updated`, the row with exactly the sent attributes replaced. |
| Vehicles.VehicleRegistry.GetVehicle | autogo_erp/routers/vehicles.py:32-36 | Returns the row when the id exists, else not-found. |
| Vehicles.VehicleRegistry.Insert | autogo_erp/routers/vehicles.py:66-67 | `db.add` plus `commit` of a row whose id, VIN and normalised plate are free: the table gains exactly that row under its id and stays valid. The seeding routine commits its rows the same way (seed.py:38-39). |
| Vehicles.VehicleRegistry.CreateVehicle | autogo_erp/routers/vehicles.py:40-69 | The VIN is checked first: a duplicate VIN is refused iff the VIN is taken. A duplicate plate is refused iff the VIN is free and the normalised plate is taken. The call succeeds iff neither is taken, and no other error occurs. A success adds `NewVehicle` under the next row id. |
| Vehicles.VehicleRegistry.UpdateVehicle | autogo_erp/routers/vehicles.py:73-106 | The answer is `UpdateOutcome`, in order: not-found, a sent VIN held by another row, a sent normalised plate held by another row, the updated row. Only that row changes. |
| Vehicles.VehicleRegistry.DeleteVehicle | autogo_erp/routers/vehicles.py:110-116 | Not-found, or exactly that row removed. |
| Seed.DemoCorolla | autogo_erp/seed.py:12-23 | The first demo vehicle has the allocated id, VIN DEMO1234567890001 and no plate. |
| Seed.DemoElantra | autogo_erp/seed.py:24-35 | The second demo vehicle has the allocated id, VIN DEMO1234567890002 and no plate. |
| Seed.SeededContents | autogo_erp/seed.py:3-39 | A non-empty table is left as it is. An empty one receives exactly the two demo rows under ids 1 and 2, with distinct VINs. |
| Seed.SeededValid | autogo_erp/seed.py:3-39 | Seeding keeps VINs and plates unique. |
| Seed.SeedIdempotent | autogo_erp/seed.py:3-39 | Seeding twice gives the table that seeding once gives. |
| Seed.LoadDemoIfEmpty | autogo_erp/seed.py:3-39 | The method leaves the table as `Seeded` describes it, and valid. |
| AutoSchemas.ValidarVin | autogo_erp/schemas.py:11-16 | A VIN is accepted iff its stripped length is 11..17. The result is the stripped, upper-cased VIN, and a refusal is the VIN error. |
| AutoSchemas.ValidarVinFixes | autogo_erp/schemas.py:11-16 | A normalised VIN is accepted unchanged. |
| AutoSchemas.ValidarVinIdempotent | autogo_erp/schemas.py:11-16 | Validating an accepted VIN again gives it back. |
| AutoSchemas.ValidarAnio | autogo_erp/schemas.py:18-22 | A year is accepted, unchanged, iff it lies in 1980..2026. |
| AutoSchemas.Validate | autogo_erp/schemas.py:3-25 | A body is accepted iff the VIN, year and price (> 0) checks all pass. On refusal, each failing field is reported and no passing one. An accepted body conforms and keeps its other fields as sent. |
| AutoSchemas.ValidateFixes | autogo_erp/schemas.py:27-30 | A conforming auto passes validation unchanged, so `AutoOut` accepts every stored row. |
| AutoSchemas.ValidateIdempotent | autogo_erp/schemas.py:3-25 | Validation is idempotent. |
| Autos.StoredAutoKeys | autogo_erp/routers/autos.py:24-31 | The stored row holds the validated VIN, year and price. |
| Autos.StoredAutoTrimmed | autogo_erp/routers/autos.py:24-31 | Brand, model and colour are stored stripped. |
| Autos.StoredConforms | autogo_erp/routers/autos.py:24-31 | A stored row passes the response schema. |
| Autos.LookupVinIsStoredVin | autogo_erp/routers/autos.py:21-25 | The duplicate lookup uses `vin.upper()` and the row stores `vin.upper().strip()`. After validation these agree, so the lookup is a check on the stored VIN. |
| Autos.InsertKeepsValid | autogo_erp/routers/autos.py:20-35 | Adding a conforming row with a fresh id and an unused VIN keeps the table valid. |
| Autos.ReplaceKeepsValid | autogo_erp/routers/autos.py:45-67 | Overwriting a row with a conforming value whose VIN no other row holds keeps the table valid. |
| Autos.NewestFirst | autogo_erp/routers/autos.py:16-17 | The listing holds every row exactly once, with ids strictly decreasing. |
| Autos.AutoRegistry.ListarAutos | autogo_erp/routers/autos.py:16-17 | Every stored auto appears exactly once, newest first. |
| Autos.AutoRegistry.ObtenerAuto | autogo_erp/routers/autos.py:38-42 | Returns the row when the id exists, else not-found. |
| Autos.AutoRegistry.CrearAuto | autogo_erp/routers/autos.py:20-35 | The result is 422 iff validation fails, with the schema's errors. It is a duplicate iff the normalised VIN is taken. It succeeds iff the body validates and its VIN is free, and then the normalised row is added under the next row id. |
| Autos.AutoRegistry.EditarAuto | autogo_erp/routers/autos.py:45-67 | In order: 422 (before any lookup), not-found, a VIN held by another row. Each holds iff its condition holds. Success holds iff none does, and then all six fields are overwritten with normalised values and only that row changes. |
| Autos.AutoRegistry.EliminarAuto | autogo_erp/routers/autos.py:70-76 | Not-found, or exactly that row removed. |
| Tramites.SumMontosAppend | autogo_erp/routers/tramites.py:45-56 | The running total is additive over any split of the items. |
| Tramites.SumMontosBounds | autogo_erp/routers/tramites.py:45-56 | With no negative amount, the total is non-negative and at least every single amount. |
| Tramites.ItemRow | autogo_erp/routers/tramites.py:48-53 | Each item's row has kind "tramite", the item's description and amount, the request's reference, and no vehicle. |
| Tramites.TramitesIn | autogo_erp/routers/tramites.py:40-41 | The listing holds exactly the rows of kind "tramite". |
| Tramites.NewRowsItemised | autogo_erp/routers/tramites.py:47-57 | Item k lands under the fresh id base + k as that item's row. |
| Tramites.ListedAfterCrear | autogo_erp/routers/tramites.py:40-57 | After a create, the listing is the old listing plus exactly the new rows. |
| Tramites.NewRowsKeyed | autogo_erp/routers/tramites.py:47-57 | Adding the rows keeps every row under its own positive id. |
| Tramites.AddRow | autogo_erp/routers/tramites.py:48-54 | One pass of the loop adds item i's row under the next row id, base + i. |
| Tramites.CostTable.ListarTramites | autogo_erp/routers/tramites.py:39-41 | Returns every row of kind "tramite" and no other. |
| Tramites.CostTable.ObtenerTramite | autogo_erp/routers/tramites.py:67-72 | Returns the row iff it exists and is of kind "tramite", else not-found (404). |
| Tramites.CostTable.CrearTramite | autogo_erp/routers/tramites.py:43-65 | One row per item is added under consecutive fresh ids, in item order, with the shared reference. The total is the sum of the amounts and the new ids are returned in order. An empty request changes nothing and totals 0. |

## Left out

- HTTP and the frameworks are not modelled: Flask, FastAPI, SQLAlchemy sessions, `flash`, `render_template`, redirects and status codes. Each route's outcome is a `Result` whose error kind names the response.
- `float()` on text and `datetime.strptime(…, '%Y-%m-%d')` are not modelled; they are parameters in `Python.Env`. The same goes for the clock: `date.today()` is `Env.today`. `WellFormedEnv` states what is assumed of them.
- Floating point is not modelled. Prices, amounts, odometer readings and the trámite total are mathematical reals, so rounding in `total += item.monto` is not captured.
- `str.upper()` and `str.isdigit()` are modelled on ASCII letters and digits only. `str.strip()` uses the whitespace set of `Text.IsSpace`.
- JSON arrays and objects are not modelled as field values.
- CarViews.PayloadCar: a non-null, non-string JSON value (a number or a boolean) for a text column of `cars` is treated as a value that cannot be stored (`ToText`), but SQLite would in fact store it. A null `status` is modelled: the ORM leaves the column out, so it takes its default "Disponible" (`PayloadStatus`). A null in any other text column is refused, like the `NOT NULL` failure it causes.
- Vehicles.VehicleRegistry.CreateVehicle: a year beyond SQLite's 64-bit `INTEGER` range passes the unbounded `int` of the schema but fails at commit with a server error. The model stores it, since its integers are unbounded. The same holds for `UpdateVehicle`.
- A row id beyond SQLite's 64-bit range in a lookup (`get`, edit or delete on any of the four tables) raises a server error when bound, where the model answers not-found.
- Python.ParseInt: `int()` also accepts underscores between digits ("2_020") and non-ASCII decimal digits. The model reads only ASCII digits, so such a JSON `year` counts as unconvertible.
- CarViews.CarRegistry.CreateCar: a year beyond SQLite's 64-bit `INTEGER` range passes `isdigit()` and `int()` but fails at commit with a server error. The model stores it, since its integers are unbounded. The same holds for `EditCar`, `ApiCreateCar` and `ApiUpdateCar`.
- CarViews.CarRegistry.ApiUpdateCar: the source's `setattr` of a duplicate VIN is autoflushed by the VIN query, which raises an IntegrityError. The model reports a duplicate VIN with the table unchanged instead of that server error.
- Concurrency is not modelled: two requests racing past the same uniqueness check are out of scope. Operations run one at a time.
- Length limits of columns and schemas (`String(50)`, `max_length=150`) are not modelled.
- Vehicles.VehicleRegistry.UpdateVehicle: an explicit null sent for a non-nullable vehicle column cannot be expressed in `VehicleUpdate`, so the database error it would raise is not modelled.
- The members of `VehicleStatus` and the status column's default are not part of this model; a created vehicle has status `None`.
- `list_vehicles` returns rows in no stated order and is not modelled as a separate operation (`GetVehicle` covers each row). `listar_tramites` likewise has no order; it is modelled as the id-keyed map of the matching rows.
- `list_cars` and the HTML pages are not modelled. `api_get_car` is `CarRegistry.Get` with `to_dict` applied (`CarModel.ToDict`).
- Vehicle schema validation (`VehicleCreate`/`VehicleUpdate` field constraints) is not modelled; bodies are taken as already parsed. The `AutoBase` validation happens before any route lookup, as FastAPI runs it.
- The `db.refresh` calls and the `"ok": true` field of the `crear_tramite` answer are not modelled (the `Receipt` datatype carries the rest).
- The `Car.__repr__` text is not modelled.
