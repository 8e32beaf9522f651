/** The car inventory behind the Flask views: the HTML form routes
    (`create_car`, `edit_car`, `delete_car`) and the JSON routes
    (`api_create_car`, `api_update_car`, `api_delete_car`), as operations on
    the `cars` table that either fail with an error kind and leave the table
    as it was, or make one change. */
module CarViews {
  import opened Store
  import opened Text
  import opened Dates
  import opened Python
  import opened CarModel

  // ---------------------------------------------------------------------------
  // The HTML form

  /** `request.form.get(key, '').strip()` */
  function FormField(form: map<string, string>, key: string): (r: string)
    ensures Trimmed(r)
    ensures key !in form ==> r == ""
    ensures key in form ==> r == Trim(form[key])
  {
    var r := Trim(if key in form then form[key] else "");
    assert Trimmed(r);
    r
  }

  /** A field reads as blank, and so fails a required check, exactly when it
      is absent or nothing but whitespace. */
  lemma BlankField(form: map<string, string>, key: string)
    ensures FormField(form, key) == "" <==> key !in form || forall i :: 0 <= i < |form[key]| ==> IsSpace(form[key][i])
  {
    if key in form {
      BlankIffAllSpace(form[key]);
    }
  }

  /** The form fields as the views read them, each stripped. */
  datatype CarForm = CarForm(
    brand: string, model: string, year: string, vin: string,
    color: string, price: string, status: string, entryDate: string)

  function ReadForm(form: map<string, string>): CarForm
  {
    CarForm(FormField(form, "brand"), FormField(form, "model"), FormField(form, "year"),
            FormField(form, "vin"), FormField(form, "color"), FormField(form, "price"),
            FormField(form, "status"), FormField(form, "entry_date"))
  }

  /** The checks of the form, in the order the views run them. */
  datatype FormError =
    | BrandRequired | ModelRequired | YearNotNumeric | VinRequired
    | ColorRequired | PriceRequired | BadEntryDate

  /** Where each check stands in the order the views run them. */
  function Rank(e: FormError): nat
  {
    match e
    case BrandRequired => 0
    case ModelRequired => 1
    case YearNotNumeric => 2
    case VinRequired => 3
    case ColorRequired => 4
    case PriceRequired => 5
    case BadEntryDate => 6
  }

  /** Whether check `e` fails on form `f`. */
  predicate Fails(f: CarForm, env: Env, e: FormError)
  {
    match e
    case BrandRequired => f.brand == ""
    case ModelRequired => f.model == ""
    case YearNotNumeric => !IsDigits(f.year)
    case VinRequired => f.vin == ""
    case ColorRequired => f.color == ""
    case PriceRequired => f.price == ""
    case BadEntryDate => f.entryDate != "" && env.parseDate(f.entryDate).None?
  }

  /** A form no check objects to. */
  predicate FormValid(f: CarForm, env: Env)
  {
    && f.brand != "" && f.model != "" && IsDigits(f.year) && f.vin != ""
    && f.color != "" && f.price != ""
    && (f.entryDate == "" || env.parseDate(f.entryDate).Some?)
  }

  /** `errors` names exactly the failed checks, each once, in the views' order. */
  predicate ReportsExactly(errors: seq<FormError>, f: CarForm, env: Env)
  {
    && (forall e :: e in errors <==> Fails(f, env, e))
    && InCheckOrder(errors)
  }

  /** Each entry comes from a check run after the one before it. */
  predicate InCheckOrder(errors: seq<FormError>)
  {
    forall i, j :: 0 <= i < j < |errors| ==> Rank(errors[i]) < Rank(errors[j])
  }

  /** The checks in the order the views run them. */
  const Checks: seq<FormError> :=
    [BrandRequired, ModelRequired, YearNotNumeric, VinRequired, ColorRequired, PriceRequired, BadEntryDate]

  /** The checks of `checks` that fail, in the order given. */
  function Failed(checks: seq<FormError>, f: CarForm, env: Env): seq<FormError>
  {
    if checks == [] then []
    else
      var last := checks[|checks| - 1];
      Failed(checks[..|checks| - 1], f, env) + (if Fails(f, env, last) then [last] else [])
  }

  /** The filter keeps exactly the failing checks. */
  lemma {:induction false} FailedMembers(checks: seq<FormError>, f: CarForm, env: Env)
    ensures forall e :: e in Failed(checks, f, env) <==> e in checks && Fails(f, env, e)
  {
    if checks != [] {
      var init, last := checks[..|checks| - 1], checks[|checks| - 1];
      FailedMembers(init, f, env);
      assert checks == init + [last];
    }
  }

  /** Filtering keeps the order of the checks. */
  lemma {:induction false} FailedInOrder(checks: seq<FormError>, f: CarForm, env: Env)
    requires InCheckOrder(checks)
    ensures InCheckOrder(Failed(checks, f, env))
  {
    if checks != [] {
      var init, last := checks[..|checks| - 1], checks[|checks| - 1];
      FailedInOrder(init, f, env);
      var r := Failed(init, f, env);
      FailedMembers(init, f, env);
      forall i | 0 <= i < |r|
        ensures Rank(r[i]) < Rank(last)
      {
        assert r[i] in init;
        var k :| 0 <= k < |init| && init[k] == r[i];
      }
    }
  }

  /** A form passes exactly when no check fails on it. */
  lemma FormValidIff(f: CarForm, env: Env)
    ensures FormValid(f, env) <==> forall e :: !Fails(f, env, e)
  {
    if !FormValid(f, env) {
      assert Fails(f, env, BrandRequired) || Fails(f, env, ModelRequired) || Fails(f, env, YearNotNumeric)
          || Fails(f, env, VinRequired) || Fails(f, env, ColorRequired) || Fails(f, env, PriceRequired)
          || Fails(f, env, BadEntryDate);
    }
  }

  /** Filtering all the checks reports exactly the failing ones, in order. */
  lemma FailedReportsExactly(f: CarForm, env: Env)
    ensures ReportsExactly(Failed(Checks, f, env), f, env)
  {
    forall e ensures e in Checks {
      assert Checks[Rank(e)] == e;
    }
    FailedMembers(Checks, f, env);
    FailedInOrder(Checks, f, env);
  }

  /** The error list of the views: each check, in order, appends its entry when it fails. */
  method ValidateForm(f: CarForm, env: Env) returns (errors: seq<FormError>)
    ensures errors == Failed(Checks, f, env)
    ensures ReportsExactly(errors, f, env)
    ensures errors == [] <==> FormValid(f, env)
  {
    errors := [];
    for i := 0 to |Checks|
      invariant errors == Failed(Checks[..i], f, env)
    {
      assert Checks[..i + 1][..i] == Checks[..i];
      if Fails(f, env, Checks[i]) {
        errors := errors + [Checks[i]];
      }
    }
    assert Checks[..|Checks|] == Checks;
    FailedReportsExactly(f, env);
    FormValidIff(f, env);
    if errors != [] {
      assert errors[0] in errors;
    }
  }

  /** The error list is determined by the form: the order of the checks is fixed. */
  lemma ReportUnique(a: seq<FormError>, b: seq<FormError>, f: CarForm, env: Env)
    requires ReportsExactly(a, f, env) && ReportsExactly(b, f, env)
    ensures a == b
  {
    SameMembersInOrder(a, b);
  }

  lemma RankInjective(x: FormError, y: FormError)
    requires Rank(x) == Rank(y)
    ensures x == y
  {
  }

  lemma HeadFirst(a: seq<FormError>, e: FormError)
    requires InCheckOrder(a) && e in a
    ensures Rank(a[0]) <= Rank(e)
    ensures e != a[0] ==> e in a[1..]
  {
    var k :| 0 <= k < |a| && a[k] == e;
    if k > 0 {
      assert a[1..][k - 1] == e;
    }
  }

  /** Two lists in check order with the same members are the same list. */
  lemma {:induction false} SameMembersInOrder(a: seq<FormError>, b: seq<FormError>)
    requires forall e :: e in a <==> e in b
    requires InCheckOrder(a) && InCheckOrder(b)
    ensures a == b
    decreases |a|
  {
    if b != [] {
      assert b[0] in a;
    }
    if a != [] {
      assert a[0] in b;
      HeadFirst(a, b[0]);
      HeadFirst(b, a[0]);
      RankInjective(a[0], b[0]);
      forall e ensures e in a[1..] <==> e in b[1..] {
        if e in a[1..] {
          assert Rank(a[0]) < Rank(e);
          HeadFirst(b, e);
        }
        if e in b[1..] {
          assert Rank(b[0]) < Rank(e);
          HeadFirst(a, e);
        }
      }
      SameMembersInOrder(a[1..], b[1..]);
    }
  }

  // ---------------------------------------------------------------------------
  // Building a car from the form

  /** `request.form.get('status', '').strip() or 'Disponible'` */
  function StatusOrDefault(s: string): (r: string)
    ensures r != ""
    ensures s != "" ==> r == s
    ensures s == "" ==> r == DefaultStatus
  {
    if s == "" then DefaultStatus else s
  }

  /** The entry date a valid form gives: the parsed text, or `blank` when the field is empty. */
  function EntryDateOr(f: CarForm, env: Env, blank: Option<Date>): (r: Option<Date>)
    requires FormValid(f, env)
    ensures f.entryDate == "" ==> r == blank
    ensures f.entryDate != "" ==> r == env.parseDate(f.entryDate)
  {
    if f.entryDate == "" then blank else Some(env.parseDate(f.entryDate).value)
  }

  /** The car a valid form describes, with `int(year)` and `float(price)` applied. */
  function FormCar(id: int, f: CarForm, env: Env, entry: Option<Date>): (c: Car)
    requires FormValid(f, env) && env.parseFloat(f.price).Some?
    ensures c.id == id && c.vin == f.vin && c.entryDate == entry
    ensures c.brand == f.brand && c.model == f.model && c.color == f.color
    ensures c.year == DigitsValue(f.year) && c.price == env.parseFloat(f.price).value
    ensures c.status == StatusOrDefault(f.status)
    ensures c.brand != "" && c.model != "" && c.color != "" && c.status != ""
  {
    Car(id, f.brand, f.model, DigitsValue(f.year), f.vin, f.color,
        env.parseFloat(f.price).value, StatusOrDefault(f.status), entry)
  }

  /** The year field of a valid form reads back as the stored year, digit for digit. */
  lemma FormYearRoundTrip(f: CarForm, env: Env)
    requires FormValid(f, env)
    ensures PadDigits(DigitsValue(f.year), |f.year|) == f.year
  {
    PadOfDigitsValue(f.year);
  }

  // ---------------------------------------------------------------------------
  // The table

  /** What went wrong, one kind per response the views give instead of a change. */
  datatype CarError =
    | Invalid(errors: seq<FormError>)
    | NotNumeric
    | DuplicateVin
    | NotFound
    | MissingFields(names: seq<string>)
    | BadValue
    | ServerError

  /** `Car.query.filter_by(vin=vin).first()` finds a row. */
  predicate VinInUse(m: map<int, Car>, vin: string)
  {
    exists id :: id in m && m[id].vin == vin
  }

  /** The row found by VIN is some car other than `self`. */
  predicate VinInUseByOther(m: map<int, Car>, vin: string, self: int)
  {
    exists id :: id in m && id != self && m[id].vin == vin
  }

  /** The `unique=True` constraint on `vin`. */
  predicate VinsUnique(m: map<int, Car>)
  {
    forall a, b :: a in m && b in m && a != b ==> m[a].vin != m[b].vin
  }

  /** Rows are stored under their own positive ids and hold real dates. */
  predicate WellKeyed(m: map<int, Car>)
  {
    forall id :: id in m ==> id >= 1 && m[id].id == id && DatesValid(m[id])
  }

  predicate ValidTable(m: map<int, Car>)
  {
    WellKeyed(m) && VinsUnique(m)
  }

  /** A car keeps its own VIN without clashing: only other rows count. */
  lemma OwnVinAllowed(m: map<int, Car>, id: int)
    requires ValidTable(m) && id in m
    ensures !VinInUseByOther(m, m[id].vin, id)
    ensures VinInUse(m, m[id].vin)
  {
  }

  /** Adding a row under a fresh id with an unused VIN keeps the table valid. */
  lemma InsertKeepsValid(m: map<int, Car>, c: Car)
    requires ValidTable(m) && c.id >= 1 && c.id !in m && DatesValid(c)
    requires !VinInUse(m, c.vin)
    ensures ValidTable(m[c.id := c])
  {
    var m' := m[c.id := c];
    forall a, b | a in m' && b in m' && a != b
      ensures m'[a].vin != m'[b].vin
    {
      if a == c.id {
        assert m[b].vin == m'[b].vin;
      } else if b == c.id {
        assert m[a].vin == m'[a].vin;
      }
    }
  }

  /** Overwriting a row with a VIN no other row holds keeps the table valid. */
  lemma ReplaceKeepsValid(m: map<int, Car>, c: Car)
    requires ValidTable(m) && c.id in m && DatesValid(c)
    requires !VinInUseByOther(m, c.vin, c.id)
    ensures ValidTable(m[c.id := c])
  {
    var m' := m[c.id := c];
    forall a, b | a in m' && b in m' && a != b
      ensures m'[a].vin != m'[b].vin
    {
      if a == c.id {
        assert m[b].vin == m'[b].vin;
      } else if b == c.id {
        assert m[a].vin == m'[a].vin;
      }
    }
  }

  /** The columns `api_update_car` may set, in the order it sets them. */
  const Updatable: seq<Column> := [Brand, Model, Year, Vin, Color, Price, Status, EntryDate]

  /** Where a column stands in `Updatable`. */
  function Position(col: Column): (k: nat)
    ensures col != Id ==> k < |Updatable| && Updatable[k] == col
  {
    match col
    case Id => |Updatable|
    case Brand => 0
    case Model => 1
    case Year => 2
    case Vin => 3
    case Color => 4
    case Price => 5
    case Status => 6
    case EntryDate => 7
  }

  /** The loop has reached column `col` and the payload names it. */
  predicate Touched(data: map<string, JsonValue>, k: nat, col: Column)
  {
    Position(col) < k && ColumnName(col) in data
  }

  /** The new value of a text column, or `None` where the payload's value cannot be stored. */
  function TextPatch(data: map<string, JsonValue>, k: nat, col: Column, current: string): Option<string>
  {
    if Touched(data, k, col) then ToText(data[ColumnName(col)]) else Some(current)
  }

  /** The car after the first `k` updatable columns of the payload are applied;
      `None` when one of them cannot be converted. Column by column, a column
      the payload does not name keeps its value. */
  function PatchedUpTo(c: Car, data: map<string, JsonValue>, env: Env, k: nat): Option<Car>
  {
    var brand := TextPatch(data, k, Brand, c.brand);
    var model := TextPatch(data, k, Model, c.model);
    var year := if Touched(data, k, Year) then ToInt(data["year"]) else Some(c.year);
    var vin := TextPatch(data, k, Vin, c.vin);
    var color := TextPatch(data, k, Color, c.color);
    var price := if Touched(data, k, Price) then ToFloat(env, data["price"]) else Some(c.price);
    var status := TextPatch(data, k, Status, c.status);
    var entry: Option<Option<Date>> :=
      if !Touched(data, k, EntryDate) then Some(c.entryDate)
      else if ToDate(env, data["entry_date"]).Some? then Some(ToDate(env, data["entry_date"]))
      else None;
    if brand.Some? && model.Some? && year.Some? && vin.Some? && color.Some? && price.Some?
       && status.Some? && entry.Some?
    then Some(Car(c.id, brand.value, model.value, year.value, vin.value, color.value,
                  price.value, status.value, entry.value))
    else None
  }

  /** The whole payload applied. */
  function Patched(c: Car, data: map<string, JsonValue>, env: Env): Option<Car>
  {
    PatchedUpTo(c, data, env, |Updatable|)
  }

  /** A partial update changes exactly the named columns: each named column
      takes the payload's value, every other column and the id keep theirs. */
  lemma PatchedFields(c: Car, data: map<string, JsonValue>, env: Env)
    requires Patched(c, data, env).Some?
    ensures var p := Patched(c, data, env).value;
      && p.id == c.id
      && (if "brand" in data then JStr(p.brand) == data["brand"] else p.brand == c.brand)
      && (if "model" in data then JStr(p.model) == data["model"] else p.model == c.model)
      && (if "year" in data then ToInt(data["year"]) == Some(p.year) else p.year == c.year)
      && (if "vin" in data then JStr(p.vin) == data["vin"] else p.vin == c.vin)
      && (if "color" in data then JStr(p.color) == data["color"] else p.color == c.color)
      && (if "price" in data then ToFloat(env, data["price"]) == Some(p.price) else p.price == c.price)
      && (if "status" in data then JStr(p.status) == data["status"] else p.status == c.status)
      && (if "entry_date" in data then ToDate(env, data["entry_date"]) == p.entryDate
          else p.entryDate == c.entryDate)
  {
  }

  /** The update keeps the id, and stores only real dates. */
  lemma PatchedWellKeyed(c: Car, data: map<string, JsonValue>, env: Env)
    requires WellFormedEnv(env) && DatesValid(c) && Patched(c, data, env).Some?
    ensures Patched(c, data, env).value.id == c.id
    ensures DatesValid(Patched(c, data, env).value)
  {
    var p := Patched(c, data, env).value;
    if "entry_date" in data && p.entryDate.Some? {
      assert env.parseDate(data["entry_date"].s).Some?;
    }
  }

  /** An empty payload changes nothing. */
  lemma PatchedEmpty(c: Car, env: Env)
    ensures Patched(c, map[], env) == Some(c)
  {
  }

  /** Sending the same payload twice has the effect of sending it once. */
  lemma PatchedIdempotent(c: Car, data: map<string, JsonValue>, env: Env)
    requires Patched(c, data, env).Some?
    ensures Patched(Patched(c, data, env).value, data, env) == Patched(c, data, env)
  {
  }

  /** A column that failed to convert makes the whole update fail. */
  lemma PatchFailureSticks(c: Car, data: map<string, JsonValue>, env: Env, k: nat)
    requires k <= |Updatable| && PatchedUpTo(c, data, env, k).None?
    ensures Patched(c, data, env).None?
  {
  }

  /** `setattr(car, name, value)` for a text column. */
  function SetText(c: Car, col: Column, s: string): (r: Car)
    ensures col == Brand ==> r == c.(brand := s)
    ensures col == Model ==> r == c.(model := s)
    ensures col == Vin ==> r == c.(vin := s)
    ensures col == Color ==> r == c.(color := s)
    ensures col == Status ==> r == c.(status := s)
  {
    match col
    case Brand => c.(brand := s)
    case Model => c.(model := s)
    case Vin => c.(vin := s)
    case Color => c.(color := s)
    case Status => c.(status := s)
    case _ => c
  }

  /** `setattr(car, field, value)` with the conversion `api_update_car` applies
      to that field: `int` for the year, `float` for the price, `strptime` for
      the entry date, the value itself otherwise; `None` where it raises. */
  function Assign(car: Car, col: Column, v: JsonValue, env: Env): Option<Car>
  {
    if col == Year then
      var n := ToInt(v);
      if n.Some? then Some(car.(year := n.value)) else None
    else if col == Price then
      var x := ToFloat(env, v);
      if x.Some? then Some(car.(price := x.value)) else None
    else if col == EntryDate then
      var d := ToDate(env, v);
      if d.Some? then Some(car.(entryDate := d)) else None
    else
      var t := ToText(v);
      if t.Some? then Some(SetText(car, col, t.value)) else None
  }

  /** Each updatable column sits at its own position. */
  lemma PositionOf(k: nat)
    requires k < |Updatable|
    ensures Position(Updatable[k]) == k
  {
  }

  /** A column the payload does not name is left alone by the loop. */
  lemma PatchSkip(c: Car, data: map<string, JsonValue>, env: Env, k: nat, car: Car)
    requires k < |Updatable| && PatchedUpTo(c, data, env, k) == Some(car)
    requires ColumnName(Updatable[k]) !in data
    ensures PatchedUpTo(c, data, env, k + 1) == Some(car)
  {
    PositionOf(k);
  }

  /** A named text column takes the payload's string. */
  lemma PatchText(c: Car, data: map<string, JsonValue>, env: Env, col: Column, car: Car)
    requires col in {Brand, Model, Vin, Color, Status}
    requires PatchedUpTo(c, data, env, Position(col)) == Some(car) && ColumnName(col) in data
    ensures var t := ToText(data[ColumnName(col)]);
      PatchedUpTo(c, data, env, Position(col) + 1) == if t.Some? then Some(SetText(car, col, t.value)) else None
  {
  }

  /** A named `year` takes `int(value)`. */
  lemma PatchYear(c: Car, data: map<string, JsonValue>, env: Env, car: Car)
    requires PatchedUpTo(c, data, env, Position(Year)) == Some(car) && "year" in data
    ensures var n := ToInt(data["year"]);
      PatchedUpTo(c, data, env, Position(Year) + 1) == if n.Some? then Some(car.(year := n.value)) else None
  {
  }

  /** A named `price` takes `float(value)`. */
  lemma PatchPrice(c: Car, data: map<string, JsonValue>, env: Env, car: Car)
    requires PatchedUpTo(c, data, env, Position(Price)) == Some(car) && "price" in data
    ensures var x := ToFloat(env, data["price"]);
      PatchedUpTo(c, data, env, Position(Price) + 1) == if x.Some? then Some(car.(price := x.value)) else None
  {
  }

  /** A named `entry_date` takes the parsed date. */
  lemma PatchDate(c: Car, data: map<string, JsonValue>, env: Env, car: Car)
    requires PatchedUpTo(c, data, env, Position(EntryDate)) == Some(car) && "entry_date" in data
    ensures var d := ToDate(env, data["entry_date"]);
      PatchedUpTo(c, data, env, Position(EntryDate) + 1) == if d.Some? then Some(car.(entryDate := d)) else None
  {
  }

  /** A column the payload names is converted and set, or fails the update. */
  lemma PatchAssign(c: Car, data: map<string, JsonValue>, env: Env, k: nat, car: Car)
    requires k < |Updatable| && PatchedUpTo(c, data, env, k) == Some(car)
    requires ColumnName(Updatable[k]) in data
    ensures var col := Updatable[k];
      PatchedUpTo(c, data, env, k + 1) == Assign(car, col, data[ColumnName(col)], env)
  {
    var col := Updatable[k];
    PositionOf(k);
    if col == Year {
      PatchYear(c, data, env, car);
    } else if col == Price {
      PatchPrice(c, data, env, car);
    } else if col == EntryDate {
      PatchDate(c, data, env, car);
    } else {
      PatchText(c, data, env, col, car);
    }
  }

  /** The `missing` comprehension: the fields, in order, whose value is absent or falsy. */
  function MissingFrom(fields: seq<string>, data: map<string, JsonValue>): (r: seq<string>)
    ensures forall x :: x in r <==> x in fields && !Truthy(Lookup(data, x))
    ensures IsSubsequence(r, fields)
  {
    if fields == [] then []
    else if Truthy(Lookup(data, fields[0])) then MissingFrom(fields[1..], data)
    else [fields[0]] + MissingFrom(fields[1..], data)
  }

  /** `a` is `b` with some entries left out and the rest in order. */
  predicate IsSubsequence<T(==)>(a: seq<T>, b: seq<T>)
    decreases |b|
  {
    a == [] || (b != [] && if a[0] == b[0] then IsSubsequence(a[1..], b[1..]) else IsSubsequence(a, b[1..]))
  }

  /** `required_fields` of `api_create_car`. */
  const RequiredFields: seq<string> := ["brand", "model", "year", "vin", "color", "price"]

  /** The status `Car(status=data.get('status', 'Disponible'))` ends up with: an
      absent key gives the default, and so does an explicit null, because the
      insert leaves out a null for a column that has a default. */
  function PayloadStatus(data: map<string, JsonValue>): (r: Option<string>)
    ensures "status" !in data || data["status"].JNull? ==> r == Some(DefaultStatus)
    ensures "status" in data && !data["status"].JNull? ==> r == ToText(data["status"])
  {
    if "status" !in data || data["status"].JNull? then Some(DefaultStatus) else ToText(data["status"])
  }

  /** The car the `Car(...)` call of `api_create_car` builds; `None` where a
      conversion raises. The entry date is today's ISO text parsed back when
      `entry_date` is absent. */
  function PayloadCar(id: int, data: map<string, JsonValue>, env: Env): (r: Option<Car>)
    requires ValidDate(env.today)
    ensures r.Some? <==>
      && ToText(Lookup(data, "brand")).Some? && ToText(Lookup(data, "model")).Some?
      && ToInt(Lookup(data, "year")).Some? && ToText(Lookup(data, "vin")).Some?
      && ToText(Lookup(data, "color")).Some? && ToFloat(env, Lookup(data, "price")).Some?
      && PayloadStatus(data).Some?
      && (if "entry_date" in data then ToDate(env, data["entry_date"]).Some?
          else env.parseDate(IsoFormat(env.today)).Some?)
    ensures r.Some? ==> r.value.id == id
    ensures r.Some? ==> ToText(Lookup(data, "brand")) == Some(r.value.brand)
    ensures r.Some? ==> ToText(Lookup(data, "model")) == Some(r.value.model)
    ensures r.Some? ==> ToInt(Lookup(data, "year")) == Some(r.value.year)
    ensures r.Some? ==> ToText(Lookup(data, "vin")) == Some(r.value.vin)
    ensures r.Some? ==> ToText(Lookup(data, "color")) == Some(r.value.color)
    ensures r.Some? ==> ToFloat(env, Lookup(data, "price")) == Some(r.value.price)
    ensures r.Some? ==> PayloadStatus(data) == Some(r.value.status)
    ensures r.Some? && "entry_date" in data ==> ToDate(env, data["entry_date"]) == r.value.entryDate
  {
    var brand := ToText(Lookup(data, "brand"));
    var model := ToText(Lookup(data, "model"));
    var year := ToInt(Lookup(data, "year"));
    var vin := ToText(Lookup(data, "vin"));
    var color := ToText(Lookup(data, "color"));
    var price := ToFloat(env, Lookup(data, "price"));
    var status := PayloadStatus(data);
    var entry := if "entry_date" in data then ToDate(env, data["entry_date"])
                 else env.parseDate(IsoFormat(env.today));
    if brand.Some? && model.Some? && year.Some? && vin.Some? && color.Some? && price.Some?
       && status.Some? && entry.Some?
    then Some(Car(id, brand.value, model.value, year.value, vin.value, color.value,
                  price.value, status.value, Some(entry.value)))
    else None
  }

  /** Without `entry_date`, and with `status` absent or null, the JSON create
      stores the column defaults: "Disponible" and today. */
  lemma PayloadDefaults(id: int, data: map<string, JsonValue>, env: Env)
    requires WellFormedEnv(env)
    requires "status" !in data || data["status"].JNull?
    requires "entry_date" !in data
    requires PayloadCar(id, data, env).Some?
    ensures PayloadCar(id, data, env).value.status == DefaultStatus
    ensures PayloadCar(id, data, env).value.entryDate == Some(env.today)
  {
  }

  /** What `api_update_car` answers: not-found, a failed conversion (an
      uncaught exception, so a server error with nothing stored), a VIN held by
      another car, or the patched car. */
  function UpdateOutcome(m: map<int, Car>, id: int, data: map<string, JsonValue>, env: Env): Result<Car, CarError>
  {
    if id !in m then Err(NotFound)
    else
      var p := Patched(m[id], data, env);
      if p.None? then Err(ServerError)
      else if VinInUseByOther(m, p.value.vin, id) then Err(DuplicateVin)
      else Ok(p.value)
  }

  /** The update succeeds exactly when the row exists, every named column
      converts, and no other car holds the resulting VIN; it then holds the
      payload's values in the named columns and the old ones elsewhere, and
      keeping the car's own VIN never counts as a clash. */
  lemma UpdateOutcomeCases(m: map<int, Car>, id: int, data: map<string, JsonValue>, env: Env)
    requires ValidTable(m)
    ensures var r := UpdateOutcome(m, id, data, env);
      && (r == Err(NotFound) <==> id !in m)
      && (r == Err(ServerError) <==> id in m && Patched(m[id], data, env).None?)
      && (r.Ok? <==> id in m && Patched(m[id], data, env).Some?
                     && !VinInUseByOther(m, Patched(m[id], data, env).value.vin, id))
      && (r.Ok? ==> r.value.id == id && Some(r.value) == Patched(m[id], data, env))
    ensures id in m && "vin" !in data && Patched(m[id], data, env).Some?
            ==> UpdateOutcome(m, id, data, env).Ok?
  {
    if id in m && Patched(m[id], data, env).Some? {
      PatchedFields(m[id], data, env);
      if "vin" !in data {
        OwnVinAllowed(m, id);
      }
    }
  }

  /** What `create_car` answers for the stripped form `f`: the failed checks,
      a price `float()` rejects, a VIN already in use, or the new car under
      the next row id, dated today when the date field is blank. */
  function CreateOutcome(m: map<int, Car>, f: CarForm, env: Env): Result<Car, CarError>
  {
    if !FormValid(f, env) then Err(Invalid(Failed(Checks, f, env)))
    else if env.parseFloat(f.price).None? then Err(NotNumeric)
    else if VinInUse(m, f.vin) then Err(DuplicateVin)
    else Ok(FormCar(NextRowId(m.Keys), f, env, EntryDateOr(f, env, Some(env.today))))
  }

  /** Each answer of `create_car` happens exactly under its condition, the
      reported errors are exactly the failing checks in order, and a created
      car takes a fresh id and the form's values. */
  lemma CreateOutcomeCases(m: map<int, Car>, f: CarForm, env: Env)
    ensures var r := CreateOutcome(m, f, env);
      && (r.Err? && r.error.Invalid? <==> !FormValid(f, env))
      && (r.Err? && r.error.Invalid? ==> ReportsExactly(r.error.errors, f, env))
      && (r == Err(NotNumeric) <==> FormValid(f, env) && env.parseFloat(f.price).None?)
      && (r == Err(DuplicateVin) <==> FormValid(f, env) && env.parseFloat(f.price).Some? && VinInUse(m, f.vin))
      && (r.Ok? <==> FormValid(f, env) && env.parseFloat(f.price).Some? && !VinInUse(m, f.vin))
      && (r.Ok? ==> r.value.id == NextRowId(m.Keys) && r.value.id !in m)
      && (r.Ok? ==> r.value.brand == f.brand && r.value.vin == f.vin && r.value.status == StatusOrDefault(f.status))
      && (r.Ok? && f.entryDate == "" ==> r.value.entryDate == Some(env.today))
  {
    FailedReportsExactly(f, env);
  }

  /** What `edit_car` answers for car `id` and the stripped form `f`: not-found,
      the failed checks, a price `float()` rejects, a VIN another car holds, or
      the car with every field overwritten, keeping its date when the date
      field is blank. */
  function EditOutcome(m: map<int, Car>, id: int, f: CarForm, env: Env): Result<Car, CarError>
  {
    if id !in m then Err(NotFound)
    else if !FormValid(f, env) then Err(Invalid(Failed(Checks, f, env)))
    else if env.parseFloat(f.price).None? then Err(NotNumeric)
    else if VinInUseByOther(m, f.vin, id) then Err(DuplicateVin)
    else Ok(FormCar(id, f, env, EntryDateOr(f, env, m[id].entryDate)))
  }

  /** Each answer of `edit_car` happens exactly under its condition; an edited
      car keeps its id, takes the form's values, and keeps its own VIN without
      a clash. */
  lemma EditOutcomeCases(m: map<int, Car>, id: int, f: CarForm, env: Env)
    requires ValidTable(m)
    ensures var r := EditOutcome(m, id, f, env);
      && (r == Err(NotFound) <==> id !in m)
      && (r.Err? && r.error.Invalid? <==> id in m && !FormValid(f, env))
      && (r.Err? && r.error.Invalid? ==> ReportsExactly(r.error.errors, f, env))
      && (r == Err(NotNumeric) <==> id in m && FormValid(f, env) && env.parseFloat(f.price).None?)
      && (r == Err(DuplicateVin)
          <==> id in m && FormValid(f, env) && env.parseFloat(f.price).Some? && VinInUseByOther(m, f.vin, id))
      && (r.Ok? <==> id in m && FormValid(f, env) && env.parseFloat(f.price).Some? && !VinInUseByOther(m, f.vin, id))
      && (r.Ok? ==> r.value.id == id && r.value.brand == f.brand && r.value.vin == f.vin)
      && (r.Ok? && f.entryDate == "" ==> r.value.entryDate == m[id].entryDate)
    ensures id in m && FormValid(f, env) && env.parseFloat(f.price).Some? && f.vin == m[id].vin
            ==> EditOutcome(m, id, f, env).Ok?
  {
    FailedReportsExactly(f, env);
    if id in m {
      OwnVinAllowed(m, id);
    }
  }

  /** The car inventory: the `cars` table, id to row. */
  class CarRegistry {
    var cars: map<int, Car>

    ghost predicate Valid()
      reads this
    {
      ValidTable(cars)
    }

    constructor ()
      ensures Valid() && cars == map[]
    {
      cars := map[];
    }

    /** `Car.query.get(id)`: the row, or not-found. */
    function Get(id: int): (r: Result<Car, CarError>)
      reads this
      ensures r.Ok? <==> id in cars
      ensures r.Ok? ==> r.value == cars[id]
      ensures r.Err? ==> r.error == NotFound
    {
      if id in cars then Ok(cars[id]) else Err(NotFound)
    }

    /** `create_car`: read and strip the form, then submit it. */
    method CreateCar(form: map<string, string>, env: Env) returns (r: Result<Car, CarError>)
      requires Valid() && WellFormedEnv(env)
      modifies this
      ensures Valid()
      ensures r == CreateOutcome(old(cars), ReadForm(form), env)
      ensures r.Ok? ==> r.value.id !in old(cars) && cars == old(cars)[r.value.id := r.value]
      ensures r.Err? ==> cars == old(cars)
    {
      var f := ReadForm(form);
      r := SubmitNew(f, env);
    }

    /** The rest of `create_car` on the stripped form: validate it, convert
        the price, check the VIN, add the row. */
    method SubmitNew(f: CarForm, env: Env) returns (r: Result<Car, CarError>)
      requires Valid() && WellFormedEnv(env)
      modifies this
      ensures Valid()
      ensures r == CreateOutcome(old(cars), f, env)
      ensures r.Ok? ==> r.value.id !in old(cars) && cars == old(cars)[r.value.id := r.value]
      ensures r.Err? ==> cars == old(cars)
    {
      var errors := ValidateForm(f, env);
      if errors != [] {
        return Err(Invalid(errors));
      }
      var price := env.parseFloat(f.price);
      if price.None? {
        return Err(NotNumeric);
      }
      if VinInUse(cars, f.vin) {
        return Err(DuplicateVin);
      }
      var entry := if f.entryDate == "" then Some(env.today) else Some(env.parseDate(f.entryDate).value);
      var c := Car(NextRowId(cars.Keys), f.brand, f.model, DigitsValue(f.year), f.vin, f.color,
                   price.value, StatusOrDefault(f.status), entry);
      InsertKeepsValid(cars, c);
      cars := cars[c.id := c];
      r := Ok(c);
    }

    /** `edit_car`: look the car up, read and strip the form, then submit it. */
    method EditCar(id: int, form: map<string, string>, env: Env) returns (r: Result<Car, CarError>)
      requires Valid() && WellFormedEnv(env)
      modifies this
      ensures Valid()
      ensures r == EditOutcome(old(cars), id, ReadForm(form), env)
      ensures r.Ok? ==> cars == old(cars)[id := r.value]
      ensures r.Err? ==> cars == old(cars)
    {
      if id !in cars {
        return Err(NotFound);
      }
      var f := ReadForm(form);
      r := SubmitEdit(id, f, env);
    }

    /** The rest of `edit_car` on the stripped form: validate it, convert the
        price, check the VIN against the other cars, overwrite every field. */
    method SubmitEdit(id: int, f: CarForm, env: Env) returns (r: Result<Car, CarError>)
      requires Valid() && WellFormedEnv(env) && id in cars
      modifies this
      ensures Valid()
      ensures r == EditOutcome(old(cars), id, f, env)
      ensures r.Ok? ==> cars == old(cars)[id := r.value]
      ensures r.Err? ==> cars == old(cars)
    {
      var car := cars[id];
      var errors := ValidateForm(f, env);
      if errors != [] {
        return Err(Invalid(errors));
      }
      var price := env.parseFloat(f.price);
      if price.None? {
        return Err(NotNumeric);
      }
      if VinInUseByOther(cars, f.vin, id) {
        return Err(DuplicateVin);
      }
      var entry := if f.entryDate == "" then car.entryDate else Some(env.parseDate(f.entryDate).value);
      var c := Car(id, f.brand, f.model, DigitsValue(f.year), f.vin, f.color,
                   price.value, StatusOrDefault(f.status), entry);
      ReplaceKeepsValid(cars, c);
      cars := cars[id := c];
      r := Ok(c);
    }

    /** `delete_car` and `api_delete_car`: not-found, or exactly that row removed. */
    method DeleteCar(id: int) returns (r: Result<Car, CarError>)
      requires Valid()
      modifies this
      ensures Valid()
      ensures r.Ok? <==> id in old(cars)
      ensures r.Ok? ==> r.value == old(cars)[id] && cars == old(cars) - {id}
      ensures r.Err? ==> r.error == NotFound && cars == old(cars)
    {
      if id !in cars {
        return Err(NotFound);
      }
      r := Ok(cars[id]);
      cars := cars - {id};
    }

    /** `api_create_car`: report the missing fields, build the car, check the VIN, add the row. */
    method ApiCreateCar(data: map<string, JsonValue>, env: Env) returns (r: Result<Car, CarError>)
      requires Valid() && WellFormedEnv(env)
      modifies this
      ensures Valid()
      ensures var missing := MissingFrom(RequiredFields, data);
        missing != [] <==> r == Err(MissingFields(missing))
      ensures r == Err(BadValue)
          <==> MissingFrom(RequiredFields, data) == [] && PayloadCar(NextRowId(old(cars).Keys), data, env).None?
      ensures r == Err(DuplicateVin)
          <==> var c := PayloadCar(NextRowId(old(cars).Keys), data, env);
               MissingFrom(RequiredFields, data) == [] && c.Some? && VinInUse(old(cars), c.value.vin)
      ensures r.Ok?
          <==> var c := PayloadCar(NextRowId(old(cars).Keys), data, env);
               MissingFrom(RequiredFields, data) == [] && c.Some? && !VinInUse(old(cars), c.value.vin)
      ensures r.Ok? ==> Some(r.value) == PayloadCar(NextRowId(old(cars).Keys), data, env)
      ensures r.Ok? ==> r.value.id !in old(cars) && cars == old(cars)[r.value.id := r.value]
      ensures r.Err? ==> cars == old(cars)
    {
      var missing := MissingFrom(RequiredFields, data);
      if missing != [] {
        return Err(MissingFields(missing));
      }
      var car := PayloadCar(NextRowId(cars.Keys), data, env);
      if car.None? {
        return Err(BadValue);
      }
      if VinInUse(cars, car.value.vin) {
        return Err(DuplicateVin);
      }
      InsertKeepsValid(cars, car.value);
      cars := cars[car.value.id := car.value];
      r := Ok(car.value);
    }

    /** `api_update_car`: set each named column in turn, converting year, price
        and entry date; a failed conversion aborts with the table unchanged; then
        check the VIN against the other cars and store the row. */
    method ApiUpdateCar(id: int, data: map<string, JsonValue>, env: Env) returns (r: Result<Car, CarError>)
      requires Valid() && WellFormedEnv(env)
      modifies this
      ensures Valid()
      ensures r == UpdateOutcome(old(cars), id, data, env)
      ensures r.Ok? ==> cars == old(cars)[id := r.value]
      ensures r.Err? ==> cars == old(cars)
    {
      if id !in cars {
        return Err(NotFound);
      }
      var orig := cars[id];
      var car := orig;
      for i := 0 to |Updatable|
        invariant cars == old(cars)
        invariant PatchedUpTo(orig, data, env, i) == Some(car)
      {
        var col := Updatable[i];
        var key := ColumnName(col);
        if key in data {
          PatchAssign(orig, data, env, i, car);
          var next := Assign(car, col, data[key], env);
          if next.None? {
            PatchFailureSticks(orig, data, env, i + 1);
            return Err(ServerError);
          }
          car := next.value;
        } else {
          PatchSkip(orig, data, env, i, car);
        }
      }
      PatchedWellKeyed(orig, data, env);
      if VinInUseByOther(cars, car.vin, id) {
        return Err(DuplicateVin);
      }
      ReplaceKeepsValid(cars, car);
      cars := cars[id := car];
      r := Ok(car);
    }
  }
}
