/** The `Car` record of the inventory (the `cars` table) and its JSON form. */
module CarModel {
  import opened Store
  import opened Dates
  import opened Python

  /** The status a car is stored with when none is given. */
  const DefaultStatus: string := "Disponible"

  /** One row of `cars`. `vin` is unique across rows and never null; `price`
      is a mathematical real rather than a float. */
  datatype Car = Car(
    id: int,
    brand: string,
    model: string,
    year: int,
    vin: string,
    color: string,
    price: real,
    status: string,
    entryDate: Option<Date>)

  predicate DatesValid(c: Car)
  {
    c.entryDate.Some? ==> ValidDate(c.entryDate.value)
  }

  /** The columns of `cars`, which are also the keys of its JSON object. */
  datatype Column = Id | Brand | Model | Year | Vin | Color | Price | Status | EntryDate

  /** The JSON key (and attribute name) of a column. */
  function ColumnName(col: Column): string
  {
    match col
    case Id => "id"
    case Brand => "brand"
    case Model => "model"
    case Year => "year"
    case Vin => "vin"
    case Color => "color"
    case Price => "price"
    case Status => "status"
    case EntryDate => "entry_date"
  }

  /** The value `to_dict` writes for a column. */
  function Field(c: Car, col: Column): JsonValue
    requires DatesValid(c)
  {
    match col
    case Id => JInt(c.id)
    case Brand => JStr(c.brand)
    case Model => JStr(c.model)
    case Year => JInt(c.year)
    case Vin => JStr(c.vin)
    case Color => JStr(c.color)
    case Price => JReal(c.price)
    case Status => JStr(c.status)
    case EntryDate => if c.entryDate.Some? then JStr(IsoFormat(c.entryDate.value)) else JNull
  }

  /** `Car.to_dict()`: exactly the nine columns as keys, each with that column's value. */
  function ToDict(c: Car): (d: map<Column, JsonValue>)
    requires DatesValid(c)
    ensures d.Keys == {Id, Brand, Model, Year, Vin, Color, Price, Status, EntryDate}
    ensures d[Id] == JInt(c.id) && d[Brand] == JStr(c.brand) && d[Model] == JStr(c.model)
    ensures d[Year] == JInt(c.year) && d[Vin] == JStr(c.vin) && d[Color] == JStr(c.color)
    ensures d[Price] == JReal(c.price) && d[Status] == JStr(c.status)
    ensures d[EntryDate] == if c.entryDate.Some? then JStr(IsoFormat(c.entryDate.value)) else JNull
  {
    map[Id := Field(c, Id), Brand := Field(c, Brand), Model := Field(c, Model), Year := Field(c, Year),
        Vin := Field(c, Vin), Color := Field(c, Color), Price := Field(c, Price),
        Status := Field(c, Status), EntryDate := Field(c, EntryDate)]
  }

  /** Each of the nine keys is written under its own name. */
  lemma ColumnNamesDistinct(a: Column, b: Column)
    requires a != b
    ensures ColumnName(a) != ColumnName(b)
  {
    assert |ColumnName(a)| != |ColumnName(b)| || ColumnName(a)[0] != ColumnName(b)[0];
  }

  /** Reads a car back from its JSON object; the inverse of `ToDict`. */
  function FromDict(d: map<Column, JsonValue>): (r: Option<Car>)
  {
    if d.Keys >= {Id, Brand, Model, Year, Vin, Color, Price, Status, EntryDate} then
      var id, brand, model, year := d[Id], d[Brand], d[Model], d[Year];
      var vin, color, price, status := d[Vin], d[Color], d[Price], d[Status];
      var entry := d[EntryDate];
      if id.JInt? && brand.JStr? && model.JStr? && year.JInt? && vin.JStr? && color.JStr?
         && price.JReal? && status.JStr? && (entry.JNull? || (entry.JStr? && ParseIso(entry.s).Some?))
      then
        Some(Car(id.i, brand.s, model.s, year.i, vin.s, color.s, price.r, status.s,
                 if entry.JNull? then None else Some(ParseIso(entry.s).value)))
      else None
    else None
  }

  /** Nothing is lost in the JSON form of a car. */
  lemma ToDictRoundTrip(c: Car)
    requires DatesValid(c)
    ensures FromDict(ToDict(c)) == Some(c)
  {
    if c.entryDate.Some? {
      IsoRoundTrip(c.entryDate.value);
    }
  }
}
