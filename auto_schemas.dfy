/** The request and response schema of `/autos` (`AutoBase`): the VIN is
    stripped and upper-cased and must then have 11 to 17 characters, the year
    lies in 1980..2026 and the price is positive. */
module AutoSchemas {
  import opened Store
  import opened Text

  const VinMinLength: nat := 11
  const VinMaxLength: nat := 17
  const FirstYear: int := 1980
  const LastYear: int := 2026

  /** A body as the client sends it, before validation. */
  datatype AutoPayload = AutoPayload(vin: string, marca: string, modelo: string, anio: int, color: string, precio: real)

  /** A body that passed validation (`AutoCreate`); its VIN is the normalised one. */
  datatype AutoCreate = AutoCreate(vin: string, marca: string, modelo: string, anio: int, color: string, precio: real)

  /** One field that failed validation. */
  datatype SchemaError = VinLength | AnioOutOfRange | PrecioNotPositive

  /** A VIN the schema lets through: stripped, upper-case, 11 to 17 characters. */
  predicate NormalVin(v: string)
  {
    Trimmed(v) && NoLower(v) && VinMinLength <= |v| <= VinMaxLength
  }

  /** The VIN's length after stripping is within 11..17. */
  predicate VinAccepted(v: string)
  {
    VinMinLength <= |Trim(v)| <= VinMaxLength
  }

  /** `validar_vin`: the stripped, upper-cased VIN, accepted when its length
      after stripping is within 11..17. */
  function ValidarVin(v: string): (r: Result<string, SchemaError>)
    ensures r.Ok? <==> VinAccepted(v)
    ensures r.Ok? ==> NormalVin(r.value) && r.value == Trim(Upper(v))
    ensures r.Err? ==> r.error == VinLength
  {
    var t := Upper(Trim(v));
    assert |t| == |Trim(v)| && NoLower(t);
    UpperTrimCommute(v);
    assert Trimmed(t);
    if VinMinLength <= |t| <= VinMaxLength then Ok(t) else Err(VinLength)
  }

  /** A normalised VIN is accepted unchanged. */
  lemma ValidarVinFixes(v: string)
    requires NormalVin(v)
    ensures ValidarVin(v) == Ok(v)
  {
    TrimOfTrimmed(v);
    UpperOfNoLower(v);
  }

  /** Validating an accepted VIN again gives it back. */
  lemma ValidarVinIdempotent(v: string)
    requires ValidarVin(v).Ok?
    ensures ValidarVin(ValidarVin(v).value) == ValidarVin(v)
  {
    ValidarVinFixes(ValidarVin(v).value);
  }

  /** `validar_anio`: the year, unchanged, when it lies in 1980..2026. */
  function ValidarAnio(y: int): (r: Result<int, SchemaError>)
    ensures r.Ok? <==> FirstYear <= y <= LastYear
    ensures r.Ok? ==> r.value == y
    ensures r.Err? ==> r.error == AnioOutOfRange
  {
    if y < FirstYear || y > LastYear then Err(AnioOutOfRange) else Ok(y)
  }

  /** What every stored or returned auto satisfies. */
  predicate Conforms(a: AutoCreate)
  {
    NormalVin(a.vin) && FirstYear <= a.anio <= LastYear && a.precio > 0.0
  }

  /** The errors for the three checked fields, in declaration order: one for each check that fails. */
  function Collect(vinOk: bool, anioOk: bool, precioOk: bool): (errors: seq<SchemaError>)
    ensures VinLength in errors <==> !vinOk
    ensures AnioOutOfRange in errors <==> !anioOk
    ensures PrecioNotPositive in errors <==> !precioOk
    ensures forall i, j :: 0 <= i < j < |errors| ==> errors[i] != errors[j]
  {
    var v: seq<SchemaError> := if vinOk then [] else [VinLength];
    var y: seq<SchemaError> := if anioOk then [] else [AnioOutOfRange];
    var c: seq<SchemaError> := if precioOk then [] else [PrecioNotPositive];
    v + y + c
  }

  /** Parsing a body into `AutoCreate`: the request is refused with one
      error per failing field, in field order, or accepted with its VIN
      normalised, its other fields as sent, conforming to the schema. */
  function Validate(p: AutoPayload): (r: Result<AutoCreate, seq<SchemaError>>)
    ensures r.Ok? <==> VinAccepted(p.vin) && ValidarAnio(p.anio).Ok? && p.precio > 0.0
    ensures r.Ok? ==> Conforms(r.value)
    ensures r.Ok? ==> r.value == AutoCreate(ValidarVin(p.vin).value, p.marca, p.modelo, p.anio, p.color, p.precio)
    ensures r.Err? ==> (VinLength in r.error <==> !VinAccepted(p.vin))
    ensures r.Err? ==> (AnioOutOfRange in r.error <==> ValidarAnio(p.anio).Err?)
    ensures r.Err? ==> (PrecioNotPositive in r.error <==> p.precio <= 0.0)
  {
    var errors := Collect(VinAccepted(p.vin), ValidarAnio(p.anio).Ok?, p.precio > 0.0);
    if errors != [] then Err(errors)
    else Ok(AutoCreate(ValidarVin(p.vin).value, p.marca, p.modelo, p.anio, p.color, p.precio))
  }

  /** The body an accepted value would be sent as. */
  function AsPayload(a: AutoCreate): AutoPayload
  {
    AutoPayload(a.vin, a.marca, a.modelo, a.anio, a.color, a.precio)
  }

  /** A conforming auto passes validation unchanged, so the response schema
      (`AutoOut`, re-validating a stored row) accepts what the request schema produced. */
  lemma ValidateFixes(a: AutoCreate)
    requires Conforms(a)
    ensures Validate(AsPayload(a)) == Ok(a)
  {
    ValidarVinFixes(a.vin);
  }

  /** Validation is idempotent. */
  lemma ValidateIdempotent(p: AutoPayload)
    requires Validate(p).Ok?
    ensures Validate(AsPayload(Validate(p).value)) == Validate(p)
  {
    ValidateFixes(Validate(p).value);
  }
}
