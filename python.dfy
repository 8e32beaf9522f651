/** The few pieces of Python's runtime the inventory code leans on: JSON values
    as `request.get_json()` yields them, their truthiness, the `int()` and
    `float()` conversions, and the clock and parsers that stay outside the model. */
module Python {
  import opened Store
  import opened Text
  import opened Dates

  /** A JSON scalar. Arrays and objects do not appear as field values here. */
  datatype JsonValue = JNull | JBool(b: bool) | JInt(i: int) | JReal(r: real) | JStr(s: string)

  /** Python truthiness: `None`, `False`, `0`, `0.0` and `""` are false. */
  predicate Truthy(v: JsonValue)
  {
    match v
    case JNull => false
    case JBool(b) => b
    case JInt(i) => i != 0
    case JReal(r) => r != 0.0
    case JStr(s) => s != ""
  }

  /** `d.get(key)`: the value, or `None` for a missing key. */
  function Lookup(d: map<string, JsonValue>, key: string): (v: JsonValue)
    ensures key !in d ==> v == JNull
  {
    if key in d then d[key] else JNull
  }

  /** `int(r)` on a float truncates toward zero. */
  function Truncate(r: real): (n: int)
    ensures r >= 0.0 ==> n as real <= r < n as real + 1.0
    ensures r < 0.0 ==> n as real - 1.0 < r <= n as real
  {
    if r >= 0.0 then r.Floor else -((-r).Floor)
  }

  /** `int(s)` on text: surrounding whitespace, an optional sign, then ASCII digits. */
  function ParseInt(s: string): Option<int>
  {
    var t := Trim(s);
    if IsDigits(t) then
      Some(DigitsValue(t))
    else if |t| >= 2 && (t[0] == '+' || t[0] == '-') && IsDigits(t[1..]) then
      var n: int := DigitsValue(t[1..]);
      Some(if t[0] == '-' then -n else n)
    else None
  }

  /** What the model leaves to Python's library: `float()` on text,
      `datetime.strptime(s, '%Y-%m-%d').date()`, and today's date. */
  datatype Env = Env(parseFloat: string -> Option<real>, parseDate: string -> Option<Date>, today: Date)

  /** What Python's library guarantees of them: today is a real date, a parsed
      date is a real date, and the ISO text of a date parses back to it. */
  ghost predicate WellFormedEnv(env: Env)
  {
    && ValidDate(env.today)
    && (forall s :: env.parseDate(s).Some? ==> ValidDate(env.parseDate(s).value))
    && (forall d :: ValidDate(d) ==> env.parseDate(IsoFormat(d)) == Some(d))
  }

  /** `int(v)` on a JSON value; `None` where Python raises. */
  function ToInt(v: JsonValue): (r: Option<int>)
    ensures v.JNull? ==> r.None?
    ensures v.JInt? ==> r == Some(v.i)
  {
    match v
    case JNull => None
    case JBool(b) => Some(if b then 1 else 0)
    case JInt(i) => Some(i)
    case JReal(x) => Some(Truncate(x))
    case JStr(s) => ParseInt(s)
  }

  /** `float(v)` on a JSON value; `None` where Python raises. */
  function ToFloat(env: Env, v: JsonValue): (r: Option<real>)
    ensures v.JNull? ==> r.None?
    ensures v.JReal? ==> r == Some(v.r)
  {
    match v
    case JNull => None
    case JBool(b) => Some(if b then 1.0 else 0.0)
    case JInt(i) => Some(i as real)
    case JReal(x) => Some(x)
    case JStr(s) => env.parseFloat(s)
  }

  /** `datetime.strptime(v, '%Y-%m-%d').date()`; only text can be parsed. */
  function ToDate(env: Env, v: JsonValue): (r: Option<Date>)
    ensures !v.JStr? ==> r.None?
  {
    if v.JStr? then env.parseDate(v.s) else None
  }

  /** A value stored into a text column; the model accepts only JSON strings. */
  function ToText(v: JsonValue): (r: Option<string>)
    ensures r.Some? <==> v.JStr?
  {
    if v.JStr? then Some(v.s) else None
  }
}
