/** The Python values the runtime inspects: parsed JSON documents, their
    truthiness, `dict.get`, the `str()` and `int()` coercions, `datetime`
    values and `os.environ`. Behaviour of the standard library that the model
    does not spell out (rendering numbers and containers with `str()`, `int()`
    on a string, the `datetime.fromisoformat` grammar) is a parameter. */
module PyData {
  import opened Common

  /** A value produced by `json.loads`. Objects are Python dicts: the last of
      several equal keys wins, so a map is exact. */
  datatype Json =
    | JNull
    | JBool(b: bool)
    | JInt(i: int)
    | JReal(r: real)
    | JString(s: string)
    | JArray(items: seq<Json>)
    | JObject(fields: map<string, Json>)

  /** `dict.get(key)`: a missing key and an explicit `null` both give `None`. */
  function Get(m: map<string, Json>, key: string): (r: Json)
    ensures r != JNull ==> key in m && m[key] == r
    ensures key !in m ==> r == JNull
    ensures key in m ==> r == m[key]
  {
    if key in m then m[key] else JNull
  }

  /** Python truthiness of a JSON value (what `x or default` tests). */
  predicate Truthy(j: Json) {
    match j
    case JNull => false
    case JBool(b) => b
    case JInt(i) => i != 0
    case JReal(r) => r != 0.0
    case JString(s) => s != ""
    case JArray(items) => items != []
    case JObject(fields) => fields != map[]
  }

  /** A datetime: the wall-clock reading in microseconds since an epoch and,
      for an aware value, its UTC offset in microseconds (`tzinfo is None`
      when `offset` is `None`). */
  datatype DateTime = DateTime(wall: int, offset: Option<int>)

  /** `datetime.now(timezone.utc)` read as `micros` microseconds since the epoch. */
  function UtcNow(micros: int): (d: DateTime)
    ensures d.offset == Some(0) && Instant(d) == micros
  {
    DateTime(micros, Some(0))
  }

  /** The point in time an aware datetime denotes, in UTC microseconds. */
  function Instant(d: DateTime): int
    requires d.offset.Some?
  {
    d.wall - d.offset.value
  }

  /** `d.replace(tzinfo=timezone.utc)` when `d` is naive, `d` otherwise. */
  function AssumeUtc(d: DateTime): (r: DateTime)
    ensures r.offset.Some?
    ensures r.wall == d.wall
    ensures d.offset.Some? ==> r == d
    ensures d.offset.None? ==> Instant(r) == d.wall
  {
    if d.offset.None? then DateTime(d.wall, Some(0)) else d
  }

  /** Standard-library behaviour outside the model. */
  datatype Foreign = Foreign(
    // `str(v)` for a number, an array or an object
    render: Json -> string,
    // `int(s)` for a JSON string; `None` when it raises
    parseInt: string -> Option<int>,
    // `datetime.fromisoformat(s)`; `None` when it raises
    fromIsoFormat: string -> Option<DateTime>)

  /** Python `str(v)`. */
  function PyStr(j: Json, f: Foreign): (r: string)
    ensures j.JString? ==> r == j.s
    ensures j == JNull ==> r == "None"
    ensures j.JBool? ==> r == (if j.b then "True" else "False")
  {
    match j
    case JNull => "None"
    case JBool(b) => if b then "True" else "False"
    case JString(s) => s
    case _ => f.render(j)
  }

  /** `str(v or "")`: the empty string for every falsy value. */
  function StrOrEmpty(j: Json, f: Foreign): (r: string)
    ensures !Truthy(j) ==> r == ""
    ensures j.JString? ==> r == j.s
    ensures Truthy(j) ==> r == PyStr(j, f)
  {
    if Truthy(j) then PyStr(j, f) else ""
  }

  /** Python `int(v)`; `None` when it raises. Booleans and integers convert
      exactly, a float truncates toward zero, containers and `None` raise. */
  function PyInt(j: Json, f: Foreign): (r: Option<int>)
    ensures j.JInt? ==> r == Some(j.i)
    ensures j.JBool? ==> r == Some(if j.b then 1 else 0)
    ensures j.JReal? && j.r >= 0.0 ==> r.Some? && r.value as real <= j.r < r.value as real + 1.0
    ensures j.JReal? && j.r < 0.0 ==> r.Some? && r.value as real - 1.0 < j.r <= r.value as real
    ensures j.JNull? || j.JArray? || j.JObject? ==> r == None
  {
    match j
    case JBool(b) => Some(if b then 1 else 0)
    case JInt(i) => Some(i)
    case JReal(x) => Some(if x >= 0.0 then x.Floor else -((-x).Floor))
    case JString(s) => f.parseInt(s)
    case _ => None
  }

  /** A snapshot of `os.environ`. */
  type Environ = map<string, string>

  /** `os.environ.get(name)`. */
  function EnvGet(env: Environ, name: string): (r: Option<string>)
    ensures r.Some? <==> name in env
    ensures r.Some? ==> r.value == env[name]
  {
    if name in env then Some(env[name]) else None
  }
}
