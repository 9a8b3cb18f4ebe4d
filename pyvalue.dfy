/** The decoded JSON values the monitor receives from the upstream feed and
    from the Telegram API, as Python sees them after `response.json()`:
    `None`, `bool`, `int`, `float` (carried by its `repr` text), `str`,
    `list` and `dict` (its entries in insertion order). Each accessor the
    code applies to such a value is modelled with the exception that Python
    raises when the value has the wrong type. */
module PyValue {
  import opened Wrappers
  import opened PyStr

  /** The `repr` of a float, which is never empty (`0.0`, `1e+16`, `inf`, ...). */
  type FloatText = s: string | s != [] witness "0.0"

  datatype Json =
    | JNull
    | JBool(b: bool)
    | JInt(i: int)
    | JFloat(repr: FloatText)
    | JStr(s: string)
    | JArr(items: seq<Json>)
    | JObj(members: seq<Member>)

  datatype Member = Member(key: string, value: Json)

  /** A Python exception, by its message (`str(e)`). */
  datatype Fault = Fault(message: string)

  /** Python truthiness (`bool(v)`). */
  predicate Truthy(v: Json) {
    match v
    case JNull => false
    case JBool(b) => b
    case JInt(i) => i != 0
    case JFloat(r) => r != "0.0" && r != "-0.0"
    case JStr(s) => s != ""
    case JArr(items) => items != []
    case JObj(ms) => ms != []
  }

  /** `type(v).__name__`. */
  function TypeName(v: Json): string {
    match v
    case JNull => "NoneType"
    case JBool(_) => "bool"
    case JInt(_) => "int"
    case JFloat(_) => "float"
    case JStr(_) => "str"
    case JArr(_) => "list"
    case JObj(_) => "dict"
  }

  /** The `AttributeError` raised by `v.attr` when `v`'s type lacks `attr`. */
  function NoAttribute(v: Json, attr: string): Fault {
    Fault("'" + TypeName(v) + "' object has no attribute '" + attr + "'")
  }

  /** The value stored under `key` in a list of dict entries. */
  function Lookup(ms: seq<Member>, key: string): Option<Json> {
    if ms == [] then None
    else if ms[0].key == key then Some(ms[0].value)
    else Lookup(ms[1..], key)
  }

  /** `v.get(key)`: `None` for a missing key, `AttributeError` for a non-dict. */
  function Get(v: Json, key: string): (r: Result<Option<Json>, Fault>)
    ensures r.Ok? <==> v.JObj?
  {
    if v.JObj? then Ok(Lookup(v.members, key)) else Err(NoAttribute(v, "get"))
  }

  /** `v.get(key, default)`. */
  function GetOr(v: Json, key: string, default: Json): Result<Json, Fault> {
    var r :- Get(v, key);
    Ok(r.GetOr(default))
  }

  /** A dict lookup result as the Python value it denotes (`None` for a miss). */
  function OrNull(r: Option<Json>): Json {
    r.GetOr(JNull)
  }

  /** `a or b`: `a` when it is truthy, otherwise `b`. */
  function Or(a: Json, b: Json): (r: Json)
    ensures Truthy(a) ==> r == a
    ensures !Truthy(a) ==> r == b
  {
    if Truthy(a) then a else b
  }

  /** `d.get(key) or {}`: the nested dict the code falls back to an empty one for. */
  function GetDictOrEmpty(d: Json, key: string): Result<Json, Fault> {
    var r :- Get(d, key);
    Ok(Or(OrNull(r), JObj([])))
  }

  /** `repr(v)`, simplified for strings: single quotes and no escaping. */
  function Repr(v: Json): (r: string)
    ensures r != []
    decreases v
  {
    match v
    case JNull => "None"
    case JBool(b) => if b then "True" else "False"
    case JInt(i) => IntToStr(i)
    case JFloat(r) => r
    case JStr(s) => "'" + s + "'"
    case JArr(items) =>
      "[" + Join(seq(|items|, k requires 0 <= k < |items| => Repr(items[k])), ", ") + "]"
    case JObj(ms) =>
      "{" + Join(seq(|ms|, k requires 0 <= k < |ms| => "'" + ms[k].key + "': " + Repr(ms[k].value)), ", ") + "}"
  }

  /** `str(v)`, which is also what an f-string field `{v}` renders: the text
      itself for a `str`, `repr(v)` for every other value. */
  function Str(v: Json): (r: string)
    ensures r == [] ==> v == JStr([])
    ensures v.JStr? ==> r == v.s
  {
    if v.JStr? then v.s else Repr(v)
  }

  /** `format(v, ',')`: thousands grouping for numbers (`bool` formats as
      `int`), `ValueError` for a string, `TypeError` for other values. */
  function FormatGrouped(v: Json): (r: Result<string, Fault>)
    ensures v.JInt? ==> r == Ok(GroupInt(v.i)) && Ungroup(r.value) == IntToStr(v.i)
    ensures v.JStr? ==> r.Err?
    ensures r.Ok? <==> v.JInt? || v.JBool? || v.JFloat?
  {
    match v
    case JInt(i) => Ok(GroupInt(i))
    case JBool(b) => Ok(if b then "1" else "0")
    case JFloat(rep) => Ok(GroupFloatRepr(rep))
    case JStr(_) => Err(Fault("Cannot specify ',' with 's'."))
    case _ => Err(Fault("unsupported format string passed to " + TypeName(v) + ".__format__"))
  }

  /** `PyStr.Lower` applied to a value that must be a `str`. */
  function LowerValue(v: Json): (r: Result<string, Fault>)
    ensures r.Ok? <==> v.JStr?
    ensures v.JStr? ==> r.value == Lower(v.s)
  {
    if v.JStr? then Ok(Lower(v.s)) else Err(NoAttribute(v, "lower"))
  }

  /** `v.strip()` on a value that must be a `str`. */
  function StripValue(v: Json): (r: Result<string, Fault>)
    ensures r.Ok? <==> v.JStr?
    ensures v.JStr? ==> r.value == Strip(v.s)
  {
    if v.JStr? then Ok(Strip(v.s)) else Err(NoAttribute(v, "strip"))
  }
}
