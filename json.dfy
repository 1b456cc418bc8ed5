/**
 * JSON-like values, as the configuration file, request bodies and job
 * override maps hold them, and the Python coercions (`bool()`, `int()`,
 * `str()`, `float()`) that the validators apply to them.
 */
module Json {
  import opened Wrappers
  import opened Strings
  import opened Ints

  datatype Json =
    | JNull
    | JBool(b: bool)
    | JInt(i: int)
    | JFloat(r: real)
    | JStr(s: string)
    | JList(items: seq<Json>)
    | JObj(fields: Object)

  type Object = map<string, Json>

  /** Python truthiness: `None`, `False`, `0`, `""`, `[]` and `{}` are false. */
  function Truthy(v: Json): bool {
    match v
    case JNull => false
    case JBool(b) => b
    case JInt(i) => i != 0
    case JFloat(r) => r != 0.0
    case JStr(s) => s != ""
    case JList(xs) => xs != []
    case JObj(m) => m != map[]
  }

  /**
   * Python `int(v)`: integers as they are, booleans as 0/1, floats truncated
   * toward zero, strings parsed; `None` when it raises.
   */
  function PyInt(v: Json): (r: Option<int>)
    ensures v.JInt? ==> r == Some(v.i)
    ensures v.JFloat? ==> r == Some(TruncReal(v.r))
    ensures v.JStr? ==> r == ParseInt(v.s)
    ensures v.JNull? || v.JList? || v.JObj? ==> r.None?
  {
    match v
    case JInt(i) => Some(i)
    case JFloat(x) => Some(TruncReal(x))
    case JBool(b) => Some(if b then 1 else 0)
    case JStr(s) => ParseInt(s)
    case _ => None
  }

  /** Python `str(v)` for scalars; containers are rendered by a placeholder (see README). */
  function PyStr(v: Json): string {
    match v
    case JNull => "None"
    case JBool(b) => if b then "True" else "False"
    case JInt(i) => IntToString(i)
    case JFloat(_) => "<float>"
    case JStr(s) => s
    case JList(_) => "[...]"
    case JObj(_) => "{...}"
  }

  /** Whether Python `float(v)` succeeds. */
  predicate PyFloatOk(v: Json) {
    match v
    case JInt(_) => true
    case JFloat(_) => true
    case JBool(_) => true
    case JStr(s) => IsFloatLiteral(s)
    case _ => false
  }

  /** `d.get(key, default)` */
  function Get(d: Object, key: string, default: Json): Json {
    if key in d then d[key] else default
  }
}
