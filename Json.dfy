/**
  The loosely typed value that `json.loads` yields from a model response, and the
  bits of Python semantics the normaliser applies to it: `dict.get`, truthiness
  (`x or default`) and `str(x)`.
*/
module Json {
  import opened Text

  datatype Json =
    | JNull
    | JBool(b: bool)
    | JNum(n: int)
    | JStr(s: string)
    | JList(items: seq<Json>)
    | JObject(fields: map<string, Json>)

  /** `obj.get(key)`: a missing key reads as `None`, like an explicit null. */
  function Get(obj: map<string, Json>, key: string): (v: Json)
    ensures key !in obj ==> v == JNull
    ensures key in obj ==> v == obj[key]
  {
    if key in obj then obj[key] else JNull
  }

  /** Python truthiness of a decoded JSON value. */
  predicate Truthy(v: Json) {
    match v
    case JNull => false
    case JBool(b) => b
    case JNum(n) => n != 0
    case JStr(s) => s != []
    case JList(xs) => xs != []
    case JObject(m) => m != map[]
  }

  /**
    Python's `str(x)`. Strings, `None`, booleans and integers render as Python
    renders them; a non-empty list or object renders as a fixed placeholder,
    since the text of Python's container `repr` is not modelled.
  */
  function ToStr(v: Json): (r: string)
    ensures v.JStr? ==> r == v.s
    ensures !v.JStr? ==> r != []
  {
    match v
    case JNull => "None"
    case JBool(b) => if b then "True" else "False"
    case JNum(n) => IntToString(n)
    case JStr(s) => s
    case JList(_) => "[...]"
    case JObject(_) => "{...}"
  }

  /** `x or y` on two decoded values. */
  function Or(x: Json, y: Json): (r: Json)
    ensures Truthy(x) ==> r == x
    ensures !Truthy(x) ==> r == y
  {
    if Truthy(x) then x else y
  }

  /** `str(x or default)` for a string default. */
  function StrOr(x: Json, default: string): (r: string)
    ensures Truthy(x) ==> r == ToStr(x) && r != []
    ensures !Truthy(x) ==> r == default
  {
    if Truthy(x) then ToStr(x) else default
  }
}
