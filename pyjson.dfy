/** Decoded JSON as the Python code sees it after `response.json()`, and the few
    pieces of Python semantics the code applies to such values: truthiness,
    `dict.get`, `value[0]`, iteration, and `str()` inside f-strings. */
module PyJson {
  import opened Wrappers
  import opened Text

  /** A JSON value: `null`, booleans, integers and floats (which Python decodes
      to different types), strings, arrays and objects. */
  datatype Json =
    | JNull
    | JBool(b: bool)
    | JInt(i: int)
    | JFloat(f: real)
    | JStr(s: string)
    | JArr(items: seq<Json>)
    | JObj(fields: map<string, Json>)

  /** `bool(v)`: what `if v` and `not v` test. */
  predicate Truthy(v: Json) {
    match v
    case JNull => false
    case JBool(b) => b
    case JInt(i) => i != 0
    case JFloat(f) => f != 0.0
    case JStr(s) => s != []
    case JArr(xs) => xs != []
    case JObj(m) => m != map[]
  }

  /** `d.get(key, default)`. */
  function GetOr(d: map<string, Json>, key: string, default: Json): (r: Json)
    ensures key in d ==> r == d[key]
    ensures key !in d ==> r == default
  {
    if key in d then d[key] else default
  }

  /** `v[0]` on a truthy value; None where Python raises (a dict has no key 0,
      numbers and booleans are not subscriptable). */
  function First(v: Json): (r: Option<Json>)
    ensures v.JArr? && v.items != [] ==> r == Some(v.items[0])
    ensures r.Some? ==> Truthy(v)
  {
    match v
    case JArr(xs) => if xs != [] then Some(xs[0]) else None
    case JStr(s) => if s != [] then Some(JStr([s[0]])) else None
    case _ => None
  }

  /** The elements `for x in v` visits, for a loop whose body needs each element
      to be a dict. None where Python raises: `null`, numbers and booleans are not
      iterable, and a non-empty string or dict yields string elements on which the
      loop body raises at once. */
  function Elements(v: Json): (r: Option<seq<Json>>)
    ensures v.JArr? ==> r == Some(v.items)
    ensures r.Some? ==> v.JArr? || !Truthy(v)
  {
    match v
    case JArr(xs) => Some(xs)
    case JStr(s) => if s == [] then Some([]) else None
    case JObj(m) => if m == map[] then Some([]) else None
    case _ => None
  }

  /** What an f-string prints for `v`: a string stands for itself; every other
      value goes through `repr`, Python's `str()` of that value. */
  function PyStr(v: Json, repr: Json -> string): (r: string)
    ensures v.JStr? ==> r == v.s
  {
    if v.JStr? then v.s else repr(v)
  }

  /** Characters that Python's `repr` of a string shows unchanged. */
  predicate IsPlain(s: string) {
    forall i :: 0 <= i < |s| ==> IsAsciiLetter(s[i]) || IsDigit(s[i]) || s[i] == ' '
  }

  /** What the model relies on about `str()` of a dict: a string value made of
      plain characters appears in it as written (between quotes). */
  ghost predicate ShowsPlainStrings(repr: Json -> string) {
    forall m: map<string, Json>, k: string ::
      k in m && m[k].JStr? && IsPlain(m[k].s) ==> Contains(repr(JObj(m)), m[k].s)
  }

  /** `type(v).__name__` of the decoded value. */
  function TypeName(v: Json): string {
    match v
    case JNull => "NoneType"
    case JBool(_) => "bool"
    case JInt(_) => "int"
    case JFloat(_) => "float"
    case JStr(_) => "str"
    case JArr(_) => "list"
    case JObj(_) => "dict"
  }

  /** What `v[key]` does: the value, a KeyError, or a TypeError on a value that
      is not a dict. */
  datatype Lookup = Found(value: Json) | KeyMissing | NotSubscriptable

  function Index(v: Json, key: string): (r: Lookup)
    ensures r.Found? <==> v.JObj? && key in v.fields
    ensures r.Found? ==> r.value == v.fields[key]
    ensures r.NotSubscriptable? <==> !v.JObj?
  {
    if !v.JObj? then NotSubscriptable
    else if key in v.fields then Found(v.fields[key])
    else KeyMissing
  }

  /** `v[k1][k2]...` along `path`, stopping at the first failing subscript. */
  function IndexPath(v: Json, path: seq<string>): (r: Lookup)
    ensures path == [] ==> r == Found(v)
    decreases |path|
  {
    if path == [] then Found(v)
    else match Index(v, path[0])
      case Found(w) => IndexPath(w, path[1..])
      case KeyMissing => KeyMissing
      case NotSubscriptable => NotSubscriptable
  }

  /** `value or fallback` for an optional string argument: None and "" are falsy. */
  function OrElse(value: Option<string>, fallback: string): (r: string)
    ensures value.Some? && value.value != [] ==> r == value.value
    ensures value.None? || value.value == [] ==> r == fallback
  {
    if value.Some? && value.value != [] then value.value else fallback
  }
}
