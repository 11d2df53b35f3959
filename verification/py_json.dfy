/** JSON values as Python sees them: `dict.get`, truthiness, `or` and `str`. */
module PyJson {
  import opened PyText

  datatype Json =
    | Null
    | Bool(b: bool)
    | Num(n: int)
    | Str(s: string)
    | Arr(items: seq<Json>)
    | Obj(fields: map<string, Json>)

  /** `j.get(key, default)`; a value that is no object has no keys. */
  function GetOr(j: Json, key: string, default: Json): Json {
    if j.Obj? && key in j.fields then j.fields[key] else default
  }

  function Get(j: Json, key: string): Json {
    GetOr(j, key, Null)
  }

  /** `bool(j)`. */
  predicate Truthy(j: Json) {
    match j
    case Null => false
    case Bool(b) => b
    case Num(n) => n != 0
    case Str(s) => s != ""
    case Arr(items) => items != []
    case Obj(fields) => fields != map[]
  }

  /** `a or b`. */
  function Or(a: Json, b: Json): Json {
    if Truthy(a) then a else b
  }

  /** `str(j)`. The text Python would print for a list or a dict is not modelled. */
  function PyStr(j: Json): string {
    match j
    case Null => "None"
    case Bool(b) => if b then "True" else "False"
    case Num(n) => PrintInt(n)
    case Str(s) => s
    case Arr(_) => "[...]"
    case Obj(_) => "{...}"
  }

  /** `str(j or "")`. */
  function StrOrEmpty(j: Json): string {
    PyStr(Or(j, Str("")))
  }

  /** Values that may be put in a set or looked up in one. */
  predicate Hashable(j: Json) {
    !j.Arr? && !j.Obj?
  }

  /** The element of a set a value stands for: `True` and `1` are the same element. */
  function SetElement(j: Json): Json {
    if j.Bool? then Num(if j.b then 1 else 0) else j
  }

  /** The elements `for x in j` visits that can be objects; `None` when `j` is not iterable. */
  function Objects(j: Json): Option<seq<Json>> {
    match j
    case Arr(items) => Some(items)
    case Str(_) => Some([])
    case Obj(_) => Some([])
    case Null => None
    case Bool(_) => None
    case Num(_) => None
  }

  predicate IsStr(j: Json, values: set<string>) {
    j.Str? && j.s in values
  }
}
