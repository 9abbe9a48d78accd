/** JSON-like values as the tool receives them from its host, with the two
    Python behaviours the search compiler leans on: dictionary `get` (an
    absent key reads as `None`) and truthiness (what `x or default` tests). */
module Json {

  /** A decoded argument value: `None`, a string, an integer, a float, a
      boolean, a list or a dictionary with string keys. */
  datatype Value =
    | Null
    | Str(s: string)
    | Int(i: int)
    | Real(r: real)
    | Bool(b: bool)
    | List(items: seq<Value>)
    | Object(fields: map<string, Value>)

  /** Python truthiness: `None`, `""`, `0`, `0.0`, `False`, `[]` and `{}` are
      false, everything else is true. */
  predicate Truthy(v: Value)
  {
    match v
    case Null => false
    case Str(s) => s != ""
    case Int(i) => i != 0
    case Real(r) => r != 0.0
    case Bool(b) => b
    case List(items) => items != []
    case Object(fields) => fields != map[]
  }

  /** Python `x or default`: `x` itself when it is truthy, otherwise `default`. */
  function Or(x: Value, default: Value): Value
  {
    if Truthy(x) then x else default
  }

  /** Python `d.get(k)` on a dictionary: the stored value, or `None`. */
  function Get(d: Value, k: string): Value
    requires d.Object?
  {
    if k in d.fields then d.fields[k] else Null
  }

  /** Values Python can hash, and so look up in a dictionary; lists and
      dictionaries cannot. */
  predicate Hashable(v: Value)
  {
    !v.List? && !v.Object?
  }
}
