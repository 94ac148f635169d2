/** JSON-compatible Python values, as they flow between the tools, the
    metadata maps and the execution result. */
module Json {

  datatype Json =
    | Null
    | Bool(b: bool)
    | Num(n: int)
    | Str(s: string)
    | Arr(items: seq<Json>)
    | Obj(fields: map<string, Json>)

  /** The empty dict `{}`. */
  const EmptyObj: Json := Obj(map[])

  /** Python truthiness: None, False, 0, "", [] and {} are falsy. */
  predicate Truthy(j: Json) {
    match j
    case Null => false
    case Bool(b) => b
    case Num(n) => n != 0
    case Str(s) => s != ""
    case Arr(a) => a != []
    case Obj(o) => o != map[]
  }

  /** `x or default` for a JSON value. */
  function OrDefault(j: Json, default: Json): Json {
    if Truthy(j) then j else default
  }
}
