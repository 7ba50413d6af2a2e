/** The loosely-typed values the application receives from JSON: request
    bodies, the transcript service's replies and the parsed quiz payload. */
module JsonValue {

  datatype Json =
    | Null
    | Bool(b: bool)
    | Num(n: int)
    | Str(s: string)
    | List(items: seq<Json>)
    | Obj(fields: map<string, Json>)

  /** Python truthiness of the value (`if x:`). */
  predicate Truthy(j: Json) {
    match j
    case Null => false
    case Bool(b) => b
    case Num(n) => n != 0
    case Str(s) => s != []
    case List(xs) => xs != []
    case Obj(m) => m != map[]
  }

  /** Whether Python's `len()` accepts the value. */
  predicate Sized(j: Json) {
    j.Str? || j.List? || j.Obj?
  }

  /** The name Python reports for the value's type in an exception message. */
  function TypeName(j: Json): string {
    match j
    case Null => "NoneType"
    case Bool(_) => "bool"
    case Num(_) => "int"
    case Str(_) => "str"
    case List(_) => "list"
    case Obj(_) => "dict"
  }

  /** `d.get(key, default)` on a dictionary. */
  function Get(m: map<string, Json>, key: string, default: Json): Json {
    if key in m then m[key] else default
  }

  /** What a Python call did: returned a value, or raised an exception whose
      `str()` is `error`. */
  datatype Outcome<T> = Returned(value: T) | Raised(error: string)
}
