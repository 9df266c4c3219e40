/**
 * JSON-like payload values, as the tracing proxies build them from Python
 * dicts, lists and scalars before handing them to a recording session.
 */
module Values {

  /** A value that can appear inside a step payload. `Null` is Python's `None`. */
  datatype Value =
    | Null
    | Bool(b: bool)
    | Int(i: int)
    | Float(r: real)
    | Str(s: string)
    | List(items: seq<Value>)
    | Object(fields: Dict)

  /**
   * A Python dict with string keys: a payload, or the keyword arguments of a
   * call. The insertion order of the keys is not represented.
   */
  type Dict = map<string, Value>

  /** `d.get(key, default)`. */
  function Get(d: Dict, key: string, default: Value): Value {
    if key in d then d[key] else default
  }

  /** Python's truth value of a JSON-like value (`bool(v)`). */
  predicate Truthy(v: Value) {
    match v
    case Null => false
    case Bool(b) => b
    case Int(i) => i != 0
    case Float(r) => r != 0.0
    case Str(s) => s != ""
    case List(items) => items != []
    case Object(fields) => fields != map[]
  }

  /** `{"type": "text", "text": text}`, the shape of a recorded text content block. */
  function TextBlock(text: Value): Value {
    Object(map["type" := Str("text"), "text" := text])
  }
}
