/** Values shared by the connector's modules: optional values, results, and the
    JSON documents that Python's json module produces. */
module Values {

  datatype Option<+T> = None | Some(value: T)

  /** A value or the exception a Python expression raised instead. */
  datatype Result<+T, +E> = Ok(value: T) | Err(error: E) {
    predicate IsFailure() {
      Err?
    }

    function PropagateFailure<U>(): Result<U, E>
      requires Err?
    {
      Err(error)
    }

    function Extract(): T
      requires Ok?
    {
      value
    }
  }

  /** A parsed JSON document (floating-point numbers are not modelled). */
  datatype Json =
    | JNull
    | JBool(b: bool)
    | JInt(i: int)
    | JStr(s: string)
    | JList(items: seq<Json>)
    | JDict(fields: map<string, Json>)

  /** Python truthiness: `if not v` holds exactly when this is false. */
  predicate Truthy(v: Json) {
    match v
    case JNull => false
    case JBool(b) => b
    case JInt(i) => i != 0
    case JStr(s) => s != ""
    case JList(items) => items != []
    case JDict(fields) => fields != map[]
  }

  /** The name Python gives to the type of the value. */
  function TypeName(v: Json): string {
    match v
    case JNull => "NoneType"
    case JBool(_) => "bool"
    case JInt(_) => "int"
    case JStr(_) => "str"
    case JList(_) => "list"
    case JDict(_) => "dict"
  }

  /** `d.get(key)` on a dictionary: the value under the key, or None. */
  function DictGet(fields: map<string, Json>, key: string): Json {
    if key in fields then fields[key] else JNull
  }
}
