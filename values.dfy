/**
 * Parsed JSON and YAML documents as the Python code sees them after `json.load`
 * or `yaml.safe_load`, and the few Python built-ins the code applies to them.
 */
module Values {
  import opened Outcomes

  /** A decoded document: dictionaries have string keys; numbers are integers. */
  datatype Value =
    | Null
    | Bool(b: bool)
    | Num(n: int)
    | Str(s: string)
    | List(items: seq<Value>)
    | Dict(fields: map<string, Value>)

  /** The Python exceptions that operations on a decoded document can raise. */
  datatype PyError = TypeError | AttributeError {
    /** The class name, standing for `str(e)`; Python's message text is not modelled. */
    function Text(): string {
      match this
      case TypeError => "TypeError"
      case AttributeError => "AttributeError"
    }
  }

  /** Python truthiness (`if config:`): empty containers, "", 0, False and None are false. */
  predicate Truthy(v: Value) {
    match v
    case Null => false
    case Bool(b) => b
    case Num(n) => n != 0
    case Str(s) => s != ""
    case List(items) => items != []
    case Dict(fields) => fields != map[]
  }

  /** `len(v)`: defined on strings, lists and dictionaries, a TypeError otherwise. */
  function Len(v: Value): (r: Result<nat, PyError>)
    ensures r.Ok? <==> v.Str? || v.List? || v.Dict?
    ensures v.List? ==> r == Ok(|v.items|)
    ensures v.Str? ==> r == Ok(|v.s|)
    ensures v.Dict? ==> r == Ok(|v.fields|)
  {
    match v
    case Str(s) => Ok(|s|)
    case List(items) => Ok(|items|)
    case Dict(fields) => Ok(|fields|)
    case _ => Err(TypeError)
  }

  /** `v.get(key, default)`: only dictionaries have `get`. */
  function Get(v: Value, key: string, default: Value): (r: Result<Value, PyError>)
    ensures r.Ok? <==> v.Dict?
    ensures v.Dict? && key in v.fields ==> r == Ok(v.fields[key])
    ensures v.Dict? && key !in v.fields ==> r == Ok(default)
  {
    match v
    case Dict(fields) => Ok(if key in fields then fields[key] else default)
    case _ => Err(AttributeError)
  }
}
