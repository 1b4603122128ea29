/**
 * The Python values that flow through the settings, the front matter and
 * the render contexts, restricted to what JSON and the settings schema can
 * describe, together with Python's truthiness and the exceptions that the
 * modelled code can raise.
 */
module Values {

  /**
   * A Python value. A dict is `Object(keys, fields)`: `keys` is its
   * insertion order and `fields` its key-to-value mapping.
   */
  datatype Value =
    | Null
    | Bool(b: bool)
    | Int(i: int)
    | Str(s: string)
    | Array(items: seq<Value>)
    | Object(keys: seq<string>, fields: map<string, Value>)

  /** Python's `bool(v)`. */
  predicate Truthy(v: Value) {
    match v
    case Null => false
    case Bool(b) => b
    case Int(i) => i != 0
    case Str(s) => s != ""
    case Array(xs) => xs != []
    case Object(_, f) => f != map[]
  }

  /** What every Python dict satisfies: its key order lists each of its keys exactly once. */
  predicate IsDict(v: Value) {
    && v.Object?
    && (forall i, j :: 0 <= i < j < |v.keys| ==> v.keys[i] != v.keys[j])
    && (forall k :: k in v.fields ==> k in v.keys)
    && (forall i :: 0 <= i < |v.keys| ==> v.keys[i] in v.fields)
  }

  /** Python's `d.get(key, default)` on a mapping. */
  function Get(d: map<string, Value>, key: string, default: Value): (r: Value)
    ensures key in d ==> r == d[key]
    ensures key !in d ==> r == default
  {
    if key in d then d[key] else default
  }

  /** The Python exceptions the modelled code can raise and does not catch. */
  datatype PyError =
    | TypeError       // an operation on a value of the wrong type (`len(True)`, `1 in 5`)
    | KeyError        // a missing dict key (`format_data["extra_args"]`)
    | AttributeError  // a missing attribute (`5 .get`, an unset `feature_file_abspath`)
    | IndexError      // a list index out of range (`lines[step.line - 1]`)
    | OSError         // a file that cannot be opened
    | TemplateError   // any exception out of a template engine
    | FormatError     // any exception out of `str.format`

  /** A value, or the exception raised instead of producing it. */
  datatype Result<+T> = Ok(value: T) | Err(error: PyError)
}
