/**
 * The Python values that travel in events, JSON columns and request
 * parameters. The JSON text of a value is not modelled here: wherever the
 * source calls `json.dumps`, the model takes the encoder as a parameter, and
 * a stored event is kept in decoded form (the store's round trip
 * `json.loads(json.dumps(e)) == e` holds by construction).
 */
module Json {
  import Text

  /** None, bool, int, str, list, dict, or a datetime (an abstract instant). */
  datatype Value =
    | Null
    | Bool(b: bool)
    | Int(i: int)
    | Str(s: string)
    | Arr(items: seq<Value>)
    | Obj(fields: Dict)
    | Time(instant: nat)

  /** A dict with string keys; the order of its keys is not modelled. */
  type Dict = map<string, Value>

  /** `d.get(k, default)` */
  function GetOr(d: Dict, k: string, default: Value): Value {
    if k in d then d[k] else default
  }

  /** Python truthiness, `bool(v)`. */
  predicate Truthy(v: Value) {
    match v
    case Null => false
    case Bool(b) => b
    case Int(i) => i != 0
    case Str(s) => s != ""
    case Arr(items) => items != []
    case Obj(fields) => fields != map[]
    case Time(_) => true
  }

  /**
   * `str(v)` as an f-string renders it: exact for None, bool, int and str;
   * a list, a dict or a datetime is rendered by a fixed placeholder.
   */
  function Display(v: Value): string {
    match v
    case Null => "None"
    case Bool(b) => if b then "True" else "False"
    case Int(i) => Text.IntToString(i)
    case Str(s) => s
    case Arr(_) => "[...]"
    case Obj(_) => "{...}"
    case Time(_) => "<datetime>"
  }
}
