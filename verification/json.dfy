/**
 * Parsed JSON as the Python core sees it: `json.loads` output, where JSON
 * null is Python's None, numbers are int or float, and objects are dicts.
 * Also the few Python operations the core applies to such values:
 * `dict.get`, truthiness, `len` and binary minus.
 */
module Json {
  import opened Wrappers

  datatype JsonValue =
    | JNull
    | JBool(b: bool)
    | JNumber(n: real)
    | JString(s: string)
    | JArray(items: seq<JsonValue>)
    | JObject(fields: map<string, JsonValue>)

  /** The exceptions the core lets escape to its caller. */
  datatype Error =
    | NoLength(field: string)          // TypeError: `len()` of a value that has no length (None, a number, a bool);
                                       // Python's message names no field, `field` only records which `len` call raised
    | UnequalLengths                   // ValueError raised by `__post_init__`
    | NotAMapping(key: string)         // AttributeError: `.get` called on a block that is not a dict
    | BadOperand                       // TypeError: unsupported operand types for `-`
    | UnsupportedColumn(field: string) // a string or dict column: accepted by `len`, not modelled beyond it

  /** `d.get(key)`: None when the key is absent. */
  function Get(d: map<string, JsonValue>, key: string): JsonValue {
    if key in d then d[key] else JNull
  }

  /** `d.get(key, default)`: the default only when the key is absent. */
  function GetOr(d: map<string, JsonValue>, key: string, default: JsonValue): JsonValue {
    if key in d then d[key] else default
  }

  /** Python truthiness (`if v:`) of a parsed JSON value. */
  predicate Truthy(v: JsonValue) {
    match v
    case JNull => false
    case JBool(b) => b
    case JNumber(x) => x != 0.0
    case JString(s) => s != []
    case JArray(a) => a != []
    case JObject(m) => m != map[]
  }

  /** Values that support `len()`: lists, strings and dicts. */
  predicate Sized(v: JsonValue) {
    v.JArray? || v.JString? || v.JObject?
  }

  function Len(v: JsonValue): nat
    requires Sized(v)
  {
    match v
    case JArray(a) => |a|
    case JString(s) => |s|
    case JObject(m) => |m|
  }

  /** Values that support `-`: numbers, and bools, which Python treats as 0 and 1. */
  predicate IsNumeric(v: JsonValue) {
    v.JNumber? || v.JBool?
  }

  function Num(v: JsonValue): real
    requires IsNumeric(v)
  {
    if v.JNumber? then v.n else if v.b then 1.0 else 0.0
  }

  /** Python's `a - b` on two parsed values. */
  function Minus(a: JsonValue, b: JsonValue): Result<real, Error> {
    if IsNumeric(a) && IsNumeric(b) then Ok(Num(a) - Num(b)) else Err(BadOperand)
  }
}
