/**
 * The values that flow through the gateway's dictionaries (keyword arguments,
 * JSON request bodies, metadata records), with Python's truthiness.
 */
module PyValues {
  import Text

  datatype Value =
    | Null
    | Bool(b: bool)
    | Int(i: int)
    | Num(r: real)
    | Str(s: string)
    | Reals(rs: seq<real>)
    | Strs(ss: seq<string>)

  /** `bool(v)` in Python. */
  predicate Truthy(v: Value) {
    match v
    case Null => false
    case Bool(b) => b
    case Int(i) => i != 0
    case Num(r) => r != 0.0
    case Str(s) => s != ""
    case Reals(rs) => rs != []
    case Strs(ss) => ss != []
  }

  /** A dictionary with string keys. */
  type Dict = map<string, Value>

  /** `d.get(k)`: a missing key reads as `None`. */
  function Get(d: Dict, k: string): Value {
    if k in d then d[k] else Null
  }

  /** `d.get(k, default)`. */
  function GetOr(d: Dict, k: string, default: Value): Value {
    if k in d then d[k] else default
  }

  /** `Str(s)` when the value is truthy and a string. */
  predicate IsNonEmptyStr(v: Value) {
    v.Str? && v.s != ""
  }

  /**
   * `str(v)` for the values whose text is fixed by Python: `None`, booleans,
   * integers and strings. Other values are not rendered.
   */
  function ValueText(v: Value): (r: string)
    ensures v.Str? ==> r == v.s
    ensures v.Int? && v.i >= 0 ==> r == Text.NatToString(v.i)
  {
    match v
    case Null => "None"
    case Bool(b) => if b then "True" else "False"
    case Int(i) => if i < 0 then "-" + Text.NatToString(-i) else Text.NatToString(i)
    case Str(s) => s
    case _ => ""
  }
}
