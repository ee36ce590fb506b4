/** The untyped Python dict values that payloads from the reputation
    provider, `hardware_info`, `browser_info` and `session_data` carry, with
    the handful of Python built-ins applied to them: `dict.get`, truthiness,
    `len`, `int()`, `isinstance(v, int)` and numeric equality. */
module Values {
  import opened Wrappers
  import opened Strings

  datatype Value =
    | Null
    | Bool(b: bool)
    | Int(i: int)
    | Float(f: real)
    | Str(s: string)
    | List(items: seq<Value>)
    | Obj(fields: map<string, Value>)

  type Dict = map<string, Value>

  /** `d.get(k, default)` */
  function GetOr(d: Dict, k: string, default: Value): (r: Value)
    ensures k in d ==> r == d[k]
    ensures k !in d ==> r == default
  {
    if k in d then d[k] else default
  }

  /** `d.get(k)`: a missing key reads as None. */
  function Get(d: Dict, k: string): (r: Value)
    ensures k in d ==> r == d[k]
    ensures k !in d ==> r == Null
  {
    GetOr(d, k, Null)
  }

  /** `bool(v)` */
  predicate Truthy(v: Value) {
    match v
    case Null => false
    case Bool(b) => b
    case Int(i) => i != 0
    case Float(f) => f != 0.0
    case Str(s) => s != []
    case List(xs) => xs != []
    case Obj(m) => m != map[]
  }

  /** `len(v)`; None where Python raises TypeError. */
  function Len(v: Value): (r: Option<nat>)
    ensures r.Some? <==> (v.Str? || v.List? || v.Obj?)
    ensures v.Str? ==> r == Some(|v.s|)
  {
    match v
    case Str(s) => Some(|s|)
    case List(xs) => Some(|xs|)
    case Obj(m) => Some(|m|)
    case _ => None
  }

  /** Python's type name, as error messages show it. */
  function TypeName(v: Value): string {
    match v
    case Null => "NoneType"
    case Bool(_) => "bool"
    case Int(_) => "int"
    case Float(_) => "float"
    case Str(_) => "str"
    case List(_) => "list"
    case Obj(_) => "dict"
  }

  /** The TypeError `len(v)` raises for a value without a length. */
  function LenError(v: Value): string {
    "TypeError: object of type '" + TypeName(v) + "' has no len()"
  }

  /** `isinstance(v, int)`, which a bool also satisfies. */
  predicate IsInt(v: Value) {
    v.Int? || v.Bool?
  }

  function BoolToInt(b: bool): int {
    if b then 1 else 0
  }

  /** The value of an `int`, `bool` or `float`. */
  function NumberValue(v: Value): (r: Option<real>)
    ensures r.Some? <==> (v.Int? || v.Bool? || v.Float?)
  {
    match v
    case Int(i) => Some(i as real)
    case Bool(b) => Some(BoolToInt(b) as real)
    case Float(f) => Some(f)
    case _ => None
  }

  /** `int(x)` for a float rounds toward zero. */
  function Truncate(x: real): (r: int)
    ensures x >= 0.0 ==> r as real <= x < r as real + 1.0
    ensures x < 0.0 ==> r as real - 1.0 < x <= r as real
  {
    if x >= 0.0 then x.Floor else -((-x).Floor)
  }

  /** `int(v)`; None where Python raises ValueError or TypeError. */
  function ToInt(v: Value): (r: Option<int>)
    ensures v.Int? ==> r == Some(v.i)
    ensures v.Str? ==> r == ParseInt(v.s)
    ensures (v.Null? || v.List? || v.Obj?) ==> r == None
  {
    match v
    case Int(i) => Some(i)
    case Bool(b) => Some(BoolToInt(b))
    case Float(f) => Some(Truncate(f))
    case Str(s) => ParseInt(s)
    case _ => None
  }

  /** `v == n` for an integer `n`: Python compares ints, bools and floats
      by value and every other type as unequal. */
  predicate NumEquals(v: Value, n: int) {
    match v
    case Int(i) => i == n
    case Bool(b) => BoolToInt(b) == n
    case Float(f) => f == n as real
    case _ => false
  }

  /** Numeric equality agrees with the numeric value. */
  lemma NumEqualsValue(v: Value, n: int)
    ensures NumEquals(v, n) <==> NumberValue(v) == Some(n as real)
  {
  }
}
