/** An already-decoded JSON document, as Python's `json.load` hands it over. */
module Json {
  import opened Wrappers

  datatype Value =
    | Null
    | Bool(b: bool)
    | Int(i: int)
    | Float(f: real)
    | Str(s: string)
    | Array(items: seq<Value>)
    | Object(fields: map<string, Value>)

  /** `isinstance(v, int)`; in Python `bool` is a subclass of `int`. */
  function AsInt(v: Value): (r: Option<int>)
    ensures r.Some? <==> v.Int? || v.Bool?
    ensures v.Int? ==> r == Some(v.i)
    ensures v.Bool? ==> r == Some(if v.b then 1 else 0)
  {
    match v
    case Int(i) => Some(i)
    case Bool(b) => Some(if b then 1 else 0)
    case _ => None
  }

  /** `isinstance(v, (int, float))`, with the value as a real. */
  function AsNumber(v: Value): (r: Option<real>)
    ensures r.Some? <==> v.Int? || v.Bool? || v.Float?
    ensures AsInt(v).Some? ==> r == Some(AsInt(v).value as real)
    ensures v.Float? ==> r == Some(v.f)
  {
    match v
    case Float(f) => Some(f)
    case Int(i) => Some(i as real)
    case Bool(b) => Some(if b then 1.0 else 0.0)
    case _ => None
  }

  /** `d.get(key, default)` */
  function Get(d: map<string, Value>, key: string, default: Value): (r: Value)
    ensures key in d ==> r == d[key]
    ensures key !in d ==> r == default
  {
    if key in d then d[key] else default
  }

  /** Decimal rendering of a natural number, as in `f'Group {i}'`. */
  function NatToString(n: nat): string
  {
    if n < 10 then [Digit(n)] else NatToString(n / 10) + [Digit(n % 10)]
  }

  function Digit(d: nat): char
    requires d < 10
  {
    "0123456789"[d]
  }

  /** The default group label `f'Group {i}'`. */
  function DefaultGroupName(i: nat): Value
  {
    Str("Group " + NatToString(i))
  }
}
