/** Decoded JSON values as the adapter's Python code sees them (`response.json()`
    and the payload dictionaries), with the few Python built-ins it applies to them:
    truthiness, `type(x).__name__`, `str(x)` and `dict.get`. */
module JsonValues {

  /** A decoded JSON value. `Null` is Python's `None`; numbers are integers. */
  datatype Json =
    | Null
    | Bool(b: bool)
    | Number(n: int)
    | String(s: string)
    | Array(items: seq<Json>)
    | Object(fields: map<string, Json>)

  /** A JSON object decoded to a Python `dict`. */
  type Fields = map<string, Json>

  /** Python truthiness: `None`, `False`, `0`, `""`, `[]` and `{}` are false. */
  predicate Truthy(j: Json) {
    match j
    case Null => false
    case Bool(b) => b
    case Number(n) => n != 0
    case String(s) => s != ""
    case Array(items) => items != []
    case Object(fields) => fields != map[]
  }

  /** `type(x).__name__` of the Python object a JSON value decodes to. */
  function TypeName(j: Json): string {
    match j
    case Null => "NoneType"
    case Bool(_) => "bool"
    case Number(_) => "int"
    case String(_) => "str"
    case Array(_) => "list"
    case Object(_) => "dict"
  }

  /** `d.get(key)`: the value under `key`, or `None` when the key is absent. */
  function Lookup(d: Fields, key: string): (v: Json)
    ensures key !in d ==> v == Null
    ensures key in d ==> v == d[key]
  {
    if key in d then d[key] else Null
  }

  function DigitChar(d: int): char
    requires 0 <= d < 10
  {
    ('0' as int + d) as char
  }

  /** The decimal digits of a natural number, most significant first. */
  function NatToDecimal(n: nat): (s: string)
    ensures |s| > 0
    ensures forall i :: 0 <= i < |s| ==> '0' <= s[i] <= '9'
    decreases n
  {
    if n < 10 then [DigitChar(n)] else NatToDecimal(n / 10) + [DigitChar(n % 10)]
  }

  /** `str(n)` for a Python `int`. */
  function IntToDecimal(n: int): string {
    if n < 0 then "-" + NatToDecimal(-n) else NatToDecimal(n)
  }

  /** `str(x)` as used inside the adapter's f-strings. Scalars print as Python
      prints them; arrays and objects print as a fixed placeholder. */
  function PyStr(j: Json): string {
    match j
    case Null => "None"
    case Bool(b) => if b then "True" else "False"
    case Number(n) => IntToDecimal(n)
    case String(s) => s
    case Array(_) => "[...]"
    case Object(_) => "{...}"
  }
}
