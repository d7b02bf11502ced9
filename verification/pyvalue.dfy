/** The JSON-like values held in the dictionaries the handlers pass around
    (request bodies, query strings, `meta_data`), with Python's truthiness,
    `dict.get` and `or`. */
module PyValue {
  import opened PyText

  datatype Value =
    | VNone
    | VBool(b: bool)
    | VInt(i: int)
    | VStr(s: string)

  type Dict = map<string, Value>

  /** Python truthiness: None, False, 0 and "" are false. */
  predicate Truthy(v: Value) {
    match v
    case VNone => false
    case VBool(b) => b
    case VInt(i) => i != 0
    case VStr(s) => s != ""
  }

  /** `d.get(key)`: a missing key reads as None. */
  function Get(d: Dict, key: string): (v: Value)
    ensures key !in d ==> v == VNone
    ensures key in d ==> v == d[key]
  {
    if key in d then d[key] else VNone
  }

  /** Python's `a or b`: the first operand when it is truthy, else the second. */
  function Or(a: Value, b: Value): (r: Value)
    ensures Truthy(a) ==> r == a
    ensures !Truthy(a) ==> r == b
    ensures Truthy(r) <==> Truthy(a) || Truthy(b)
  {
    if Truthy(a) then a else b
  }

  /** `str(v)`, as an f-string renders it. */
  function Str(v: Value): (s: string)
    ensures v.VStr? ==> s == v.s
    ensures v.VNone? ==> s == "None"
  {
    match v
    case VNone => "None"
    case VBool(b) => if b then "True" else "False"
    case VInt(i) => IntToString(i)
    case VStr(s) => s
  }
}
