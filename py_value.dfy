/** Python values of the kinds that JSON and YAML documents, tool results and
    template contexts hold in the modelled code. */
module PyValue {
  import opened PyDict
  import opened PyText

  /** A hashable value, as a dict key. */
  datatype Scalar = SNone | SBool(b: bool) | SInt(i: int) | SStr(s: string)

  /** A value: `None`, a bool, an int, a str, a list or a dict. */
  datatype Value =
    | PNone
    | PBool(b: bool)
    | PInt(i: int)
    | PStr(s: string)
    | PList(elems: seq<Value>)
    | PDict(items: Dict<Scalar, Value>)

  /** `bool(v)`: what `if v`, `not v` and `or` test. */
  predicate Truthy(v: Value) {
    match v
    case PNone => false
    case PBool(b) => b
    case PInt(i) => i != 0
    case PStr(s) => s != ""
    case PList(elems) => elems != []
    case PDict(items) => items != []
  }

  /** `str(k)` of a dict key. */
  function KeyText(k: Scalar): string {
    match k
    case SNone => "None"
    case SBool(b) => if b then "True" else "False"
    case SInt(i) => IntToString(i)
    case SStr(s) => s
  }

  /** `str(v)` of a scalar value; `None` for a list or a dict, whose `repr` the
      model does not spell out. */
  function Text(v: Value): (r: Option<string>)
    ensures r.None? <==> v.PList? || v.PDict?
    ensures v.PStr? ==> r == Some(v.s)
  {
    match v
    case PNone => Some("None")
    case PBool(b) => Some(if b then "True" else "False")
    case PInt(i) => Some(IntToString(i))
    case PStr(s) => Some(s)
    case _ => None
  }

  /** `v[k]` for a dict `v` with string key `k`, if present. */
  function Field(v: Value, k: string): Option<Value> {
    if v.PDict? then Get(v.items, SStr(k)) else None
  }

  /** The string keys `k` with `k in v`. */
  predicate HasField(v: Value, k: string) {
    Field(v, k).Some?
  }
}
