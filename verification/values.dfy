/** Dynamically typed values as they travel through the indexer: database
    rows, chunk metadata and vector-store metadata are Python dictionaries
    whose values may be strings, numbers, booleans, `None`, lists or other
    objects. */
module Values {

  datatype Value =
    | VStr(s: string)
    | VInt(i: int)
    | VFloat(x: real)
    | VBool(b: bool)
    | VNone
    | VList(items: seq<Value>)
    | VDict(entries: map<string, Value>, keys: seq<string>)
    | VOther(kind: string)

  /** A Python dictionary with string keys. As a `VDict` value it also
      carries its keys in insertion order, the order in which iterating the
      dictionary yields them. */
  type Record = map<string, Value>

  /** Python truthiness: empty strings, zero, `False`, `None` and empty
      containers are false; every other object is true. */
  predicate Truthy(v: Value) {
    match v
    case VStr(s) => s != []
    case VInt(i) => i != 0
    case VFloat(x) => x != 0.0
    case VBool(b) => b
    case VNone => false
    case VList(items) => items != []
    case VDict(entries, _) => entries != map[]
    case VOther(_) => true
  }

  /** `isinstance(v, (str, int, float, bool))`. */
  predicate IsScalar(v: Value) {
    v.VStr? || v.VInt? || v.VFloat? || v.VBool?
  }

  /** `d.get(k, default)`. */
  function Get(d: Record, k: string, default: Value): (v: Value)
    ensures k in d ==> v == d[k]
    ensures k !in d ==> v == default
  {
    if k in d then d[k] else default
  }

  /** The record `d` without the key `k` (a dictionary comprehension that
      skips one key). */
  function Without(d: Record, k: string): (r: Record)
    ensures k !in r
    ensures forall key :: key in r <==> key in d && key != k
    ensures forall key :: key in r ==> r[key] == d[key]
  {
    map key | key in d && key != k :: d[key]
  }
}
