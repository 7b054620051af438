/** The values a setting can hold, and Python's truth test on them. */
module Values {

  /** The Python values that settings take in practice. */
  datatype Value =
    | VList(elems: seq<Value>)
    | VTuple(elems: seq<Value>)
    | VSet(members: set<Value>)
    | VDict(entries: map<Value, Value>)
    | VStr(s: string)
    | VInt(i: int)
    | VBool(b: bool)
    | VNone

  /** Python's `bool(v)`: empty containers, the empty string, zero, False and None are falsy. */
  predicate Truthy(v: Value)
  {
    match v
    case VList(e) => |e| != 0
    case VTuple(e) => |e| != 0
    case VSet(m) => m != {}
    case VDict(d) => d != map[]
    case VStr(s) => s != ""
    case VInt(i) => i != 0
    case VBool(b) => b
    case VNone => false
  }

  /** `isinstance(v, (list, tuple))`. */
  predicate IsListOrTuple(v: Value)
  {
    v.VList? || v.VTuple?
  }
}
