/**
  The Python values the bootstrap script manipulates once its YAML and JSON
  inputs are decoded, with the three pieces of Python semantics the script
  relies on: `dict.get`, equality (`==`, and so `in` on a list) and truthiness.
*/
module Python {
  import opened Wrappers

  /** A decoded Python value. A `dict` is an association list of string keys
      in insertion order; `VOther` stands for a non-iterable value of a type
      the model does not interpret (a float, a date, an opaque object),
      compared by identity. */
  datatype Value =
    | VNone
    | VBool(b: bool)
    | VInt(i: int)
    | VStr(s: string)
    | VList(elems: seq<Value>)
    | VDict(entries: seq<Entry>)
    | VOther(id: nat)

  datatype Entry = Entry(key: string, val: Value)

  /** `k in d.keys()` */
  predicate HasKey(entries: seq<Entry>, k: string) {
    exists i :: 0 <= i < |entries| && entries[i].key == k
  }

  /** `d.get(k)`: the binding of `k`, or nothing. A Python dict holds each key
      once; should the list hold a key twice, the first binding is the one seen. */
  function Get(entries: seq<Entry>, k: string): (r: Option<Value>)
    ensures r.Some? <==> HasKey(entries, k)
    ensures r.Some? ==> exists i :: 0 <= i < |entries| && entries[i] == Entry(k, r.value)
  {
    if |entries| == 0 then None
    else if entries[0].key == k then Some(entries[0].val)
    else
      var r := Get(entries[1..], k);
      assert r.Some? ==> exists i :: 0 <= i < |entries[1..]| && entries[1..][i] == Entry(k, r.value);
      assert forall i :: 0 <= i < |entries[1..]| ==> entries[1..][i] == entries[i + 1];
      r
  }

  /** `d.get(k, default)` */
  function GetOr(entries: seq<Entry>, k: string, default: Value): Value {
    Get(entries, k).GetOr(default)
  }

  /** The numeric view Python's `==` uses for `bool` and `int` (`True == 1`). */
  function AsNumber(v: Value): Option<int> {
    match v
    case VBool(b) => Some(if b then 1 else 0)
    case VInt(i) => Some(i)
    case _ => None
  }

  /** Python's `a == b` on decoded values: numbers compare numerically across
      `bool` and `int`, strings by content, lists element-wise and dicts key by
      key; values of different kinds are never equal. */
  predicate PyEq(a: Value, b: Value)
    decreases a
  {
    match a
    case VNone => b.VNone?
    case VBool(_) => AsNumber(b).Some? && AsNumber(b) == AsNumber(a)
    case VInt(_) => AsNumber(b).Some? && AsNumber(b) == AsNumber(a)
    case VStr(s) => b.VStr? && b.s == s
    case VList(xs) =>
      && b.VList?
      && |xs| == |b.elems|
      && forall i :: 0 <= i < |xs| ==> PyEq(xs[i], b.elems[i])
    case VDict(es) =>
      && b.VDict?
      && |es| == |b.entries|
      && forall i :: 0 <= i < |es| ==>
           HasKey(b.entries, es[i].key) && PyEq(es[i].val, GetOr(b.entries, es[i].key, VNone))
    case VOther(id) => b == VOther(id)
  }

  /** Python's `x in xs` for a list: some element compares equal to `x`. */
  predicate InList(x: Value, xs: seq<Value>) {
    exists k :: 0 <= k < |xs| && PyEq(xs[k], x)
  }

  /** Python's truthiness, as tested by `if v:`. */
  predicate Truthy(v: Value) {
    match v
    case VNone => false
    case VBool(b) => b
    case VInt(i) => i != 0
    case VStr(s) => |s| > 0
    case VList(xs) => |xs| > 0
    case VDict(es) => |es| > 0
    case VOther(_) => true
  }

  /** The values `for x in v` visits, or nothing when `v` is not iterable:
      a list yields its elements, a string its one-character strings and a
      dict its keys, in order. */
  function Iterate(v: Value): (r: Option<seq<Value>>)
    ensures r.Some? <==> (v.VList? || v.VStr? || v.VDict?)
    ensures v.VList? ==> r == Some(v.elems)
    ensures v.VStr? ==> |r.value| == |v.s| && forall i :: 0 <= i < |v.s| ==> r.value[i] == VStr([v.s[i]])
    ensures v.VDict? ==> |r.value| == |v.entries| && forall i :: 0 <= i < |v.entries| ==> r.value[i] == VStr(v.entries[i].key)
  {
    match v
    case VList(xs) => Some(xs)
    case VStr(s) => Some(seq(|s|, i requires 0 <= i < |s| => VStr([s[i]])))
    case VDict(es) => Some(seq(|es|, i requires 0 <= i < |es| => VStr(es[i].key)))
    case _ => None
  }
}
