/**
 * Decoded JSON values as the Python client holds them, with the two pieces of
 * Python semantics the market pipeline leans on: truthiness (what `a or b`
 * picks) and dictionary-key identity (what `d[k]` groups together).
 */
module PyValue {
  import opened Wrappers

  /** A value produced by `json.loads`: integers and non-integral numbers are
      kept apart as Python does (`int` and `float`); floats are exact reals. */
  datatype Json =
    | JNull
    | JBool(b: bool)
    | JInt(i: int)
    | JNum(r: real)
    | JStr(s: string)
    | JArr(elems: seq<Json>)
    | JObj(fields: map<string, Json>)

  /** Python truthiness: `None`, `False`, zero, and empty strings, lists and
      dicts are false; everything else is true. */
  predicate Truthy(v: Json) {
    match v
    case JNull => false
    case JBool(b) => b
    case JInt(i) => i != 0
    case JNum(r) => r != 0.0
    case JStr(s) => s != ""
    case JArr(a) => a != []
    case JObj(m) => m != map[]
  }

  /** `d.get(k)`: the value under `k`, or `None` when the key is missing. */
  function Get(m: map<string, Json>, k: string): (v: Json)
    ensures k !in m ==> v == JNull
    ensures k in m ==> v == m[k]
  {
    if k in m then m[k] else JNull
  }

  /** `a or b`: the first operand when it is truthy, the second otherwise. */
  function Or(a: Json, b: Json): (r: Json)
    ensures Truthy(a) ==> r == a
    ensures !Truthy(a) ==> r == b
    ensures r == a || r == b
    ensures Truthy(r) <==> Truthy(a) || Truthy(b)
  {
    if Truthy(a) then a else b
  }

  /** What a value is as a dictionary key. Python makes `True == 1 == 1.0`
      hash and compare equal, so booleans and both kinds of number become
      one numeric key. */
  datatype Key = KNone | KNum(n: real) | KStr(s: string)

  /** The key a value stands for, or None when it cannot be a key at all
      (lists and dicts are unhashable and raise `TypeError`). */
  function HashKey(v: Json): (k: Option<Key>)
    ensures k.None? <==> v.JArr? || v.JObj?
    ensures v.JStr? ==> k == Some(KStr(v.s))
  {
    match v
    case JNull => Some(KNone)
    case JBool(b) => Some(KNum(if b then 1.0 else 0.0))
    case JInt(i) => Some(KNum(i as real))
    case JNum(r) => Some(KNum(r))
    case JStr(s) => Some(KStr(s))
    case JArr(_) => None
    case JObj(_) => None
  }

  /** The number a boolean, integer or float stands for in `==`. */
  function NumericValue(v: Json): Option<real> {
    match v
    case JBool(b) => Some(if b then 1.0 else 0.0)
    case JInt(i) => Some(i as real)
    case JNum(r) => Some(r)
    case _ => None
  }

  /** Python's `==` between two hashable values: numbers (booleans
      included) compare by value across types; `None` equals only `None` and
      a string only the same string. */
  predicate PyEq(a: Json, b: Json) {
    if NumericValue(a).Some? && NumericValue(b).Some? then NumericValue(a) == NumericValue(b)
    else a == b
  }

  /** Two hashable values land on the same dictionary key exactly when they
      are `==`, as Python requires of `hash` and `==`. */
  lemma HashKeyIsEquality(a: Json, b: Json)
    requires HashKey(a).Some? && HashKey(b).Some?
    ensures HashKey(a) == HashKey(b) <==> PyEq(a, b)
  {
  }

  /** `True`, `1` and `1.0` are one key, as are `False`, `0` and `0.0`;
      neither `None` nor the text "1" shares a key with a number. */
  lemma NumericKeysCoincide()
    ensures HashKey(JBool(true)) == HashKey(JInt(1)) == HashKey(JNum(1.0))
    ensures HashKey(JBool(false)) == HashKey(JInt(0)) == HashKey(JNum(0.0))
    ensures HashKey(JNull) != HashKey(JInt(0))
    ensures HashKey(JStr("1")) != HashKey(JInt(1))
  {
  }
}
