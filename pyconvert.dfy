/**
 * Python's `float(v)` and `int(v)` applied to decoded JSON values. Both are
 * partial: where Python raises, these return None.
 */
module PyConvert {
  import opened Wrappers
  import opened PyValue
  import opened PyText

  /** `int(r)` for a float: truncation toward zero. */
  function Trunc(r: real): (n: int)
    ensures r >= 0.0 ==> 0.0 <= n as real <= r < n as real + 1.0
    ensures r < 0.0 ==> n as real - 1.0 < r <= n as real <= 0.0
  {
    if r >= 0.0 then r.Floor else -((-r).Floor)
  }

  /** `float(v)`: booleans and numbers convert, strings are parsed, and
      `None`, lists and dicts raise `TypeError`. */
  function ToFloat(v: Json): (r: Option<real>)
    ensures v.JNull? || v.JArr? || v.JObj? ==> r.None?
    ensures v.JBool? ==> r == Some(if v.b then 1.0 else 0.0)
    ensures v.JInt? ==> r == Some(v.i as real)
    ensures v.JNum? ==> r == Some(v.r)
    ensures v.JStr? ==> r == ParseFloatText(v.s)
  {
    match v
    case JBool(b) => Some(if b then 1.0 else 0.0)
    case JInt(i) => Some(i as real)
    case JNum(x) => Some(x)
    case JStr(s) => ParseFloatText(s)
    case _ => None
  }

  /** `int(v)`: booleans and integers convert, floats truncate toward zero,
      strings must spell an integer, and `None`, lists and dicts raise. */
  function ToInt(v: Json): (r: Option<int>)
    ensures v.JNull? || v.JArr? || v.JObj? ==> r.None?
    ensures v.JBool? ==> r == Some(if v.b then 1 else 0)
    ensures v.JInt? ==> r == Some(v.i)
    ensures v.JNum? ==> r == Some(Trunc(v.r))
    ensures v.JStr? ==> r == ParseIntText(v.s)
  {
    match v
    case JBool(b) => Some(if b then 1 else 0)
    case JInt(i) => Some(i)
    case JNum(x) => Some(Trunc(x))
    case JStr(s) => ParseIntText(s)
    case _ => None
  }

  /** Whatever `int(v)` accepts, `float(v)` accepts too, and for every value
      but a fractional float the two agree. */
  lemma IntImpliesFloat(v: Json)
    requires ToInt(v).Some?
    ensures ToFloat(v).Some?
    ensures !v.JNum? ==> ToFloat(v) == Some(ToInt(v).value as real)
  {
    if v.JStr? {
      IntTextIsFloatText(v.s);
    }
  }
}
