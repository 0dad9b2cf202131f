/**
 * The price-range filter applied to the raw rows whenever the bounds change
 * (paladium_desktop.py:179-188): keep a row when its price converts with
 * `float()` and lies within the optional inclusive bounds typed by the user.
 * A bound is given as text; empty text (after stripping) means no bound, and
 * text that does not convert raises out of the filter.
 */
module PriceFilter {
  import opened Wrappers
  import opened PyValue
  import opened PyText
  import opened PyConvert
  import opened Normalizer

  /** The bound text that `float()` rejected. */
  datatype FilterError = BadBound(text: string)

  /** What a bound text means: Some(None) for no bound, Some(Some(v)) for the
      bound v, None for text `float()` rejects. */
  function Bound(text: string): Option<Option<real>> {
    var t := Strip(text);
    if t == "" then Some(None)
    else match ParseFloatText(t)
      case Some(v) => Some(Some(v))
      case None => None
  }

  /** The decision `price_ok` reaches from the converted price `p` and the
      converted bounds: a price that failed to convert rejects the row before
      either bound is looked at, and the upper bound is looked at only when
      the lower one did not already reject the row. */
  function Decide(p: Option<real>, lo: Option<Option<real>>, hi: Option<Option<real>>,
                  mn: string, mx: string): Result<bool, FilterError>
  {
    match p
    case None => Ok(false)
    case Some(v) =>
      match lo
      case None => Err(BadBound(mn))
      case Some(l) =>
        if l.Some? && v < l.value then Ok(false)
        else
          match hi
          case None => Err(BadBound(mx))
          case Some(h) => Ok(!(h.Some? && v > h.value))
  }

  /** `price_ok(r)`: convert the row's price, then the stripped bound texts. */
  function PriceOk(r: Row, minText: string, maxText: string): Result<bool, FilterError> {
    Decide(ToFloat(r.price), Bound(minText), Bound(maxText), Strip(minText), Strip(maxText))
  }

  /** `[r for r in rows if price_ok(r)]`: the first exception ends it. */
  function Filter(rows: seq<Row>, minText: string, maxText: string): Result<seq<Row>, FilterError> {
    Sift(rows, Bound(minText), Bound(maxText), Strip(minText), Strip(maxText))
  }

  /** The comprehension over rows once the bound texts have their meanings
      `lo` and `hi`; `mn` and `mx` are the texts an error reports. */
  function Sift(rows: seq<Row>, lo: Option<Option<real>>, hi: Option<Option<real>>,
                mn: string, mx: string): Result<seq<Row>, FilterError>
  {
    if rows == [] then Ok([])
    else
      match Decide(ToFloat(rows[0].price), lo, hi, mn, mx)
      case Err(e) => Err(e)
      case Ok(keep) =>
        match Sift(rows[1..], lo, hi, mn, mx)
        case Err(e) => Err(e)
        case Ok(rest) => Ok(if keep then [rows[0]] + rest else rest)
  }

  predicate InRange(p: real, lo: Option<real>, hi: Option<real>) {
    (lo.None? || lo.value <= p) && (hi.None? || p <= hi.value)
  }

  /** The reference definition of a kept row: its price is a number within
      the inclusive bounds. */
  predicate Kept(r: Row, lo: Option<real>, hi: Option<real>) {
    ToFloat(r.price).Some? && InRange(ToFloat(r.price).value, lo, hi)
  }

  /** The rows that are kept, in their original order. */
  function Select(rows: seq<Row>, lo: Option<real>, hi: Option<real>): seq<Row> {
    if rows == [] then []
    else (if Kept(rows[0], lo, hi) then [rows[0]] else []) + Select(rows[1..], lo, hi)
  }

  /** When a row's price converts, `price_ok` raises exactly when the lower
      bound is bad, or the lower bound lets the row through and the upper
      bound is bad. */
  predicate Raises(r: Row, minText: string, maxText: string) {
    RaisesAt(ToFloat(r.price), Bound(minText), Bound(maxText))
  }

  predicate RaisesAt(p: Option<real>, lo: Option<Option<real>>, hi: Option<Option<real>>) {
    && p.Some?
    && (|| lo.None?
        || (&& (lo.value.None? || lo.value.value <= p.value)
            && hi.None?))
  }

  lemma PriceOkMeaning(r: Row, minText: string, maxText: string)
    ensures PriceOk(r, minText, maxText).Err? <==> Raises(r, minText, maxText)
    ensures Bound(minText).Some? && Bound(maxText).Some? ==>
              PriceOk(r, minText, maxText) == Ok(Kept(r, Bound(minText).value, Bound(maxText).value))
  {
    DecideMeaning(ToFloat(r.price), Bound(minText), Bound(maxText), Strip(minText), Strip(maxText));
  }

  lemma DecideMeaning(p: Option<real>, lo: Option<Option<real>>, hi: Option<Option<real>>,
                      mn: string, mx: string)
    ensures Decide(p, lo, hi, mn, mx).Err? <==> RaisesAt(p, lo, hi)
    ensures lo.Some? && hi.Some? ==>
              Decide(p, lo, hi, mn, mx) == Ok(p.Some? && InRange(p.value, lo.value, hi.value))
  {
  }

  /** With both bounds well-formed the filter never raises, and it returns
      exactly the kept rows in order. */
  lemma FilterIsSelect(rows: seq<Row>, minText: string, maxText: string)
    requires Bound(minText).Some? && Bound(maxText).Some?
    ensures Filter(rows, minText, maxText) == Ok(Select(rows, Bound(minText).value, Bound(maxText).value))
  {
    SiftIsSelect(rows, Bound(minText), Bound(maxText), Strip(minText), Strip(maxText));
  }

  lemma {:induction false} SiftIsSelect(rows: seq<Row>, lo: Option<Option<real>>, hi: Option<Option<real>>,
                                        mn: string, mx: string)
    requires lo.Some? && hi.Some?
    ensures Sift(rows, lo, hi, mn, mx) == Ok(Select(rows, lo.value, hi.value))
  {
    if rows != [] {
      var keep := Kept(rows[0], lo.value, hi.value);
      DecideMeaning(ToFloat(rows[0].price), lo, hi, mn, mx);
      assert Decide(ToFloat(rows[0].price), lo, hi, mn, mx) == Ok(keep);
      SiftIsSelect(rows[1..], lo, hi, mn, mx);
      var rest := Select(rows[1..], lo.value, hi.value);
      assert Sift(rows, lo, hi, mn, mx) == Ok(if keep then [rows[0]] + rest else rest);
      if keep {
        assert Select(rows, lo.value, hi.value) == [rows[0]] + rest;
      } else {
        assert Select(rows, lo.value, hi.value) == [] + rest == rest;
      }
    }
  }

  /** The filter raises exactly when some row makes `price_ok` raise: a bad
      bound goes unnoticed as long as no row's price gets as far as it. */
  lemma FilterRaises(rows: seq<Row>, minText: string, maxText: string)
    ensures Filter(rows, minText, maxText).Err? <==>
              exists i | 0 <= i < |rows| :: Raises(rows[i], minText, maxText)
  {
    SiftRaises(rows, Bound(minText), Bound(maxText), Strip(minText), Strip(maxText));
  }

  lemma {:induction false} SiftRaises(rows: seq<Row>, lo: Option<Option<real>>, hi: Option<Option<real>>,
                                      mn: string, mx: string)
    ensures Sift(rows, lo, hi, mn, mx).Err? <==>
              exists i | 0 <= i < |rows| :: RaisesAt(ToFloat(rows[i].price), lo, hi)
  {
    if rows != [] {
      DecideMeaning(ToFloat(rows[0].price), lo, hi, mn, mx);
      SiftRaises(rows[1..], lo, hi, mn, mx);
      if exists i | 0 <= i < |rows| :: RaisesAt(ToFloat(rows[i].price), lo, hi) {
        var i :| 0 <= i < |rows| && RaisesAt(ToFloat(rows[i].price), lo, hi);
        if i > 0 { assert rows[1..][i - 1] == rows[i]; }
      }
      if exists i | 0 <= i < |rows[1..]| :: RaisesAt(ToFloat(rows[1..][i].price), lo, hi) {
        var i :| 0 <= i < |rows[1..]| && RaisesAt(ToFloat(rows[1..][i].price), lo, hi);
        assert rows[i + 1] == rows[1..][i];
      }
    }
  }

  /** Every row the reference keeps has a convertible price within bounds,
      every such row of the input is kept, and each is kept as many times as
      it occurs. */
  lemma {:induction false} SelectContents(rows: seq<Row>, lo: Option<real>, hi: Option<real>, r: Row)
    ensures multiset(Select(rows, lo, hi))[r] == if Kept(r, lo, hi) then multiset(rows)[r] else 0
  {
    if rows != [] {
      SelectContents(rows[1..], lo, hi, r);
      assert rows == [rows[0]] + rows[1..];
    }
  }

  /** `a` is an order-preserving subsequence of `b`. */
  predicate IsSubsequence(a: seq<Row>, b: seq<Row>)
    decreases |b|
  {
    if b == [] then a == []
    else (a != [] && a[0] == b[0] && IsSubsequence(a[1..], b[1..])) || IsSubsequence(a, b[1..])
  }

  /** The kept rows keep their relative order. */
  lemma {:induction false} SelectIsSubsequence(rows: seq<Row>, lo: Option<real>, hi: Option<real>)
    ensures IsSubsequence(Select(rows, lo, hi), rows)
  {
    if rows != [] {
      SelectIsSubsequence(rows[1..], lo, hi);
      var a := Select(rows, lo, hi);
      if Kept(rows[0], lo, hi) {
        assert a == [rows[0]] + Select(rows[1..], lo, hi);
        assert a != [] && a[0] == rows[0] && a[1..] == Select(rows[1..], lo, hi);
      } else {
        assert a == Select(rows[1..], lo, hi);
      }
    }
  }

  /** Filtering the filtered list again with the same bound texts gives it
      back unchanged. */
  lemma FilterIdempotent(rows: seq<Row>, minText: string, maxText: string)
    requires Filter(rows, minText, maxText).Ok?
    ensures Filter(Filter(rows, minText, maxText).value, minText, maxText) == Filter(rows, minText, maxText)
  {
    SiftIdempotent(rows, Bound(minText), Bound(maxText), Strip(minText), Strip(maxText));
  }

  lemma {:induction false} SiftIdempotent(rows: seq<Row>, lo: Option<Option<real>>, hi: Option<Option<real>>,
                                          mn: string, mx: string)
    requires Sift(rows, lo, hi, mn, mx).Ok?
    ensures Sift(Sift(rows, lo, hi, mn, mx).value, lo, hi, mn, mx) == Sift(rows, lo, hi, mn, mx)
  {
    if rows != [] {
      SiftIdempotent(rows[1..], lo, hi, mn, mx);
      var rest := Sift(rows[1..], lo, hi, mn, mx).value;
      if Decide(ToFloat(rows[0].price), lo, hi, mn, mx) == Ok(true) {
        assert ([rows[0]] + rest)[1..] == rest;
      }
    }
  }
}
