/**
 * The string operations of Python's standard library that the client uses:
 * `str.strip()`, `str.rstrip("/")`, `str(n)` for integers, and the text forms
 * accepted by `int(...)` and `float(...)`.
 */
module PyText {
  import opened Wrappers

  /** The characters `str.isspace()` accepts. */
  predicate IsSpace(c: char) {
    || c == ' ' || ('\t' <= c <= '\r') || ('\U{1c}' <= c <= '\U{1f}')
    || c == '\U{85}' || c == '\U{a0}' || c == '\U{1680}'
    || ('\U{2000}' <= c <= '\U{200a}') || c == '\U{2028}' || c == '\U{2029}'
    || c == '\U{202f}' || c == '\U{205f}' || c == '\U{3000}'
  }

  /** Every character of `s` is in the class `drop`. */
  predicate AllIn(s: string, drop: char -> bool) {
    forall i | 0 <= i < |s| :: drop(s[i])
  }

  /** `s` without its leading characters of the class `drop`. */
  function TrimLeft(s: string, drop: char -> bool): (r: string)
    ensures |r| <= |s| && r == s[|s| - |r|..]
    ensures AllIn(s[..|s| - |r|], drop)
    ensures r == [] || !drop(r[0])
  {
    if s != [] && drop(s[0]) then
      var r := TrimLeft(s[1..], drop);
      assert s[1..][..|s| - 1 - |r|] == s[1..|s| - |r|];
      r
    else s
  }

  /** `s` without its trailing characters of the class `drop`. */
  function TrimRight(s: string, drop: char -> bool): (r: string)
    ensures |r| <= |s| && r == s[..|r|]
    ensures AllIn(s[|r|..], drop)
    ensures r == [] || !drop(r[|r| - 1])
  {
    if s != [] && drop(s[|s| - 1]) then
      var r := TrimRight(s[..|s| - 1], drop);
      assert s[..|s| - 1][..|r|] == s[..|r|];
      r
    else s
  }

  /** `s.strip()`: `s.lstrip()` followed by `rstrip()`. */
  function Strip(s: string): (r: string)
    ensures |r| <= |s|
    ensures r == [] || (!IsSpace(r[0]) && !IsSpace(r[|r| - 1]))
  {
    var l := TrimLeft(s, IsSpace);
    var r := TrimRight(l, IsSpace);
    assert r != [] ==> r[0] == l[0];
    r
  }

  /** A string with no whitespace at either end is its own strip. */
  lemma StripNoSpace(s: string)
    requires s == [] || (!IsSpace(s[0]) && !IsSpace(s[|s| - 1]))
    ensures Strip(s) == s
  {
  }

  /** `s.rstrip(c)` for one character `c`: all trailing copies of `c` go. */
  function StripRightChar(s: string, c: char): (r: string)
    ensures |r| <= |s| && r == s[..|r|]
    ensures forall i | |r| <= i < |s| :: s[i] == c
    ensures r == [] || r[|r| - 1] != c
  {
    if s != [] && s[|s| - 1] == c then StripRightChar(s[..|s| - 1], c) else s
  }

  predicate IsDigit(c: char) {
    '0' <= c <= '9'
  }

  predicate AllDigits(s: string) {
    forall i | 0 <= i < |s| :: IsDigit(s[i])
  }

  /** The number a string of decimal digits spells. */
  function DigitsValue(s: string): nat
    requires AllDigits(s)
  {
    if s == [] then 0
    else 10 * DigitsValue(s[..|s| - 1]) + ((s[|s| - 1] as int) - ('0' as int))
  }

  function DigitChar(d: nat): (c: char)
    requires d < 10
    ensures IsDigit(c) && (c as int) - ('0' as int) == d
  {
    ('0' as int + d) as char
  }

  /** `str(n)` for a non-negative integer: decimal digits, no leading zero. */
  function NatToString(n: nat): (r: string)
    ensures r != [] && AllDigits(r) && DigitsValue(r) == n
    ensures |r| > 1 ==> r[0] != '0'
  {
    if n < 10 then [DigitChar(n)]
    else
      var p := NatToString(n / 10);
      var r := p + [DigitChar(n % 10)];
      assert r[..|r| - 1] == p;
      r
  }

  /** `str(i)` for any integer. */
  function IntToString(i: int): (r: string)
    ensures r != [] && (i < 0 <==> r[0] == '-')
  {
    if i < 0 then "-" + NatToString(-i) else NatToString(i)
  }

  /** An optional leading sign: whether it was `-`, and the rest. */
  function SignOf(t: string): bool {
    t != [] && t[0] == '-'
  }

  function Unsigned(t: string): (u: string)
    ensures |u| <= |t|
  {
    if t != [] && (t[0] == '+' || t[0] == '-') then t[1..] else t
  }

  /** `int(s)` for a string: optional surrounding whitespace, an optional
      sign and at least one decimal digit; anything else raises. */
  function ParseIntText(s: string): Option<int> {
    IntLiteral(Strip(s))
  }

  /** The integer a stripped text spells: an optional sign and digits. */
  function IntLiteral(t: string): Option<int> {
    var body := Unsigned(t);
    if body != [] && AllDigits(body) then
      Some(if SignOf(t) then -(DigitsValue(body) as int) else DigitsValue(body))
    else None
  }

  /** `int(str(i)) == i`. */
  lemma {:induction false} ParseIntOfString(i: int)
    ensures ParseIntText(IntToString(i)) == Some(i)
  {
    var n: nat := if i < 0 then -i else i;
    var digits := NatToString(n);
    var r := IntToString(i);
    SignedDigits(digits);
    DigitNotSpace(digits[0]);
    DigitNotSpace(digits[|digits| - 1]);
    if i < 0 {
      assert r == "-" + digits;
      assert r[|r| - 1] == digits[|digits| - 1];
    } else {
      assert r == digits;
    }
    StripNoSpace(r);
  }

  /** The sign and the digits of `str(i)`, read back. */
  lemma SignedDigits(digits: string)
    requires digits != [] && AllDigits(digits)
    ensures Unsigned(digits) == digits && !SignOf(digits)
    ensures Unsigned("-" + digits) == digits && SignOf("-" + digits)
  {
    assert ("-" + digits)[1..] == digits;
  }

  lemma DigitNotSpace(c: char)
    requires IsDigit(c)
    ensures !IsSpace(c)
  {
  }

  function Pow10(n: nat): (p: nat)
    ensures p >= 1
  {
    if n == 0 then 1 else 10 * Pow10(n - 1)
  }

  /** Index of the first character of `s` in `cs`, or `|s|` when there is none. */
  function FindAny(s: string, cs: set<char>): (i: nat)
    ensures i <= |s|
    ensures forall j | 0 <= j < i :: s[j] !in cs
    ensures i < |s| ==> s[i] in cs
  {
    if s == [] then 0
    else if s[0] in cs then 0
    else 1 + FindAny(s[1..], cs)
  }

  /** Scale `v` by ten to the power `x`. */
  function Scale(v: real, x: int): real {
    if x >= 0 then v * (Pow10(x) as real) else v / (Pow10(-x) as real)
  }

  /** The value of a mantissa `ip.fp` with optional dot, when it is one. */
  function ParseMantissa(m: string): Option<real> {
    var d := FindAny(m, {'.'});
    var ip := m[..d];
    var fp := if d < |m| then m[d + 1..] else "";
    if AllDigits(ip) && AllDigits(fp) && (ip != [] || fp != []) then
      Some(DigitsValue(ip) as real + (DigitsValue(fp) as real) / (Pow10(|fp|) as real))
    else None
  }

  /** The magnitude a sign-less float literal spells: a decimal mantissa
      with at most one dot and at least one digit, then an optional exponent
      `e`/`E` with an optional sign and at least one digit, read as an
      integer literal. */
  function ParseUnsignedFloat(body: string): Option<real> {
    var e := FindAny(body, {'e', 'E'});
    var exponent := if e < |body| then IntLiteral(body[e + 1..]) else Some(0);
    if ParseMantissa(body[..e]).Some? && exponent.Some? then
      Some(Scale(ParseMantissa(body[..e]).value, exponent.value))
    else None
  }

  /** `float(s)` for a string, over exact reals: optional surrounding
      whitespace, an optional sign, then a float literal. */
  function ParseFloatText(s: string): Option<real> {
    FloatLiteral(Strip(s))
  }

  /** The number a stripped text spells: an optional sign and a float literal. */
  function FloatLiteral(t: string): Option<real> {
    match ParseUnsignedFloat(Unsigned(t))
    case Some(mag) => Some(if SignOf(t) then -mag else mag)
    case None => None
  }

  /** A string of digits has no dot and no exponent marker. */
  lemma DigitsFindNone(body: string, cs: set<char>)
    requires AllDigits(body)
    requires forall c | c in cs :: !IsDigit(c)
    ensures FindAny(body, cs) == |body|
  {
  }

  lemma MantissaOfDigits(body: string)
    requires body != [] && AllDigits(body)
    ensures ParseMantissa(body) == Some(DigitsValue(body) as real)
  {
    DigitsFindNone(body, {'.'});
    assert body[..|body|] == body;
  }

  /** A string `int(...)` accepts, `float(...)` accepts with the same value. */
  lemma IntTextIsFloatText(s: string)
    requires ParseIntText(s).Some?
    ensures ParseFloatText(s) == Some(ParseIntText(s).value as real)
  {
    IntLiteralIsFloatLiteral(Strip(s));
  }

  lemma IntLiteralIsFloatLiteral(t: string)
    requires IntLiteral(t).Some?
    ensures FloatLiteral(t) == Some(IntLiteral(t).value as real)
  {
    UnsignedFloatOfDigits(Unsigned(t));
  }

  lemma UnsignedFloatOfDigits(body: string)
    requires body != [] && AllDigits(body)
    ensures ParseUnsignedFloat(body) == Some(DigitsValue(body) as real)
  {
    DigitsFindNone(body, {'e', 'E'});
    assert body[..|body|] == body;
    MantissaOfDigits(body);
  }
}
