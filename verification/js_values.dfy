/** JavaScript values as the controllers receive them from JSON bodies, query
    strings, route parameters, headers and the verified-token claims, and the
    JavaScript operations the controllers apply to them: truthiness (`!v`),
    the `v && v.length > 0` idiom, and `String(v)`.
 */
module JsValues {

  /** `Number.MAX_SAFE_INTEGER`, 2^53 - 1. */
  const MaxSafeInteger: int := 0x1F_FFFF_FFFF_FFFF

  /** The integers a JavaScript number holds exactly. */
  type SafeInteger = n: int | -MaxSafeInteger <= n <= MaxSafeInteger

  /** A scalar JSON value, or a missing one. Numbers are safe integers. */
  datatype JsValue = Undefined | Null | Str(s: string) | Num(n: SafeInteger) | Bool(b: bool)

  /** JavaScript truthiness: `!v` is true exactly when this is false. */
  function Truthy(v: JsValue): (r: bool)
    ensures !r <==> v in {Undefined, Null, Str(""), Num(0), Bool(false)}
  {
    match v
    case Undefined => false
    case Null => false
    case Str(s) => s != ""
    case Num(n) => n != 0
    case Bool(b) => b
  }

  /** `v && v.length > 0`. Only strings have a `length` among the values
      modelled; on a number or a boolean it reads `undefined`, and
      `undefined > 0` is false. */
  function HasLength(v: JsValue): (r: bool)
    ensures r <==> v.Str? && v.s != ""
    ensures r ==> Truthy(v)
  {
    Truthy(v) && v.Str? && |v.s| > 0
  }

  /** `!v || v.length < 1`, the per-field test of the user validation.
      On a number or a boolean `undefined < 1` is false, so the second
      disjunct only ever adds the empty string, which is already falsy. */
  function Blank(v: JsValue): (r: bool)
    ensures r <==> !Truthy(v)
  {
    !Truthy(v) || (v.Str? && |v.s| < 1)
  }

  predicate IsDigit(c: char) {
    '0' <= c <= '9'
  }

  predicate AllDigits(s: string) {
    forall i :: 0 <= i < |s| ==> IsDigit(s[i])
  }

  function DigitChar(d: int): (c: char)
    requires 0 <= d < 10
    ensures IsDigit(c) && c as int - '0' as int == d
  {
    "0123456789"[d]
  }

  /** The number a run of decimal digits denotes. */
  function DecimalValue(s: string): nat
    requires AllDigits(s)
    decreases |s|
  {
    if |s| == 0 then 0
    else 10 * DecimalValue(s[..|s| - 1]) + (s[|s| - 1] as int - '0' as int)
  }

  /** A non-empty run of digits with no leading `0` unless it is `"0"`
      itself: the form `String(n)` gives a safe non-negative integer. */
  predicate Canonical(s: string) {
    |s| > 0 && AllDigits(s) && (|s| > 1 ==> s[0] != '0')
  }

  /** Decimal rendering of a natural number, most significant digit first:
      a canonical run of digits that denotes `n`. */
  function Decimal(n: nat): (r: string)
    ensures |r| > 0 && AllDigits(r)
    ensures DecimalValue(r) == n
    ensures Canonical(r)
    decreases n
  {
    if n < 10 then
      [DigitChar(n)]
    else
      var r := Decimal(n / 10) + [DigitChar(n % 10)];
      assert r[..|r| - 1] == Decimal(n / 10);
      r
  }

  /** `String(v)`. A safe integer is below 10^21, so JavaScript renders it in
      plain decimal, with a leading `-` when negative. */
  function JsString(v: JsValue): (r: string)
    ensures v.Str? ==> r == v.s
    ensures v.Num? && v.n >= 0 ==> AllDigits(r) && |r| > 0 && DecimalValue(r) == v.n
    ensures v.Num? && v.n > 0 ==> r[0] != '0'
    ensures v.Num? && v.n < 0 ==>
      |r| > 1 && r[0] == '-' && AllDigits(r[1..]) && DecimalValue(r[1..]) == -v.n && r[1] != '0'
  {
    match v
    case Undefined => "undefined"
    case Null => "null"
    case Str(s) => s
    case Num(n) =>
      if n < 0 then
        var r := "-" + Decimal(-n);
        assert r[1..] == Decimal(-n);
        r
      else
        Decimal(n)
    case Bool(b) => if b then "true" else "false"
  }

  /** A run of digits that does not start with `0` denotes a positive number. */
  lemma {:induction false} NoLeadingZeroIsPositive(s: string)
    requires |s| > 0 && AllDigits(s) && s[0] != '0'
    ensures DecimalValue(s) > 0
    decreases |s|
  {
    if |s| > 1 {
      var p := s[..|s| - 1];
      assert p[0] == s[0];
      NoLeadingZeroIsPositive(p);
    }
  }

  /** `Decimal` is the only canonical rendering: a canonical run of digits is
      the rendering of the number it denotes. */
  lemma {:induction false} DecimalUnique(s: string)
    requires Canonical(s)
    ensures Decimal(DecimalValue(s)) == s
    decreases |s|
  {
    if |s| > 1 {
      var p := s[..|s| - 1];
      var d := s[|s| - 1] as int - '0' as int;
      assert p[0] == s[0];
      NoLeadingZeroIsPositive(p);
      DecimalUnique(p);
      var n := DecimalValue(s);
      assert n == 10 * DecimalValue(p) + d;
      assert n / 10 == DecimalValue(p) && n % 10 == d;
      assert DigitChar(d) == s[|s| - 1];
      assert s == p + [s[|s| - 1]];
    } else {
      var d := s[0] as int - '0' as int;
      assert DecimalValue(s) == 10 * DecimalValue(s[..0]) + d;
      assert DigitChar(d) == s[0];
    }
  }
}
