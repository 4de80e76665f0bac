/** Number conversions as the handlers use them: `parseInt`, `parseFloat`, `Number(...)`,
    truncation, and rounding money to two decimals. A result of `None` stands for NaN.
    Numbers are exact reals; binary floating point is not modelled. */
module Numbers {
  import opened Prelude
  import opened Text

  /** Truncation toward zero, as `parseInt` applies it to a number. */
  function Trunc(x: real): (k: int)
    ensures x >= 0.0 ==> k as real <= x < k as real + 1.0
    ensures x < 0.0 ==> k as real - 1.0 < x <= k as real
  {
    if x >= 0.0 then x.Floor else -((-x).Floor)
  }

  /** An optional leading sign: whether it is `-`, and the text after it. */
  function SplitSign(s: string): (bool, string) {
    if s != [] && (s[0] == '-' || s[0] == '+') then (s[0] == '-', s[1..]) else (false, s)
  }

  /** `parseInt(s, 10)` on a string: leading white space, a sign, then the longest run of
      digits; no digit at all is NaN. */
  function ParseIntStr(s: string): (r: Option<int>)
    ensures r.Some? <==> DigitPrefix(SplitSign(TrimStart(s)).1) != []
  {
    var (neg, body) := SplitSign(TrimStart(s));
    var d := DigitPrefix(body);
    var v: int := if d == [] then 0 else DigitsValue(d);
    if d == [] then None else Some(if neg then -v else v)
  }

  /** The magnitudes `String(n)` writes in fixed notation: zero, and from 10^-6 up to but
      not including 10^21; every other number is written with an exponent. */
  predicate FixedNotation(n: real) {
    n == 0.0 || (0.000001 <= n < 1000000000000000000000.0) || (-1000000000000000000000.0 < n <= -0.000001)
  }

  /** The first significant decimal digit of a number of at least 1. */
  function FirstDigitUp(x: real): (d: int)
    requires x >= 1.0
    ensures 1 <= d <= 9
    decreases x.Floor
  {
    if x < 10.0 then x.Floor
    else
      assert (x / 10.0).Floor < x.Floor;
      FirstDigitUp(x / 10.0)
  }

  /** The first significant decimal digit of a positive number. */
  function FirstDigit(x: real): (d: int)
    requires x > 0.0
    ensures 1 <= d <= 9
    decreases if x < 1.0 then (1.0 / x).Floor else 0
  {
    if x >= 1.0 then FirstDigitUp(x)
    else
      FloorTenth(1.0 / x);
      assert 1.0 / (x * 10.0) == (1.0 / x) / 10.0;
      FirstDigit(x * 10.0)
  }

  lemma FloorTenth(y: real)
    requires y >= 1.0
    ensures (y / 10.0).Floor < y.Floor
  {
  }

  /** `parseInt(v)` on a JSON value: a number is first written out by `String`, so one in
      fixed notation is truncated and one written with an exponent (`1e+21`, `5e-7`)
      reads as its first significant digit with its sign; `true`/`false`/`null`/
      `undefined` are NaN. */
  function ParseInt(v: JsVal): (r: Option<int>)
    ensures v.JsNum? && FixedNotation(v.n) ==> r == Some(Trunc(v.n))
    ensures v.JsNum? && !FixedNotation(v.n) ==> r.Some? && 1 <= (if r.value < 0 then -r.value else r.value) <= 9
    ensures v.JsNum? && !FixedNotation(v.n) ==>
      r == Some(if v.n > 0.0 then FirstDigit(v.n) else -FirstDigit(-v.n))
    ensures !v.JsNum? && !v.JsStr? ==> r.None?
  {
    match v
    case JsNum(n) =>
      if FixedNotation(n) then Some(Trunc(n))
      else if n > 0.0 then Some(FirstDigit(n))
      else Some(-FirstDigit(-n))
    case JsStr(s) => ParseIntStr(s)
    case _ => None
  }

  /** As written, a JSON number of 10^21 or more does not keep its value through
      `parseInt`: 10^21 reads as a single digit, and 5·10^-7 as 5. */
  lemma ParseIntOfExponentNotation()
    ensures ParseInt(JsNum(1000000000000000000000.0)).Some?
    ensures ParseInt(JsNum(1000000000000000000000.0)).value != 1000000000000000000000
    ensures 1 <= ParseInt(JsNum(1000000000000000000000.0)).value <= 9
    ensures ParseInt(JsNum(0.0000005)) == Some(5)
  {
  }

  /** Reading back `String(n)` gives `n`: the id in a URL round-trips through the route. */
  lemma {:induction false} ParseIntOfIntToString(n: int)
    ensures ParseIntStr(IntToString(n)) == Some(n)
  {
    if n >= 0 {
      ParseIntOfNonNegative(n);
    } else {
      ParseIntOfNegative(n);
    }
  }

  lemma ParseIntOfNonNegative(n: int)
    requires n >= 0
    ensures ParseIntStr(IntToString(n)) == Some(n)
  {
    var digits := NatToString(n);
    DigitPrefixOfDigits(digits);
    DigitsValueOfNatToString(n);
    assert IntToString(n) == digits;
    ParseSigned(digits, false, digits, n);
  }

  lemma ParseIntOfNegative(n: int)
    requires n < 0
    ensures ParseIntStr(IntToString(n)) == Some(n)
  {
    var digits := NatToString(-n);
    DigitPrefixOfDigits(digits);
    DigitsValueOfNatToString(-n);
    var t := IntToString(n);
    assert t == "-" + digits;
    assert t[1..] == digits;
    ParseSigned(t, true, digits, -n);
  }

  /** A text that starts with no blank, has an optional sign and then only digits reads
      as their value with that sign. */
  lemma ParseSigned(t: string, neg: bool, digits: string, m: nat)
    requires t != [] && !IsSpace(t[0]) && SplitSign(t) == (neg, digits)
    requires digits != [] && DigitPrefix(digits) == digits && DigitsValue(digits) == m
    ensures ParseIntStr(t) == Some(if neg then -(m as int) else m as int)
  {
    assert TrimStart(t) == t;
  }

  function Pow10(n: nat): (p: nat)
    ensures p >= 1
  {
    if n == 0 then 1 else 10 * Pow10(n - 1)
  }

  /** The value of the decimal `intPart.fracPart`. */
  function DecimalValue(intPart: string, fracPart: string): (v: real)
    requires AllDigits(intPart) && AllDigits(fracPart)
    ensures v >= 0.0
  {
    DigitsValue(intPart) as real + DigitsValue(fracPart) as real / Pow10(|fracPart|) as real
  }

  /** The decimal `intPart.fracPart`, negated after a minus sign. */
  function SignedDecimal(neg: bool, intPart: string, fracPart: string): real
    requires AllDigits(intPart) && AllDigits(fracPart)
  {
    if neg then -DecimalValue(intPart, fracPart) else DecimalValue(intPart, fracPart)
  }

  /** The digits after a leading `.` of `s`, or none. */
  function FractionPrefix(s: string): (r: string)
    ensures AllDigits(r)
  {
    if s != [] && s[0] == '.' then DigitPrefix(s[1..]) else []
  }

  /** `parseFloat(s)`: the longest decimal prefix after leading white space; no digit
      before or after the point is NaN. Exponents and `Infinity` are not modelled. */
  function ParseFloatStr(s: string): (r: Option<real>)
    ensures r.None? <==>
      (DigitPrefix(SplitSign(TrimStart(s)).1) == [] && FractionPrefix(SplitSign(TrimStart(s)).1) == [])
  {
    var neg := SplitSign(TrimStart(s)).0;
    var body := SplitSign(TrimStart(s)).1;
    var ip := DigitPrefix(body);
    var fp := FractionPrefix(body[|ip|..]);
    if ip == [] && fp == [] then None
    else
      Some(SignedDecimal(neg, ip, fp))
  }

  /** `parseFloat(v)` on a JSON value: a number is itself, anything but a string or a
      number is NaN. */
  function ParseFloat(v: JsVal): (r: Option<real>)
    ensures v.JsNum? ==> r == Some(v.n)
    ensures !v.JsNum? && !v.JsStr? ==> r.None?
  {
    match v
    case JsNum(n) => Some(n)
    case JsStr(s) => ParseFloatStr(s)
    case _ => None
  }

  /** `parseFloat` of a rendered whole number gives that number. */
  lemma {:induction false} ParseFloatOfNatToString(n: nat)
    ensures ParseFloatStr(NatToString(n)) == Some(n as real)
  {
    var d := NatToString(n);
    DigitPrefixOfDigits(d);
    DigitsValueOfNatToString(n);
    assert !IsSpace(d[0]);
    assert TrimStart(d) == d;
    assert SplitSign(d) == (false, d);
    var rest := d[|d|..];
    assert rest == [];
    assert FractionPrefix(rest) == [];
    DecimalValueWhole(d);
  }

  /** `Number` of a rendered whole number gives that number. */
  lemma NumberOfNatToString(n: nat)
    ensures ToNumberStr(NatToString(n)) == Some(n as real)
  {
    var d := NatToString(n);
    TrimUnspaced(d);
    DigitPrefixOfDigits(d);
    DigitsValueOfNatToString(n);
    assert SplitSign(d) == (false, d);
    var rest := d[|d|..];
    assert rest == [];
    assert FractionPrefix(rest) == [];
    DecimalValueWhole(d);
    assert SignedDecimal(false, d, []) == n as real;
  }

  lemma DecimalValueWhole(d: string)
    requires AllDigits(d)
    ensures DecimalValue(d, []) == DigitsValue(d) as real
  {
  }

  /** `Number(s)` on a string: surrounding white space is ignored, the empty string is 0,
      and anything but a complete decimal is NaN. */
  function ToNumberStr(s: string): (r: Option<real>)
    ensures Trim(s) == [] ==> r == Some(0.0)
  {
    var t := Trim(s);
    if t == [] then Some(0.0)
    else
      var (neg, body) := SplitSign(t);
      var ip := DigitPrefix(body);
      var rest := body[|ip|..];
      var fp := FractionPrefix(rest);
      var used := |ip| + (if rest != [] && rest[0] == '.' then 1 + |fp| else 0);
      if (ip == [] && fp == []) || used != |body| then None
      else
        Some(SignedDecimal(neg, ip, fp))
  }

  /** `Number(v)` on a JSON value. */
  function ToNumber(v: JsVal): (r: Option<real>)
    ensures v.JsNum? ==> r == Some(v.n)
    ensures v.JsNull? || v.JsBool? ==> r.Some?
    ensures v.JsUndefined? ==> r.None?
  {
    match v
    case JsUndefined => None
    case JsNull => Some(0.0)
    case JsBool(b) => Some(if b then 1.0 else 0.0)
    case JsNum(n) => Some(n)
    case JsStr(s) => ToNumberStr(s)
  }

  /** Digits stop at a character that is not a digit: what follows cannot extend them. */
  lemma {:induction false} DigitPrefixStops(x: string, w: string)
    requires |DigitPrefix(x)| < |x| || w == [] || !IsDigit(w[0])
    ensures DigitPrefix(x + w) == DigitPrefix(x)
  {
    if x == [] {
      assert x + w == w;
    } else if IsDigit(x[0]) {
      assert (x + w)[1..] == x[1..] + w;
      DigitPrefixStops(x[1..], w);
    }
  }

  /** The value `parseFloat` reads once its sign, digits and fraction are known. */
  lemma ParseFloatParts(s: string, neg: bool, body: string, ip: string, fp: string)
    requires SplitSign(TrimStart(s)) == (neg, body) && ip == DigitPrefix(body)
    requires fp == FractionPrefix(body[|ip|..]) && !(ip == [] && fp == [])
    ensures ParseFloatStr(s) == Some(SignedDecimal(neg, ip, fp))
  {
    assert SplitSign(TrimStart(s)).0 == neg && SplitSign(TrimStart(s)).1 == body;
    assert DigitPrefix(SplitSign(TrimStart(s)).1) == ip;
    assert FractionPrefix(SplitSign(TrimStart(s)).1[|ip|..]) == fp;
  }

  /** What `Number` demands of a non-blank string it reads as a number: digits and
      fraction take up all of it, and they give its value. */
  lemma NumberParts(s: string) returns (neg: bool, body: string, ip: string, fp: string)
    requires Trim(s) != [] && ToNumberStr(s).Some?
    ensures SplitSign(Trim(s)) == (neg, body) && ip == DigitPrefix(body) && fp == FractionPrefix(body[|ip|..])
    ensures |ip| + (if body[|ip|..] != [] && body[|ip|..][0] == '.' then 1 + |fp| else 0) == |body|
    ensures !(ip == [] && fp == [])
    ensures ToNumberStr(s) == Some(SignedDecimal(neg, ip, fp))
  {
    neg := SplitSign(Trim(s)).0;
    body := SplitSign(Trim(s)).1;
    ip := DigitPrefix(body);
    fp := FractionPrefix(body[|ip|..]);
  }

  /** A decimal that takes up all of `body` reads the same with white space after it. */
  lemma DecimalStops(body: string, w: string, ip: string, fp: string)
    requires ip == DigitPrefix(body) && fp == FractionPrefix(body[|ip|..])
    requires |ip| + (if body[|ip|..] != [] && body[|ip|..][0] == '.' then 1 + |fp| else 0) == |body|
    requires w == [] || (!IsDigit(w[0]) && w[0] != '.')
    ensures DigitPrefix(body + w) == ip && FractionPrefix((body + w)[|ip|..]) == fp
  {
    DigitPrefixStops(body, w);
    var rest := body[|ip|..];
    SliceAppend(body, w, |ip|);
    if rest == [] {
      assert rest + w == w;
    } else {
      FractionPrefixStops(rest, w);
    }
  }

  lemma SliceAppend<T>(a: seq<T>, b: seq<T>, k: nat)
    requires k <= |a|
    ensures (a + b)[k..] == a[k..] + b
  {
  }

  /** A fraction that reaches the end of `rest` is not extended by what follows, when
      that starts with neither a digit nor a point. */
  lemma FractionPrefixStops(rest: string, w: string)
    requires rest != [] && rest[0] == '.' && |FractionPrefix(rest)| == |rest| - 1
    requires w == [] || !IsDigit(w[0])
    ensures FractionPrefix(rest + w) == FractionPrefix(rest)
  {
    assert (rest + w)[1..] == rest[1..] + w;
    DigitPrefixStops(rest[1..], w);
  }

  /** What `trim` cuts after `trimStart` starts with neither a digit nor a point. */
  lemma SpaceAfterTrim(s: string) returns (w: string)
    ensures TrimStart(s) == Trim(s) + w
    ensures w == [] || (!IsDigit(w[0]) && w[0] != '.')
  {
    var u := TrimStart(s);
    var t := TrimEnd(u);
    w := u[|t|..];
    TakeDrop(u, |t|);
    if w != [] {
      assert IsSpace(w[0]);
      SpaceIsNotDigit(w[0]);
    }
  }

  lemma TakeDrop<T>(u: seq<T>, k: nat)
    requires k <= |u|
    ensures u[..k] + u[k..] == u
  {
  }

  lemma SpaceIsNotDigit(c: char)
    requires IsSpace(c)
    ensures !IsDigit(c) && c != '.'
  {
  }

  lemma SplitSignAppend(t: string, w: string)
    requires t != []
    ensures SplitSign(t + w) == (SplitSign(t).0, SplitSign(t).1 + w)
  {
    if t[0] == '-' || t[0] == '+' {
      assert (t + w)[1..] == t[1..] + w;
    }
  }

  /** `Number(s)` and `parseFloat(s)` agree on every string `Number` reads as a number
      (other than the blank one, which `Number` reads as 0 and `parseFloat` as NaN). */
  lemma NumberAgreesWithParseFloat(s: string)
    requires Trim(s) != [] && ToNumberStr(s).Some?
    ensures ParseFloatStr(s) == ToNumberStr(s)
  {
    var w := SpaceAfterTrim(s);
    var neg, body, ip, fp := NumberParts(s);
    SplitSignAppend(Trim(s), w);
    DecimalStops(body, w, ip, fp);
    ParseFloatParts(s, neg, body + w, ip, fp);
  }

  /** `Number(x) || 0`: NaN and 0 both become 0. */
  function NumberOrZero(v: JsVal): (r: real)
    ensures ToNumber(v).Some? ==> r == ToNumber(v).value
    ensures ToNumber(v).None? ==> r == 0.0
  {
    match ToNumber(v)
    case Some(x) => x
    case None => 0.0
  }

  /** A whole number of cents. */
  predicate IsCents(x: real) {
    (x * 100.0).Floor as real == x * 100.0
  }

  /** Rounding half away from zero to a whole number. */
  function RoundHalfAway(x: real): int {
    if x >= 0.0 then (x + 0.5).Floor else -((-x + 0.5).Floor)
  }

  /** `Number(x.toFixed(2))` on an exact decimal: the nearest whole number of cents
      (halves away from zero). */
  function Round2(x: real): (r: real)
    ensures IsCents(r)
    ensures -0.005 <= r - x <= 0.005
  {
    RoundHalfAway(x * 100.0) as real / 100.0
  }

  lemma FloorOfIntPlusHalf(k: int)
    ensures (k as real + 0.5).Floor == k
  {
  }

  /** An amount that already is whole cents is left unchanged by rounding. */
  lemma {:induction false} RoundCents(a: real)
    requires IsCents(a)
    ensures Round2(a) == a
  {
    var k := (a * 100.0).Floor;
    if a >= 0.0 {
      FloorOfIntPlusHalf(k);
      assert RoundHalfAway(a * 100.0) == k;
    } else {
      FloorOfIntPlusHalf(-k);
      assert -a * 100.0 == (-k) as real;
      assert RoundHalfAway(a * 100.0) == k;
    }
  }

  /** Rounding is idempotent. */
  lemma {:induction false} Round2Idempotent(x: real)
    ensures Round2(Round2(x)) == Round2(x)
  {
    RoundCents(Round2(x));
  }

  lemma FloorOfInt(k: int)
    ensures (k as real).Floor == k
  {
  }

  lemma {:induction false} CentsSum(a: real, b: real)
    requires IsCents(a) && IsCents(b)
    ensures IsCents(a + b) && IsCents(a - b)
  {
    var ia := (a * 100.0).Floor;
    var ib := (b * 100.0).Floor;
    assert a * 100.0 == ia as real;
    assert b * 100.0 == ib as real;
    assert (a + b) * 100.0 == a * 100.0 + b * 100.0;
    assert (a - b) * 100.0 == a * 100.0 - b * 100.0;
    FloorOfInt(ia + ib);
    FloorOfInt(ia - ib);
  }

  lemma CentsOfInt(k: int)
    ensures IsCents(k as real)
  {
    assert k as real * 100.0 == (k * 100) as real;
  }
}
