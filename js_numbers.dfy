/**
 * JavaScript numbers as the order-alert code uses them: `parseFloat`,
 * `Number.prototype.toFixed(2)`, the decimal text of an integer in a
 * template string, `>` against a stored threshold and the `||` defaulting
 * of a numeric field. Finite values are exact reals: IEEE-754 rounding is
 * not modelled.
 */
module JsNumbers {
  import opened Wrappers
  import opened JsStrings

  datatype Number = Finite(value: real) | PosInfinity | NegInfinity | NaN

  /** `n > t` for a finite `t`: false whenever `n` is NaN. */
  predicate GreaterThan(n: Number, t: real) {
    match n
    case Finite(v) => v > t
    case PosInfinity => true
    case NegInfinity => false
    case NaN => false
  }

  function Negate(n: Number): Number {
    match n
    case Finite(v) => Finite(-v)
    case PosInfinity => NegInfinity
    case NegInfinity => PosInfinity
    case NaN => NaN
  }

  /** `o || fallback` for an optional integer field: absent and 0 are falsy. */
  function OrElseInt(o: Option<int>, fallback: int): (r: int)
    ensures o.Some? && o.value != 0 ==> r == o.value
    ensures (o.None? || o.value == 0) ==> r == fallback
  {
    if o.Some? && o.value != 0 then o.value else fallback
  }

  // ---------------------------------------------------------------- digits

  predicate IsDigit(c: char) {
    '0' <= c <= '9'
  }

  predicate AllDigits(s: string) {
    forall i :: 0 <= i < |s| ==> IsDigit(s[i])
  }

  function DigitChar(d: nat): (c: char)
    requires d < 10
    ensures IsDigit(c) && c as int - '0' as int == d
  {
    "0123456789"[d]
  }

  function DigitValue(c: char): nat {
    if IsDigit(c) then c as int - '0' as int else 0
  }

  /** The value of a run of decimal digits (the empty run is 0). */
  function DigitsValue(s: string): nat {
    if s == [] then 0 else 10 * DigitsValue(s[..|s| - 1]) + DigitValue(s[|s| - 1])
  }

  /** The length of the run of decimal digits that `s` starts with. */
  function DigitRun(s: string): (n: nat)
    ensures n <= |s|
  {
    if s != [] && IsDigit(s[0]) then 1 + DigitRun(s[1..]) else 0
  }

  /** Decimal text of a natural number, without leading zeros. */
  function NatText(n: nat): (r: string)
    ensures r != [] && AllDigits(r)
    ensures DigitsValue(r) == n
    ensures |r| == 1 || r[0] != '0'
  {
    if n < 10 then [DigitChar(n)]
    else
      var r := NatText(n / 10) + [DigitChar(n % 10)];
      assert r[..|r| - 1] == NatText(n / 10);
      r
  }

  /** Decimal text of an integer as a template string shows it: `-` before a negative value. */
  function IntText(n: int): (r: string)
    ensures r != []
    ensures n >= 0 ==> AllDigits(r) && DigitsValue(r) == n
    ensures n < 0 ==> r[0] == '-' && AllDigits(r[1..]) && DigitsValue(r[1..]) == -n
    ensures n >= 0 ==> |r| == 1 || r[0] != '0'
    ensures n < 0 ==> |r| == 2 || r[1] != '0'
  {
    if n < 0 then "-" + NatText(-n) else NatText(n)
  }

  // ---------------------------------------------------------------- parseFloat

  /**
   * `parseFloat` (section 21.1.2.12 of ECMA-262): skip leading white space,
   * then read the longest prefix that is a decimal literal (an optional sign,
   * then `Infinity` or digits with an optional fraction and exponent); what
   * follows that prefix is ignored, and no such prefix gives NaN.
   */
  function ParseFloat(s: string): Number {
    if s != [] && IsSpace(s[0]) then ParseFloat(s[1..])
    else if s != [] && s[0] == '-' then Negate(ParseUnsigned(s[1..]))
    else if s != [] && s[0] == '+' then ParseUnsigned(s[1..])
    else ParseUnsigned(s)
  }

  /** `parseFloat` of a value that may be missing: `undefined` and `null` become NaN. */
  function ParseFloatOf(o: Option<string>): Number {
    match o
    case None => NaN
    case Some(s) => ParseFloat(s)
  }

  /** The unsigned literal `t` starts with: `Infinity`, or decimal digits read from the left. */
  function ParseUnsigned(t: string): Number {
    if StartsWith(t, "Infinity") then PosInfinity else ScanDecimal(t, [], None)
  }

  /**
   * Reads a decimal literal left to right: `whole` holds the digits before the
   * point and `fraction` those after it, once a point has been read. At the first
   * character that cannot continue the literal, the digits read give the value
   * (NaN when there are none), scaled by the exponent part that follows.
   */
  function ScanDecimal(t: string, whole: string, fraction: Option<string>): Number
    decreases |t|
  {
    if t != [] && IsDigit(t[0]) then
      if fraction.None? then ScanDecimal(t[1..], whole + [t[0]], None)
      else ScanDecimal(t[1..], whole, Some(fraction.value + [t[0]]))
    else if t != [] && t[0] == '.' && fraction.None? then ScanDecimal(t[1..], whole, Some([]))
    else if whole == [] && fraction.GetOr([]) == [] then NaN
    else Finite(Shift(DigitsValue(whole) as real + FractionValue(fraction.GetOr([])), ExponentOf(t)))
  }

  /** `p` is a prefix of `s`. */
  predicate StartsWith(s: string, p: string) {
    p == [] || (s != [] && s[0] == p[0] && StartsWith(s[1..], p[1..]))
  }

  /** The exponent part `e`/`E`, optional sign, at least one digit that `rest` starts with; 0 when there is none. */
  function ExponentOf(rest: string): int {
    if rest == [] || (rest[0] != 'e' && rest[0] != 'E') then 0
    else
      var signed := |rest| > 1 && (rest[1] == '+' || rest[1] == '-');
      var digits := if signed then rest[2..] else rest[1..];
      var k := DigitRun(digits);
      if k == 0 then 0
      else if signed && rest[1] == '-' then -(DigitsValue(digits[..k]) as int)
      else DigitsValue(digits[..k])
  }

  /** The value of digits read after a decimal point: `0.d1d2...`. */
  function FractionValue(f: string): real {
    if f == [] then 0.0 else (DigitValue(f[0]) as real + FractionValue(f[1..])) / 10.0
  }

  /** `m` times ten to the power `e`, one decimal place at a time. */
  function Shift(m: real, e: int): real
    decreases if e < 0 then -e else e
  {
    if e == 0 then m else if e > 0 then Shift(10.0 * m, e - 1) else Shift(m / 10.0, e + 1)
  }

  // ---------------------------------------------------------------- toFixed(2)

  /** The number of hundredths toFixed(2) shows for `x >= 0`: the nearest integer to 100x, the larger on a tie. */
  function Cents(x: real): (n: nat)
    requires x >= 0.0
    ensures n as real - 0.5 <= 100.0 * x < n as real + 0.5
  {
    (100.0 * x + 0.5).Floor
  }

  function Abs(x: real): (r: real)
    ensures r >= 0.0 && (r == x || r == -x)
  {
    if x < 0.0 then -x else x
  }

  /** The value toFixed(2) shows for `x`: the magnitude's hundredths, with the sign of `x`. */
  function Rounded2(x: real): real {
    var shown := Cents(Abs(x)) as real / 100.0;
    if x < 0.0 then -shown else shown
  }

  /** toFixed(2) moves a value by at most half a hundredth. */
  lemma Rounded2Close(x: real)
    ensures -0.005 <= Rounded2(x) - x <= 0.005
  {
    var n := Cents(Abs(x));
    assert n as real - 0.5 <= 100.0 * Abs(x) < n as real + 0.5;
  }

  /**
   * `x.toFixed(2)` (section 21.1.3.3 of ECMA-262) for a finite `x`: a `-` when
   * `x` is negative, then the hundredths `Cents` of the magnitude written out.
   */
  function Fixed2(x: real): string {
    (if x < 0.0 then "-" else "") + Fixed2Magnitude(Abs(x))
  }

  function Fixed2Magnitude(x: real): string
    requires x >= 0.0
  {
    var n := Cents(x);
    var d := n % 100;
    NatText(n / 100) + "." + [DigitChar(d / 10), DigitChar(d % 10)]
  }

  /** The text toFixed(2) prints: an optional `-`, at least one digit, a point and exactly two digits. */
  lemma Fixed2Shape(x: real)
    ensures var r := Fixed2(x);
      && |r| >= 4 && r[|r| - 3] == '.' && IsDigit(r[|r| - 2]) && IsDigit(r[|r| - 1])
      && (x >= 0.0 ==> AllDigits(r[..|r| - 3]))
      && (x < 0.0 ==> r[0] == '-' && AllDigits(r[1..|r| - 3]))
  {
    var n := Cents(Abs(x));
    var a := NatText(n / 100);
    var body := Fixed2Magnitude(Abs(x));
    assert body[..|body| - 3] == a;
    if x < 0.0 {
      assert ("-" + body)[1..|body| + 1 - 3] == a;
    } else {
      assert "" + body == body;
    }
  }

  /** `n.toFixed(2)` for any number: NaN and the infinities print their names. */
  function ToFixed2(n: Number): string {
    match n
    case Finite(v) => Fixed2(v)
    case PosInfinity => "Infinity"
    case NegInfinity => "-Infinity"
    case NaN => "NaN"
  }

  // ---------------------------------------------------------------- round trip

  /** Digits read before the point join the whole part. */
  lemma {:induction false} ScanWholeDigits(a: string, rest: string, whole: string)
    requires AllDigits(a)
    ensures ScanDecimal(a + rest, whole, None) == ScanDecimal(rest, whole + a, None)
  {
    if a == [] {
      assert a + rest == rest && whole + a == whole;
    } else {
      assert (a + rest)[1..] == a[1..] + rest;
      ScanWholeDigits(a[1..], rest, whole + [a[0]]);
      assert whole + [a[0]] + a[1..] == whole + a;
    }
  }

  /** Digits read after the point join the fraction. */
  lemma {:induction false} ScanFractionDigits(f: string, rest: string, whole: string, fraction: string)
    requires AllDigits(f)
    ensures ScanDecimal(f + rest, whole, Some(fraction)) == ScanDecimal(rest, whole, Some(fraction + f))
  {
    if f == [] {
      assert f + rest == rest && fraction + f == fraction;
    } else {
      assert (f + rest)[1..] == f[1..] + rest;
      ScanFractionDigits(f[1..], rest, whole, fraction + [f[0]]);
      assert fraction + [f[0]] + f[1..] == fraction + f;
    }
  }

  lemma NotInfinity(t: string)
    requires t != [] && IsDigit(t[0])
    ensures !StartsWith(t, "Infinity")
  {
  }

  /** Digits, a point and digits, with nothing after them, parse to their decimal value. */
  lemma ParsePointed(a: string, f: string)
    requires a != [] && AllDigits(a) && AllDigits(f)
    ensures ParseUnsigned(a + "." + f) == Finite(DigitsValue(a) as real + FractionValue(f))
  {
    var t := a + "." + f;
    assert t == a + ("." + f) && t[0] == a[0];
    NotInfinity(t);
    ScanWholeDigits(a, "." + f, []);
    assert [] + a == a;
    assert ("." + f)[1..] == f + [];
    ScanFractionDigits(f, [], a, []);
    assert [] + f == f;
    assert ExponentOf([]) == 0;
  }

  /**
   * Digits followed by text that cannot continue a decimal literal parse to the
   * digits' value: what follows the literal is ignored.
   */
  lemma ParseWholeThen(a: string, rest: string)
    requires a != [] && AllDigits(a)
    requires rest == [] || (!IsDigit(rest[0]) && rest[0] != '.' && rest[0] != 'e' && rest[0] != 'E')
    ensures ParseUnsigned(a + rest) == Finite(DigitsValue(a) as real)
  {
    assert (a + rest)[0] == a[0];
    NotInfinity(a + rest);
    ScanWholeDigits(a, rest, []);
    assert [] + a == a;
    assert ExponentOf(rest) == 0 && FractionValue([]) == 0.0;
  }

  /** A run of digits with nothing after it parses to its value. */
  lemma ParseWhole(a: string)
    requires a != [] && AllDigits(a)
    ensures ParseUnsigned(a) == Finite(DigitsValue(a) as real)
  {
    ParseWholeThen(a, []);
    assert a + [] == a;
  }

  /** Leading white space does not change what `parseFloat` reads. */
  lemma {:induction false} ParseFloatSkipsSpace(a: string, s: string)
    requires AllSpace(a)
    ensures ParseFloat(a + s) == ParseFloat(s)
  {
    if a == [] {
      assert a + s == s;
    } else {
      assert (a + s)[0] == a[0] && (a + s)[1..] == a[1..] + s;
      ParseFloatSkipsSpace(a[1..], s);
    }
  }

  /** `parseFloat` reads back the decimal text of a natural number. */
  lemma ParseNatText(n: nat)
    ensures ParseFloat(NatText(n)) == Finite(n as real)
  {
    var a := NatText(n);
    ParseWhole(a);
    ParseFloatOfDigitFirst(a, Finite(n as real));
  }

  lemma TwoDigitsFraction(d: nat)
    requires d < 100
    ensures FractionValue([DigitChar(d / 10), DigitChar(d % 10)]) == d as real / 100.0
  {
    var f := [DigitChar(d / 10), DigitChar(d % 10)];
    assert f[1..] == [DigitChar(d % 10)];
    assert [DigitChar(d % 10)][1..] == [];
    var hi, lo := (d / 10) as real, (d % 10) as real;
    assert FractionValue(f[1..]) == lo / 10.0;
    assert FractionValue(f) == (hi + lo / 10.0) / 10.0;
    assert d as real == 10.0 * hi + lo;
  }

  lemma ParseMagnitude(q: nat, d: nat)
    requires d < 100
    ensures ParseUnsigned(NatText(q) + "." + [DigitChar(d / 10), DigitChar(d % 10)]) == Finite(q as real + d as real / 100.0)
  {
    var a := NatText(q);
    var f := [DigitChar(d / 10), DigitChar(d % 10)];
    ParsePointed(a, f);
    TwoDigitsFraction(d);
    assert DigitsValue(a) == q;
  }

  lemma ParseFixed2Magnitude(m: real)
    requires m >= 0.0
    ensures ParseUnsigned(Fixed2Magnitude(m)) == Finite(Cents(m) as real / 100.0)
  {
    var n := Cents(m);
    ParseMagnitude(n / 100, n % 100);
    SplitHundredths(n);
  }

  lemma SplitHundredths(n: nat)
    ensures (n / 100) as real + (n % 100) as real / 100.0 == n as real / 100.0
  {
    var q, d := n / 100, n % 100;
    assert n == 100 * q + d;
    assert n as real == 100.0 * q as real + d as real;
  }

  lemma ParseFloatOfDigitFirst(s: string, n: Number)
    requires s != [] && IsDigit(s[0]) && ParseUnsigned(s) == n
    ensures ParseFloat(s) == n
  {
    assert !IsSpace(s[0]);
  }

  lemma ParseFloatOfMinus(s: string, v: real)
    requires ParseUnsigned(s) == Finite(v)
    ensures ParseFloat("-" + s) == Finite(-v)
  {
    assert ("-" + s)[0] == '-' && ("-" + s)[1..] == s;
  }

  lemma ParseFixed2Negative(x: real)
    requires x < 0.0
    ensures ParseFloat(Fixed2(x)) == Finite(Rounded2(x))
  {
    var body := Fixed2Magnitude(Abs(x));
    var v := Cents(Abs(x)) as real / 100.0;
    assert Rounded2(x) == -v;
    ParseFixed2Magnitude(Abs(x));
    ParseFloatOfMinus(body, v);
    Fixed2Negative(x);
    ParseFloatOfSame(Fixed2(x), "-" + body, Finite(-v));
  }

  lemma Fixed2Negative(x: real)
    requires x < 0.0
    ensures Fixed2(x) == "-" + Fixed2Magnitude(Abs(x))
  {
  }

  lemma Fixed2MagnitudeStartsWithDigit(m: real)
    requires m >= 0.0
    ensures IsDigit(Fixed2Magnitude(m)[0])
  {
  }

  lemma ParseMagnitudeAsFloat(m: real)
    requires m >= 0.0
    ensures ParseFloat(Fixed2Magnitude(m)) == Finite(Cents(m) as real / 100.0)
  {
    ParseFixed2Magnitude(m);
    Fixed2MagnitudeStartsWithDigit(m);
    ParseFloatOfDigitFirst(Fixed2Magnitude(m), Finite(Cents(m) as real / 100.0));
  }

  lemma ParseFloatOfSame(s: string, u: string, n: Number)
    requires s == u && ParseFloat(u) == n
    ensures ParseFloat(s) == n
  {
  }

  lemma Fixed2NonNegative(x: real)
    requires x >= 0.0
    ensures Fixed2(x) == Fixed2Magnitude(x)
  {
    var body := Fixed2Magnitude(x);
    assert "" + body == body;
  }

  lemma ParseFixed2NonNegative(x: real)
    requires x >= 0.0
    ensures ParseFloat(Fixed2(x)) == Finite(Rounded2(x))
  {
    assert Rounded2(x) == Cents(x) as real / 100.0;
    ParseMagnitudeAsFloat(x);
    Fixed2NonNegative(x);
    ParseFloatOfSame(Fixed2(x), Fixed2Magnitude(x), Finite(Rounded2(x)));
  }

  /** Parsing the text toFixed(2) prints gives back the value it shows. */
  lemma ParseFixed2(x: real)
    ensures ParseFloat(Fixed2(x)) == Finite(Rounded2(x))
  {
    if x < 0.0 {
      ParseFixed2Negative(x);
    } else {
      ParseFixed2NonNegative(x);
    }
  }

  lemma CentsExact(k: nat)
    ensures Cents(k as real / 100.0) == k
  {
    assert 100.0 * (k as real / 100.0) == k as real;
  }

  /** A value with at most two decimals is shown by toFixed(2) as it is. */
  lemma Rounded2Exact(k: int)
    ensures Rounded2(k as real / 100.0) == k as real / 100.0
  {
    var x := k as real / 100.0;
    if k < 0 {
      CentsExact(-k);
      assert Abs(x) == (-k) as real / 100.0;
    } else {
      CentsExact(k);
    }
  }

  /** A value with at most two decimals survives toFixed(2) and parseFloat unchanged. */
  lemma ParseFixed2Exact(k: int)
    ensures ParseFloat(Fixed2(k as real / 100.0)) == Finite(k as real / 100.0)
  {
    Rounded2Exact(k);
    ParseFixed2(k as real / 100.0);
  }
}
