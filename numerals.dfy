/**
 * Decimal numerals as the budget parser reads them: Python's `float(text)`
 * on plain decimal text, the first match of the regular expression
 * `[-+]?[0-9]*\.?[0-9]+` (what `re.findall(...)[0]` returns), and
 * Python's `round` to an integer (round half to even).
 *
 * Values are exact reals: the binary floating-point representation error of
 * Python floats is not modelled.
 */
module Numerals {
  import opened Wrappers
  import opened Strings

  predicate IsDigit(c: char) {
    '0' <= c <= '9'
  }

  predicate AllDigits(s: string) {
    forall i :: 0 <= i < |s| ==> IsDigit(s[i])
  }

  /** No character of `s` is a decimal digit. */
  predicate NoDigit(s: string) {
    forall c :: c in s ==> !IsDigit(c)
  }

  predicate IsSign(c: char) {
    c == '+' || c == '-'
  }

  function DigitChar(d: nat): (c: char)
    requires d < 10
    ensures IsDigit(c) && c as int - '0' as int == d
  {
    ('0' as int + d) as char
  }

  /** The natural number written by a string of decimal digits ("" reads as 0). */
  function DigitsValue(ds: string): nat
    requires AllDigits(ds)
  {
    if ds == [] then 0 else 10 * DigitsValue(ds[..|ds| - 1]) + (ds[|ds| - 1] as int - '0' as int)
  }

  function Pow10(n: nat): (p: nat)
    ensures p >= 1
  {
    if n == 0 then 1 else 10 * Pow10(n - 1)
  }

  /** The length of the longest block of digits that starts at position `j`. */
  function DigitRun(s: string, j: nat): (d: nat)
    requires j <= |s|
    ensures j + d <= |s|
    ensures forall i :: j <= i < j + d ==> IsDigit(s[i])
    ensures j + d == |s| || !IsDigit(s[j + d])
    decreases |s| - j
  {
    if j < |s| && IsDigit(s[j]) then 1 + DigitRun(s, j + 1) else 0
  }

  /** The block a digit run spans is all digits. */
  lemma RunIsDigits(s: string, j: nat)
    requires j <= |s|
    ensures AllDigits(s[j..j + DigitRun(s, j)])
  {
    var d := DigitRun(s, j);
    var run := s[j..j + d];
    forall i | 0 <= i < d ensures IsDigit(run[i]) {
      assert run[i] == s[j + i];
    }
  }

  /** The value of a decimal numeral given by its sign, whole digits and fraction digits. */
  function DecimalValue(negative: bool, whole: string, fraction: string): real
    requires AllDigits(whole) && AllDigits(fraction)
  {
    var magnitude := DigitsValue(whole) as real + DigitsValue(fraction) as real / Pow10(|fraction|) as real;
    if negative then -magnitude else magnitude
  }

  /**
   * `float(t)` on plain decimal text: surrounding whitespace, an optional
   * sign, then digits with at most one decimal point and at least one digit
   * ("5", "5.", ".5", " -2.25 "). Anything else is a parse failure (None).
   */
  function ParseFloat(t: string): Option<real> {
    var u := Strip(t);
    if |u| > 0 && IsSign(u[0]) then ParseUnsigned(u, 1, u[0] == '-') else ParseUnsigned(u, 0, false)
  }

  /** The rest of `float`'s parse from position `j`, past the sign: digits with at most one point, to the end. */
  function ParseUnsigned(u: string, j: nat, negative: bool): Option<real>
    requires j <= |u|
  {
    var k := j + DigitRun(u, j);
    RunIsDigits(u, j);
    if k == |u| then
      if k > j then Some(DecimalValue(negative, u[j..k], "")) else None
    else if u[k] == '.' then
      var e := k + 1 + DigitRun(u, k + 1);
      RunIsDigits(u, k + 1);
      if e == |u| && e - j > 1 then Some(DecimalValue(negative, u[j..k], u[k + 1..e])) else None
    else
      None
  }

  /**
   * The value of the match of `[-+]?[0-9]*\.?[0-9]+` that starts at
   * position `i`, if the pattern matches there. The greedy match takes a
   * fraction only when a digit follows the point.
   */
  function LiteralAt(s: string, i: nat): Option<real>
    requires i < |s|
  {
    var j := if IsSign(s[i]) then i + 1 else i;
    var negative := s[i] == '-';
    var k := j + DigitRun(s, j);
    RunIsDigits(s, j);
    if k + 1 < |s| && s[k] == '.' && IsDigit(s[k + 1]) then
      var e := k + 1 + DigitRun(s, k + 1);
      RunIsDigits(s, k + 1);
      Some(DecimalValue(negative, s[j..k], s[k + 1..e]))
    else if k > j then
      Some(DecimalValue(negative, s[j..k], ""))
    else
      None
  }

  /** The leftmost match at or after position `i`. */
  function FirstLiteralFrom(s: string, i: nat): Option<real>
    requires i <= |s|
    decreases |s| - i
  {
    if i == |s| then None
    else match LiteralAt(s, i)
      case Some(v) => Some(v)
      case None => FirstLiteralFrom(s, i + 1)
  }

  /** `float(re.findall(r"[-+]?[0-9]*\.?[0-9]+", s)[0])`, or None when nothing matches. */
  function FirstLiteral(s: string): Option<real> {
    FirstLiteralFrom(s, 0)
  }

  /** Python's `round(x)`: the nearest integer, ties to the even neighbour. */
  function RoundHalfEven(x: real): (r: int)
    ensures r as real - 0.5 <= x <= r as real + 0.5
    ensures x - x.Floor as real == 0.5 ==> r % 2 == 0
  {
    var f := x.Floor;
    var d := x - f as real;
    if d < 0.5 then f
    else if d > 0.5 then f + 1
    else if f % 2 == 0 then f
    else f + 1
  }

  /** A whole number rounds to itself. */
  lemma RoundWhole(k: int)
    ensures RoundHalfEven(k as real) == k
  {
    assert (k as real).Floor == k;
  }

  /** Multiplying whole numbers commutes with the conversion to reals. */
  lemma CastMul(a: int, b: int)
    ensures (a * b) as real == a as real * b as real
  {
  }

  /** `int(x)` on a number: truncation toward zero. */
  function Truncate(x: real): (r: int)
    ensures x >= 0.0 ==> r >= 0 && r as real <= x < r as real + 1.0
    ensures x < 0.0 ==> r <= 0 && r as real - 1.0 < x <= r as real
  {
    if x >= 0.0 then x.Floor else -((-x).Floor)
  }

  /** The decimal rendering of a natural number, `str(n)`. */
  function NatToDigits(n: nat): (s: string)
    ensures |s| > 0 && AllDigits(s) && DigitsValue(s) == n
    decreases n
  {
    if n < 10 then [DigitChar(n)]
    else
      var prefix := NatToDigits(n / 10);
      var s := prefix + [DigitChar(n % 10)];
      assert s[..|s| - 1] == prefix;
      s
  }

  /** The digit block starting at `j` ends at the first non-digit `e`. */
  lemma {:induction false} DigitRunStops(s: string, j: nat, e: nat)
    requires j <= e <= |s|
    requires forall i :: j <= i < e ==> IsDigit(s[i])
    requires e == |s| || !IsDigit(s[e])
    ensures DigitRun(s, j) == e - j
    decreases e - j
  {
    if j < e {
      DigitRunStops(s, j + 1, e);
    }
  }

  lemma DigitRunToEnd(s: string, j: nat)
    requires j <= |s|
    requires forall i :: j <= i < |s| ==> IsDigit(s[i])
    ensures DigitRun(s, j) == |s| - j
  {
    DigitRunStops(s, j, |s|);
  }

  /** A string of digits parses as the number it writes. */
  lemma ParseFloatOfDigits(ds: string)
    requires |ds| > 0 && AllDigits(ds)
    ensures ParseFloat(ds) == Some(DigitsValue(ds) as real)
  {
    StripOfTrimmed(ds);
    DigitRunToEnd(ds, 0);
    assert ds[0..|ds|] == ds;
  }

  /**
   * In a string that starts with a block of digits followed by a character
   * that is neither a digit nor a point, the first numeric literal is that
   * block.
   */
  lemma FirstLiteralOfDigitsThen(ds: string, rest: string)
    requires |ds| > 0 && AllDigits(ds)
    requires |rest| > 0 && !IsDigit(rest[0]) && rest[0] != '.'
    ensures FirstLiteral(ds + rest) == Some(DigitsValue(ds) as real)
  {
    var s := ds + rest;
    assert !IsSign(s[0]);
    DigitRunStops(s, 0, |ds|);
    assert s[0..|ds|] == ds;
    assert LiteralAt(s, 0) == Some(DigitsValue(ds) as real);
  }

  /**
   * In a string that starts with digits, a point and more digits, followed
   * by anything but a digit, the first numeric literal is that decimal.
   */
  lemma FirstLiteralOfDecimal(ws: string, fs: string, rest: string)
    requires |ws| > 0 && AllDigits(ws) && |fs| > 0 && AllDigits(fs)
    requires rest == [] || !IsDigit(rest[0])
    ensures FirstLiteral(ws + "." + fs + rest) == Some(DecimalValue(false, ws, fs))
  {
    var s := ws + "." + fs + rest;
    var k := |ws|;
    var e := k + 1 + |fs|;
    assert s[..k] == ws && s[k + 1..e] == fs && s[k] == '.';
    assert !IsSign(s[0]);
    DigitRunStops(s, 0, k);
    assert e == |s| || s[e] == rest[0];
    DigitRunStops(s, k + 1, e);
    assert LiteralAt(s, 0) == Some(DecimalValue(false, s[0..k], s[k + 1..e]));
  }

  /** A lone string of digits is its own first numeric literal. */
  lemma FirstLiteralOfDigits(ds: string)
    requires |ds| > 0 && AllDigits(ds)
    ensures FirstLiteral(ds) == Some(DigitsValue(ds) as real)
  {
    DigitRunToEnd(ds, 0);
    assert !IsSign(ds[0]);
    assert ds[0..|ds|] == ds;
  }

  /** Text without digits never parses as a float. */
  lemma ParseFloatNeedsDigit(t: string)
    requires NoDigit(t)
    ensures ParseFloat(t) == None
  {
    var u := Strip(t);
    forall i | 0 <= i < |u| ensures u[i] in t {
      var v := TrimStart(t);
      assert u == v[..|u|];
      assert v == t[|t| - |v|..];
      assert u[i] == t[|t| - |v| + i];
    }
    UnsignedNeedsDigit(u, 0, false);
    if |u| > 0 && IsSign(u[0]) {
      UnsignedNeedsDigit(u, 1, u[0] == '-');
    }
  }

  /** Past the sign, text without digits does not parse either. */
  lemma UnsignedNeedsDigit(u: string, j: nat, negative: bool)
    requires j <= |u| && NoDigit(u)
    ensures ParseUnsigned(u, j, negative) == None
  {
    if j < |u| {
      assert u[j] in u;
    }
    DigitRunStops(u, j, j);
    if j + 1 < |u| {
      assert u[j + 1] in u;
      DigitRunStops(u, j + 1, j + 1);
    }
  }

  /** Text without digits holds no numeric literal. */
  lemma {:induction false} FirstLiteralNeedsDigit(s: string, i: nat)
    requires i <= |s| && NoDigit(s)
    ensures FirstLiteralFrom(s, i) == None
    decreases |s| - i
  {
    if i < |s| {
      var j := if IsSign(s[i]) then i + 1 else i;
      if j < |s| {
        assert s[j] in s;
      }
      if j + 1 < |s| {
        assert s[j + 1] in s;
      }
      assert LiteralAt(s, i) == None;
      FirstLiteralNeedsDigit(s, i + 1);
    }
  }
}
