/**
 * JavaScript number operations on integers: the truncating remainder `%`,
 * `Math.round` of a quotient, and `parseInt` with its whitespace, sign and hex-prefix
 * rules. Numbers are modelled as mathematical integers; `NaN` is `None`.
 */
module JsNumber {
  import opened Wrappers
  import opened JsText

  /**
   * `a % b` in JavaScript for a positive divisor: the remainder takes the sign of
   * the dividend, so `-5 % 60 == -5` (unlike Dafny's Euclidean `%`).
   */
  function Rem(a: int, b: int): (r: int)
    requires b > 0
    ensures a >= 0 ==> 0 <= r < b && r == a % b
    ensures a < 0 ==> -b < r <= 0 && -r == (-a) % b
  {
    if a >= 0 then a % b else -((-a) % b)
  }

  /** `Math.floor(a / b)` for a positive divisor. */
  function FloorDiv(a: int, b: int): (q: int)
    requires b > 0
    ensures q * b <= a < q * b + b
  {
    a / b
  }

  /** The quotient is the only `q` with `q * b <= a < q * b + b`. */
  lemma FloorDivUnique(a: int, b: int, q: int)
    requires b > 0 && q * b <= a < q * b + b
    ensures FloorDiv(a, b) == q
  {
    var p := FloorDiv(a, b);
    LtOfMulLt(p, q + 1, b);
    LtOfMulLt(q, p + 1, b);
  }

  /** Dafny's quotient and remainder are the only `q` and `r` with `a == q * b + r` and `0 <= r < b`. */
  lemma DivModUnique(a: int, b: int, q: int, r: int)
    requires b > 0 && a == q * b + r && 0 <= r < b
    ensures a / b == q && a % b == r
  {
    FloorDivUnique(a, b, q);
  }

  lemma LtOfMulLt(x: int, y: int, b: int)
    requires b > 0 && x * b < y * b
    ensures x < y
  {
    assert (y - x) * b == y * b - x * b;
  }

  lemma MulLe(x: int, y: int, b: int)
    requires x <= y && b > 0
    ensures x * b <= y * b
  {
    assert y * b - x * b == (y - x) * b;
  }

  /** `Math.floor(Math.floor(a / b) / c) == Math.floor(a / (b * c))` for positive divisors. */
  lemma FloorDivNested(a: int, b: int, c: int)
    requires b > 0 && c > 0
    ensures FloorDiv(FloorDiv(a, b), c) == FloorDiv(a, b * c)
  {
    var q1 := FloorDiv(a, b);
    var q2 := FloorDiv(q1, c);
    assert q2 * c <= q1 <= q2 * c + c - 1;
    MulLe(q2 * c, q1, b);
    MulLe(q1, q2 * c + c - 1, b);
    assert (q2 * c + c - 1) * b + b == q2 * (b * c) + b * c;
    assert q2 * c * b == q2 * (b * c);
    FloorDivUnique(a, b * c, q2);
  }

  /**
   * `Math.round(n / d)` for an exact quotient with `d != 0`: the nearest integer,
   * halves rounded towards positive infinity (`Math.round(-2.5) == -2`).
   */
  function RoundDiv(n: int, d: int): (r: int)
    requires d != 0
    ensures d > 0 ==> d * (2 * r - 1) <= 2 * n < d * (2 * r + 1)
    ensures d < 0 ==> -d * (2 * r - 1) <= -2 * n < -d * (2 * r + 1)
  {
    if d > 0 then (2 * n + d) / (2 * d) else (-2 * n - d) / (-2 * d)
  }

  /** A digit in base 10 or base 16 (either letter case). */
  predicate IsRadixDigit(c: char, radix: nat)
  {
    IsDigit(c) || (radix == 16 && (('a' <= c <= 'f') || ('A' <= c <= 'F')))
  }

  function RadixDigitValue(c: char, radix: nat): (d: nat)
    requires IsRadixDigit(c, radix) && (radix == 10 || radix == 16)
    ensures d < radix
  {
    if IsDigit(c) then DigitValue(c)
    else if 'a' <= c <= 'f' then c as int - 'a' as int + 10
    else c as int - 'A' as int + 10
  }

  /** The longest prefix of `s` made of digits of the radix. */
  function DigitRun(s: string, radix: nat): (r: string)
    ensures |r| <= |s| && r == s[..|r|]
    ensures forall i :: 0 <= i < |r| ==> IsRadixDigit(r[i], radix)
    ensures |r| < |s| ==> !IsRadixDigit(s[|r|], radix)
  {
    if s != [] && IsRadixDigit(s[0], radix) then [s[0]] + DigitRun(s[1..], radix) else []
  }

  /** The value of a run of digits in the radix, most significant first. */
  function RadixValue(s: string, radix: nat): nat
    requires radix == 10 || radix == 16
    requires forall i :: 0 <= i < |s| ==> IsRadixDigit(s[i], radix)
  {
    if s == [] then 0 else RadixValue(s[..|s| - 1], radix) * radix + RadixDigitValue(s[|s| - 1], radix)
  }

  /** In base 10 the radix value is the decimal value of the digit run. */
  lemma {:induction false} RadixValueDecimal(s: string)
    requires AllDigits(s)
    ensures RadixValue(s, 10) == DigitsValue(s)
  {
    if s != [] {
      RadixValueDecimal(s[..|s| - 1]);
    }
  }

  /** `s` with a leading "0x" or "0X" removed, and which radix applies afterwards. */
  function StripHexPrefix(s: string): (r: (string, nat))
    ensures r.1 == 10 || r.1 == 16
    ensures r.1 == 10 ==> r.0 == s
  {
    if |s| >= 2 && s[0] == '0' && (s[1] == 'x' || s[1] == 'X') then (s[2..], 16) else (s, 10)
  }

  /** The value of the longest run of digits after an optional hex prefix; None without digits. */
  function ParseMagnitude(u: string): Option<nat>
  {
    var p := StripHexPrefix(u);
    var digits := DigitRun(p.0, p.1);
    if digits == [] then None else Some(RadixValue(digits, p.1))
  }

  /**
   * `parseInt(s)` with no radix: leading white space and line terminators are
   * skipped, one optional sign is read, a "0x"/"0X" prefix selects base 16, and the
   * longest run of digits that follows is the value; no digits at all gives NaN.
   */
  function ParseInt(s: string): Option<int>
  {
    var t := TrimStart(s);
    var negative := t != [] && t[0] == '-';
    var u := if t != [] && (t[0] == '-' || t[0] == '+') then t[1..] else t;
    var m := ParseMagnitude(u);
    if m.None? then None
    else Some(if negative then -(m.value as int) else m.value as int)
  }

  /** A decimal numeral has no hex prefix and its digit run is itself. */
  lemma ParseMagnitudeDecimal(d: string)
    requires d != [] && AllDigits(d)
    ensures ParseMagnitude(d) == Some(DigitsValue(d))
  {
    assert StripHexPrefix(d) == (d, 10) by {
      if |d| >= 2 && d[0] == '0' {
        assert IsDigit(d[1]);
      }
    }
    DigitRunAll(d, 10);
    RadixValueDecimal(d);
  }

  /**
   * A string that is a sign-free decimal numeral with nothing after it parses to its
   * value; in particular `parseInt(String(n)) == n`.
   */
  lemma ParseIntDecimal(s: string)
    requires s != [] && AllDigits(s)
    ensures ParseInt(s) == Some(DigitsValue(s))
  {
    assert !IsTrimmable(s[0]);
    assert TrimStart(s) == s;
    assert !(s[0] == '-' || s[0] == '+');
    ParseMagnitudeDecimal(s);
  }

  lemma {:induction false} DigitRunAll(s: string, radix: nat)
    requires forall i :: 0 <= i < |s| ==> IsRadixDigit(s[i], radix)
    ensures DigitRun(s, radix) == s
  {
    if s != [] {
      DigitRunAll(s[1..], radix);
    }
  }

  /** The integer rendering reads back through `parseInt`. */
  lemma ParseIntRendering(n: int)
    ensures ParseInt(IntToString(n)) == Some(n)
  {
    var a := if n < 0 then -n else n;
    NatToStringRoundTrip(a);
    var d := NatToString(a);
    if n >= 0 {
      ParseIntDecimal(d);
    } else {
      var s := IntToString(n);
      assert s == "-" + d;
      assert !IsTrimmable(s[0]);
      assert TrimStart(s) == s;
      assert s[1..] == d;
      ParseMagnitudeDecimal(d);
    }
  }
}
