/**
 * The JavaScript string operations the bot relies on, written out over `seq<char>`:
 * number-to-string conversion, `padStart(2, '0')`, `trim`, `startsWith`, `includes`,
 * ASCII case mapping, template rendering of possibly-undefined values and `a || b`
 * on strings.
 */
module JsText {
  import opened Wrappers

  predicate IsDigit(c: char) { '0' <= c <= '9' }

  predicate AllDigits(s: string) { forall i :: 0 <= i < |s| ==> IsDigit(s[i]) }

  function DigitChar(d: nat): (c: char)
    requires d < 10
    ensures IsDigit(c) && c as int - '0' as int == d
  {
    (('0' as int) + d) as char
  }

  function DigitValue(c: char): (d: nat)
    requires IsDigit(c)
    ensures d < 10
  {
    c as int - '0' as int
  }

  /** `String(n)` for a non-negative integer: its decimal digits, most significant first. */
  function NatToString(n: nat): string
  {
    if n < 10 then [DigitChar(n)] else NatToString(n / 10) + [DigitChar(n % 10)]
  }

  /** The value of a run of decimal digits, read most significant first. */
  function DigitsValue(s: string): nat
    requires AllDigits(s)
  {
    if s == [] then 0 else DigitsValue(s[..|s| - 1]) * 10 + DigitValue(s[|s| - 1])
  }

  /** `String(n)` / `${n}` for an integer: a minus sign, then the digits of |n|. */
  function IntToString(n: int): string
  {
    if n < 0 then "-" + NatToString(-n) else NatToString(n)
  }

  /**
   * The decimal rendering is a non-empty run of digits without a leading zero that
   * reads back as the number.
   */
  lemma {:induction false} NatToStringRoundTrip(n: nat)
    ensures |NatToString(n)| >= 1 && AllDigits(NatToString(n))
    ensures DigitsValue(NatToString(n)) == n
    ensures |NatToString(n)| > 1 ==> NatToString(n)[0] != '0'
    ensures |NatToString(n)| == 1 <==> n < 10
  {
    if n >= 10 {
      NatToStringRoundTrip(n / 10);
      var s := NatToString(n);
      assert s[..|s| - 1] == NatToString(n / 10);
    }
  }

  /** Two numbers with the same rendering are equal: the rendering is injective. */
  lemma IntToStringInjective(a: int, b: int)
    requires IntToString(a) == IntToString(b)
    ensures a == b
  {
    NatToStringRoundTrip(if a < 0 then -a else a);
    NatToStringRoundTrip(if b < 0 then -b else b);
    if a < 0 && b < 0 {
      assert NatToString(-a) == IntToString(a)[1..];
      assert NatToString(-b) == IntToString(b)[1..];
    }
  }

  /** `s.padStart(2, '0')`. */
  function PadStart2(s: string): (r: string)
    ensures |s| >= 2 ==> r == s
    ensures |s| < 2 ==> |r| == 2 && r[2 - |s|..] == s && forall i :: 0 <= i < 2 - |s| ==> r[i] == '0'
  {
    if |s| >= 2 then s else seq(2 - |s|, _ => '0') + s
  }

  /** `n.toString().padStart(2, '0')` for a number of seconds in 0..59: always two digits. */
  lemma TwoDigitField(n: int)
    requires 0 <= n < 60
    ensures |PadStart2(IntToString(n))| == 2 && AllDigits(PadStart2(IntToString(n)))
    ensures DigitsValue(PadStart2(IntToString(n))) == n
  {
    NatToStringRoundTrip(n);
    var s := PadStart2(IntToString(n));
    if n < 10 {
      assert s == ['0', DigitChar(n)];
      assert s[..1] == ['0'];
    } else {
      assert s == IntToString(n);
    }
  }

  /** JavaScript WhiteSpace: TAB, VT, FF, SP, NBSP, ZWNBSP and the Unicode space separators. */
  predicate IsJsSpace(c: char)
  {
    c == '\t' || c == '\U{0B}' || c == '\U{0C}' || c == ' ' || c == '\U{A0}' || c == '\U{FEFF}'
    || c == '\U{1680}' || ('\U{2000}' <= c <= '\U{200A}') || c == '\U{202F}' || c == '\U{205F}'
    || c == '\U{3000}'
  }

  /** JavaScript LineTerminator: LF, CR, LS, PS (the characters a regex `.` does not match). */
  predicate IsLineTerminator(c: char)
  {
    c == '\n' || c == '\r' || c == '\U{2028}' || c == '\U{2029}'
  }

  /** What `String.prototype.trim` removes. */
  predicate IsTrimmable(c: char) { IsJsSpace(c) || IsLineTerminator(c) }

  /** `s.trimStart()`. */
  function TrimStart(s: string): (r: string)
    ensures |r| <= |s| && r == s[|s| - |r|..]
    ensures forall i :: 0 <= i < |s| - |r| ==> IsTrimmable(s[i])
    ensures r != [] ==> !IsTrimmable(r[0])
  {
    if s != [] && IsTrimmable(s[0]) then TrimStart(s[1..]) else s
  }

  /** `s.trimEnd()`. */
  function TrimEnd(s: string): (r: string)
    ensures |r| <= |s| && r == s[..|r|]
    ensures forall i :: |r| <= i < |s| ==> IsTrimmable(s[i])
    ensures r != [] ==> !IsTrimmable(r[|r| - 1])
  {
    if s != [] && IsTrimmable(s[|s| - 1]) then TrimEnd(s[..|s| - 1]) else s
  }

  /** `r` is `s[k..k + |r|]` and everything of `s` around it is trimmable. */
  predicate TrimmedAt(s: string, r: string, k: nat)
  {
    && k + |r| <= |s| && r == s[k..k + |r|]
    && (forall i :: 0 <= i < k ==> IsTrimmable(s[i]))
    && (forall i :: k + |r| <= i < |s| ==> IsTrimmable(s[i]))
  }

  /** `s.trim()`: the part of `s` left after removing trimmable characters at both ends. */
  function Trim(s: string): (r: string)
    ensures r != [] ==> !IsTrimmable(r[0]) && !IsTrimmable(r[|r| - 1])
    ensures exists k :: TrimmedAt(s, r, k)
  {
    var t := TrimStart(s);
    var r := TrimEnd(t);
    var k := |s| - |t|;
    assert TrimmedAt(s, r, k);
    r
  }

  /** `s.startsWith(p)`. */
  predicate StartsWith(s: string, p: string) { |p| <= |s| && s[..|p|] == p }

  /** `p` occurs in `s` at position `j`. */
  predicate OccursAt(s: string, p: string, j: nat) { j + |p| <= |s| && s[j..j + |p|] == p }

  /** `s.indexOf(p, from)`, as an option: the first occurrence of `p` at or after `from`. */
  function IndexFrom(s: string, p: string, from: nat): (r: Option<nat>)
    decreases |s| - from
    ensures r.Some? ==> from <= r.value && OccursAt(s, p, r.value)
    ensures r.Some? ==> forall j :: from <= j < r.value ==> !OccursAt(s, p, j)
    ensures r.None? ==> forall j :: from <= j ==> !OccursAt(s, p, j)
  {
    if from + |p| > |s| then None
    else if s[from..from + |p|] == p then Some(from)
    else IndexFrom(s, p, from + 1)
  }

  /** `s.includes(p)`. */
  predicate Contains(s: string, p: string) { IndexFrom(s, p, 0).Some? }

  lemma ContainsIff(s: string, p: string)
    ensures Contains(s, p) <==> exists j :: OccursAt(s, p, j)
  {
    if Contains(s, p) {
      assert OccursAt(s, p, IndexFrom(s, p, 0).value);
    }
  }

  function ToLowerChar(c: char): char
  {
    if 'A' <= c <= 'Z' then (c as int + 32) as char else c
  }

  function ToUpperChar(c: char): char
  {
    if 'a' <= c <= 'z' then (c as int - 32) as char else c
  }

  /** `s.toLowerCase()` on ASCII letters. */
  function ToLower(s: string): (r: string)
    ensures |r| == |s| && forall i :: 0 <= i < |s| ==> r[i] == ToLowerChar(s[i])
  {
    seq(|s|, i requires 0 <= i < |s| => ToLowerChar(s[i]))
  }

  /** `s.toUpperCase()` on ASCII letters. */
  function ToUpper(s: string): (r: string)
    ensures |r| == |s| && forall i :: 0 <= i < |s| ==> r[i] == ToUpperChar(s[i])
  {
    seq(|s|, i requires 0 <= i < |s| => ToUpperChar(s[i]))
  }

  /** A string value is truthy exactly when it is present and non-empty. */
  predicate Truthy(o: Option<string>) { o.Some? && o.value != "" }

  /** `a || b` where `a` is a possibly-undefined string. */
  function OrElse(a: Option<string>, b: string): (r: string)
    ensures Truthy(a) ==> r == a.value
    ensures !Truthy(a) ==> r == b
  {
    if Truthy(a) then a.value else b
  }

  /** `a || b` where both may be undefined strings. */
  function OrElseOpt(a: Option<string>, b: Option<string>): (r: Option<string>)
    ensures Truthy(a) ==> r == a
    ensures !Truthy(a) ==> r == b
  {
    if Truthy(a) then a else b
  }

  /** `${v}` for a possibly-undefined string: an absent value renders as "undefined". */
  function Render(v: Option<string>): (r: string)
    ensures v.Some? ==> r == v.value
    ensures v.None? ==> r == "undefined"
  {
    match v
    case Some(s) => s
    case None => "undefined"
  }
}
