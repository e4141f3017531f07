/**
 * The shared formatting helpers: `formatTime` (milliseconds as "m:ss", in a
 * flooring and a rounding version) and `createProgressBar`.
 */
module Helpers {
  import opened Wrappers
  import opened JsText
  import opened JsNumber

  /** `${minutes}:${seconds < 10 ? '0' : ''}${seconds}` for a whole number of seconds. */
  function ClockText(minutes: int, seconds: int): string
  {
    IntToString(minutes) + ":" + (if seconds < 10 then "0" else "") + IntToString(seconds)
  }

  /** `formatTime` of the `Ts` version: whole minutes, then the whole seconds left over. */
  function FormatTime(ms: int): string
  {
    ClockText(FloorDiv(ms, 60000), FloorDiv(Rem(ms, 60000), 1000))
  }

  /** For whole seconds below 60 the seconds field is the two-digit padded rendering. */
  lemma ClockTextPadded(m: nat, sec: nat)
    requires sec < 60
    ensures ClockText(m, sec) == NatToString(m) + ":" + PadStart2(NatToString(sec))
  {
    NatToStringRoundTrip(sec);
    if sec < 10 {
      assert PadStart2(NatToString(sec)) == "0" + NatToString(sec);
    }
  }

  /** The minutes and leftover seconds of a non-negative duration, and the second they locate. */
  lemma MinutesSecondsSplit(ms: int)
    requires ms >= 0
    ensures var m, sec := ms / 60000, ms % 60000 / 1000;
      && FloorDiv(ms, 60000) == m && FloorDiv(Rem(ms, 60000), 1000) == sec && sec < 60
      && m * 60000 + sec * 1000 <= ms < m * 60000 + sec * 1000 + 1000
  {
    var m, r := ms / 60000, ms % 60000;
    var sec := r / 1000;
    assert ms == m * 60000 + r;
    assert r == sec * 1000 + r % 1000;
  }

  /**
   * For a non-negative duration the text is the minutes, a colon and exactly two digits
   * of seconds in 00..59; together they give the duration to the second, rounded down.
   */
  lemma FormatTimeReadsBack(ms: int)
    requires ms >= 0
    ensures var t, m, s := FormatTime(ms), ms / 60000, ms % 60000 / 1000;
      && t == NatToString(m) + ":" + PadStart2(NatToString(s))
      && |PadStart2(NatToString(s))| == 2 && AllDigits(PadStart2(NatToString(s)))
      && DigitsValue(PadStart2(NatToString(s))) == s < 60
      && m * 60000 + s * 1000 <= ms < m * 60000 + s * 1000 + 1000
  {
    MinutesSecondsSplit(ms);
    var s := ms % 60000 / 1000;
    ClockTextPadded(ms / 60000, s);
    TwoDigitField(s);
  }

  /** The seconds field never reaches 60 in the `Ts` version. */
  lemma FormatTimeNeverSixtySeconds(ms: int)
    requires ms >= 0
    ensures FormatTime(ms) != NatToString(ms / 60000) + ":60"
  {
    FormatTimeReadsBack(ms);
    var s := ms % 60000 / 1000;
    var p := PadStart2(NatToString(s));
    assert DigitsValue("60") == 60 by { assert "60"[..1] == "6"; }
    assert p != "60";
    var a := NatToString(ms / 60000) + ":";
    assert (a + p)[|a|..] == p;
    assert (a + "60")[|a|..] == "60";
  }

  /** `x.toFixed(0)` for `x = r / 1000`: the nearest integer, halves away from zero, with its sign. */
  function ToFixedMillis(r: int): (t: (int, string))
    ensures r >= 0 ==> t.0 == RoundDiv(r, 1000) && t.1 == NatToString(t.0)
    ensures r < 0 ==> t.0 == -RoundDiv(-r, 1000) && t.1 == "-" + NatToString(-t.0)
  {
    if r >= 0 then (RoundDiv(r, 1000), NatToString(RoundDiv(r, 1000)))
    else (-RoundDiv(-r, 1000), "-" + NatToString(RoundDiv(-r, 1000)))
  }

  /**
   * `formatTime` of the `Js` version: the seconds left over are rounded with
   * `toFixed(0)` instead of floored, and the string is compared with 10 as a number.
   */
  function FormatTimeJs(ms: int): string
  {
    var seconds := ToFixedMillis(Rem(ms, 60000));
    IntToString(FloorDiv(ms, 60000)) + ":" + (if seconds.0 < 10 then "0" else "") + seconds.1
  }

  /** A whole number of seconds in milliseconds rounds to itself. */
  lemma RoundWholeSeconds(sec: int)
    ensures RoundDiv(sec * 1000, 1000) == sec
  {
    assert 2 * (sec * 1000) + 1000 == sec * 2000 + 1000;
    FloorDivUnique(2 * (sec * 1000) + 1000, 2000, sec);
  }

  /** Both versions agree while the leftover milliseconds are whole seconds. */
  lemma FormatTimeVariantsAgree(ms: int)
    requires ms >= 0 && ms % 1000 == 0
    ensures FormatTimeJs(ms) == FormatTime(ms)
  {
    var sec := WholeSecondsLeftOver(ms);
    RoundWholeSeconds(sec);
    assert ToFixedMillis(Rem(ms, 60000)) == (sec, NatToString(sec));
  }

  /** A whole number of seconds leaves a whole number of seconds over the minutes. */
  lemma WholeSecondsLeftOver(ms: int) returns (sec: nat)
    requires ms >= 0 && ms % 1000 == 0
    ensures Rem(ms, 60000) == sec * 1000 && FloorDiv(Rem(ms, 60000), 1000) == sec < 60
  {
    var k := ms / 1000;
    sec := k % 60;
    assert ms == k * 1000;
    assert k == (k / 60) * 60 + sec;
    assert ms == (k / 60) * 60000 + sec * 1000;
    DivModUnique(ms, 60000, k / 60, sec * 1000);
    DivModUnique(sec * 1000, 1000, sec, 0);
  }

  /** The rounding version shows 59.5 seconds as "0:60". */
  lemma FormatTimeJsShowsSixty()
    ensures FormatTimeJs(59500) == "0:60"
    ensures FormatTime(59500) == "0:59"
  {
    assert RoundDiv(59500, 1000) == 60;
    assert NatToString(60) == "60" by { assert NatToString(6) == "6"; }
    assert NatToString(59) == "59" by { assert NatToString(5) == "5"; }
  }

  /** `c.repeat(n)`. */
  function RepeatChar(c: char, n: nat): (r: string)
    ensures |r| == n && forall i :: 0 <= i < n ==> r[i] == c
  {
    seq(n, _ => c)
  }

  /**
   * `createProgressBar(current, total, length)`: `Math.round(current / total * length)`
   * '=' characters, then '-' up to `length`, in brackets. A count that comes out
   * negative makes `repeat` throw a `RangeError`; with a zero total the count is `NaN`
   * (both repeats give "") when `current` or `length` is zero, and otherwise an
   * infinity with the sign of `current * length` (a `RangeError` naming it).
   */
  function CreateProgressBar(current: int, total: int, length: int): (r: Result<string, string>)
    ensures total != 0 && r.Ok? ==> var p := RoundDiv(current * length, total);
      0 <= p <= length && |r.value| == length + 2
    ensures total != 0 ==> (r.Ok? <==> 0 <= RoundDiv(current * length, total) <= length)
    ensures total != 0 && r.Ok? ==> var p := RoundDiv(current * length, total);
      forall i :: 0 <= i < |r.value| ==>
        r.value[i] == if i == 0 then '[' else if i <= p then '=' else if i <= length then '-' else ']'
    ensures total == 0 ==> (r.Ok? <==> current == 0 || length == 0) && (r.Ok? ==> r.value == "[]")
  {
    if total == 0 then
      if current == 0 || length == 0 then Ok("[]")
      else if current * length < 0 then Err("RangeError: Invalid count value: -Infinity")
      else Err("RangeError: Invalid count value: Infinity")
    else
      var progress := RoundDiv(current * length, total);
      var empty := length - progress;
      if progress < 0 then Err("RangeError: Invalid count value: " + IntToString(progress))
      else if empty < 0 then Err("RangeError: Invalid count value: " + IntToString(empty))
      else Ok("[" + RepeatChar('=', progress) + RepeatChar('-', empty) + "]")
  }

  /** The bar's default length. */
  const DefaultBarLength: int := 20

  /** `RoundDiv(current * length, total)` stays in `0..length` for `0 <= current <= total`. */
  lemma ProgressInRange(current: int, total: int, length: int)
    requires 0 <= current <= total && total > 0 && length >= 0
    ensures 0 <= RoundDiv(current * length, total) <= length
  {
    var p := RoundDiv(current * length, total);
    assert current * length <= total * length by {
      if length > 0 { MulLe(current, total, length); }
    }
    assert total * (2 * p - 1) <= 2 * current * length;
    assert 2 * current * length < total * (2 * p + 1);
    assert total * (2 * p - 1) <= 2 * total * length;
    LtOfMulLt(-1, 2 * p + 1, total) by {
      assert 0 <= 2 * current * length;
      assert (2 * p + 1) * total == total * (2 * p + 1);
    }
    LtOfMulLt(2 * p - 1, 2 * length + 1, total) by {
      assert (2 * p - 1) * total == total * (2 * p - 1);
      assert (2 * length + 1) * total == 2 * total * length + total;
    }
  }

  /**
   * Within `0 <= current <= total` the bar always renders, is `length + 2` characters
   * long, has no '=' when nothing has played and no '-' when all of it has.
   */
  lemma ProgressBarShape(current: int, total: int, length: int)
    requires 0 <= current <= total && total > 0 && length >= 0
    ensures CreateProgressBar(current, total, length).Ok?
    ensures |CreateProgressBar(current, total, length).value| == length + 2
    ensures current == 0 ==> forall i :: 0 <= i < |CreateProgressBar(current, total, length).value| ==>
      CreateProgressBar(current, total, length).value[i] != '='
    ensures current == total ==> forall i :: 0 <= i < |CreateProgressBar(current, total, length).value| ==>
      CreateProgressBar(current, total, length).value[i] != '-'
  {
    ProgressInRange(current, total, length);
    var p := RoundDiv(current * length, total);
    if current == 0 {
      assert p == 0 by { FloorDivUnique(total, 2 * total, 0); }
    }
    if current == total {
      assert p == length by {
        assert 2 * (total * length) + total == (2 * total) * length + total;
        FloorDivUnique(2 * (total * length) + total, 2 * total, length);
      }
    }
  }

  /** The default bar at the start and at the end of a track. */
  lemma DefaultBarEnds(total: int)
    requires total > 0
    ensures CreateProgressBar(0, total, DefaultBarLength) == Ok("[" + RepeatChar('-', 20) + "]")
    ensures CreateProgressBar(total, total, DefaultBarLength) == Ok("[" + RepeatChar('=', 20) + "]")
  {
    ProgressBarShape(0, total, 20);
    ProgressBarShape(total, total, 20);
    assert RoundDiv(0, total) == 0 by { FloorDivUnique(total, 2 * total, 0); }
    assert RoundDiv(total * 20, total) == 20 by {
      assert 2 * (total * 20) + total == (2 * total) * 20 + total;
      FloorDivUnique(2 * (total * 20) + total, 2 * total, 20);
    }
    assert RepeatChar('=', 0) == "";
    assert RepeatChar('-', 0) == "";
    assert CreateProgressBar(0, total, 20) == Ok("[" + RepeatChar('=', 0) + RepeatChar('-', 20) + "]");
    assert "[" + RepeatChar('=', 0) + RepeatChar('-', 20) + "]" == "[" + RepeatChar('-', 20) + "]";
    assert CreateProgressBar(total, total, 20) == Ok("[" + RepeatChar('=', 20) + RepeatChar('-', 0) + "]");
    assert "[" + RepeatChar('=', 20) + RepeatChar('-', 0) + "]" == "[" + RepeatChar('=', 20) + "]";
  }
}
