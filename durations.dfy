/**
 * The "minutes:seconds" rendering shared by every extractor's `formatDuration`:
 * `${mins}:${secs.toString().padStart(2, '0')}` with `mins = Math.floor(s / 60)` and
 * `secs = s % 60`.
 */
module Durations {
  import opened Wrappers
  import opened JsText
  import opened JsNumber

  /** `${mins}:${secs.toString().padStart(2, '0')}`. */
  function Clock(mins: int, secs: int): string
  {
    IntToString(mins) + ":" + PadStart2(IntToString(secs))
  }

  /** A count of seconds as minutes and seconds, with JavaScript's `Math.floor` and `%`. */
  function SecondsClock(s: int): string
  {
    Clock(FloorDiv(s, 60), Rem(s, 60))
  }

  /**
   * `formatDuration(ms)` of the SoundCloud and Spotify-bridge extractors: a falsy
   * (absent or zero) value gives "0:00", anything else is whole seconds of the
   * milliseconds, rendered as a clock.
   */
  function MillisClock(ms: Option<int>): (r: string)
    ensures ms.None? || ms == Some(0) ==> r == "0:00"
    ensures ms.Some? && ms.value != 0 ==> r == SecondsClock(FloorDiv(ms.value, 1000))
  {
    if ms.None? || ms.value == 0 then "0:00" else SecondsClock(ms.value / 1000)
  }

  /**
   * For a non-negative count the clock is: decimal minutes, a colon, and exactly two
   * digits of seconds in 00..59, and it reads back as the count.
   */
  lemma SecondsClockReadsBack(s: int)
    requires s >= 0
    ensures var c := SecondsClock(s);
      && |c| >= 4 && c[|c| - 3] == ':'
      && AllDigits(c[..|c| - 3]) && AllDigits(c[|c| - 2..])
      && DigitsValue(c[..|c| - 3]) == s / 60
      && DigitsValue(c[|c| - 2..]) == s % 60 < 60
      && DigitsValue(c[..|c| - 3]) * 60 + DigitsValue(c[|c| - 2..]) == s
  {
    SecondsClockFields(s);
  }

  /** The clock's value, minutes times 60 plus seconds, is the count. */
  lemma ClockReadsBackAsCount(s: int)
    requires s >= 0
    ensures ClockValue(SecondsClock(s)) == s
  {
    SecondsClockFields(s);
    assert s == (s / 60) * 60 + s % 60;
  }

  /** A clock read back: minutes times 60 plus seconds; 0 for text that is not a clock. */
  function ClockValue(c: string): int
  {
    if |c| >= 4 && AllDigits(c[..|c| - 3]) && AllDigits(c[|c| - 2..]) then
      DigitsValue(c[..|c| - 3]) * 60 + DigitsValue(c[|c| - 2..])
    else 0
  }

  /** The two fields of a clock of a non-negative count, read back. */
  lemma SecondsClockFields(s: int)
    requires s >= 0
    ensures var c := SecondsClock(s);
      && |c| >= 4 && c[|c| - 3] == ':'
      && AllDigits(c[..|c| - 3]) && AllDigits(c[|c| - 2..])
      && DigitsValue(c[..|c| - 3]) == s / 60
      && DigitsValue(c[|c| - 2..]) == s % 60 < 60
  {
    var c := SecondsClock(s);
    var m := NatToString(s / 60);
    var t := PadStart2(IntToString(s % 60));
    NatToStringRoundTrip(s / 60);
    TwoDigitField(s % 60);
    assert c == m + ":" + t;
    assert c[..|c| - 3] == m;
    assert c[|c| - 2..] == t;
  }

  /**
   * For a non-negative number of milliseconds the clock ends in a colon and exactly
   * two digits of seconds in 00..59, preceded by the decimal minutes.
   */
  lemma MillisClockSecondsField(ms: int)
    requires ms >= 0
    ensures var c := MillisClock(Some(ms));
      && |c| >= 4 && c[|c| - 3] == ':'
      && AllDigits(c[..|c| - 3]) && AllDigits(c[|c| - 2..])
      && DigitsValue(c[|c| - 2..]) < 60
      && DigitsValue(c[..|c| - 3]) * 60 + DigitsValue(c[|c| - 2..]) == ms / 1000
  {
    var c := MillisClock(Some(ms));
    if ms == 0 {
      ZeroClock();
      assert c == "0:00";
    } else {
      assert c == SecondsClock(ms / 1000);
      SecondsClockReadsBack(ms / 1000);
    }
  }

  lemma ZeroClock()
    ensures var c := "0:00";
      && c[..|c| - 3] == "0" && c[|c| - 2..] == "00"
      && AllDigits("0") && AllDigits("00") && DigitsValue("0") == 0 && DigitsValue("00") == 0
  {
    assert "00"[..1] == "0";
    assert "0"[..0] == "";
  }

  /** The clock of zero seconds is the zero clock. */
  lemma SecondsClockZero()
    ensures SecondsClock(0) == "0:00"
  {
    assert NatToString(0) == "0";
  }

  /** Every clock has a colon after the minutes. */
  lemma SecondsClockHasColon(s: int)
    ensures Contains(SecondsClock(s), ":")
  {
    var c := SecondsClock(s);
    var m := IntToString(FloorDiv(s, 60));
    assert c == m + ":" + PadStart2(IntToString(Rem(s, 60)));
    assert c[|m|..|m| + 1] == ":";
    ContainsIff(c, ":");
    assert OccursAt(c, ":", |m|);
  }

  /** The zero clock has its colon too. */
  lemma ZeroClockHasColon()
    ensures Contains("0:00", ":")
  {
    ContainsIff("0:00", ":");
    assert OccursAt("0:00", ":", 1);
  }

  /** Distinct non-negative counts render differently. */
  lemma SecondsClockInjective(a: int, b: int)
    requires a >= 0 && b >= 0 && SecondsClock(a) == SecondsClock(b)
    ensures a == b
  {
    ClockReadsBackAsCount(a);
    ClockReadsBackAsCount(b);
  }

  /** 125000 ms renders as "2:05". */
  lemma MillisClockExample()
    ensures MillisClock(Some(125000)) == "2:05"
  {
    assert NatToString(2) == "2";
    assert NatToString(5) == "5";
  }
}
