/**
 * The logger: a level filter against the `LOG_LEVEL` environment variable, the line
 * template "[time] [LEVEL] prefix: message", and the choice of stream and colour.
 * The environment variable and the local time string are parameters.
 */
module Logging {
  import opened Wrappers
  import opened JsText

  datatype Variant = Ts | Js

  /** The levels, least severe first. */
  const Levels: seq<string> := ["debug", "info", "success", "warn", "error", "command", "reply"]

  /** `Levels.indexOf(s)`, with `-1` as `None`. */
  function IndexOf(s: Option<string>): (r: Option<nat>)
    ensures r.Some? <==> s.Some? && s.value in Levels
    ensures r.Some? ==> r.value < |Levels| && Levels[r.value] == s.value
  {
    if s.None? then None else IndexFrom0(s.value, 0)
  }

  function IndexFrom0(s: string, from: nat): (r: Option<nat>)
    requires from <= |Levels|
    decreases |Levels| - from
    ensures r.Some? ==> from <= r.value < |Levels| && Levels[r.value] == s
    ensures r.None? <==> forall i :: from <= i < |Levels| ==> Levels[i] != s
  {
    if from == |Levels| then None
    else if Levels[from] == s then Some(from)
    else IndexFrom0(s, from + 1)
  }

  /**
   * `shouldLog(level)` with `LOG_LEVEL` as `minLevel`: everything passes when either
   * level is not one of the seven; otherwise a level passes when it is at least as
   * severe as the minimum.
   */
  predicate ShouldLog(minLevel: Option<string>, level: string)
  {
    var minIndex := IndexOf(minLevel);
    var currentIndex := IndexOf(Some(level));
    minIndex.None? || currentIndex.None? || currentIndex.value >= minIndex.value
  }

  /** The fallback: an unset or unknown minimum, or an unknown level, shows the line. */
  lemma ShouldLogFallback(minLevel: Option<string>, level: string)
    requires minLevel.None? || minLevel.value !in Levels || level !in Levels
    ensures ShouldLog(minLevel, level)
  {
  }

  /** Between two known levels the filter is exactly the order of `Levels`. */
  lemma ShouldLogOrder(i: nat, j: nat)
    requires i < |Levels| && j < |Levels|
    ensures ShouldLog(Some(Levels[i]), Levels[j]) <==> j >= i
  {
    DistinctLevels();
  }

  lemma DistinctLevels()
    ensures forall i, j :: 0 <= i < j < |Levels| ==> Levels[i] != Levels[j]
  {
  }

  /** A minimum of "debug" lets everything through, and "reply" always gets through. */
  lemma ShouldLogExtremes(minLevel: Option<string>, level: string)
    ensures ShouldLog(Some("debug"), level)
    ensures ShouldLog(minLevel, "reply")
  {
    assert Levels[0] == "debug";
    assert Levels[6] == "reply";
    if minLevel.Some? && minLevel.value in Levels {
      DistinctLevels();
      assert IndexOf(Some("reply")) == Some(6);
    }
  }

  /** The filter is monotone: a level at least as severe as one that passes also passes. */
  lemma ShouldLogMonotone(minLevel: Option<string>, i: nat, j: nat)
    requires i <= j < |Levels| && ShouldLog(minLevel, Levels[i])
    ensures ShouldLog(minLevel, Levels[j])
  {
    DistinctLevels();
    assert IndexOf(Some(Levels[i])) == Some(i);
    assert IndexOf(Some(Levels[j])) == Some(j);
  }

  /** Where the line goes: `console.error` or `console.log`. */
  datatype Stream = Stdout | Stderr

  /** The `chalk` colour of the line. */
  datatype Colour = Green | Blue | Yellow | Red | Magenta | Cyan | Gray

  /** One logged line. */
  datatype Line = Line(stream: Stream, colour: Colour, text: string)

  /** The level actually used: `Ts` defaults only a missing level, `Js` any falsy one. */
  function EffectiveLevel(v: Variant, level: Option<string>): (l: string)
    ensures level.None? ==> l == "debug"
    ensures v == Js && level == Some("") ==> l == "debug"
    ensures level.Some? && level.value != "" ==> l == level.value
  {
    match v
    case Ts => if level.Some? then level.value else "debug"
    case Js => if Truthy(level) then level.value else "debug"
  }

  /** The message template: time and level in brackets, then " prefix:" when the prefix is truthy. */
  function Header(timestamp: string, level: string, prefix: Option<string>): string
  {
    "[" + timestamp + "] [" + ToUpper(level) + "]" + (if Truthy(prefix) then " " + prefix.value + ":" else "")
  }

  /** `console.error` for warnings and errors, `console.log` for the rest. */
  function StreamOf(level: string): (s: Stream)
    ensures s == Stderr <==> level == "warn" || level == "error"
  {
    if level == "warn" || level == "error" then Stderr else Stdout
  }

  function ColourOf(level: string): Colour
  {
    match level
    case "success" => Green
    case "info" => Blue
    case "warn" => Yellow
    case "error" => Red
    case "command" => Magenta
    case "reply" => Cyan
    case _ => Gray
  }

  /**
   * `Logger.log(level, message, prefix)`: nothing when the filter refuses the level;
   * otherwise the header, a space and the message, on the stream and in the colour of
   * the level.
   */
  function Log(v: Variant, minLevel: Option<string>, timestamp: string,
               level: Option<string>, message: string, prefix: Option<string>): (r: Option<Line>)
    ensures r.None? <==> !ShouldLog(minLevel, EffectiveLevel(v, level))
    ensures r.Some? ==> r.value.stream == StreamOf(EffectiveLevel(v, level))
  {
    var l := EffectiveLevel(v, level);
    if !ShouldLog(minLevel, l) then None
    else Some(Line(StreamOf(l), ColourOf(l), Header(timestamp, l, prefix) + " " + message))
  }

  /**
   * A logged line starts with the bracketed time and upper-cased level, carries
   * " prefix:" exactly when a truthy prefix is given, and ends with a space and the message.
   */
  lemma LogLineLayout(v: Variant, minLevel: Option<string>, timestamp: string,
                      level: Option<string>, message: string, prefix: Option<string>)
    requires Log(v, minLevel, timestamp, level, message, prefix).Some?
    ensures var t := Log(v, minLevel, timestamp, level, message, prefix).value.text;
      var head := "[" + timestamp + "] [" + ToUpper(EffectiveLevel(v, level)) + "]";
      && StartsWith(t, head)
      && t[|t| - |message| - 1..] == " " + message
      && (Truthy(prefix) ==> t[|head|..] == " " + prefix.value + ": " + message)
      && (!Truthy(prefix) ==> t[|head|..] == " " + message)
  {
    var t := Log(v, minLevel, timestamp, level, message, prefix).value.text;
    var head := "[" + timestamp + "] [" + ToUpper(EffectiveLevel(v, level)) + "]";
    var seg := if Truthy(prefix) then " " + prefix.value + ":" else "";
    assert t == head + (seg + " " + message);
    assert t[..|head|] == head;
    assert t[|head|..] == seg + " " + message;
  }

  /** The two versions log the same line except for an empty level, which only `Js` turns into "debug". */
  lemma VariantsDifferOnlyOnEmptyLevel(minLevel: Option<string>, timestamp: string,
                                       level: Option<string>, message: string, prefix: Option<string>)
    ensures Log(Ts, minLevel, timestamp, level, message, prefix) != Log(Js, minLevel, timestamp, level, message, prefix)
      <==> level == Some("")
  {
    if level == Some("") {
      EmptyLevelDiffers(minLevel, timestamp, message, prefix);
    } else {
      assert EffectiveLevel(Ts, level) == EffectiveLevel(Js, level);
    }
  }

  /** An empty level: `Ts` logs it in gray under "[]", `Js` at most as a "[DEBUG]" line. */
  lemma EmptyLevelDiffers(minLevel: Option<string>, timestamp: string, message: string, prefix: Option<string>)
    ensures Log(Ts, minLevel, timestamp, Some(""), message, prefix) != Log(Js, minLevel, timestamp, Some(""), message, prefix)
  {
    assert IndexOf(Some("")) == None;
    var js := Log(Js, minLevel, timestamp, Some(""), message, prefix);
    if js.Some? {
      HeaderLevelChar(timestamp, "", message, prefix);
      HeaderLevelChar(timestamp, "debug", message, prefix);
    }
  }

  /** The character right after "[time] [" is the first upper-cased letter of the level, or "]" for an empty level. */
  lemma HeaderLevelChar(timestamp: string, level: string, message: string, prefix: Option<string>)
    ensures var t, k := Header(timestamp, level, prefix) + " " + message, |timestamp| + 4;
      k < |t| && t[k] == if level == "" then ']' else ToUpperChar(level[0])
  {
    var h := "[" + timestamp + "] [";
    var rest := ToUpper(level) + "]" + (if Truthy(prefix) then " " + prefix.value + ":" else "") + " " + message;
    assert Header(timestamp, level, prefix) + " " + message == h + rest;
    assert (h + rest)[|h|] == rest[0];
  }
}
