/**
 * The YouTube extractor backed by btch-downloader: URL recognition, duration and
 * view-count normalisation, conversion, resolution (URL lookup or search) and the
 * mp3 / mp4 / refetch stream chain.
 */
module YouTubeExtractor {
  import opened Wrappers
  import opened JsText
  import opened JsNumber
  import opened UrlMatch
  import opened Durations
  import opened Tracks
  import JV = JsValue
  import Chain

  /** `author`: absent, a plain string, or a channel object with a `name`. */
  datatype Author = NoAuthor | AuthorText(text: string) | AuthorObject(name: Option<string>)

  /** A video object as the downloader returns it; `kind` is its `type` field. */
  datatype Video = Video(
    kind: Option<string>,
    title: Option<string>,
    description: Option<string>,
    author: Author,
    url: Option<string>,
    thumbnail: Option<string>,
    image: Option<string>,
    duration: JV.Value,
    views: JV.Value,
    mp3: Option<string>,
    mp4: Option<string>)

  /** What `youtube(url)` answers: an object that may wrap the video in `result`. */
  datatype Fetched = Fetched(result: Option<Video>, top: Video)

  datatype SearchResult = SearchResult(videos: Option<seq<Video>>)

  datatype SearchData = SearchData(result: Option<SearchResult>)

  /** The downloader functions, as oracles; `None` is a null/undefined answer. */
  datatype Api = Api(
    youtube: string -> Result<Option<Fetched>, ProviderError>,
    yts: string -> Result<Option<SearchData>, ProviderError>)

  // ---------------------------------------------------------------------------
  // URL recognition

  const YouTubeSubs: seq<string> := ["www."]

  const YouTubeHosts: seq<string> := ["youtube.com/watch?v=", "youtu.be/", "youtube.com/embed/", "youtube.com/v/"]

  /**
   * `isYouTubeURL`: `^https?:\/\/(www\.)?` then `youtube.com/watch?v=`, `youtu.be/`,
   * `youtube.com/embed/` or `youtube.com/v/`, then an id character (not `&`, `?`,
   * `#` or a newline).
   */
  predicate IsYouTubeUrl(url: string)
  {
    SchemeUrl(url, YouTubeSubs, YouTubeHosts, NotIdDelimiter)
  }

  /** The accepted URLs are exactly those that start with one of the sixteen prefixes and an id character. */
  lemma IsYouTubeUrlIff(url: string)
    ensures IsYouTubeUrl(url) <==> exists p :: p in UrlPrefixes(YouTubeSubs, YouTubeHosts) && PrefixThen(url, p, NotIdDelimiter)
  {
    SchemeUrlIff(url, YouTubeSubs, YouTubeHosts, NotIdDelimiter);
  }

  /** `validate` is `isYouTubeURL`: free text is rejected. */
  predicate Validate(query: string)
  {
    IsYouTubeUrl(query)
  }

  /** Shorts links and the `m.` and `music.` hosts are not YouTube URLs to this extractor. */
  lemma ShortsAndMobileRejected(id: string)
    ensures !IsYouTubeUrl("https://youtube.com/shorts/" + id)
    ensures !IsYouTubeUrl("https://" + "m.youtube.com/watch?v=" + id)
    ensures !IsYouTubeUrl("https://" + "music.youtube.com/watch?v=" + id)
  {
    ShortsRejected(id);
    MobileHostRejected("m.youtube.com/watch?v=", id);
    MobileHostRejected("music.youtube.com/watch?v=", id);
  }

  lemma ShortsRejected(id: string)
    ensures !IsYouTubeUrl("https://youtube.com/shorts/" + id)
  {
    var rest := "youtube.com/shorts/" + id;
    assert "https://youtube.com/shorts/" + id == "https://" + rest;
    assert rest[..13] == "youtube.com/s";
    RejectedShorts(rest);
    AfterHttps(rest);
  }

  /** A host part starting with `m`, as `m.` and `music.` do, is refused after `https://`. */
  lemma MobileHostRejected(host: string, id: string)
    requires |host| > 0 && host[0] == 'm'
    ensures !IsYouTubeUrl("https://" + host + id)
  {
    var rest := host + id;
    assert "https://" + host + id == "https://" + rest;
    RejectedMobile(rest);
    AfterHttps(rest);
  }

  /** What follows an `https://` scheme. */
  lemma AfterHttps(rest: string)
    ensures AfterScheme("https://" + rest) == Some(rest)
  {
    var url := "https://" + rest;
    assert url[..8] == "https://";
    assert url[8..] == rest;
  }

  /** After the scheme, a host part beginning with `m` matches no alternative. */
  lemma RejectedMobile(rest: string)
    requires |rest| > 0 && rest[0] == 'm'
    ensures !StartsWithOneOf(rest, YouTubeHosts, NotIdDelimiter)
    ensures !SubThenHost(rest, YouTubeSubs, YouTubeHosts, NotIdDelimiter)
  {
    DiffersAt(rest, "youtube.com/watch?v=", 0);
    DiffersAt(rest, "youtu.be/", 0);
    DiffersAt(rest, "youtube.com/embed/", 0);
    DiffersAt(rest, "youtube.com/v/", 0);
    StartsWithOneOfIff(rest, YouTubeHosts, NotIdDelimiter);
    DiffersAt(rest, "www.", 0);
    assert !StartsWith(rest, YouTubeSubs[0]);
    assert YouTubeSubs[1..] == [];
  }

  /** After the scheme, `youtube.com/s...` matches no alternative. */
  lemma RejectedShorts(rest: string)
    requires StartsWith(rest, "youtube.com/s")
    ensures !StartsWithOneOf(rest, YouTubeHosts, NotIdDelimiter)
    ensures !SubThenHost(rest, YouTubeSubs, YouTubeHosts, NotIdDelimiter)
  {
    assert rest[..13] == "youtube.com/s";
    assert rest[12] == 's' && rest[5] == 'b' && rest[0] == 'y' by {
      assert rest[12] == rest[..13][12] && rest[5] == rest[..13][5] && rest[0] == rest[..13][0];
    }
    DiffersAt(rest, "youtube.com/watch?v=", 12);
    DiffersAt(rest, "youtu.be/", 5);
    DiffersAt(rest, "youtube.com/embed/", 12);
    DiffersAt(rest, "youtube.com/v/", 12);
    StartsWithOneOfIff(rest, YouTubeHosts, NotIdDelimiter);
    DiffersAt(rest, "www.", 0);
    assert !StartsWith(rest, YouTubeSubs[0]);
    assert YouTubeSubs[1..] == [];
  }

  lemma DiffersAt(s: string, p: string, i: nat)
    requires i < |p| && (i < |s| ==> s[i] != p[i])
    ensures !StartsWith(s, p)
  {
    if i < |s| && |p| <= |s| {
      assert s[..|p|][i] == s[i];
    }
  }

  // ---------------------------------------------------------------------------
  // Normalisers

  /**
   * `formatDuration`: falsy gives "0:00"; an object with a truthy `timestamp` gives
   * the timestamp; a string containing ':' is kept; a string `parseInt` can read, or
   * a number, is a count of seconds; anything else gives "0:00".
   */
  function FormatDuration(d: JV.Value): (r: string)
    ensures !JV.Truthy(d) ==> r == "0:00"
    ensures d.Record? && Truthy(d.timestamp) ==> r == d.timestamp.value
    ensures d.Record? && !Truthy(d.timestamp) ==> r == "0:00"
    ensures d.Str? && Contains(d.s, ":") ==> r == d.s
    ensures d.Str? && d.s != "" && !Contains(d.s, ":") ==>
      r == match ParseInt(d.s) case Some(n) => SecondsClock(n) case None => "0:00"
    ensures d.Num? && d.n != 0 ==> r == SecondsClock(d.n)
  {
    if !JV.Truthy(d) then "0:00"
    else match d
      case Record(ts, _) => if Truthy(ts) then ts.value else "0:00"
      case Str(s) =>
        if Contains(s, ":") then s
        else (match ParseInt(s) case Some(n) => SecondsClock(n) case None => "0:00")
      case Num(n) => SecondsClock(n)
      case _ => "0:00"
  }

  /** A number of seconds and its decimal string are formatted alike; 125 gives "2:05". */
  lemma FormatDurationNumericString(n: int)
    ensures FormatDuration(JV.Str(IntToString(n))) == FormatDuration(JV.Num(n))
  {
    if n == 0 {
      SecondsClockZero();
    }
    ParseIntRendering(n);
    NoColonInNumber(n);
  }

  lemma NoColonInNumber(n: int)
    ensures !Contains(IntToString(n), ":")
  {
    var s := IntToString(n);
    NatToStringRoundTrip(if n < 0 then -n else n);
    ContainsIff(s, ":");
    forall j: nat | j < |s| ensures s[j] != ':' {
      if n < 0 && j > 0 {
        assert s[j] == NatToString(-n)[j - 1];
      }
    }
    forall j: nat ensures !OccursAt(s, ":", j) {
      if j + 1 <= |s| {
        assert s[j..j + 1][0] == s[j];
      }
    }
  }

  lemma FormatDurationExample()
    ensures FormatDuration(JV.Num(125)) == "2:05"
    ensures FormatDuration(JV.Str("125")) == "2:05"
  {
    assert FloorDiv(125, 60) == 2 && Rem(125, 60) == 5;
    assert IntToString(2) == "2" && IntToString(5) == "5";
    assert PadStart2("5") == "05";
    assert SecondsClock(125) == "2:05";
    assert NatToString(1) == "1";
    assert NatToString(12) == NatToString(1) + "2";
    assert NatToString(125) == NatToString(12) + "5";
    assert IntToString(125) == "125";
    FormatDurationNumericString(125);
  }

  /** `views.replace(/,/g, '')`. */
  function RemoveCommas(s: string): (r: string)
    ensures forall i :: 0 <= i < |r| ==> r[i] != ','
    ensures |r| <= |s|
  {
    if s == [] then [] else (if s[0] == ',' then [] else [s[0]]) + RemoveCommas(s[1..])
  }

  /** Removing commas works piece by piece: a concatenation loses the commas of each part. */
  lemma {:induction false} RemoveCommasAppend(a: string, b: string)
    ensures RemoveCommas(a + b) == RemoveCommas(a) + RemoveCommas(b)
  {
    if a != [] {
      assert (a + b)[1..] == a[1..] + b;
      RemoveCommasAppend(a[1..], b);
    } else {
      assert a + b == b;
    }
  }

  /** A single character is dropped exactly when it is a comma. */
  lemma RemoveCommasChar(c: char)
    ensures RemoveCommas([c]) == if c == ',' then [] else [c]
  {
    assert [c][1..] == [];
  }

  /** The first index at or after `from` holding a digit; `|s|` when there is none. */
  function FirstDigit(s: string, from: nat): (k: nat)
    requires from <= |s|
    decreases |s| - from
    ensures from <= k <= |s|
    ensures forall i :: from <= i < k ==> !IsDigit(s[i])
    ensures k < |s| ==> IsDigit(s[k])
  {
    if from == |s| || IsDigit(s[from]) then from else FirstDigit(s, from + 1)
  }

  /** `match(/(\d+)/)[1]`: the leftmost maximal run of digits, if any. */
  function FirstDigitRun(s: string): (r: Option<string>)
    ensures r.None? <==> forall i :: 0 <= i < |s| ==> !IsDigit(s[i])
    ensures r.Some? ==> r.value != [] && AllDigits(r.value)
    ensures r.Some? ==> var k := FirstDigit(s, 0);
      && k + |r.value| <= |s| && s[k..k + |r.value|] == r.value
      && (forall i :: 0 <= i < k ==> !IsDigit(s[i]))
      && (k + |r.value| == |s| || !IsDigit(s[k + |r.value|]))
  {
    var k := FirstDigit(s, 0);
    if k == |s| then None
    else
      var run := DigitRun(s[k..], 10);
      assert IsRadixDigit(s[k..][0], 10);
      Some(run)
  }

  /**
   * `parseViews`: falsy gives 0; a number passes through; a string loses its commas
   * and reads its first digit run, or gives 0 without one; anything else gives 0.
   */
  function ParseViews(v: JV.Value): (r: int)
    ensures !JV.Truthy(v) ==> r == 0
    ensures v.Num? ==> r == v.n
    ensures v.Str? ==> r >= 0
    ensures v.Str? && v.s != "" ==>
      r == match FirstDigitRun(RemoveCommas(v.s)) case Some(d) => DigitsValue(d) case None => 0
    ensures v.Record? ==> r == 0
  {
    if !JV.Truthy(v) then 0
    else match v
      case Num(n) => n
      case Str(s) =>
        (match FirstDigitRun(RemoveCommas(s))
         case Some(run) => DigitsValue(run)
         case None => 0)
      case _ => 0
  }

  /** A string without commas is left as it is. */
  lemma {:induction false} RemoveCommasCommaFree(s: string)
    requires forall i :: 0 <= i < |s| ==> s[i] != ','
    ensures RemoveCommas(s) == s
  {
    if s != [] {
      RemoveCommasCommaFree(s[1..]);
    }
  }

  /** A view count rendered as a decimal string reads back as the count. */
  lemma ParseViewsRendering(n: nat)
    ensures ParseViews(JV.Str(IntToString(n))) == n
  {
    var s := NatToString(n);
    NatToStringRoundTrip(n);
    forall i | 0 <= i < |s| ensures s[i] != ',' {
      assert IsDigit(s[i]);
    }
    RemoveCommasCommaFree(s);
    FirstDigitRunOfNumeral(s);
    assert JV.Truthy(JV.Str(s));
  }

  /** A numeral is its own first digit run. */
  lemma FirstDigitRunOfNumeral(s: string)
    requires s != [] && AllDigits(s)
    ensures FirstDigitRun(s) == Some(s)
  {
    assert FirstDigit(s, 0) == 0;
    assert s[0..] == s;
    DigitRunAll(s, 10);
  }

  /** "1,234" reads as 1234: the commas are dropped before the digits are read. */
  lemma ParseViewsExample()
    ensures ParseViews(JV.Str("1,234")) == 1234
  {
    var t := "1,234";
    assert RemoveCommas(t) == [t[0]] + RemoveCommas(t[1..]);
    assert RemoveCommas(t[1..]) == RemoveCommas(t[2..]);
    assert t[2..] == "234";
    RemoveCommasCommaFree("234");
    assert RemoveCommas(t) == "1234";
    assert NatToString(1) == "1";
    assert NatToString(12) == "12";
    assert NatToString(123) == "123";
    assert NatToString(1234) == "1234";
    ParseViewsRendering(1234);
  }

  // ---------------------------------------------------------------------------
  // Conversion

  /** The author text: `author?.name` for a search result, the `author` value otherwise. */
  function AuthorOf(v: Video): (a: string)
    ensures v.kind == Some("video") ==>
      a == (if v.author.AuthorObject? then OrElse(v.author.name, "Unknown Artist") else "Unknown Artist")
    ensures v.kind != Some("video") ==>
      a == match v.author
           case NoAuthor => "Unknown Artist"
           case AuthorText(t) => OrElse(Some(t), "Unknown Artist")
           case AuthorObject(_) => "[object Object]"
  {
    if v.kind == Some("video") then
      (match v.author
       case AuthorObject(name) => OrElse(name, "Unknown Artist")
       case _ => "Unknown Artist")
    else
      (match v.author
       case NoAuthor => "Unknown Artist"
       case AuthorText(t) => OrElse(Some(t), "Unknown Artist")
       case AuthorObject(_) => "[object Object]")
  }

  /** `convertToTrackData`. */
  function Convert(v: Video): (d: TrackData<Video>)
    ensures d.title == OrElse(v.title, "Unknown Title")
    ensures d.description == OrElse(v.description, "")
    ensures d.author == AuthorOf(v)
    ensures d.url == OrElse(v.url, "")
    ensures d.thumbnail == (if Truthy(v.thumbnail) then v.thumbnail else if Truthy(v.image) then v.image else None)
    ensures d.duration == FormatDuration(v.duration)
    ensures d.views == ParseViews(v.views)
    ensures d.source == "youtube" && !d.live && d.raw == v
  {
    TrackData(
      title := OrElse(v.title, "Unknown Title"),
      description := OrElse(v.description, ""),
      author := AuthorOf(v),
      url := OrElse(v.url, ""),
      thumbnail := OrElseOpt(v.thumbnail, OrElseOpt(v.image, None)),
      duration := FormatDuration(v.duration),
      views := ParseViews(v.views),
      source := "youtube",
      live := false,
      raw := v)
  }

  /** The video a URL lookup yields: `data.result` when truthy, else `data` itself. */
  function LookedUp(r: Result<Option<Fetched>, ProviderError>): seq<Video>
  {
    match r
    case Ok(Some(f)) => [if f.result.Some? then f.result.value else f.top]
    case _ => []
  }

  /** The videos a search yields, in provider order. */
  function SearchVideos(r: Result<Option<SearchData>, ProviderError>): seq<Video>
  {
    match r
    case Ok(Some(SearchData(Some(SearchResult(Some(vs)))))) => vs
    case _ => []
  }

  /**
   * `handle`: a URL becomes at most one track, preferring `data.result` over `data`;
   * free text becomes the first 10 search results in provider order; errors give
   * no tracks.
   */
  method Handle(api: Api, query: string) returns (tracks: seq<TrackData<Video>>)
    ensures IsYouTubeUrl(query) ==> tracks == MapAll(Convert, LookedUp(api.youtube(query))) && |tracks| <= 1
    ensures !IsYouTubeUrl(query) ==>
      var vs := SearchVideos(api.yts(query));
      tracks == MapAll(Convert, if |vs| <= 10 then vs else vs[..10])
    ensures !IsYouTubeUrl(query) ==> |tracks| <= 10
  {
    tracks := [];
    if IsYouTubeUrl(query) {
      var data := api.youtube(query);
      if data.Err? {
        return [];
      }
      if data.value.Some? {
        var f := data.value.value;
        if f.result.Some? {
          tracks := [Convert(f.result.value)];
        } else {
          tracks := [Convert(f.top)];
        }
      }
    } else {
      var searchData := api.yts(query);
      if searchData.Err? {
        return [];
      }
      var vs := SearchVideos(searchData);
      tracks := MapAll(Convert, if |vs| <= 10 then vs else vs[..10]);
    }
  }

  // ---------------------------------------------------------------------------
  // Streaming

  datatype Strategy = RawMp3 | RawMp4 | FetchedMp3 | FetchedMp4

  const Strategies: seq<Strategy> := [RawMp3, RawMp4, FetchedMp3, FetchedMp4]

  /** The player's track as `stream` reads it. */
  datatype Info = Info(title: Option<string>, url: Option<string>, raw: Option<Video>)

  /** `info.raw && info.raw.<field>`. */
  function RawStep(raw: Option<Video>, mp3: bool): Chain.Step<string, StreamError>
  {
    if raw.None? then Chain.Skip
    else
      var f := if mp3 then raw.value.mp3 else raw.value.mp4;
      if Truthy(f) then Chain.Found(f.value) else Chain.Skip
  }

  /** The refetch runs only for a truthy YouTube `info.url`. */
  predicate Refetches(info: Info)
  {
    Truthy(info.url) && IsYouTubeUrl(info.url.value)
  }

  /**
   * `data && data.<field>` of the refetched object; the refetch is one call, its
   * error propagates, and both fields are read from the same answer.
   */
  function FetchedStep(api: Api, info: Info, mp3: bool): Chain.Step<string, StreamError>
  {
    if !Refetches(info) then Chain.Skip
    else match api.youtube(info.url.value)
      case Err(e) => Chain.Abort(Provider(e))
      case Ok(None) => Chain.Skip
      case Ok(Some(f)) =>
        var field := if mp3 then f.top.mp3 else f.top.mp4;
        if Truthy(field) then Chain.Found(field.value) else Chain.Skip
  }

  function StreamSteps(api: Api, info: Info): (steps: seq<Chain.Step<string, StreamError>>)
    ensures |steps| == |Strategies|
  {
    [RawStep(info.raw, true), RawStep(info.raw, false), FetchedStep(api, info, true), FetchedStep(api, info, false)]
  }

  function Exhausted(info: Info): StreamError
  {
    Unextractable("Unable to extract stream for: " + Render(info.title))
  }

  /** `stream`: the first present of raw mp3, raw mp4, refetched mp3, refetched mp4; else it throws. */
  method Stream(api: Api, info: Info) returns (r: Result<string, StreamError>, tried: seq<Strategy>)
    ensures r == Chain.Run(StreamSteps(api, info), Exhausted(info))
    ensures tried == Strategies[..Chain.Tried(StreamSteps(api, info))]
  {
    ghost var s1, s2, s3, s4 := RawStep(info.raw, true), RawStep(info.raw, false), FetchedStep(api, info, true), FetchedStep(api, info, false);
    Chain.Run4(s1, s2, s3, s4, Exhausted(info));
    if info.raw.Some? && Truthy(info.raw.value.mp3) {
      return Ok(info.raw.value.mp3.value), Strategies[..1];
    }
    if info.raw.Some? && Truthy(info.raw.value.mp4) {
      return Ok(info.raw.value.mp4.value), Strategies[..2];
    }
    if Truthy(info.url) && IsYouTubeUrl(info.url.value) {
      var data := api.youtube(info.url.value);
      if data.Err? {
        return Err(Provider(data.error)), Strategies[..3];
      }
      if data.value.Some? && Truthy(data.value.value.top.mp3) {
        return Ok(data.value.value.top.mp3.value), Strategies[..3];
      }
      if data.value.Some? && Truthy(data.value.value.top.mp4) {
        return Ok(data.value.value.top.mp4.value), Strategies[..4];
      }
    }
    r, tried := Err(Exhausted(info)), Strategies;
  }

  /** Without a YouTube `info.url` nothing is refetched: the raw mp3 or mp4 is the only source. */
  lemma NoRefetchWithoutYouTubeUrl(api: Api, info: Info)
    requires !Refetches(info)
    ensures Chain.Run(StreamSteps(api, info), Exhausted(info)) ==
      if info.raw.Some? && Truthy(info.raw.value.mp3) then Ok(info.raw.value.mp3.value)
      else if info.raw.Some? && Truthy(info.raw.value.mp4) then Ok(info.raw.value.mp4.value)
      else Err(Exhausted(info))
  {
    var steps := StreamSteps(api, info);
    Chain.RunStopsAtFirstDecision(steps, Exhausted(info));
  }

  /** A stream the chain returns is one of the four candidate fields. */
  lemma StreamComesFromCandidates(api: Api, info: Info, s: string)
    requires Chain.Run(StreamSteps(api, info), Exhausted(info)) == Ok(s)
    ensures (info.raw.Some? && (info.raw.value.mp3 == Some(s) || info.raw.value.mp4 == Some(s)))
         || (Refetches(info) && exists f: Fetched :: api.youtube(info.url.value) == Ok(Some(f)) && (f.top.mp3 == Some(s) || f.top.mp4 == Some(s)))
  {
    var steps := StreamSteps(api, info);
    Chain.RunFindsIff(steps, Exhausted(info), s);
    var k :| 0 <= k < |steps| && steps[k] == Chain.Found(s) && forall i :: 0 <= i < k ==> steps[i].Skip?;
    if k >= 2 {
      assert Refetches(info);
      var f := api.youtube(info.url.value).value.value;
      assert api.youtube(info.url.value) == Ok(Some(f));
    }
  }
}
