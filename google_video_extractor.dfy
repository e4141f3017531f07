/**
 * The Google Video extractor: a thin wrapper around a SABR extractor delegate. It
 * recognises YouTube URLs (including shorts and the `m.` and `music.` hosts), lets
 * free-text searches through, delegates resolution, streaming and related-track
 * lookup, and converts the delegate's tracks to the bot's track record.
 */
module GoogleVideoExtractor {
  import opened Wrappers
  import opened JsText
  import opened JsNumber
  import opened UrlMatch
  import opened Durations
  import opened Tracks
  import JV = JsValue
  import YT = YouTubeExtractor

  /** `channel`: of a channel object only its `name` is read. */
  datatype Channel = Channel(name: Option<string>)

  /** An entry of `thumbnails`: only its `url` is read. */
  datatype Thumbnail = Thumbnail(url: Option<string>)

  /** A track as the SABR delegate returns it. */
  datatype SabrTrack = SabrTrack(
    title: Option<string>,
    description: Option<string>,
    author: Option<string>,
    channel: Option<Channel>,
    url: Option<string>,
    thumbnail: Option<string>,
    thumbnails: Option<seq<Thumbnail>>,
    duration: JV.Value,
    durationMS: JV.Value,
    views: Option<int>,
    live: Option<bool>)

  /** A playlist object of the delegate, passed through untouched. */
  datatype SabrPlaylist = SabrPlaylist(title: Option<string>, url: Option<string>)

  /** What the delegate's `handle` answers. */
  datatype SabrResult = SabrResult(playlist: Option<SabrPlaylist>, tracks: Option<seq<SabrTrack>>)

  /** The player's track as `stream` and `getRelatedTracks` receive it. */
  datatype PlayerTrack = PlayerTrack(title: Option<string>, url: Option<string>)

  /** What `handle` and `getRelatedTracks` return: `{ playlist, tracks }`. */
  datatype ExtractorInfo = ExtractorInfo(playlist: Option<SabrPlaylist>, tracks: seq<TrackData<SabrTrack>>)

  /**
   * The SABR delegate, as oracles: the outcome of its `activate`, its `handle`,
   * `stream` and, when it has one, `getRelatedTracks`.
   */
  datatype Delegate = Delegate(
    activation: Result<(), ProviderError>,
    handle: string -> Result<Option<SabrResult>, ProviderError>,
    stream: PlayerTrack -> Result<string, ProviderError>,
    related: Option<PlayerTrack -> Result<seq<SabrTrack>, ProviderError>>)

  // ---------------------------------------------------------------------------
  // URL recognition

  const GvSubs: seq<string> := ["www.", "m.", "music."]

  const GvHosts: seq<string> := ["youtube.com/watch?v=", "youtube.com/embed/", "youtube.com/v/", "youtube.com/shorts/"]

  /** `https?:\/\/youtu\.be\/[^&\n?#]+` matches at position `j`. */
  predicate ShortLinkAt(url: string, j: nat)
    requires j <= |url|
  {
    PrefixThen(url[j..], "http://youtu.be/", NotIdDelimiter) || PrefixThen(url[j..], "https://youtu.be/", NotIdDelimiter)
  }

  /**
   * `isYouTubeURL`. The pattern's top-level alternation splits it in two: the
   * anchored `^https?:\/\/(www\.|m\.|music\.)?youtube\.com\/(watch\?v=|embed\/|v\/|shorts\/)`
   * followed by an id character, or a `youtu.be` short link at any position, since
   * the second alternative has no `^`.
   */
  predicate IsYouTubeUrl(url: string)
  {
    SchemeUrl(url, GvSubs, GvHosts, NotIdDelimiter) || exists j | 0 <= j <= |url| :: ShortLinkAt(url, j)
  }

  /** `/^https?:\/\//.test(query)`. */
  predicate HasScheme(query: string)
  {
    AfterScheme(query).Some?
  }

  /** `validate`: empty text is refused, YouTube URLs are accepted, other URLs refused, free text accepted. */
  predicate Validate(query: string)
  {
    if |query| == 0 then false
    else if IsYouTubeUrl(query) then true
    else if HasScheme(query) then false
    else true
  }

  /** Any non-empty text that does not start with a scheme is taken as a search query. */
  lemma SearchTextAccepted(query: string)
    requires query != [] && !StartsWith(query, "http://") && !StartsWith(query, "https://")
    ensures Validate(query)
  {
  }

  /** A URL (a string with a scheme) is accepted exactly when it is a YouTube URL. */
  lemma UrlAcceptedIff(query: string)
    requires StartsWith(query, "http://") || StartsWith(query, "https://")
    ensures Validate(query) <==> IsYouTubeUrl(query)
  {
  }

  /** A `youtu.be` short link anywhere in the text makes it a YouTube URL, whatever precedes it. */
  lemma ShortLinkAnywhere(prefix: string, id: string)
    requires id != [] && InClass(id[0], NotIdDelimiter)
    ensures IsYouTubeUrl(prefix + "https://youtu.be/" + id)
  {
    var url := prefix + "https://youtu.be/" + id;
    var j := |prefix|;
    assert url[j..] == "https://youtu.be/" + id;
    assert url[j..][..17] == "https://youtu.be/";
    assert ShortLinkAt(url, j);
  }

  /**
   * Shorts links and the `m.` and `music.` hosts, which the btch-downloader
   * extractor refuses, are YouTube URLs here.
   */
  lemma ShortsAndMobileAccepted(id: string)
    requires id != [] && InClass(id[0], NotIdDelimiter)
    ensures IsYouTubeUrl("https://youtube.com/shorts/" + id)
    ensures IsYouTubeUrl("https://m.youtube.com/watch?v=" + id)
    ensures IsYouTubeUrl("https://music.youtube.com/watch?v=" + id)
  {
    ShortsAccepted(id);
    MobileAccepted(id);
    MusicAccepted(id);
  }

  lemma ShortsAccepted(id: string)
    requires id != [] && InClass(id[0], NotIdDelimiter)
    ensures IsYouTubeUrl("https://youtube.com/shorts/" + id)
  {
    assert Schemes[1] == "https://" && GvHosts[3] == "youtube.com/shorts/";
    assert "https://youtube.com/shorts/" == Schemes[1] + "" + GvHosts[3];
    AcceptedWithPrefix("https://youtube.com/shorts/", Schemes[1], "", GvHosts[3], id);
  }

  lemma MobileAccepted(id: string)
    requires id != [] && InClass(id[0], NotIdDelimiter)
    ensures IsYouTubeUrl("https://m.youtube.com/watch?v=" + id)
  {
    assert Schemes[1] == "https://" && GvSubs[1] == "m." && GvHosts[0] == "youtube.com/watch?v=";
    assert ([""] + GvSubs)[2] == GvSubs[1];
    assert "https://m.youtube.com/watch?v=" == Schemes[1] + GvSubs[1] + GvHosts[0];
    AcceptedWithPrefix("https://m.youtube.com/watch?v=", Schemes[1], GvSubs[1], GvHosts[0], id);
  }

  lemma MusicAccepted(id: string)
    requires id != [] && InClass(id[0], NotIdDelimiter)
    ensures IsYouTubeUrl("https://music.youtube.com/watch?v=" + id)
  {
    MusicPrefix();
    AcceptedWithPrefix("https://music.youtube.com/watch?v=", Schemes[1], GvSubs[2], GvHosts[0], id);
  }

  lemma MusicPrefix()
    ensures "https://music.youtube.com/watch?v=" == Schemes[1] + GvSubs[2] + GvHosts[0]
    ensures GvSubs[2] in [""] + GvSubs
  {
    assert Schemes[1] == "https://" && GvSubs[2] == "music." && GvHosts[0] == "youtube.com/watch?v=";
    assert ([""] + GvSubs)[3] == GvSubs[2];
  }

  lemma AcceptedWithPrefix(p: string, scheme: string, sub: string, host: string, id: string)
    requires scheme in Schemes && sub in [""] + GvSubs && host in GvHosts && p == scheme + sub + host
    requires id != [] && InClass(id[0], NotIdDelimiter)
    ensures IsYouTubeUrl(p + id)
  {
    var url := p + id;
    assert p in UrlPrefixes(GvSubs, GvHosts);
    assert url[..|p|] == p && url[|p|] == id[0];
    SchemeUrlIff(url, GvSubs, GvHosts, NotIdDelimiter);
  }

  /** The `www.youtu.be` form, which only the btch-downloader extractor's pattern admits. */
  predicate WwwShortLink(url: string)
  {
    PrefixThen(url, "http://www.youtu.be/", NotIdDelimiter) || PrefixThen(url, "https://www.youtu.be/", NotIdDelimiter)
  }

  /**
   * Every URL the btch-downloader YouTube extractor recognises is recognised here
   * too, except for `www.youtu.be` links.
   */
  lemma CoversYouTubeExtractor(url: string)
    requires YT.IsYouTubeUrl(url) && !WwwShortLink(url)
    ensures IsYouTubeUrl(url)
  {
    YT.IsYouTubeUrlIff(url);
    var p :| p in UrlPrefixes(YT.YouTubeSubs, YT.YouTubeHosts) && PrefixThen(url, p, NotIdDelimiter);
    var s, w, h :| s in Schemes && w in [""] + YT.YouTubeSubs && h in YT.YouTubeHosts && p == s + w + h;
    if h == "youtu.be/" {
      ShortLinkCovered(url, s, w);
    } else {
      LongFormCovered(url, s, w, h);
    }
  }

  lemma ShortLinkCovered(url: string, s: string, w: string)
    requires s in Schemes && w in [""] + YT.YouTubeSubs
    requires PrefixThen(url, s + w + "youtu.be/", NotIdDelimiter) && !WwwShortLink(url)
    ensures IsYouTubeUrl(url)
  {
    WwwShortLinkForm(url, s, w);
    assert s + w + "youtu.be/" == s + "youtu.be/";
    assert url[0..] == url;
    assert ShortLinkAt(url, 0);
  }

  /** A short link behind the `www.` sub-domain is a `www.youtu.be` link. */
  lemma WwwShortLinkForm(url: string, s: string, w: string)
    ensures s in Schemes && w == "www." && PrefixThen(url, s + w + "youtu.be/", NotIdDelimiter) ==> WwwShortLink(url)
  {
    if s in Schemes && w == "www." {
      assert s + w + "youtu.be/" == s + "www.youtu.be/";
    }
  }

  lemma LongFormCovered(url: string, s: string, w: string, h: string)
    requires s in Schemes && w in [""] + YT.YouTubeSubs && h in YT.YouTubeHosts && h != "youtu.be/"
    requires PrefixThen(url, s + w + h, NotIdDelimiter)
    ensures IsYouTubeUrl(url)
  {
    assert h in GvHosts;
    assert w in [""] + GvSubs;
    assert s + w + h in UrlPrefixes(GvSubs, GvHosts);
    SchemeUrlIff(url, GvSubs, GvHosts, NotIdDelimiter);
  }

  // ---------------------------------------------------------------------------
  // Duration

  /**
   * `formatDuration`: falsy gives "0:00"; a number is milliseconds; a string
   * containing ':' is kept; another string is the seconds `parseInt` reads; an object
   * with a truthy `seconds` is that many seconds; anything else gives "0:00".
   */
  function FormatDuration(d: JV.Value): (r: string)
    ensures !JV.Truthy(d) ==> r == "0:00"
    ensures d.Num? && d.n != 0 ==> r == SecondsClock(FloorDiv(d.n, 1000))
    ensures d.Str? && Contains(d.s, ":") ==> r == d.s
    ensures d.Str? && d.s != "" && !Contains(d.s, ":") ==>
      r == match ParseInt(d.s) case Some(n) => SecondsClock(n) case None => "0:00"
    ensures d.Record? && d.seconds.Some? && d.seconds.value != 0 ==> r == SecondsClock(d.seconds.value)
    ensures d.Record? && (d.seconds.None? || d.seconds.value == 0) ==> r == "0:00"
  {
    if !JV.Truthy(d) then "0:00"
    else match d
      case Num(n) => SecondsClock(n / 1000)
      case Str(s) =>
        if Contains(s, ":") then s
        else (match ParseInt(s) case Some(n) => SecondsClock(n) case None => "0:00")
      case Record(_, secs) => if secs.Some? && secs.value != 0 then SecondsClock(secs.value) else "0:00"
      case _ => "0:00"
  }

  /**
   * Numbers are milliseconds but numeric strings and `seconds` fields are seconds:
   * `n` seconds written either way formats like `n * 1000` milliseconds.
   */
  lemma SecondsAgreeWithMillis(n: int)
    ensures FormatDuration(JV.Str(IntToString(n))) == FormatDuration(JV.Num(n * 1000))
    ensures FormatDuration(JV.Record(None, Some(n))) == FormatDuration(JV.Num(n * 1000))
  {
    if n == 0 {
      SecondsClockZero();
    }
    ParseIntRendering(n);
    YT.NoColonInNumber(n);
    assert FloorDiv(n * 1000, 1000) == n;
  }

  /** Every formatted duration contains a colon. */
  lemma FormatDurationHasColon(d: JV.Value)
    ensures Contains(FormatDuration(d), ":")
  {
    match d
    case Num(n) =>
      if n == 0 { ZeroClockHasColon(); } else { SecondsClockHasColon(n / 1000); }
    case Str(s) =>
      if s == "" {
        ZeroClockHasColon();
      } else if !Contains(s, ":") {
        match ParseInt(s)
        case Some(n) => SecondsClockHasColon(n);
        case None => ZeroClockHasColon();
      }
    case Record(_, secs) =>
      if secs.Some? && secs.value != 0 { SecondsClockHasColon(secs.value); } else { ZeroClockHasColon(); }
    case _ => ZeroClockHasColon();
  }

  /** Formatting is idempotent: a formatted duration, read back as a string, is kept as it is. */
  lemma FormatDurationIdempotent(d: JV.Value)
    ensures FormatDuration(JV.Str(FormatDuration(d))) == FormatDuration(d)
  {
    FormatDurationHasColon(d);
  }

  // ---------------------------------------------------------------------------
  // Conversion

  /** `trackData.channel?.name`. */
  function ChannelName(c: Option<Channel>): Option<string>
  {
    if c.Some? then c.value.name else None
  }

  /** `trackData.thumbnails?.[0]?.url`. */
  function FirstThumbnailUrl(ts: Option<seq<Thumbnail>>): (u: Option<string>)
    ensures u.Some? ==> ts.Some? && |ts.value| > 0 && u == ts.value[0].url
    ensures ts.Some? && |ts.value| > 0 ==> u == ts.value[0].url
  {
    if ts.Some? && |ts.value| > 0 then ts.value[0].url else None
  }

  /** `a || b || null` on possibly-undefined strings. */
  function FirstTruthy(a: Option<string>, b: Option<string>): (r: Option<string>)
    ensures r.Some? ==> Truthy(r)
    ensures Truthy(a) ==> r == a
    ensures !Truthy(a) && Truthy(b) ==> r == b
    ensures !Truthy(a) && !Truthy(b) ==> r.None?
  {
    if Truthy(a) then a else if Truthy(b) then b else None
  }

  /**
   * `convertToTrackData`: each field falls back in order (`author`, then the
   * channel's name, then "Unknown Artist"; `thumbnail`, then the first thumbnail's
   * url, then null; `duration`, then `durationMS`); `views` defaults to 0 and `live`
   * to false; the source is "youtube-sabr".
   */
  function Convert(t: SabrTrack): (d: TrackData<SabrTrack>)
    ensures d.title == OrElse(t.title, "Unknown Title")
    ensures d.description == OrElse(t.description, "")
    ensures d.author == OrElse(t.author, OrElse(ChannelName(t.channel), "Unknown Artist"))
    ensures d.url == OrElse(t.url, "")
    ensures d.thumbnail.Some? ==> Truthy(d.thumbnail)
    ensures d.thumbnail == FirstTruthy(t.thumbnail, FirstThumbnailUrl(t.thumbnails))
    ensures d.duration == FormatDuration(if JV.Truthy(t.duration) then t.duration else t.durationMS)
    ensures d.views == (if t.views.Some? then t.views.value else 0)
    ensures d.live <==> t.live == Some(true)
    ensures d.source == "youtube-sabr" && d.raw == t
  {
    TrackData(
      title := OrElse(t.title, "Unknown Title"),
      description := OrElse(t.description, ""),
      author := OrElse(t.author, OrElse(ChannelName(t.channel), "Unknown Artist")),
      url := OrElse(t.url, ""),
      thumbnail := FirstTruthy(t.thumbnail, FirstThumbnailUrl(t.thumbnails)),
      duration := FormatDuration(if JV.Truthy(t.duration) then t.duration else t.durationMS),
      views := if t.views.Some? && t.views.value != 0 then t.views.value else 0,
      source := "youtube-sabr",
      live := t.live == Some(true),
      raw := t)
  }

  /** The empty answer `{ playlist: null, tracks: [] }`. */
  const Empty: ExtractorInfo := ExtractorInfo(None, [])

  // ---------------------------------------------------------------------------
  // The extractor

  class Extractor {
    /** `this.sabrExtractor`: null until `activate` has created the delegate. */
    var sabr: Option<Delegate>

    constructor ()
      ensures sabr.None?
    {
      sabr := None;
    }

    /**
     * `activate`: creates and stores the delegate, then activates it; a failed
     * activation is rethrown, and the delegate stays stored.
     */
    method Activate(d: Delegate) returns (r: Result<(), ProviderError>)
      modifies this
      ensures sabr == Some(d) && r == d.activation
    {
      sabr := Some(d);
      r := d.activation;
    }

    /**
     * `handle`: never throws. Without a delegate, on a delegate error and when the
     * delegate finds no tracks the answer is empty; otherwise it is the converted
     * tracks, in order, with the delegate's playlist passed through.
     */
    method Handle(query: string) returns (info: ExtractorInfo)
      ensures sabr.None? ==> info == Empty
      ensures sabr.Some? ==>
        match sabr.value.handle(query)
        case Ok(Some(SabrResult(p, Some(ts)))) => info == if |ts| > 0 then ExtractorInfo(p, MapAll(Convert, ts)) else Empty
        case _ => info == Empty
      ensures info.tracks == [] ==> info.playlist.None?
    {
      if sabr.None? {
        return Empty;
      }
      var result := sabr.value.handle(query);
      if result.Err? {
        return Empty;
      }
      if result.value.Some? && result.value.value.tracks.Some? && |result.value.value.tracks.value| > 0 {
        var res := result.value.value;
        info := ExtractorInfo(res.playlist, MapAll(Convert, res.tracks.value));
      } else {
        info := Empty;
      }
    }

    /**
     * `stream`: without a delegate it throws "SABR extractor not initialized";
     * otherwise the delegate's stream URL, or its error rethrown.
     */
    method Stream(track: PlayerTrack) returns (r: Result<string, StreamError>)
      ensures sabr.None? ==> r == Err(NotInitialized("SABR extractor not initialized"))
      ensures sabr.Some? ==>
        match sabr.value.stream(track)
        case Ok(u) => r == Ok(u)
        case Err(e) => r == Err(Provider(e))
    {
      if sabr.None? {
        return Err(NotInitialized("SABR extractor not initialized"));
      }
      var s := sabr.value.stream(track);
      if s.Err? {
        return Err(Provider(s.error));
      }
      r := Ok(s.value);
    }

    /**
     * `getRelatedTracks`: never throws; empty without a delegate, without the
     * delegate method and on its error; otherwise the converted tracks and no
     * playlist.
     */
    method GetRelatedTracks(track: PlayerTrack) returns (info: ExtractorInfo)
      ensures info.playlist.None?
      ensures sabr.None? || sabr.value.related.None? ==> info == Empty
      ensures sabr.Some? && sabr.value.related.Some? ==>
        match sabr.value.related.value(track)
        case Ok(ts) => info.tracks == MapAll(Convert, ts)
        case Err(_) => info == Empty
    {
      if sabr.None? || sabr.value.related.None? {
        return Empty;
      }
      var related := sabr.value.related.value(track);
      if related.Err? {
        return Empty;
      }
      info := ExtractorInfo(None, MapAll(Convert, related.value));
    }
  }
}
