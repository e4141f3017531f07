/**
 * The SoundCloud extractor: query validation, URL recognition and path extraction,
 * track conversion, query resolution (playlist, single track or search) and the
 * three-strategy stream chain.
 */
module SoundCloudExtractor {
  import opened Wrappers
  import opened JsText
  import opened UrlMatch
  import opened Durations
  import opened Tracks
  import opened SoundCloudApi
  import Chain

  /** `validate`: any non-empty string, so URLs of every provider and free text alike. */
  predicate Validate(query: string)
  {
    |query| > 0
  }

  // ---------------------------------------------------------------------------
  // URL recognition: /^https?:\/\/(www\.)?(soundcloud\.com|snd\.sc)\/.+/

  /** `(www\.)?` */
  const SoundCloudSubs: seq<string> := ["www."]

  /** `(soundcloud\.com|snd\.sc)\/` */
  const SoundCloudHosts: seq<string> := ["soundcloud.com/", "snd.sc/"]

  /** `isSoundCloudURL`, matched part by part: scheme, optional `www.`, host, one more character. */
  predicate IsSoundCloudUrl(url: string)
  {
    SchemeUrl(url, SoundCloudSubs, SoundCloudHosts, AnyButLineTerminator)
  }

  /**
   * A URL is a SoundCloud URL exactly when it starts with `http://` or `https://`,
   * an optional `www.`, `soundcloud.com/` or `snd.sc/`, and at least one further
   * character that is not a line terminator.
   */
  lemma IsSoundCloudUrlIff(url: string)
    ensures IsSoundCloudUrl(url) <==>
      exists scheme, www, host :: scheme in ["http://", "https://"] && www in ["", "www."]
        && host in ["soundcloud.com/", "snd.sc/"] && PrefixThen(url, scheme + www + host, AnyButLineTerminator)
  {
    SchemeUrlIff(url, SoundCloudSubs, SoundCloudHosts, AnyButLineTerminator);
    if IsSoundCloudUrl(url) {
      var p :| p in UrlPrefixes(SoundCloudSubs, SoundCloudHosts) && PrefixThen(url, p, AnyButLineTerminator);
      var scheme, www, host :| scheme in Schemes && www in [""] + SoundCloudSubs && host in SoundCloudHosts
        && p == scheme + www + host;
    }
    if exists scheme, www, host :: scheme in ["http://", "https://"] && www in ["", "www."]
        && host in ["soundcloud.com/", "snd.sc/"] && PrefixThen(url, scheme + www + host, AnyButLineTerminator) {
      var scheme, www, host :| scheme in ["http://", "https://"] && www in ["", "www."]
        && host in ["soundcloud.com/", "snd.sc/"] && PrefixThen(url, scheme + www + host, AnyButLineTerminator);
      assert scheme + www + host in UrlPrefixes(SoundCloudSubs, SoundCloudHosts);
    }
  }

  // ---------------------------------------------------------------------------
  // Path extraction: url.match(/soundcloud\.com\/(.+)/), then match[1] or the url itself

  /** The unanchored pattern matches at position `j` of `s`. */
  predicate PathMatchAt(s: string, j: nat)
  {
    j <= |s| && PrefixThen(s[j..], "soundcloud.com/", AnyButLineTerminator)
  }

  /** The leftmost position at or after `from` where the pattern matches. */
  function FirstPathMatch(s: string, from: nat): (r: Option<nat>)
    decreases |s| - from
    ensures r.Some? ==> from <= r.value && PathMatchAt(s, r.value)
    ensures r.Some? ==> forall j :: from <= j < r.value ==> !PathMatchAt(s, j)
    ensures r.None? ==> forall j :: from <= j ==> !PathMatchAt(s, j)
  {
    if from >= |s| then None
    else if PathMatchAt(s, from) then Some(from)
    else FirstPathMatch(s, from + 1)
  }

  /** What a greedy `.+` captures: the longest prefix without a line terminator. */
  function LineRun(s: string): (r: string)
    ensures |r| <= |s| && r == s[..|r|]
    ensures forall i :: 0 <= i < |r| ==> !IsLineTerminator(r[i])
    ensures |r| < |s| ==> IsLineTerminator(s[|r|])
  {
    if s != [] && !IsLineTerminator(s[0]) then [s[0]] + LineRun(s[1..]) else []
  }

  /**
   * `extractPath`: the capture after the leftmost `soundcloud.com/` that is followed
   * by a character, up to the first line terminator; the URL itself when the pattern
   * does not match anywhere (an `snd.sc` link, say).
   */
  function ExtractPath(url: string): (r: string)
    ensures (forall j :: !PathMatchAt(url, j)) ==> r == url
    ensures FirstPathMatch(url, 0).Some? ==>
      var j := FirstPathMatch(url, 0).value;
      r != [] && r == LineRun(url[j + 15..])
  {
    match FirstPathMatch(url, 0)
    case None => url
    case Some(j) => LineRun(url[j + 15..])
  }

  /** A URL without "soundcloud.com/" in it (an `snd.sc` link, say) is returned unchanged. */
  lemma ExtractPathWithoutHost(url: string)
    requires !Contains(url, "soundcloud.com/")
    ensures ExtractPath(url) == url
  {
    ContainsIff(url, "soundcloud.com/");
    forall j: nat ensures !PathMatchAt(url, j) {
      PathMatchOccurs(url, j);
    }
  }

  /**
   * On a one-line URL whose first "soundcloud.com/" is followed by more text, the
   * path is everything after that first occurrence.
   */
  lemma ExtractPathOfOneLineUrl(url: string, j: nat)
    requires forall i :: 0 <= i < |url| ==> !IsLineTerminator(url[i])
    requires IndexFrom(url, "soundcloud.com/", 0) == Some(j) && j + 15 < |url|
    ensures ExtractPath(url) == url[j + 15..]
  {
    assert !IsLineTerminator(url[j + 15]);
    FirstOccurrenceMatches(url, j);
    OneLineTail(url, j + 15);
  }

  /** Every suffix of a one-line string is captured whole. */
  lemma OneLineTail(url: string, k: nat)
    requires forall i :: 0 <= i < |url| ==> !IsLineTerminator(url[i])
    requires k <= |url|
    ensures LineRun(url[k..]) == url[k..]
  {
    var tail := url[k..];
    assert forall i :: 0 <= i < |tail| ==> tail[i] == url[k + i];
    LineRunWhole(tail);
  }

  /** The first occurrence of the host, followed by a character of the line, is where the pattern matches first. */
  lemma FirstOccurrenceMatches(url: string, j: nat)
    requires IndexFrom(url, "soundcloud.com/", 0) == Some(j) && j + 15 < |url|
    requires !IsLineTerminator(url[j + 15])
    ensures FirstPathMatch(url, 0) == Some(j)
  {
    OccursThenStarts(url, "soundcloud.com/", j);
    forall k: nat | k < j ensures !PathMatchAt(url, k) {
      PathMatchOccurs(url, k);
    }
    FirstPathMatchIs(url, j);
  }

  lemma OccursThenStarts(s: string, p: string, j: nat)
    requires OccursAt(s, p, j)
    ensures StartsWith(s[j..], p)
  {
    assert s[j..][..|p|] == s[j..j + |p|];
  }

  /** A match with none before it is the leftmost one. */
  lemma FirstPathMatchIs(url: string, j: nat)
    requires PathMatchAt(url, j) && forall k: nat :: k < j ==> !PathMatchAt(url, k)
    ensures FirstPathMatch(url, 0) == Some(j)
  {
  }

  lemma PathMatchOccurs(url: string, k: nat)
    ensures PathMatchAt(url, k) ==> OccursAt(url, "soundcloud.com/", k)
  {
    if PathMatchAt(url, k) {
      assert url[k..][..15] == url[k..k + 15];
    }
  }

  lemma {:induction false} LineRunWhole(s: string)
    requires forall i :: 0 <= i < |s| ==> !IsLineTerminator(s[i])
    ensures LineRun(s) == s
  {
    if s != [] {
      LineRunWhole(s[1..]);
    }
  }

  // ---------------------------------------------------------------------------
  // Conversion

  /** `convertToTrackData`: the SoundCloud fields with their fixed defaults. */
  function Convert(t: ScTrack): (d: TrackData<ScTrack>)
    ensures d.title == OrElse(t.title, "Unknown Title")
    ensures d.description == OrElse(t.description, "")
    ensures d.author == OrElse(Username(t), "Unknown Artist")
    ensures d.url == OrElse(t.permalinkUrl, "")
    ensures d.thumbnail == (if Truthy(t.artworkUrl) then t.artworkUrl
                            else if Truthy(AvatarUrl(t)) then AvatarUrl(t) else None)
    ensures d.duration == MillisClock(t.duration)
    ensures d.views == (if t.playbackCount.Some? then t.playbackCount.value else 0)
    ensures d.source == "soundcloud" && !d.live && d.raw == t
  {
    TrackData(
      title := OrElse(t.title, "Unknown Title"),
      description := OrElse(t.description, ""),
      author := OrElse(Username(t), "Unknown Artist"),
      url := OrElse(t.permalinkUrl, ""),
      thumbnail := OrElseOpt(t.artworkUrl, OrElseOpt(AvatarUrl(t), None)),
      duration := MillisClock(t.duration),
      views := t.playbackCount.GetOr(0),
      source := "soundcloud",
      live := false,
      raw := t)
  }

  /** The tracks a fetched playlist contributes: `playlist.tracks || []`, none on an error. */
  function PlaylistTracks(r: Result<Playlist, ProviderError>): seq<ScTrack>
  {
    match r
    case Ok(p) => p.tracks.GetOr([])
    case Err(_) => []
  }

  /** The tracks a search contributes; an object without a collection fails the later `map` call. */
  function SearchTracks(r: Result<SearchResponse, ProviderError>): seq<ScTrack>
  {
    match r
    case Ok(resp) => SearchHits(resp).GetOr([])
    case Err(_) => []
  }

  // ---------------------------------------------------------------------------
  // Streaming

  /** The strategies of `stream`, in the order they are tried. */
  datatype Strategy = StreamTrackUtil | DirectStreamUrl | RefetchTranscoding

  const Strategies: seq<Strategy> := [StreamTrackUtil, DirectStreamUrl, RefetchTranscoding]

  /** The player's track as `stream` sees it: only its `raw` and `engine` objects are read. */
  datatype Info = Info(raw: Option<ScTrack>, engine: Option<ScTrack>)

  /** `info.raw || info.engine`. */
  function StreamedTrack(info: Info): Option<ScTrack>
  {
    if info.raw.Some? then info.raw else info.engine
  }

  const NoTrackStreamUrl := TypeError("Cannot read properties of undefined (reading 'stream_url')")

  /** Method 1: `util.streamTrack(permalink_url)`; any error it throws is swallowed. */
  function StreamTrackStep(client: Option<Client>, track: Option<ScTrack>): Chain.Step<string, StreamError>
  {
    if client.None? || track.None? then Chain.Skip
    else match client.value.streamTrack(track.value.permalinkUrl)
      case Ok(s) => Chain.Found(s)
      case Err(_) => Chain.Skip
  }

  /** Method 2: `stream_url` with the client id appended; reading it from a missing track throws. */
  function DirectStep(track: Option<ScTrack>, clientId: Option<string>): Chain.Step<string, StreamError>
  {
    if track.None? then Chain.Abort(NoTrackStreamUrl)
    else if Truthy(track.value.streamUrl) then Chain.Found(WithClientId(track.value.streamUrl.value, clientId))
    else Chain.Skip
  }

  /** Method 3: refetch the track by id and use the chosen transcoding's url, if it has one. */
  function RefetchStep(client: Option<Client>, track: Option<ScTrack>, clientId: Option<string>): Chain.Step<string, StreamError>
  {
    if client.None? || track.None? then Chain.Skip
    else match client.value.getTrack(ById(track.value.id))
      case Err(_) => Chain.Skip
      case Ok(refetched) =>
        var pick := PickTranscoding(refetched);
        if pick.Some? && Truthy(pick.value.url) then Chain.Found(WithClientId(pick.value.url.value, clientId))
        else Chain.Skip
  }

  function StreamSteps(client: Option<Client>, clientId: Option<string>, info: Info): (steps: seq<Chain.Step<string, StreamError>>)
    ensures |steps| == |Strategies|
  {
    var track := StreamedTrack(info);
    [StreamTrackStep(client, track), DirectStep(track, clientId), RefetchStep(client, track, clientId)]
  }

  /** The chain's own error, naming the track's title. */
  function Exhausted(info: Info): StreamError
  {
    match StreamedTrack(info)
    case Some(t) => Unextractable("Unable to extract stream for track: " + Render(t.title))
    case None => TypeError("Cannot read properties of undefined (reading 'title')")
  }

  // ---------------------------------------------------------------------------
  // The extractor object

  class Extractor {
    /** `this.soundcloud`: the client, once `activate` has run. */
    var client: Option<Client>

    constructor ()
      ensures client.None?
    {
      client := None;
    }

    /** `activate`: stores the client built from the environment's credentials. */
    method Activate(c: Client) returns (ok: bool)
      modifies this
      ensures client == Some(c) && ok
    {
      client := Some(c);
      ok := true;
    }

    /**
     * `handle`: never throws. Without a client, for free text without a client id,
     * and whenever a call fails or yields nothing, the result is empty; a `/sets/`
     * URL yields the playlist's tracks, any other SoundCloud URL the one track, and
     * free text the hits of a search limited to 10.
     */
    method Handle(query: string, clientId: Option<string>) returns (tracks: seq<TrackData<ScTrack>>)
      ensures client.None? ==> tracks == []
      ensures client.Some? && IsSoundCloudUrl(query) && Contains(query, "/sets/") ==>
        tracks == MapAll(Convert, PlaylistTracks(client.value.getPlaylist(ExtractPath(query))))
      ensures client.Some? && IsSoundCloudUrl(query) && !Contains(query, "/sets/") ==>
        tracks == match client.value.getTrack(ByPath(ExtractPath(query)))
                  case Ok(t) => [Convert(t)]
                  case Err(_) => []
      ensures client.Some? && !IsSoundCloudUrl(query) && !Truthy(clientId) ==> tracks == []
      ensures client.Some? && !IsSoundCloudUrl(query) && Truthy(clientId) ==>
        tracks == MapAll(Convert, SearchTracks(client.value.search(query, 10)))
    {
      if client.None? {
        return [];
      }
      var sc := client.value;
      var found: seq<ScTrack> := [];
      if IsSoundCloudUrl(query) {
        if Contains(query, "/sets/") {
          var playlist := sc.getPlaylist(ExtractPath(query));
          if playlist.Err? {
            return [];
          }
          found := playlist.value.tracks.GetOr([]);
        } else {
          var track := sc.getTrack(ByPath(ExtractPath(query)));
          if track.Err? {
            return [];
          }
          found := [track.value];
        }
      } else {
        if !Truthy(clientId) {
          return [];
        }
        var results := sc.search(query, 10);
        if results.Err? || SearchHits(results.value).None? {
          return [];
        }
        found := SearchHits(results.value).value;
      }
      if |found| == 0 {
        return [];
      }
      tracks := MapAll(Convert, found);
    }

    /**
     * `stream`: the first strategy that yields a URL wins; a missing track object
     * throws a TypeError at the second strategy; when all three are passed over it
     * throws "Unable to extract stream for track: <title>". `tried` lists the
     * strategies reached, in order.
     */
    method Stream(info: Info, clientId: Option<string>) returns (r: Result<string, StreamError>, tried: seq<Strategy>)
      ensures r == Chain.Run(StreamSteps(client, clientId, info), Exhausted(info))
      ensures tried == Strategies[..Chain.Tried(StreamSteps(client, clientId, info))]
    {
      var track := StreamedTrack(info);
      ghost var s1, s2, s3 := StreamTrackStep(client, track), DirectStep(track, clientId), RefetchStep(client, track, clientId);
      Chain.Run3(s1, s2, s3, Exhausted(info));
      if client.Some? && track.Some? {
        var s := client.value.streamTrack(track.value.permalinkUrl);
        if s.Ok? {
          return Ok(s.value), Strategies[..1];
        }
      }
      tried := Strategies[..2];
      if track.None? {
        return Err(NoTrackStreamUrl), tried;
      }
      var t := track.value;
      if Truthy(t.streamUrl) {
        return Ok(WithClientId(t.streamUrl.value, clientId)), tried;
      }
      tried := Strategies;
      if client.Some? {
        var refetched := client.value.getTrack(ById(t.id));
        if refetched.Ok? {
          var pick := PickTranscoding(refetched.value);
          if pick.Some? && Truthy(pick.value.url) {
            return Ok(WithClientId(pick.value.url.value, clientId)), tried;
          }
        }
      }
      r := Err(Unextractable("Unable to extract stream for track: " + Render(t.title)));
    }
  }

  // ---------------------------------------------------------------------------
  // Properties of the stream chain

  /** When the stream utility succeeds its stream is returned and nothing else is tried. */
  lemma StreamUtilityWins(client: Client, clientId: Option<string>, info: Info, s: string)
    requires StreamedTrack(info).Some?
    requires client.streamTrack(StreamedTrack(info).value.permalinkUrl) == Ok(s)
    ensures Chain.Run(StreamSteps(Some(client), clientId, info), Exhausted(info)) == Ok(s)
    ensures Chain.Tried(StreamSteps(Some(client), clientId, info)) == 1
  {
  }

  /**
   * A refetch whose chosen transcoding has no url ends the chain: no other
   * transcoding is tried and the chain's own error is thrown.
   */
  lemma RefetchWithoutUrlThrows(client: Client, clientId: Option<string>, info: Info, refetched: ScTrack)
    requires StreamedTrack(info).Some?
    requires client.streamTrack(StreamedTrack(info).value.permalinkUrl).Err?
    requires !Truthy(StreamedTrack(info).value.streamUrl)
    requires client.getTrack(ById(StreamedTrack(info).value.id)) == Ok(refetched)
    requires PickTranscoding(refetched).Some? && !Truthy(PickTranscoding(refetched).value.url)
    ensures Chain.Run(StreamSteps(Some(client), clientId, info), Exhausted(info))
            == Err(Unextractable("Unable to extract stream for track: " + Render(StreamedTrack(info).value.title)))
    ensures Chain.Tried(StreamSteps(Some(client), clientId, info)) == 3
  {
    Chain.RunExhausted(StreamSteps(Some(client), clientId, info), Exhausted(info));
  }

  /**
   * The stream either comes from one of the three strategies, each reached only
   * after all earlier ones were passed over, or the chain throws; it throws its own
   * error exactly when all three are passed over.
   */
  lemma StreamOrder(client: Option<Client>, clientId: Option<string>, info: Info)
    ensures var steps := StreamSteps(client, clientId, info);
      && (forall i :: 0 <= i < Chain.Tried(steps) - 1 ==> steps[i].Skip?)
      && Chain.Run(steps, Exhausted(info)) == Chain.Verdict(steps[Chain.Tried(steps) - 1], Exhausted(info))
  {
    var steps := StreamSteps(client, clientId, info);
    Chain.RunStopsAtFirstDecision(steps, Exhausted(info));
  }
}
