/**
 * The Spotify bridge extractor: Spotify links are resolved to their title and
 * artist, the first hit of a SoundCloud search for them becomes the track, and the
 * track is streamed through SoundCloud with the same three strategies as the
 * SoundCloud extractor, gated on the matched track having a permalink.
 */
module SpotifyBridgeExtractor {
  import opened Wrappers
  import opened JsText
  import opened UrlMatch
  import opened Durations
  import opened Tracks
  import opened SoundCloudApi
  import SC = SoundCloudExtractor
  import Chain

  /** The Spotify metadata btch-downloader's `spotify` answers in `result`. */
  datatype SpotifyMeta = SpotifyMeta(title: Option<string>, artist: Option<string>, thumbnail: Option<string>)

  /** The whole `spotify(query)` answer: a `status` flag and the optional `result`. */
  datatype SpotifyData = SpotifyData(status: bool, result: Option<SpotifyMeta>)

  /** `spotify(url)` of btch-downloader, as an oracle; `None` is a null answer. */
  type SpotifyLookup = string -> Result<Option<SpotifyData>, ProviderError>

  // ---------------------------------------------------------------------------
  // URL recognition

  const SpotifySubs: seq<string> := ["open."]

  const SpotifyHosts: seq<string> := ["spotify.com/track/", "spotify.com/album/", "spotify.com/playlist/"]

  const SpotifyUris: seq<string> := ["spotify:track:", "spotify:album:", "spotify:playlist:"]

  /**
   * `isSpotifyURL`: `^https?:\/\/(open\.)?spotify\.com\/(track|album|playlist)\/`
   * or `^spotify:(track|album|playlist):`, followed by a word character.
   */
  predicate IsSpotifyUrl(url: string)
  {
    SchemeUrl(url, SpotifySubs, SpotifyHosts, WordChar) || StartsWithOneOf(url, SpotifyUris, WordChar)
  }

  /** `validate` is `isSpotifyURL`. */
  predicate Validate(query: string)
  {
    IsSpotifyUrl(query)
  }

  /**
   * The accepted strings are exactly those that start with a web prefix (scheme,
   * optional `open.`, kind) or a `spotify:` URI prefix, then a word character.
   */
  lemma IsSpotifyUrlIff(url: string)
    ensures IsSpotifyUrl(url) <==>
      (exists p :: p in UrlPrefixes(SpotifySubs, SpotifyHosts) && PrefixThen(url, p, WordChar))
      || (exists u :: u in SpotifyUris && PrefixThen(url, u, WordChar))
  {
    SchemeUrlIff(url, SpotifySubs, SpotifyHosts, WordChar);
    StartsWithOneOfIff(url, SpotifyUris, WordChar);
  }

  /** A `spotify:track:` URI with a word-character id is accepted. */
  lemma TrackUriAccepted(id: string)
    requires id != [] && InClass(id[0], WordChar)
    ensures IsSpotifyUrl("spotify:track:" + id)
  {
    var url := "spotify:track:" + id;
    assert url[..14] == "spotify:track:";
    assert PrefixThen(url, SpotifyUris[0], WordChar);
  }

  /** An id that starts with a character other than a word character is refused. */
  lemma NonWordIdRejected(id: string)
    requires id != [] && !InClass(id[0], WordChar)
    ensures !IsSpotifyUrl("spotify:track:" + id)
  {
    var url := "spotify:track:" + id;
    assert url[14] == id[0];
    assert url[..8] == "spotify:";
    assert !StartsWith(url, "http://") && !StartsWith(url, "https://") by {
      assert url[0] == 's';
    }
    StartsWithOneOfIff(url, SpotifyUris, WordChar);
    assert !PrefixThen(url, "spotify:album:", WordChar) by {
      assert url[8] == 't';
    }
    assert !PrefixThen(url, "spotify:playlist:", WordChar) by {
      assert url[8] == 't';
    }
  }

  // ---------------------------------------------------------------------------
  // Conversion

  /** `a || b || c || null` on possibly-undefined strings. */
  function FirstTruthy3(a: Option<string>, b: Option<string>, c: Option<string>): (r: Option<string>)
    ensures r.Some? ==> Truthy(r)
    ensures Truthy(a) ==> r == a
    ensures !Truthy(a) && Truthy(b) ==> r == b
    ensures !Truthy(a) && !Truthy(b) && Truthy(c) ==> r == c
    ensures !Truthy(a) && !Truthy(b) && !Truthy(c) ==> r.None?
  {
    if Truthy(a) then a else if Truthy(b) then b else if Truthy(c) then c else None
  }

  /**
   * `convertToTrackData(scTrack, metadata)`: the Spotify title, artist and thumbnail
   * take precedence over the SoundCloud fields, which keep their usual defaults; the
   * source is "spotify-soundcloud".
   */
  function Convert(t: ScTrack, meta: SpotifyMeta): (d: TrackData<ScTrack>)
    ensures Truthy(meta.title) ==> d.title == meta.title.value
    ensures !Truthy(meta.title) ==> d.title == OrElse(t.title, "Unknown Title")
    ensures Truthy(meta.artist) ==> d.author == meta.artist.value
    ensures !Truthy(meta.artist) ==> d.author == OrElse(Username(t), "Unknown Artist")
    ensures d.thumbnail == FirstTruthy3(meta.thumbnail, t.artworkUrl, AvatarUrl(t))
    ensures d.description == OrElse(t.description, "")
    ensures d.url == OrElse(t.permalinkUrl, "")
    ensures d.duration == MillisClock(t.duration)
    ensures d.views == (if t.playbackCount.Some? then t.playbackCount.value else 0)
    ensures d.source == "spotify-soundcloud" && !d.live && d.raw == t
  {
    TrackData(
      title := OrElse(meta.title, OrElse(t.title, "Unknown Title")),
      description := OrElse(t.description, ""),
      author := OrElse(meta.artist, OrElse(Username(t), "Unknown Artist")),
      url := OrElse(t.permalinkUrl, ""),
      thumbnail := FirstTruthy3(meta.thumbnail, t.artworkUrl, AvatarUrl(t)),
      duration := MillisClock(t.duration),
      views := t.playbackCount.GetOr(0),
      source := "spotify-soundcloud",
      live := false,
      raw := t)
  }

  /** Without Spotify metadata the record is the SoundCloud extractor's, up to its source. */
  lemma ConvertWithoutMetadata(t: ScTrack)
    ensures Convert(t, SpotifyMeta(None, None, None)).(source := "soundcloud") == SC.Convert(t)
  {
  }

  /** `${metadata.title} ${metadata.artist || ''}`.trim(). */
  function SearchQuery(meta: SpotifyMeta): (q: string)
    ensures exists k :: TrimmedAt(Render(meta.title) + " " + OrElse(meta.artist, ""), q, k)
    ensures q != [] ==> !IsTrimmable(q[0]) && !IsTrimmable(q[|q| - 1])
  {
    Trim(Render(meta.title) + " " + OrElse(meta.artist, ""))
  }

  /** With both present and free of surrounding blanks, the query is "title artist". */
  lemma SearchQueryOfTitleAndArtist(title: string, artist: string)
    requires title != [] && !IsTrimmable(title[0])
    requires artist != [] && !IsTrimmable(artist[|artist| - 1])
    ensures SearchQuery(SpotifyMeta(Some(title), Some(artist), None)) == title + " " + artist
  {
    var s := title + " " + artist;
    assert s[0] == title[0];
    assert s[|s| - 1] == artist[|artist| - 1];
    assert TrimStart(s) == s;
    assert TrimEnd(s) == s;
  }

  /** A missing artist leaves no trailing blank: the query is the title alone. */
  lemma SearchQueryWithoutArtist(title: string)
    requires title != [] && !IsTrimmable(title[0]) && !IsTrimmable(title[|title| - 1])
    ensures SearchQuery(SpotifyMeta(Some(title), None, None)) == title
  {
    var s := title + " " + "";
    assert s == title + " ";
    assert s[0] == title[0];
    assert TrimStart(s) == s;
    assert s[..|s| - 1] == title;
    assert TrimEnd(s) == TrimEnd(title);
    assert TrimEnd(title) == title;
  }

  /** The Spotify metadata of an answer that has a truthy `status` and a `result`. */
  function Metadata(r: Result<Option<SpotifyData>, ProviderError>): Option<SpotifyMeta>
  {
    match r
    case Ok(Some(SpotifyData(true, Some(meta)))) => Some(meta)
    case _ => None
  }

  // ---------------------------------------------------------------------------
  // Streaming

  /** The player's track as `stream` sees it. */
  datatype Info = Info(title: Option<string>, raw: Option<ScTrack>)

  /** `info.raw && info.raw.permalink_url`. */
  predicate HasPermalink(info: Info)
  {
    info.raw.Some? && Truthy(info.raw.value.permalinkUrl)
  }

  /**
   * The steps of `stream`: none without a permalink; otherwise the SoundCloud
   * extractor's three, on `info.raw`. A missing client makes the SDK calls throw,
   * which the chain swallows like any other failure of those steps.
   */
  function StreamSteps(client: Option<Client>, clientId: Option<string>, info: Info): (steps: seq<Chain.Step<string, StreamError>>)
    ensures !HasPermalink(info) ==> steps == []
    ensures HasPermalink(info) ==> steps == SC.StreamSteps(client, clientId, SC.Info(info.raw, None))
  {
    if !HasPermalink(info) then []
    else [SC.StreamTrackStep(client, info.raw), SC.DirectStep(info.raw, clientId), SC.RefetchStep(client, info.raw, clientId)]
  }

  function Exhausted(info: Info): StreamError
  {
    Unextractable("Unable to extract stream for: " + Render(info.title))
  }

  /** Without a permalink nothing is tried and `stream` throws at once. */
  lemma NoPermalinkThrows(client: Option<Client>, clientId: Option<string>, info: Info)
    requires !HasPermalink(info)
    ensures Chain.Run(StreamSteps(client, clientId, info), Exhausted(info)) == Err(Exhausted(info))
    ensures Chain.Tried(StreamSteps(client, clientId, info)) == 0
  {
  }

  /**
   * With a permalink the bridge streams exactly as the SoundCloud extractor does:
   * the same stream, or the same error, except that its own error names the title
   * of the player's track.
   */
  lemma StreamLikeSoundCloud(client: Option<Client>, clientId: Option<string>, info: Info)
    requires HasPermalink(info)
    ensures var sc := SC.StreamSteps(client, clientId, SC.Info(info.raw, None));
      && Chain.Tried(StreamSteps(client, clientId, info)) == Chain.Tried(sc)
      && (Chain.Run(sc, SC.Exhausted(SC.Info(info.raw, None))).Ok? ==>
            Chain.Run(StreamSteps(client, clientId, info), Exhausted(info)) == Chain.Run(sc, SC.Exhausted(SC.Info(info.raw, None))))
      && (Chain.Tried(sc) < |sc| ==>
            Chain.Run(StreamSteps(client, clientId, info), Exhausted(info)) == Chain.Run(sc, SC.Exhausted(SC.Info(info.raw, None))))
  {
    var sc := SC.StreamSteps(client, clientId, SC.Info(info.raw, None));
    Chain.RunStopsAtFirstDecision(sc, Exhausted(info));
    Chain.RunStopsAtFirstDecision(sc, SC.Exhausted(SC.Info(info.raw, None)));
  }

  // ---------------------------------------------------------------------------
  // The extractor object

  class Extractor {
    /** `this.soundcloud`: null until `activate`. */
    var client: Option<Client>

    constructor ()
      ensures client.None?
    {
      client := None;
    }

    /** `activate`: stores a SoundCloud client built from the environment's credentials. */
    method Activate(c: Client) returns (ok: bool)
      modifies this
      ensures client == Some(c) && ok
    {
      client := Some(c);
      ok := true;
    }

    /**
     * `handle`: never throws and yields at most one track. Anything but a Spotify
     * URL, a failed or empty Spotify lookup, a missing client, a failed search and
     * an empty search give no track; otherwise the first hit of a search limited
     * to 5, for the trimmed "title artist", converted with the Spotify metadata.
     */
    method Handle(spotify: SpotifyLookup, query: string) returns (tracks: seq<TrackData<ScTrack>>)
      ensures |tracks| <= 1
      ensures !IsSpotifyUrl(query) || Metadata(spotify(query)).None? || client.None? ==> tracks == []
      ensures IsSpotifyUrl(query) && Metadata(spotify(query)).Some? && client.Some? ==>
        var meta := Metadata(spotify(query)).value;
        var hits := SC.SearchTracks(client.value.search(SearchQuery(meta), 5));
        tracks == if |hits| > 0 then [Convert(hits[0], meta)] else []
    {
      tracks := [];
      if IsSpotifyUrl(query) {
        var spotifyData := spotify(query);
        if spotifyData.Err? || spotifyData.value.None? || !spotifyData.value.value.status || spotifyData.value.value.result.None? {
          return [];
        }
        var meta := spotifyData.value.value.result.value;
        var searchQuery := SearchQuery(meta);
        if client.Some? {
          var results := client.value.search(searchQuery, 5);
          if results.Ok? {
            var hits := SearchHits(results.value).GetOr([]);
            if |hits| > 0 {
              tracks := [Convert(hits[0], meta)];
            }
          }
        }
      }
    }

    /**
     * `stream`: without a permalink it throws "Unable to extract stream for: <title>"
     * at once; otherwise `util.streamTrack`, then `stream_url` with the client id,
     * then the refetched transcoding, and that error when all three are passed over.
     */
    method Stream(info: Info, clientId: Option<string>) returns (r: Result<string, StreamError>, tried: seq<SC.Strategy>)
      ensures r == Chain.Run(StreamSteps(client, clientId, info), Exhausted(info))
      ensures tried == SC.Strategies[..Chain.Tried(StreamSteps(client, clientId, info))]
    {
      if !HasPermalink(info) {
        return Err(Exhausted(info)), [];
      }
      var t := info.raw.value;
      ghost var s1, s2, s3 := SC.StreamTrackStep(client, info.raw), SC.DirectStep(info.raw, clientId), SC.RefetchStep(client, info.raw, clientId);
      Chain.Run3(s1, s2, s3, Exhausted(info));
      if client.Some? {
        var s := client.value.streamTrack(t.permalinkUrl);
        if s.Ok? {
          return Ok(s.value), SC.Strategies[..1];
        }
      }
      tried := SC.Strategies[..2];
      if Truthy(t.streamUrl) {
        return Ok(WithClientId(t.streamUrl.value, clientId)), tried;
      }
      tried := SC.Strategies;
      if client.Some? {
        var refetched := client.value.getTrack(ById(t.id));
        if refetched.Ok? {
          var pick := PickTranscoding(refetched.value);
          if pick.Some? && Truthy(pick.value.url) {
            return Ok(WithClientId(pick.value.url.value, clientId)), tried;
          }
        }
      }
      r := Err(Exhausted(info));
    }
  }
}
