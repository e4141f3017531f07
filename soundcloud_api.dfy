/**
 * The parts of the soundcloud.ts client the extractors use, as an oracle: whatever
 * the service answers (or the error it throws) is a parameter of the model. The
 * track, playlist and search shapes keep only the fields the extractors read.
 */
module SoundCloudApi {
  import opened Wrappers
  import opened JsText

  datatype User = User(username: Option<string>, avatarUrl: Option<string>)

  datatype Format = Format(protocol: Option<string>, mimeType: Option<string>)

  datatype Transcoding = Transcoding(format: Option<Format>, url: Option<string>)

  datatype Media = Media(transcodings: Option<seq<Transcoding>>)

  /** A SoundCloud track object (`permalink_url`, `artwork_url`, `playback_count`, `stream_url`, ...). */
  datatype ScTrack = ScTrack(
    id: Option<int>,
    title: Option<string>,
    description: Option<string>,
    user: Option<User>,
    permalinkUrl: Option<string>,
    artworkUrl: Option<string>,
    duration: Option<int>,
    playbackCount: Option<int>,
    streamUrl: Option<string>,
    media: Option<Media>)

  datatype Playlist = Playlist(tracks: Option<seq<ScTrack>>)

  /** What `tracks.search` answers: an object with an optional `collection`, or a bare array. */
  datatype SearchResponse = Paged(collection: Option<seq<ScTrack>>) | Bare(items: seq<ScTrack>)

  /** The argument of `tracks.get`: a URL path, or a numeric id that may be undefined. */
  datatype TrackKey = ByPath(path: string) | ById(id: Option<int>)

  /** The client object stored by `activate`. */
  datatype Client = Client(
    getTrack: TrackKey -> Result<ScTrack, ProviderError>,
    getPlaylist: string -> Result<Playlist, ProviderError>,
    search: (string, nat) -> Result<SearchResponse, ProviderError>,
    streamTrack: Option<string> -> Result<string, ProviderError>)

  /**
   * `results.collection || results || []` as a list: the collection when there is
   * one (even an empty array is truthy), the array itself for a bare array, and
   * `None` for an object without a collection (which has no usable `length`).
   */
  function SearchHits(r: SearchResponse): (hits: Option<seq<ScTrack>>)
    ensures r.Paged? ==> hits == r.collection
    ensures r.Bare? ==> hits == Some(r.items)
  {
    match r
    case Paged(c) => c
    case Bare(items) => Some(items)
  }

  /** `user?.username`. */
  function Username(t: ScTrack): Option<string>
  {
    if t.user.Some? then t.user.value.username else None
  }

  /** `user?.avatar_url`. */
  function AvatarUrl(t: ScTrack): Option<string>
  {
    if t.user.Some? then t.user.value.avatarUrl else None
  }

  /** `t.format?.protocol === 'progressive' && t.format?.mime_type?.includes('audio')`. */
  predicate IsProgressiveAudio(t: Transcoding)
  {
    && t.format.Some?
    && t.format.value.protocol == Some("progressive")
    && t.format.value.mimeType.Some?
    && Contains(t.format.value.mimeType.value, "audio")
  }

  /** The index `transcodings.find(IsProgressiveAudio)` stops at; `|ts|` when none matches. */
  function FirstProgressiveAudio(ts: seq<Transcoding>): (k: nat)
    ensures k <= |ts|
    ensures forall i :: 0 <= i < k ==> !IsProgressiveAudio(ts[i])
    ensures k < |ts| ==> IsProgressiveAudio(ts[k])
  {
    if ts == [] then 0
    else if IsProgressiveAudio(ts[0]) then 0
    else 1 + FirstProgressiveAudio(ts[1..])
  }

  /**
   * The transcoding a refetch uses: none unless `media?.transcodings?.length > 0`;
   * otherwise the first progressive audio one, or the first one when none is that.
   */
  function PickTranscoding(refetched: ScTrack): (r: Option<Transcoding>)
    ensures r.Some? <==> refetched.media.Some? && refetched.media.value.transcodings.Some?
                         && |refetched.media.value.transcodings.value| > 0
    ensures r.Some? ==>
      var ts := refetched.media.value.transcodings.value;
      if exists i :: 0 <= i < |ts| && IsProgressiveAudio(ts[i])
      then r.value == ts[FirstProgressiveAudio(ts)] && IsProgressiveAudio(r.value)
      else r.value == ts[0]
  {
    if refetched.media.None? || refetched.media.value.transcodings.None? then None
    else
      var ts := refetched.media.value.transcodings.value;
      if |ts| == 0 then None
      else
        var k := FirstProgressiveAudio(ts);
        Some(if k < |ts| then ts[k] else ts[0])
  }
}
