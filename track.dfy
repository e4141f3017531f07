/**
 * What every extractor hands to the player: the track record built by its
 * `convertToTrackData`, and the errors a `stream` call can end with.
 */
module Tracks {
  import opened Wrappers
  import JsText

  /**
   * A converted track. `raw` is the provider object it was built from (the source
   * stores the same object as `raw` and as `engine`); `thumbnail` is `None` for null.
   */
  datatype TrackData<+R> = TrackData(
    title: string,
    description: string,
    author: string,
    url: string,
    thumbnail: Option<string>,
    duration: string,
    views: int,
    source: string,
    live: bool,
    raw: R)

  /** Why `stream` threw. */
  datatype StreamError =
    | Unextractable(message: string)   // the chain's own "Unable to extract stream ..." error
    | TypeError(message: string)       // a property read on undefined
    | Provider(cause: ProviderError)   // an SDK error passed on unchanged
    | NotInitialized(message: string)  // no delegate has been activated

  /** `${base}?client_id=${process.env.SOUNDCLOUD_CLIENT_ID}`. */
  function WithClientId(base: string, clientId: Option<string>): (r: string)
    ensures |r| > |base| && r[..|base|] == base
    ensures r[|base|..] == "?client_id=" + JsText.Render(clientId)
  {
    var q := "?client_id=" + JsText.Render(clientId);
    assert (base + q)[|base|..] == q;
    base + q
  }

  /** `records.map(convert)`: one converted record per provider record, in order. */
  function MapAll<A, B>(convert: A -> B, records: seq<A>): (ds: seq<B>)
    ensures |ds| == |records| && forall i :: 0 <= i < |records| ==> ds[i] == convert(records[i])
  {
    seq(|records|, i requires 0 <= i < |records| => convert(records[i]))
  }
}
