/**
 * The overlay web server's state: the status snapshot the `/api/nowplaying`
 * endpoint serves, replaced by `updateStatus` through a 100 ms timer with a
 * projection of the current track and the first `maxQueueDisplay` queued tracks.
 * Both server versions keep the same state and apply the same update.
 */
module OverlayServer {
  import opened Wrappers
  import opened JsText

  /** The requesting Discord user, as far as the overlay reads it. */
  datatype Requester = Requester(username: Option<string>)

  /** A player track as `updateStatus` reads it. */
  datatype PlayerTrack = PlayerTrack(
    title: Option<string>,
    author: Option<string>,
    thumbnail: Option<string>,
    duration: Option<string>,
    url: Option<string>,
    requestedBy: Option<Requester>)

  /** The tracks of a queue: the player's collection (with `toArray`) or a plain array. */
  datatype Tracks = Collection(items: seq<PlayerTrack>) | PlainArray(items: seq<PlayerTrack>)

  /** A queue object; its `tracks` may be missing. */
  datatype PlayerQueue = PlayerQueue(tracks: Option<Tracks>)

  /** The current track in the snapshot. */
  datatype CurrentView = CurrentView(
    title: Option<string>,
    author: Option<string>,
    thumbnail: Option<string>,
    duration: Option<string>,
    url: Option<string>,
    requestedBy: string)

  /** A queued track in the snapshot. */
  datatype QueueEntry = QueueEntry(title: Option<string>, author: Option<string>, requestedBy: string)

  /** `currentStatus`. */
  datatype Status = Status(current: Option<CurrentView>, queue: seq<QueueEntry>, isPlaying: bool, lastUpdate: int)

  /** `requestedBy?.username || 'Unknown'`. */
  function RequesterName(r: Option<Requester>): (name: string)
    ensures r.Some? && Truthy(r.value.username) ==> name == r.value.username.value
    ensures !(r.Some? && Truthy(r.value.username)) ==> name == "Unknown"
  {
    OrElse(if r.Some? then r.value.username else None, "Unknown")
  }

  function ViewOf(t: PlayerTrack): CurrentView
  {
    CurrentView(t.title, t.author, t.thumbnail, t.duration, t.url, RequesterName(t.requestedBy))
  }

  function EntryOf(t: PlayerTrack): QueueEntry
  {
    QueueEntry(t.title, t.author, RequesterName(t.requestedBy))
  }

  /** The end index `arr.slice(0, end)` stops at: negative ends count from the back. */
  function SliceEnd(n: nat, end: int): (k: nat)
    ensures k <= n
    ensures end >= 0 ==> k == if end < n then end else n
  {
    if end >= 0 then (if end < n then end else n)
    else if n + end > 0 then n + end else 0
  }

  /** The projected entries of the first tracks, in order. */
  function Entries(ts: seq<PlayerTrack>): (es: seq<QueueEntry>)
    ensures |es| == |ts|
    ensures forall i :: 0 <= i < |ts| ==> es[i] == EntryOf(ts[i])
  {
    if ts == [] then [] else [EntryOf(ts[0])] + Entries(ts[1..])
  }

  /**
   * The snapshot the timer installs: the current track's view, or null; the first
   * `maxQueueDisplay` queued tracks projected, in order, or `[]` without a queue or
   * tracks; `isPlaying` exactly when a track was given.
   */
  function Snapshot(track: Option<PlayerTrack>, queue: Option<PlayerQueue>, maxQueueDisplay: int, now: int): (s: Status)
    ensures s.isPlaying <==> track.Some?
    ensures s.current.None? <==> track.None?
    ensures track.Some? ==> s.current.value.requestedBy == RequesterName(track.value.requestedBy)
    ensures queue.None? || queue.value.tracks.None? ==> s.queue == []
    ensures queue.Some? && queue.value.tracks.Some? ==>
      var items := queue.value.tracks.value.items;
      && |s.queue| == SliceEnd(|items|, maxQueueDisplay)
      && forall i :: 0 <= i < |s.queue| ==> s.queue[i] == EntryOf(items[i])
    ensures s.lastUpdate == now
  {
    Status(
      if track.Some? then Some(ViewOf(track.value)) else None,
      if queue.Some? && queue.value.tracks.Some? then
        var items := queue.value.tracks.value.items;
        Entries(items)[..SliceEnd(|items|, maxQueueDisplay)]
      else [],
      track.Some?,
      now)
  }

  /** With the shipped limit of 3 at most three entries show, and a queue of three or fewer shows whole. */
  lemma ShippedQueueLimit(track: Option<PlayerTrack>, ts: seq<PlayerTrack>, now: int)
    ensures |Snapshot(track, Some(PlayerQueue(Some(Collection(ts)))), 3, now).queue| <= 3
    ensures |ts| <= 3 ==> Snapshot(track, Some(PlayerQueue(Some(Collection(ts)))), 3, now).queue == Entries(ts)
  {
    if |ts| <= 3 {
      assert Entries(ts)[..|ts|] == Entries(ts);
    }
  }

  /** The snapshot as written: `queue.tracks.toArray()` throws on a plain array. */
  function SnapshotAsWritten(track: Option<PlayerTrack>, queue: Option<PlayerQueue>,
                             maxQueueDisplay: int, now: int): (r: Result<Status, string>)
    ensures r.Err? <==> queue.Some? && queue.value.tracks.Some? && queue.value.tracks.value.PlainArray?
    ensures r.Ok? ==> r.value == Snapshot(track, queue, maxQueueDisplay, now)
  {
    if queue.Some? && queue.value.tracks.Some? && queue.value.tracks.value.PlainArray? then
      Err("queue.tracks.toArray is not a function")
    else Ok(Snapshot(track, queue, maxQueueDisplay, now))
  }

  /** The mock track of the test endpoint. */
  const MockTrack: PlayerTrack := PlayerTrack(
    Some("Test Song - Manual Update"), Some("Test Artist"), Some("https://via.placeholder.com/300x300"),
    Some("3:45"), Some("https://example.com"), Some(Requester(Some("Tester"))))

  function MockQueued(n: nat): PlayerTrack
    requires 1 <= n <= 3
  {
    var d := [DigitChar(n)];
    PlayerTrack(Some("Next Song " + d), Some("Artist " + d), None, None, None, Some(Requester(Some("User" + d))))
  }

  /** The mock queue: a plain array of three tracks, cut to `maxQueueDisplay`. */
  function MockQueue(maxQueueDisplay: int): PlayerQueue
  {
    var all := [MockQueued(1), MockQueued(2), MockQueued(3)];
    PlayerQueue(Some(PlainArray(all[..SliceEnd(3, maxQueueDisplay)])))
  }

  /**
   * The test endpoint's update never applies as written (its queue is a plain array),
   * while the snapshot it evidently means shows the mock track, playing, with the first
   * mock tracks queued.
   */
  lemma TestUpdateAsWrittenFails(maxQueueDisplay: int, now: int)
    ensures SnapshotAsWritten(Some(MockTrack), Some(MockQueue(maxQueueDisplay)), maxQueueDisplay, now).Err?
    ensures var s := Snapshot(Some(MockTrack), Some(MockQueue(3)), 3, now);
      s.isPlaying && s.current.value.requestedBy == "Tester" && |s.queue| == 3 && s.queue[0].requestedBy == "User1"
  {
    var s := Snapshot(Some(MockTrack), Some(MockQueue(3)), 3, now);
    assert MockQueue(3).tracks.value.items == [MockQueued(1), MockQueued(2), MockQueued(3)];
    assert s.queue[0] == EntryOf(MockQueued(1));
  }

  /** The `/api/nowplaying` body: the status with the polling interval and the overlay preset. */
  datatype NowPlaying = NowPlaying(status: Status, pollingInterval: int, preset: int)

  /** `config.overlay?.preset || 1`. */
  function Preset(configured: Option<int>): (p: int)
    ensures configured.None? || configured == Some(0) ==> p == 1
    ensures configured.Some? && configured.value != 0 ==> p == configured.value
  {
    if configured.Some? && configured.value != 0 then configured.value else 1
  }

  /**
   * One update waiting for its timer: the track and queue it was handed. The timer reads
   * these objects only when it fires, so they may hold other values by then.
   */
  datatype PendingUpdate = PendingUpdate(track: Option<PlayerTrack>, queue: Option<PlayerQueue>)

  /**
   * `live` is a state the objects of `handed` can be in later: the callback's own bindings
   * `track` and `queue` do not change, so each is still present or still absent.
   */
  predicate SameObjects(handed: PendingUpdate, live: PendingUpdate)
  {
    handed.track.Some? == live.track.Some? && handed.queue.Some? == live.queue.Some?
  }

  class Server {
    const maxQueueDisplay: int
    var currentStatus: Status
    /** Updates scheduled but not yet applied, oldest first (equal delays fire in order). */
    var pending: seq<PendingUpdate>
    var listening: bool

    /** The initial status: no track, empty queue, not playing. */
    constructor (maxQueue: int, now: int)
      ensures maxQueueDisplay == maxQueue
      ensures currentStatus == Status(None, [], false, now)
      ensures pending == [] && !listening
    {
      maxQueueDisplay := maxQueue;
      currentStatus := Status(None, [], false, now);
      pending := [];
      listening := false;
    }

    /** `updateStatus`: schedules the snapshot; the status itself is unchanged for now. */
    method UpdateStatus(track: Option<PlayerTrack>, queue: Option<PlayerQueue>)
      modifies this
      ensures pending == old(pending) + [PendingUpdate(track, queue)]
      ensures currentStatus == old(currentStatus) && listening == old(listening)
    {
      pending := pending + [PendingUpdate(track, queue)];
    }

    /**
     * The oldest update's timer fires, with `live` what its track and queue objects hold
     * now (the player's queue may have moved on in the meantime). The snapshot of `live`,
     * taken as written, replaces the whole status; when taking it throws (a plain-array
     * queue), the status stays as it was.
     */
    method FireTimer(now: int, live: PendingUpdate)
      requires pending != [] && SameObjects(pending[0], live)
      modifies this
      ensures pending == old(pending[1..])
      ensures var r := SnapshotAsWritten(live.track, live.queue, maxQueueDisplay, now);
        currentStatus == if r.Ok? then r.value else old(currentStatus)
      ensures listening == old(listening)
    {
      pending := pending[1..];
      var r := SnapshotAsWritten(live.track, live.queue, maxQueueDisplay, now);
      if r.Ok? {
        currentStatus := r.value;
      }
    }

    /** `getStatus`. */
    function GetStatus(): (s: Status)
      reads this
      ensures s == currentStatus
    {
      currentStatus
    }

    /** The `/api/nowplaying` response. */
    function NowPlayingResponse(pollingInterval: int, configuredPreset: Option<int>): (r: NowPlaying)
      reads this
      ensures r.status == currentStatus && r.pollingInterval == pollingInterval
      ensures r.preset == Preset(configuredPreset)
    {
      NowPlaying(currentStatus, pollingInterval, Preset(configuredPreset))
    }

    /** `/api/test-update`: schedules the mock update and answers success at once. */
    method TestUpdate() returns (success: bool, message: string)
      modifies this
      ensures success && message == "Overlay updated with test data"
      ensures pending == old(pending) + [PendingUpdate(Some(MockTrack), Some(MockQueue(maxQueueDisplay)))]
      ensures currentStatus == old(currentStatus)
    {
      UpdateStatus(Some(MockTrack), Some(MockQueue(maxQueueDisplay)));
      success, message := true, "Overlay updated with test data";
    }

    /**
     * `start`: refused when the overlay is disabled; otherwise the server listens,
     * unless `listen` throws, which the handler catches and answers false.
     */
    method Start(enabled: bool, listenThrows: bool) returns (started: bool)
      modifies this
      ensures started == (enabled && !listenThrows)
      ensures listening == (old(listening) || started)
      ensures currentStatus == old(currentStatus) && pending == old(pending)
    {
      if !enabled {
        return false;
      }
      if listenThrows {
        return false;
      }
      listening := true;
      started := true;
    }

    /** `stop`: closes a listening server. */
    method Stop()
      modifies this
      ensures !listening
      ensures currentStatus == old(currentStatus) && pending == old(pending)
    {
      listening := false;
    }
  }

  /** The queue's tracks are a plain array, on which `toArray` throws. */
  predicate PlainQueue(queue: Option<PlayerQueue>)
  {
    queue.Some? && queue.value.tracks.Some? && queue.value.tracks.value.PlainArray?
  }

  /**
   * An update followed by its timer leaves the snapshot of what the handed objects hold
   * when the timer fires, whatever came before, and is playing exactly when a track was
   * handed; a plain-array queue leaves the old status. If nothing changed in between, that
   * is exactly the snapshot of the values handed.
   */
  method UpdateThenFire(s: Server, track: Option<PlayerTrack>, queue: Option<PlayerQueue>,
                        live: PendingUpdate, now: int)
    requires s.pending == [] && SameObjects(PendingUpdate(track, queue), live)
    modifies s
    ensures s.pending == []
    ensures PlainQueue(live.queue) ==> s.currentStatus == old(s.currentStatus)
    ensures !PlainQueue(live.queue) ==>
      s.currentStatus == Snapshot(live.track, live.queue, s.maxQueueDisplay, now)
      && (s.currentStatus.isPlaying <==> track.Some?)
    ensures live == PendingUpdate(track, queue) && !PlainQueue(queue) ==>
      s.currentStatus == Snapshot(track, queue, s.maxQueueDisplay, now)
  {
    s.UpdateStatus(track, queue);
    s.FireTimer(now, live);
  }

  /**
   * `/api/test-update` followed by its timer leaves the status as it was: the mock queue
   * is a plain array.
   */
  method TestUpdateThenFire(s: Server, now: int) returns (success: bool)
    requires s.pending == []
    modifies s
    ensures success && s.pending == []
    ensures s.currentStatus == old(s.currentStatus)
  {
    var message;
    success, message := s.TestUpdate();
    TestUpdateAsWrittenFails(s.maxQueueDisplay, now);
    // The mock objects are fresh literals that nothing else holds, so they are unchanged.
    s.FireTimer(now, PendingUpdate(Some(MockTrack), Some(MockQueue(s.maxQueueDisplay))));
  }
}
