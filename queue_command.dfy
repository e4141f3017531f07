/**
 * The `queue` bot command: the total duration of the current track and the queued
 * ones (or an estimate when no durations are known), the "Up Next" list of at most ten
 * numbered entries, and the song count in the footer.
 */
module QueueCommand {
  import opened Wrappers
  import opened JsText
  import opened JsNumber

  /** A track as the command reads it. */
  datatype QueuedTrack = QueuedTrack(
    title: Option<string>,
    url: Option<string>,
    author: Option<string>,
    duration: Option<string>,
    durationMS: Option<int>)

  /** The whole seconds a track adds: a falsy (absent or zero) `durationMS` adds nothing. */
  function TrackSeconds(t: QueuedTrack): int
  {
    if t.durationMS.Some? && t.durationMS.value != 0 then FloorDiv(t.durationMS.value, 1000) else 0
  }

  /** The seconds of the current track, when there is one. */
  function CurrentSeconds(current: Option<QueuedTrack>): int
  {
    if current.Some? then TrackSeconds(current.value) else 0
  }

  /** The seconds of a run of tracks, summed from the front. */
  function SumSeconds(ts: seq<QueuedTrack>): int
  {
    if ts == [] then 0 else SumSeconds(ts[..|ts| - 1]) + TrackSeconds(ts[|ts| - 1])
  }

  /** The sum splits over concatenation, so it does not depend on how the queue is cut. */
  lemma {:induction false} SumSecondsAppend(a: seq<QueuedTrack>, b: seq<QueuedTrack>)
    decreases |b|
    ensures SumSeconds(a + b) == SumSeconds(a) + SumSeconds(b)
  {
    if b == [] {
      assert a + b == a;
    } else {
      var b' := b[..|b| - 1];
      assert (a + b)[..|a + b| - 1] == a + b';
      SumSecondsAppend(a, b');
    }
  }

  /** Non-negative durations add up to a non-negative total. */
  lemma {:induction false} SumSecondsNonNegative(ts: seq<QueuedTrack>)
    requires forall i :: 0 <= i < |ts| ==> ts[i].durationMS.None? || ts[i].durationMS.value >= 0
    ensures SumSeconds(ts) >= 0
  {
    if ts != [] {
      var init := ts[..|ts| - 1];
      assert forall i :: 0 <= i < |init| ==> init[i] == ts[i];
      SumSecondsNonNegative(init);
    }
  }

  /** The seconds loop of `calculateTotalDuration`. */
  method TotalSeconds(current: Option<QueuedTrack>, tracks: seq<QueuedTrack>) returns (total: int)
    ensures total == CurrentSeconds(current) + SumSeconds(tracks)
  {
    total := 0;
    if current.Some? && current.value.durationMS.Some? && current.value.durationMS.value != 0 {
      total := total + FloorDiv(current.value.durationMS.value, 1000);
    }
    var i := 0;
    while i < |tracks|
      invariant 0 <= i <= |tracks|
      invariant total == CurrentSeconds(current) + SumSeconds(tracks[..i])
    {
      var t := tracks[i];
      if t.durationMS.Some? && t.durationMS.value != 0 {
        total := total + FloorDiv(t.durationMS.value, 1000);
      }
      assert tracks[..i + 1][..i] == tracks[..i];
      i := i + 1;
    }
    assert tracks[..i] == tracks;
  }

  /** `Math.floor(songs * 3.5)`: the minutes estimated for a number of songs. */
  function EstimatedMinutes(songs: nat): (m: nat)
    ensures 2 * m <= 7 * songs < 2 * m + 2
  {
    (songs * 7) / 2
  }

  /**
   * The text of a total: with no seconds at all the estimate "~Nm" for the current
   * track and the queued ones; otherwise hours and minutes ("Hh Mm", or "Mm" under an
   * hour), with the seconds dropped.
   */
  function TotalDurationText(total: int, queued: nat): (r: string)
    ensures total == 0 ==> r == "~" + NatToString(EstimatedMinutes(queued + 1)) + "m"
    ensures 0 < total < 3600 ==> r == NatToString(total / 60) + "m"
    ensures total >= 3600 ==> r == NatToString(total / 3600) + "h " + NatToString(total % 3600 / 60) + "m"
  {
    if total == 0 then "~" + IntToString(EstimatedMinutes(queued + 1)) + "m"
    else
      var hours := FloorDiv(total, 3600);
      var minutes := FloorDiv(Rem(total, 3600), 60);
      if hours > 0 then IntToString(hours) + "h " + IntToString(minutes) + "m"
      else IntToString(minutes) + "m"
  }

  /** A positive total is rendered as hours and minutes that leave less than a minute over. */
  lemma TotalDurationReadsBack(total: int, queued: nat)
    requires total >= 3600
    ensures var h, m := total / 3600, total % 3600 / 60;
      && TotalDurationText(total, queued) == NatToString(h) + "h " + NatToString(m) + "m"
      && m < 60 && h * 3600 + m * 60 <= total < h * 3600 + m * 60 + 60
  {
  }

  /** The estimates for one and for two songs in all. */
  lemma EstimateExamples()
    ensures TotalDurationText(0, 0) == "~3m"
    ensures TotalDurationText(0, 1) == "~7m"
  {
  }

  /** `calculateTotalDuration`. */
  method CalculateTotalDuration(current: Option<QueuedTrack>, tracks: seq<QueuedTrack>) returns (r: string)
    ensures r == TotalDurationText(CurrentSeconds(current) + SumSeconds(tracks), |tracks|)
  {
    var total := TotalSeconds(current, tracks);
    r := TotalDurationText(total, |tracks|);
  }

  /** The second line of an entry: author and duration, with "Unknown" for either. */
  function Byline(t: QueuedTrack): string
  {
    "`" + OrElse(t.author, "Unknown") + "` • `" + OrElse(t.duration, "Unknown") + "`"
  }

  /** The "Currently Playing" field. */
  function CurrentlyPlaying(t: QueuedTrack): string
  {
    "[**" + Render(t.title) + "**](" + OrElse(t.url, "https://example.com") + ")\n" + Byline(t)
  }

  /** One "Up Next" entry, numbered `n`. */
  function Entry(n: nat, t: QueuedTrack): string
  {
    "**" + NatToString(n) + ".** [" + Render(t.title) + "](" + OrElse(t.url, "https://example.com") + ")\n" + Byline(t) + "\n\n"
  }

  /** The entries for `ts`, numbered from `from`. */
  function Entries(ts: seq<QueuedTrack>, from: nat): (es: seq<string>)
    ensures |es| == |ts|
  {
    if ts == [] then [] else Entries(ts[..|ts| - 1], from) + [Entry(from + |ts| - 1, ts[|ts| - 1])]
  }

  /** Entry `i` is track `i`, numbered `from + i`. */
  lemma {:induction false} EntryAt(ts: seq<QueuedTrack>, from: nat, i: nat)
    requires i < |ts|
    ensures Entries(ts, from)[i] == Entry(from + i, ts[i])
  {
    var init := ts[..|ts| - 1];
    if i < |init| {
      EntryAt(init, from, i);
      assert Entries(ts, from)[i] == Entries(init, from)[i];
      assert init[i] == ts[i];
    }
  }

  /** The entries are the tracks in order, numbered from `from`. */
  lemma EntriesIndexed(ts: seq<QueuedTrack>, from: nat)
    ensures |Entries(ts, from)| == |ts|
    ensures forall i :: 0 <= i < |ts| ==> Entries(ts, from)[i] == Entry(from + i, ts[i])
  {
    forall i | 0 <= i < |ts| ensures Entries(ts, from)[i] == Entry(from + i, ts[i]) {
      EntryAt(ts, from, i);
    }
  }

  function Concat(xs: seq<string>): string
  {
    if xs == [] then "" else Concat(xs[..|xs| - 1]) + xs[|xs| - 1]
  }

  /** How many queued tracks the list leaves out, as its closing line. */
  function MoreSongs(queued: nat): string
  {
    if queued > 10 then "*... and " + NatToString(queued - 10) + " more songs*" else ""
  }

  /** The "Up Next" field: the first ten tracks numbered from 1, then the count of the rest. */
  function UpNextText(tracks: seq<QueuedTrack>): string
  {
    var shown := if |tracks| <= 10 then tracks else tracks[..10];
    Concat(Entries(shown, 1)) + MoreSongs(|tracks|)
  }

  /**
   * What the "Up Next" field lists: as many entries as tracks up to ten, each tracks[i]
   * numbered i + 1, and a closing line exactly when more than ten are queued.
   */
  lemma UpNextShape(tracks: seq<QueuedTrack>)
    ensures var shown := if |tracks| <= 10 then tracks else tracks[..10];
      && |Entries(shown, 1)| == (if |tracks| <= 10 then |tracks| else 10)
      && (forall i :: 0 <= i < |Entries(shown, 1)| ==> Entries(shown, 1)[i] == Entry(i + 1, tracks[i]))
      && (MoreSongs(|tracks|) == "" <==> |tracks| <= 10)
  {
    var shown := if |tracks| <= 10 then tracks else tracks[..10];
    EntriesIndexed(shown, 1);
    if |tracks| > 10 {
      assert MoreSongs(|tracks|)[0] == '*';
    }
  }

  /** Extending the shown prefix by one track appends that track's entry to the text. */
  lemma ConcatEntriesStep(shown: seq<QueuedTrack>, index: nat)
    requires index < |shown|
    ensures Concat(Entries(shown[..index + 1], 1)) == Concat(Entries(shown[..index], 1)) + Entry(index + 1, shown[index])
  {
    var prefix := shown[..index + 1];
    assert prefix[..|prefix| - 1] == shown[..index];
    var e := Entries(prefix, 1);
    assert e == Entries(shown[..index], 1) + [Entry(index + 1, shown[index])];
    assert e[..|e| - 1] == Entries(shown[..index], 1);
  }

  /** The list loop: the first ten tracks, each appended as a numbered entry, then the closing line. */
  method BuildUpNext(tracks: seq<QueuedTrack>) returns (list: string)
    ensures list == UpNextText(tracks)
  {
    var shown := if |tracks| <= 10 then tracks else tracks[..10];
    list := "";
    var index := 0;
    while index < |shown|
      invariant 0 <= index <= |shown|
      invariant list == Concat(Entries(shown[..index], 1))
    {
      ConcatEntriesStep(shown, index);
      list := list + Entry(index + 1, shown[index]);
      index := index + 1;
    }
    assert shown[..index] == shown;
    if |tracks| > 10 {
      list := list + ("*... and " + NatToString(|tracks| - 10) + " more songs*");
    } else {
      assert MoreSongs(|tracks|) == "";
    }
  }

  /** The footer: the song count (the current track and the queued ones) and the total duration. */
  function Footer(queued: nat, duration: string): string
  {
    NatToString(queued + 1) + " songs • Total duration: " + duration
  }

  /** The footer reads back as the queue length plus one. */
  lemma FooterCountsCurrent(queued: nat, duration: string)
    ensures var f, k := Footer(queued, duration), |NatToString(queued + 1)|;
      k < |f| && f[k] == ' ' && AllDigits(f[..k]) && DigitsValue(f[..k]) == queued + 1
  {
    NatToStringRoundTrip(queued + 1);
    var f := Footer(queued, duration);
    var k := |NatToString(queued + 1)|;
    assert f[..k] == NatToString(queued + 1);
    assert f[k] == ' ';
  }

  datatype Variant = Ts | Js

  /** The command's reply. */
  datatype QueueReply =
    | NotInGuild
    | QueueEmpty
    | NoCurrentTrack
    | QueueView(guildName: string, currentlyPlaying: string, upNext: Option<string>, footer: string)

  /**
   * The reply: `Ts` refuses outside a server, on an empty queue and without a current
   * track; otherwise the view. The `Js` version has only the empty-queue check and fails
   * on a message from outside a server or a queue without a current track.
   */
  function QueueSpec(v: Variant, guildName: Option<string>, queueEmpty: bool,
                     current: Option<QueuedTrack>, tracks: seq<QueuedTrack>): Result<QueueReply, string>
  {
    if guildName.None? then (if v == Ts then Ok(NotInGuild) else Err("Cannot read properties of null (reading 'id')"))
    else if queueEmpty then Ok(QueueEmpty)
    else if current.None? then (if v == Ts then Ok(NoCurrentTrack) else Err("Cannot read properties of null (reading 'title')"))
    else
      Ok(QueueView(guildName.value, CurrentlyPlaying(current.value),
                   if |tracks| > 0 then Some(UpNextText(tracks)) else None,
                   Footer(|tracks|, TotalDurationText(CurrentSeconds(current) + SumSeconds(tracks), |tracks|))))
  }

  /** `execute`: the guards, then the view built by the two loops. */
  method Execute(v: Variant, guildName: Option<string>, queueEmpty: bool,
                 current: Option<QueuedTrack>, tracks: seq<QueuedTrack>) returns (reply: Result<QueueReply, string>)
    ensures reply == QueueSpec(v, guildName, queueEmpty, current, tracks)
    ensures reply.Ok? && reply.value.QueueView? ==> (reply.value.upNext.Some? <==> |tracks| > 0)
  {
    if guildName.None? {
      return if v == Ts then Ok(NotInGuild) else Err("Cannot read properties of null (reading 'id')");
    }
    if queueEmpty {
      return Ok(QueueEmpty);
    }
    if current.None? {
      return if v == Ts then Ok(NoCurrentTrack) else Err("Cannot read properties of null (reading 'title')");
    }
    var duration := CalculateTotalDuration(current, tracks);
    var upNext := None;
    if |tracks| > 0 {
      var list := BuildUpNext(tracks);
      upNext := Some(list);
    }
    assert upNext == if |tracks| > 0 then Some(UpNextText(tracks)) else None;
    reply := Ok(QueueView(guildName.value, CurrentlyPlaying(current.value), upNext, Footer(|tracks|, duration)));
  }

  /** The versions give the same reply whenever `Ts` shows the queue or reports it empty. */
  lemma VariantsAgreeOnView(guildName: Option<string>, queueEmpty: bool,
                            current: Option<QueuedTrack>, tracks: seq<QueuedTrack>)
    requires guildName.Some? && (queueEmpty || current.Some?)
    ensures QueueSpec(Ts, guildName, queueEmpty, current, tracks) == QueueSpec(Js, guildName, queueEmpty, current, tracks)
  {
  }
}
