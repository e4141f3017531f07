/**
 * The `tiktok` bot command: its subcommand dispatch (two versions that differ on an
 * unknown subcommand), the guards around disconnecting and reconnecting the bridge,
 * the statistics view and its uptime and relative-time renderings.
 */
module TikTokStats {
  import opened Wrappers
  import opened JsText
  import opened JsNumber
  import TikTokBridge

  const SecondMs: int := 1000
  const MinuteMs: int := 60000
  const HourMs: int := 3600000
  const DayMs: int := 86400000

  /** `Math.floor` of milliseconds into the four units, derived one from another as the command does. */
  lemma UnitsFromMillis(ms: int)
    ensures FloorDiv(FloorDiv(ms, 1000), 60) == ms / MinuteMs
    ensures FloorDiv(FloorDiv(FloorDiv(ms, 1000), 60), 60) == ms / HourMs
    ensures FloorDiv(FloorDiv(FloorDiv(FloorDiv(ms, 1000), 60), 60), 24) == ms / DayMs
  {
    FloorDivNested(ms, 1000, 60);
    FloorDivNested(ms, 60000, 60);
    FloorDivNested(ms, 3600000, 24);
  }

  /**
   * `formatUptime`: "Not connected" for zero or less; otherwise the largest non-zero
   * unit and the one below it (days with hours and minutes), all rounded down.
   */
  function FormatUptime(ms: int): (r: string)
    ensures ms <= 0 ==> r == "Not connected"
    ensures 0 < ms < MinuteMs ==> r == NatToString(ms / SecondMs) + "s"
    ensures MinuteMs <= ms < HourMs ==>
      r == NatToString(ms / MinuteMs) + "m " + NatToString(ms / SecondMs % 60) + "s"
    ensures HourMs <= ms < DayMs ==>
      r == NatToString(ms / HourMs) + "h " + NatToString(ms / MinuteMs % 60) + "m"
    ensures DayMs <= ms ==>
      r == NatToString(ms / DayMs) + "d " + NatToString(ms / HourMs % 24) + "h " + NatToString(ms / MinuteMs % 60) + "m"
  {
    if ms <= 0 then "Not connected"
    else
      var seconds := FloorDiv(ms, 1000);
      var minutes := FloorDiv(seconds, 60);
      var hours := FloorDiv(minutes, 60);
      var days := FloorDiv(hours, 24);
      UnitsFromMillis(ms);
      if days > 0 then IntToString(days) + "d " + IntToString(Rem(hours, 24)) + "h " + IntToString(Rem(minutes, 60)) + "m"
      else if hours > 0 then IntToString(hours) + "h " + IntToString(Rem(minutes, 60)) + "m"
      else if minutes > 0 then IntToString(minutes) + "m " + IntToString(Rem(seconds, 60)) + "s"
      else IntToString(seconds) + "s"
  }

  /** Three renderings worked out. */
  lemma FormatUptimeExamples()
    ensures FormatUptime(59999) == "59s"
    ensures FormatUptime(60000) == "1m 0s"
    ensures FormatUptime(90061000) == "1d 1h 1m"
  {
    UptimeUnderMinute();
    UptimeOneMinute();
    UptimeOverDay();
  }

  lemma UptimeUnderMinute()
    ensures FormatUptime(59999) == "59s"
  {
    assert FormatUptime(59999) == NatToString(59) + "s";
    assert NatToString(59) == "59" by { assert NatToString(5) == "5"; }
  }

  lemma UptimeOneMinute()
    ensures FormatUptime(60000) == "1m 0s"
  {
    assert FormatUptime(60000) == NatToString(1) + "m " + NatToString(0) + "s";
    assert NatToString(0) == "0";
    assert NatToString(1) == "1";
  }

  lemma UptimeOverDay()
    ensures FormatUptime(90061000) == "1d 1h 1m"
  {
    assert 90061000 / DayMs == 1 && 90061000 / HourMs % 24 == 1 && 90061000 / MinuteMs % 60 == 1;
    assert FormatUptime(90061000) == NatToString(1) + "d " + NatToString(1) + "h " + NatToString(1) + "m";
    assert NatToString(1) == "1";
  }

  /** Uptimes in the same minute render alike once they pass an hour: seconds are dropped. */
  lemma FormatUptimeDropsSeconds(ms: int, extra: int)
    requires HourMs <= ms && ms % MinuteMs == 0 && 0 <= extra < MinuteMs
    ensures FormatUptime(ms + extra) == FormatUptime(ms)
  {
    SameMinuteUnits(ms, extra);
    if ms < DayMs {
      assert FormatUptime(ms + extra) == NatToString(ms / HourMs) + "h " + NatToString(ms / MinuteMs % 60) + "m";
    } else {
      assert FormatUptime(ms + extra) ==
        NatToString(ms / DayMs) + "d " + NatToString(ms / HourMs % 24) + "h " + NatToString(ms / MinuteMs % 60) + "m";
    }
  }

  /** Adding less than a minute to a whole minute changes no whole minute, hour or day. */
  lemma SameMinuteUnits(ms: int, extra: int)
    requires 0 <= ms && ms % MinuteMs == 0 && 0 <= extra < MinuteMs
    ensures (ms + extra) / MinuteMs == ms / MinuteMs
    ensures (ms + extra) / HourMs == ms / HourMs
    ensures (ms + extra) / DayMs == ms / DayMs
    ensures ms + extra < DayMs <==> ms < DayMs
  {
    var q := ms / MinuteMs;
    assert ms == q * MinuteMs;
    DivModUnique(ms + extra, MinuteMs, q, extra);
    FloorDivNested(ms + extra, MinuteMs, 60);
    FloorDivNested(ms, MinuteMs, 60);
    FloorDivNested(ms + extra, HourMs, 24);
    FloorDivNested(ms, HourMs, 24);
  }

  /**
   * `formatRelativeTime(date)` at instant `now`: "Just now" under a minute (a date in
   * the future included), then whole minutes, hours or days ago.
   */
  function FormatRelativeTime(now: int, date: int): (r: string)
    ensures now - date < MinuteMs ==> r == "Just now"
    ensures MinuteMs <= now - date < HourMs ==> r == NatToString((now - date) / MinuteMs) + "m ago"
    ensures HourMs <= now - date < DayMs ==> r == NatToString((now - date) / HourMs) + "h ago"
    ensures DayMs <= now - date ==> r == NatToString((now - date) / DayMs) + "d ago"
  {
    var diff := now - date;
    var minutes := FloorDiv(diff, 60000);
    FloorDivNested(diff, 60000, 60);
    FloorDivNested(diff, 3600000, 24);
    if minutes < 1 then "Just now"
    else if minutes < 60 then IntToString(minutes) + "m ago"
    else
      var hours := FloorDiv(minutes, 60);
      if hours < 24 then IntToString(hours) + "h ago"
      else IntToString(FloorDiv(hours, 24)) + "d ago"
  }

  /**
   * "Just now" is given exactly under a minute, and no relative time reads like the
   * placeholder shown when there was no activity.
   */
  lemma RelativeTimeJustNow(now: int, date: int)
    ensures FormatRelativeTime(now, date) == "Just now" <==> now - date < MinuteMs
    ensures FormatRelativeTime(now, date) != "No activity"
  {
    var r := FormatRelativeTime(now, date);
    if now - date >= MinuteMs {
      assert r[|r| - 1] == 'o';
    } else {
      assert r[0] == 'J';
    }
  }

  // ---------------------------------------------------------------------------
  // Subcommand dispatch

  datatype Variant = Ts | Js

  /** What the command does. */
  datatype Action =
    | NotAvailable
    | InvalidSubcommand
    | ShowStatus
    | ShowStats
    | DisconnectBridge
    | ReconnectBridge

  const ValidSubcommands: seq<string> := ["stats", "status", "disconnect", "reconnect"]

  /** `args[0]?.toLowerCase()`. */
  function Subcommand(args: seq<string>): (r: Option<string>)
    ensures r.Some? <==> |args| > 0
  {
    if |args| > 0 then Some(ToLower(args[0])) else None
  }

  /**
   * The dispatch: without a bridge the "not available" reply; "stats" and "status"
   * show the statistics, "disconnect" and "reconnect" manage the bridge. Anything
   * else is refused by `Ts` and shows the status overview in `Js`.
   */
  function Dispatch(v: Variant, bridgePresent: bool, args: seq<string>): (a: Action)
    ensures !bridgePresent ==> a == NotAvailable
    ensures bridgePresent && Subcommand(args) in {Some("stats"), Some("status")} ==> a == ShowStats
    ensures bridgePresent && Subcommand(args) == Some("disconnect") ==> a == DisconnectBridge
    ensures bridgePresent && Subcommand(args) == Some("reconnect") ==> a == ReconnectBridge
    ensures bridgePresent && !(Subcommand(args).Some? && Subcommand(args).value in ValidSubcommands) ==>
      a == (if v == Ts then InvalidSubcommand else ShowStatus)
  {
    var sub := Subcommand(args);
    if !bridgePresent then NotAvailable
    else if v == Ts && (!Truthy(sub) || sub.value !in ValidSubcommands) then InvalidSubcommand
    else if sub == Some("stats") || sub == Some("status") then ShowStats
    else if sub == Some("disconnect") then DisconnectBridge
    else if sub == Some("reconnect") then ReconnectBridge
    else ShowStatus
  }

  /** The two versions agree except on missing and unknown subcommands. */
  lemma DispatchVariantsAgree(bridgePresent: bool, args: seq<string>)
    ensures Dispatch(Ts, bridgePresent, args) != Dispatch(Js, bridgePresent, args) <==>
      bridgePresent && !(Subcommand(args).Some? && Subcommand(args).value in ValidSubcommands)
  {
  }

  /** The `Ts` version never reaches its status overview: "status" shows the statistics. */
  lemma TsNeverShowsStatus(bridgePresent: bool, args: seq<string>)
    ensures Dispatch(Ts, bridgePresent, args) != ShowStatus
  {
  }

  /** The subcommand is case-insensitive. */
  lemma DispatchIgnoresCase(v: Variant, bridgePresent: bool)
    ensures Dispatch(v, bridgePresent, ["STATS"]) == Dispatch(v, bridgePresent, ["stats"])
    ensures Dispatch(v, bridgePresent, ["Reconnect"]) == Dispatch(v, bridgePresent, ["reconnect"])
  {
    assert ToLower("STATS") == "stats";
    assert ToLower("stats") == "stats";
    assert ToLower("Reconnect") == "reconnect";
    assert ToLower("reconnect") == "reconnect";
  }

  /** Why a dispatched subcommand fails in the `Js` version as written. */
  function DispatchJsAsWritten(bridgePresent: bool, args: seq<string>): (r: Result<Action, string>)
    ensures r.Ok? <==> !bridgePresent
  {
    var a := Dispatch(Js, bridgePresent, args);
    match a
    case NotAvailable => Ok(NotAvailable)
    case ShowStats => Err("this.showStats is not a function")
    case DisconnectBridge => Err("this.disconnectBridge is not a function")
    case ReconnectBridge => Err("this.reconnectBridge is not a function")
    case _ => Err("this.showStatus is not a function")
  }

  /**
   * In the `Js` version `execute` is an arrow function, so its `this` is the module's
   * original `exports` object rather than the command object it is defined in: every
   * subcommand fails once a bridge exists, where the evident intent is `Dispatch`.
   */
  lemma DispatchJsAsWrittenFails(args: seq<string>)
    ensures DispatchJsAsWritten(true, args).Err?
    ensures DispatchJsAsWritten(true, ["stats"]) == Err("this.showStats is not a function")
    ensures Dispatch(Js, true, ["stats"]) == ShowStats
  {
    assert ToLower("stats") == "stats";
  }

  // ---------------------------------------------------------------------------
  // The statistics view and the guards

  /** The texts of the statistics view's fields. */
  datatype StatsView = StatsView(
    status: string, target: string, uptime: string,
    commandsProcessed: string, messagesReceived: string, lastActivity: string,
    guildId: string, channelId: string, prefix: string, connectedSince: bool)

  /** `showStats`: the bridge statistics, with fallbacks for missing values. */
  function ShowStatsView(s: TikTokBridge.Stats, c: TikTokBridge.Config, now: int): (v: StatsView)
    ensures v.uptime == FormatUptime(s.uptime)
    ensures s.lastActivity.None? <==> v.lastActivity == "No activity"
    ensures v.target == "@" + OrElse(s.username, "Not configured")
    ensures v.connectedSince <==> s.connectTime.Some?
    ensures v.status == if s.isConnected then "\U{1F7E2} Connected" else "\U{1F534} Disconnected"
    ensures v.commandsProcessed == NatToString(s.commandsProcessed)
    ensures v.messagesReceived == NatToString(s.messagesReceived)
    ensures s.lastActivity.Some? ==> v.lastActivity == FormatRelativeTime(now, s.lastActivity.value)
    ensures v.guildId == OrElse(c.targetGuildId, "Not set") && v.channelId == OrElse(c.targetChannelId, "Not set")
    ensures v.prefix == "`" + c.prefix + "`"
  {
    StatsView(
      if s.isConnected then "\U{1F7E2} Connected" else "\U{1F534} Disconnected",
      "@" + OrElse(s.username, "Not configured"),
      FormatUptime(s.uptime),
      NatToString(s.commandsProcessed),
      NatToString(s.messagesReceived),
      if s.lastActivity.Some? then RelativeTimeJustNow(now, s.lastActivity.value); FormatRelativeTime(now, s.lastActivity.value)
      else "No activity",
      OrElse(c.targetGuildId, "Not set"),
      OrElse(c.targetChannelId, "Not set"),
      "`" + c.prefix + "`",
      s.connectTime.Some?)
  }

  /** `showStatus`: the target user is "@name", or "Not configured" without the "@". */
  function StatusTarget(username: Option<string>): (r: string)
    ensures Truthy(username) ==> r == "@" + username.value
    ensures !Truthy(username) ==> r == "Not configured"
  {
    if Truthy(username) then "@" + username.value else "Not configured"
  }

  /** Without a username the two views disagree: the statistics show "@Not configured". */
  lemma UnconfiguredTargetViews(s: TikTokBridge.Stats, c: TikTokBridge.Config, now: int)
    requires !Truthy(s.username)
    ensures ShowStatsView(s, c, now).target == "@Not configured"
    ensures StatusTarget(s.username) == "Not configured"
  {
  }

  /** A bridge that never connected shows no uptime, no activity and zero counters. */
  lemma FreshBridgeView(c: TikTokBridge.Config, now: int)
    ensures var v := ShowStatsView(TikTokBridge.Stats(0, 0, None, None, false, c.username, 0), c, now);
      v.uptime == "Not connected" && v.lastActivity == "No activity" && !v.connectedSince
      && v.commandsProcessed == "0" && v.messagesReceived == "0"
  {
  }

  /** The replies of the bridge-management subcommands. */
  datatype GuardReply =
    | AlreadyDisconnected
    | ManuallyDisconnected
    | AlreadyConnected
    | Reconnected(success: bool)

  /** `disconnectBridge`: `disconnect()` only on a connected bridge. */
  method DisconnectGuard(b: TikTokBridge.Bridge) returns (reply: GuardReply)
    requires b.Valid()
    modifies b
    ensures b.Valid()
    ensures !old(b.isConnected) ==>
      reply == AlreadyDisconnected && b.connection == old(b.connection) && b.connectTime == old(b.connectTime) && !b.isConnected
    ensures old(b.isConnected) ==>
      reply == ManuallyDisconnected && !b.isConnected && b.connection.None? && b.connectTime.None?
    ensures b.reconnectAttempts == old(b.reconnectAttempts) && b.lastActivity == old(b.lastActivity)
    ensures b.commandsProcessed == old(b.commandsProcessed) && b.messagesReceived == old(b.messagesReceived)
  {
    if !b.isConnected {
      return AlreadyDisconnected;
    }
    var _ := b.Disconnect();
    reply := ManuallyDisconnected;
  }

  /** `reconnectBridge`: `start()` only on a bridge that is not connected; the reply tells its result. */
  method ReconnectGuard(b: TikTokBridge.Bridge, connect: Result<(), ProviderError>, signApiKey: Option<string>)
    returns (reply: GuardReply)
    requires b.Valid()
    modifies b
    ensures b.Valid()
    ensures old(b.isConnected) ==>
      reply == AlreadyConnected && b.connection == old(b.connection) && b.reconnectAttempts == old(b.reconnectAttempts)
    ensures !old(b.isConnected) ==>
      reply.Reconnected? && (reply.success <==> b.config.enabled && TikTokBridge.ValidateConfiguration(b.config) && connect.Ok?)
    ensures !old(b.isConnected) && !(b.config.enabled && TikTokBridge.ValidateConfiguration(b.config)) ==>
      b.connection == old(b.connection) && b.reconnectAttempts == old(b.reconnectAttempts)
    ensures !old(b.isConnected) && b.config.enabled && TikTokBridge.ValidateConfiguration(b.config) ==>
      && b.connection == Some(TikTokBridge.Connection(b.config.username,
           if b.variant == TikTokBridge.Ts && Truthy(signApiKey) then signApiKey else None))
      && b.reconnectAttempts == (if connect.Ok? then old(b.reconnectAttempts)
           else TikTokBridge.NextAttempts(old(b.reconnectAttempts), b.config.maxReconnectAttempts))
    ensures b.isConnected == old(b.isConnected) && b.connectTime == old(b.connectTime)
    ensures b.commandsProcessed == old(b.commandsProcessed) && b.messagesReceived == old(b.messagesReceived)
    ensures b.lastActivity == old(b.lastActivity)
  {
    if b.isConnected {
      return AlreadyConnected;
    }
    var success, _ := b.Start(connect, signApiKey);
    reply := Reconnected(success);
  }
}
