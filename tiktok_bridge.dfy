/**
 * The TikTok live-chat bridge: a connection state machine (connected flag,
 * bounded reconnect counter, message and command counters) around a pure command
 * gate (prefix check, command parsing, an allow-list and a host/moderator check).
 * `Ts` and `Js` name the two versions of the bridge, which differ in the prefix check
 * and in how a refused command is logged.
 */
module TikTokBridge {
  import opened Wrappers
  import opened JsText

  datatype Variant = Ts | Js

  /** The bridge's configuration, fixed at construction. */
  datatype Config = Config(
    username: Option<string>,
    targetGuildId: Option<string>,
    targetChannelId: Option<string>,
    prefix: string,
    maxReconnectAttempts: int,
    reconnectDelay: int,
    enabled: bool)

  /**
   * The configuration as shipped: no username, prefix "!", at most 3 reconnection
   * attempts 5000 ms apart, bridge disabled; the guild and channel ids come from the
   * environment.
   */
  function ShippedConfig(guildId: Option<string>, channelId: Option<string>): Config
  {
    Config(Some(""), guildId, channelId, "!", 3, 5000, false)
  }

  /** `validateConfiguration`: username, guild id and voice-channel id must all be set and non-empty. */
  predicate ValidateConfiguration(c: Config)
  {
    Truthy(c.username) && Truthy(c.targetGuildId) && Truthy(c.targetChannelId)
  }

  /** The shipped configuration can never start the bridge: it is disabled and has no username. */
  lemma ShippedConfigNeverStarts(guildId: Option<string>, channelId: Option<string>)
    ensures !ShippedConfig(guildId, channelId).enabled
    ensures !ValidateConfiguration(ShippedConfig(guildId, channelId))
  {
  }

  // ---------------------------------------------------------------------------
  // The command gate

  /** The TikTok user object attached to a chat message. */
  datatype ChatUser = ChatUser(isModerator: bool)

  /** A chat event: `uniqueId`, `comment` and `user`. */
  datatype ChatData = ChatData(uniqueId: string, comment: Option<string>, user: Option<ChatUser>)

  /**
   * `isValidCommand`: a string starting with the prefix. The `Js` version also
   * requires the message to be truthy, so it refuses "" even for an empty prefix.
   */
  predicate IsValidCommand(v: Variant, message: Option<string>, prefix: string)
  {
    match v
    case Ts => message.Some? && StartsWith(message.value, prefix)
    case Js => Truthy(message) && StartsWith(message.value, prefix)
  }

  /** The two versions disagree only on an empty message under an empty prefix. */
  lemma IsValidCommandVariants(message: Option<string>, prefix: string)
    ensures IsValidCommand(Ts, message, prefix) != IsValidCommand(Js, message, prefix) <==>
      message == Some("") && prefix == ""
  {
  }

  /** The first index at or after `from` holding a space, or `|s|`. */
  function FirstSpace(s: string, from: nat): (i: nat)
    requires from <= |s|
    decreases |s| - from
    ensures from <= i <= |s|
    ensures forall k :: from <= k < i ==> s[k] != ' '
    ensures i < |s| ==> s[i] == ' '
  {
    if from == |s| || s[from] == ' ' then from else FirstSpace(s, from + 1)
  }

  /** The first index at or after `from` not holding a space, or `|s|`. */
  function SkipSpaces(s: string, from: nat): (i: nat)
    requires from <= |s|
    decreases |s| - from
    ensures from <= i <= |s|
    ensures forall k :: from <= k < i ==> s[k] == ' '
    ensures i < |s| ==> s[i] != ' '
  {
    if from == |s| || s[from] != ' ' then from else SkipSpaces(s, from + 1)
  }

  /** `s.split(/ +/)`: the pieces between runs of spaces; "" splits into [""]. */
  function SplitSpaces(s: string): (r: seq<string>)
    decreases |s|
    ensures |r| >= 1
  {
    var i := FirstSpace(s, 0);
    if i == |s| then [s]
    else [s[..i]] + SplitSpaces(s[SkipSpaces(s, i + 1)..])
  }

  /** No piece of a split contains a space. */
  lemma {:induction false} SplitSpacesHasNoSpaces(s: string)
    decreases |s|
    ensures forall t, k :: t in SplitSpaces(s) && 0 <= k < |t| ==> t[k] != ' '
  {
    var i := FirstSpace(s, 0);
    if i < |s| {
      SplitSpacesHasNoSpaces(s[SkipSpaces(s, i + 1)..]);
    }
  }

  /** The words joined with single spaces: `words.join(' ')`. */
  function JoinSpaces(words: seq<string>): string
    requires |words| >= 1
  {
    if |words| == 1 then words[0] else words[0] + " " + JoinSpaces(words[1..])
  }

  /** A word of a command line: non-empty, with no white space in it. */
  predicate IsWord(w: string)
  {
    w != [] && forall k :: 0 <= k < |w| ==> !IsTrimmable(w[k])
  }

  /** A join of words begins with the first word's first character and ends with a non-blank. */
  lemma {:induction false} JoinSpacesEnds(words: seq<string>)
    requires |words| >= 1 && forall i :: 0 <= i < |words| ==> IsWord(words[i])
    ensures var s := JoinSpaces(words); |s| > 0 && !IsTrimmable(s[0]) && !IsTrimmable(s[|s| - 1])
  {
    var w := words[0];
    assert IsWord(w);
    if |words| == 1 {
      assert JoinSpaces(words) == w;
    } else {
      var tail := words[1..];
      assert forall i :: 0 <= i < |tail| ==> IsWord(tail[i]) by {
        forall i | 0 <= i < |tail| ensures IsWord(tail[i]) {
          assert tail[i] == words[i + 1];
        }
      }
      JoinSpacesEnds(tail);
      var r := JoinSpaces(tail);
      var s := w + " " + r;
      assert JoinSpaces(words) == s;
      assert s[0] == w[0];
      assert s[|s| - 1] == r[|r| - 1];
    }
  }

  /** Splitting words joined by single spaces gives the words back. */
  lemma {:induction false} SplitJoin(words: seq<string>)
    requires |words| >= 1 && forall i :: 0 <= i < |words| ==> IsWord(words[i])
    ensures SplitSpaces(JoinSpaces(words)) == words
  {
    var w := words[0];
    WordHasNoSpace(w);
    if |words| == 1 {
      assert FirstSpace(w, 0) == |w|;
    } else {
      var tail := words[1..];
      assert forall i :: 0 <= i < |tail| ==> IsWord(tail[i]) by {
        forall i | 0 <= i < |tail| ensures IsWord(tail[i]) {
          assert tail[i] == words[i + 1];
        }
      }
      JoinSpacesEnds(tail);
      SplitWordSpace(w, JoinSpaces(tail));
      SplitJoin(tail);
    }
  }

  lemma WordHasNoSpace(w: string)
    requires IsWord(w)
    ensures forall k :: 0 <= k < |w| ==> w[k] != ' '
  {
    forall k | 0 <= k < |w| ensures w[k] != ' ' {
      assert !IsTrimmable(w[k]);
    }
  }

  /** A space-free word, one space and a text that starts with a non-space split at that space. */
  lemma SplitWordSpace(w: string, rest: string)
    requires forall k :: 0 <= k < |w| ==> w[k] != ' '
    requires rest != [] && rest[0] != ' '
    ensures SplitSpaces(w + " " + rest) == [w] + SplitSpaces(rest)
  {
    var s := w + " " + rest;
    assert FirstSpace(s, 0) == |w| by {
      assert forall k :: 0 <= k < |w| ==> s[k] == w[k];
      FirstSpaceAt(s, 0, |w|);
    }
    assert s[|w| + 1] == rest[0];
    assert SkipSpaces(s, |w| + 1) == |w| + 1;
    assert s[..|w|] == w;
    assert s[|w| + 1..] == rest;
  }

  lemma FirstSpaceAt(s: string, from: nat, i: nat)
    requires from <= i < |s| && s[i] == ' ' && forall k :: from <= k < i ==> s[k] != ' '
    ensures FirstSpace(s, from) == i
  {
  }

  /** `parseCommand`: the prefix is dropped, the rest trimmed and split; the name is lowercased. */
  function ParseCommand(message: string, prefix: string): (r: (string, seq<string>))
  {
    var rest := if |prefix| <= |message| then message[|prefix|..] else "";
    var pieces := SplitSpaces(Trim(rest));
    (ToLower(pieces[0]), pieces[1..])
  }

  /**
   * A command line made of the prefix and words separated by single spaces parses
   * to the first word, lowercased, and the other words in order with their case.
   */
  lemma ParseCommandOfWords(prefix: string, words: seq<string>)
    requires |words| >= 1 && forall i :: 0 <= i < |words| ==> IsWord(words[i])
    ensures ParseCommand(prefix + JoinSpaces(words), prefix) == (ToLower(words[0]), words[1..])
  {
    var message := prefix + JoinSpaces(words);
    var s := JoinSpaces(words);
    assert message[|prefix|..] == s;
    JoinSpacesEnds(words);
    assert TrimStart(s) == s;
    assert TrimEnd(s) == s;
    SplitJoin(words);
  }

  /** A bare prefix parses to the empty command name with no arguments. */
  lemma ParseBarePrefix(prefix: string)
    ensures ParseCommand(prefix, prefix) == ("", [])
  {
    assert prefix[|prefix|..] == "";
    assert TrimStart("") == "" && TrimEnd("") == "";
    assert Trim("") == "";
    assert FirstSpace("", 0) == 0;
    var pieces := SplitSpaces("");
    assert pieces == [""];
    assert pieces[1..] == [];
    assert ToLower(pieces[0]) == "";
  }

  /** The commands every viewer may use. */
  const AllowedCommands: seq<string> := ["play", "help", "nowplaying", "queue"]

  /** `isPrivilegedUser`: the host (the configured username) or a moderator. */
  predicate IsPrivilegedUser(c: Config, username: string, user: Option<ChatUser>)
  {
    c.username == Some(username) || (user.Some? && user.value.isModerator)
  }

  /** `hasCommandPermission`: allowed commands for everyone, any other only for a privileged user. */
  predicate HasCommandPermission(c: Config, username: string, commandName: string, user: Option<ChatUser>)
  {
    commandName in AllowedCommands || IsPrivilegedUser(c, username, user)
  }

  /** A command that is not on the allow-list is permitted exactly for the host and for moderators. */
  lemma PermissionOutsideAllowList(c: Config, username: string, commandName: string, user: Option<ChatUser>)
    requires commandName !in AllowedCommands
    ensures HasCommandPermission(c, username, commandName, user) <==>
      c.username == Some(username) || (user.Some? && user.value.isModerator)
  {
  }

  /** An ordinary viewer may not skip; the host may. */
  lemma SkipNeedsPrivilege(c: Config, username: string)
    requires c.username != Some(username)
    ensures !HasCommandPermission(c, username, "skip", None)
    ensures !HasCommandPermission(c, username, "skip", Some(ChatUser(false)))
    ensures HasCommandPermission(c, username, "skip", Some(ChatUser(true)))
    ensures HasCommandPermission(c.(username := Some(username)), username, "skip", None)
  {
    assert "skip" != "play" && "skip" != "help" && "skip" != "nowplaying" && "skip" != "queue";
  }

  /** A registered bot command: its name (the key it is stored under) and its aliases. */
  datatype Command = Command(name: string, aliases: Option<seq<string>>)

  predicate HasAlias(cmd: Command, name: string)
  {
    cmd.aliases.Some? && name in cmd.aliases.value
  }

  /** The index of the first command satisfying `byAlias ? HasAlias : name ==`; `|cmds|` when none. */
  function FindCommand(cmds: seq<Command>, name: string, byAlias: bool): (k: nat)
    ensures k <= |cmds|
    ensures forall i :: 0 <= i < k ==> !(if byAlias then HasAlias(cmds[i], name) else cmds[i].name == name)
    ensures k < |cmds| ==> (if byAlias then HasAlias(cmds[k], name) else cmds[k].name == name)
  {
    if cmds == [] then 0
    else if (if byAlias then HasAlias(cmds[0], name) else cmds[0].name == name) then 0
    else 1 + FindCommand(cmds[1..], name, byAlias)
  }

  /**
   * `getDiscordCommand`: the command stored under the name, else the first command
   * (in registration order) that lists it as an alias.
   */
  function GetDiscordCommand(cmds: seq<Command>, name: string): (r: Option<Command>)
    ensures (exists i :: 0 <= i < |cmds| && cmds[i].name == name) ==> r.Some? && r.value.name == name
    ensures !(exists i :: 0 <= i < |cmds| && cmds[i].name == name) ==>
      ((exists i :: 0 <= i < |cmds| && HasAlias(cmds[i], name)) <==> r.Some?)
    ensures r.Some? ==> r.value in cmds && (r.value.name == name || HasAlias(r.value, name))
    ensures r.Some? && r.value.name != name ==> r.value == cmds[FindCommand(cmds, name, true)]
  {
    var byName := FindCommand(cmds, name, false);
    if byName < |cmds| then Some(cmds[byName])
    else
      var byAlias := FindCommand(cmds, name, true);
      if byAlias < |cmds| then Some(cmds[byAlias]) else None
  }

  // ---------------------------------------------------------------------------
  // Chat handling

  /** What handling a chat message comes to. */
  datatype ChatOutcome =
    | NotACommand
    | NotFound(commandName: string)
    | Denied(commandName: string)
    | Executed(command: Command, args: seq<string>)

  /**
   * The decision `handleChatMessage` takes: not a command without the prefix; not
   * found when no command has the name or alias; denied without permission;
   * otherwise the command is executed with the parsed arguments (its own errors are
   * swallowed by `executeCommand`).
   */
  function ChatVerdict(v: Variant, c: Config, cmds: seq<Command>, data: ChatData): (o: ChatOutcome)
    ensures o.Executed? ==> IsValidCommand(v, data.comment, c.prefix)
    ensures o.Executed? ==> HasCommandPermission(c, data.uniqueId, ParseCommand(data.comment.value, c.prefix).0, data.user)
    ensures o.Executed? ==> o.args == ParseCommand(data.comment.value, c.prefix).1
    ensures o.Executed? ==> GetDiscordCommand(cmds, ParseCommand(data.comment.value, c.prefix).0) == Some(o.command)
    ensures o.NotACommand? <==> !IsValidCommand(v, data.comment, c.prefix)
    ensures o.NotFound? <==> (IsValidCommand(v, data.comment, c.prefix)
      && GetDiscordCommand(cmds, ParseCommand(data.comment.value, c.prefix).0).None?)
    ensures o.Denied? <==> (IsValidCommand(v, data.comment, c.prefix)
      && GetDiscordCommand(cmds, ParseCommand(data.comment.value, c.prefix).0).Some?
      && !HasCommandPermission(c, data.uniqueId, ParseCommand(data.comment.value, c.prefix).0, data.user))
    ensures o.Executed? <==> (IsValidCommand(v, data.comment, c.prefix)
      && GetDiscordCommand(cmds, ParseCommand(data.comment.value, c.prefix).0).Some?
      && HasCommandPermission(c, data.uniqueId, ParseCommand(data.comment.value, c.prefix).0, data.user))
  {
    if !IsValidCommand(v, data.comment, c.prefix) then NotACommand
    else
      var (name, args) := ParseCommand(data.comment.value, c.prefix);
      match GetDiscordCommand(cmds, name)
      case None => NotFound(name)
      case Some(cmd) =>
        if !HasCommandPermission(c, data.uniqueId, name, data.user) then Denied(name) else Executed(cmd, args)
  }

  /** One log entry: a level and its message. */
  datatype LogEntry = LogEntry(level: string, message: string)

  /** The warning a refused command is meant to log. */
  function DenialLog(username: string, commandName: string): (e: LogEntry)
    ensures e.level == "warn"
    ensures Contains(e.message, username) && Contains(e.message, commandName)
  {
    var m := "User " + username + " does not have permission to use command '" + commandName + "'";
    assert OccursAt(m, username, 5);
    assert OccursAt(m, commandName, 5 + |username| + 42);
    ContainsIff(m, username);
    ContainsIff(m, commandName);
    LogEntry("warn", m)
  }

  /**
   * What the `Js` version logs for a refused command: it calls `this.log`, which the
   * class does not have; the TypeError is caught by the handler's own `catch`, which
   * logs it as an error.
   */
  function DenialLogAsWritten(username: string, commandName: string): LogEntry
  {
    LogEntry("error", "Error handling chat message: this.log is not a function")
  }

  /** The `Js` denial is logged at the wrong level and without the user or the command. */
  lemma DenialLogAsWrittenDiffers(username: string, commandName: string)
    ensures DenialLogAsWritten(username, commandName).level != DenialLog(username, commandName).level
    ensures DenialLogAsWritten(username, commandName) != DenialLog(username, commandName)
  {
  }

  // ---------------------------------------------------------------------------
  // The Discord context a TikTok command runs in

  /** The stand-in Discord author of a TikTok command. */
  datatype TikTokUser = TikTokUser(id: string, username: string, tag: string, bot: bool)

  /** `createTikTokUser`: id `tiktok_<name>`, tag `<name>#TikTok`, never a bot. */
  function CreateTikTokUser(username: string): (u: TikTokUser)
    ensures !u.bot && u.username == username
    ensures StartsWith(u.id, "tiktok_") && u.id[7..] == username
    ensures |u.tag| == |username| + 7 && u.tag[..|username|] == username && u.tag[|username|..] == "#TikTok"
  {
    TikTokUser("tiktok_" + username, username, username + "#TikTok", false)
  }

  /** Distinct TikTok users get distinct Discord ids and tags. */
  lemma TikTokUserIdsInjective(a: string, b: string)
    ensures CreateTikTokUser(a).id == CreateTikTokUser(b).id ==> a == b
    ensures CreateTikTokUser(a).tag == CreateTikTokUser(b).tag ==> a == b
  {
    if CreateTikTokUser(a).id == CreateTikTokUser(b).id {
      assert a == CreateTikTokUser(a).id[7..];
    }
    if CreateTikTokUser(a).tag == CreateTikTokUser(b).tag {
      var ta, tb := a + "#TikTok", b + "#TikTok";
      assert |a| == |b|;
      assert a == ta[..|a|] && b == tb[..|b|];
    }
  }

  /** An embed as far as the reply handler reads it. */
  datatype Embed = Embed(title: Option<string>, authorName: Option<string>, description: Option<string>)

  /** What a command replies with: plain text, a message with embeds, or anything else. */
  datatype ReplyContent = Text(text: string) | WithEmbeds(embeds: Option<seq<Embed>>) | Other

  /**
   * The line the reply handler logs for `username`: text verbatim, the first embed as
   * "title - description" (title falling back to the embed's author name and then to
   * "Response", description to "No description"), otherwise "[Complex response]".
   */
  function ReplyLine(username: string, content: ReplyContent): (line: string)
    ensures StartsWith(line, "To " + username + ": ")
    ensures content.Text? ==> line[|username| + 5..] == content.text
    ensures content.WithEmbeds? && content.embeds.Some? && |content.embeds.value| > 0 ==>
      line[|username| + 5..] == EmbedLine(content.embeds.value[0])
    ensures !content.Text? && !(content.WithEmbeds? && content.embeds.Some? && |content.embeds.value| > 0) ==>
      line[|username| + 5..] == "[Complex response]"
  {
    var head := "To " + username + ": ";
    var body := ReplyBody(content);
    assert (head + body)[..|head|] == head;
    assert (head + body)[|head|..] == body;
    head + body
  }

  /** What follows "To <user>: " in the logged line. */
  function ReplyBody(content: ReplyContent): string
  {
    match content
    case Text(t) => t
    case WithEmbeds(Some(es)) => if |es| > 0 then EmbedLine(es[0]) else "[Complex response]"
    case _ => "[Complex response]"
  }

  /** The first embed as "title - description", with the fallbacks. */
  function EmbedLine(e: Embed): (s: string)
    ensures s == OrElse(e.title, OrElse(e.authorName, "Response")) + " - " + OrElse(e.description, "No description")
    ensures Truthy(e.title) ==> StartsWith(s, e.title.value + " - ")
    ensures !Truthy(e.title) && Truthy(e.authorName) ==> StartsWith(s, e.authorName.value + " - ")
  {
    var t := OrElse(e.title, OrElse(e.authorName, "Response"));
    var d := OrElse(e.description, "No description");
    assert (t + " - " + d)[..|t + " - "|] == t + " - ";
    t + " - " + d
  }

  /** An embed without title, author or description is logged with both fallbacks. */
  lemma ReplyLineFallbacks(username: string)
    ensures ReplyLine(username, WithEmbeds(Some([Embed(None, None, None)]))) ==
      "To " + username + ": " + "Response - No description"
  {
    EmptyEmbedBody();
    ReplyLineOfBody(username, WithEmbeds(Some([Embed(None, None, None)])), "Response - No description");
  }

  /** Without a title the embed's author name is the title, and a description is logged as given. */
  lemma ReplyLineAuthorFallback(username: string, author: string, description: string)
    requires author != "" && description != ""
    ensures ReplyLine(username, WithEmbeds(Some([Embed(None, Some(author), Some(description))]))) ==
      "To " + username + ": " + (author + " - " + description)
  {
    var e := Embed(None, Some(author), Some(description));
    assert ReplyBody(WithEmbeds(Some([e]))) == EmbedLine(e);
    ReplyLineOfBody(username, WithEmbeds(Some([e])), author + " - " + description);
  }

  lemma EmptyEmbedLine()
    ensures EmbedLine(Embed(None, None, None)) == "Response - No description"
  {
  }

  lemma EmptyEmbedBody()
    ensures ReplyBody(WithEmbeds(Some([Embed(None, None, None)]))) == "Response - No description"
  {
    EmptyEmbedLine();
  }

  /** The logged line is "To ", the user name, ": " and the body. */
  lemma ReplyLineOfBody(username: string, content: ReplyContent, body: string)
    requires ReplyBody(content) == body
    ensures ReplyLine(username, content) == "To " + username + ": " + body
  {
  }

  // ---------------------------------------------------------------------------
  // The bridge

  /** The connection object; only what it was created with is kept. */
  datatype Connection = Connection(username: Option<string>, signApiKey: Option<string>)

  /** What `getStats` reports. */
  datatype Stats = Stats(
    commandsProcessed: nat,
    messagesReceived: nat,
    connectTime: Option<int>,
    lastActivity: Option<int>,
    isConnected: bool,
    username: Option<string>,
    uptime: int)

  /** The reconnect counter after one more failure: bumped only while below the maximum. */
  function NextAttempts(attempts: int, max: int): (n: int)
    ensures attempts < max ==> n == attempts + 1 && n <= max
    ensures attempts >= max ==> n == attempts
  {
    if attempts < max then attempts + 1 else attempts
  }

  /** However many failures in a row, the counter never exceeds the maximum (or its start, if that is higher). */
  lemma {:induction false} AttemptsBounded(attempts: int, max: int, failures: nat)
    requires 0 <= attempts
    decreases failures
    ensures Repeat(attempts, max, failures) <= if attempts <= max then max else attempts
    ensures attempts <= max && failures >= max - attempts ==> Repeat(attempts, max, failures) == max
  {
    if failures > 0 {
      AttemptsBounded(NextAttempts(attempts, max), max, failures - 1);
    }
  }

  /** The counter after `failures` failures in a row. */
  function Repeat(attempts: int, max: int, failures: nat): int
    decreases failures
  {
    if failures == 0 then attempts else Repeat(NextAttempts(attempts, max), max, failures - 1)
  }

  class Bridge {
    const variant: Variant
    const config: Config
    var connection: Option<Connection>
    var isConnected: bool
    var reconnectAttempts: int
    var commandsProcessed: nat
    var messagesReceived: nat
    /** `stats.connectTime` and `stats.lastActivity`, as instants in milliseconds. */
    var connectTime: Option<int>
    var lastActivity: Option<int>

    /**
     * The bridge's invariant: no more commands processed than messages received,
     * the reconnect counter between 0 and the configured maximum, and connected only
     * with a connection.
     */
    predicate Valid()
      reads this
    {
      && (isConnected ==> connection.Some?)
      && commandsProcessed <= messagesReceived
      && 0 <= reconnectAttempts
      && (reconnectAttempts == 0 || reconnectAttempts <= config.maxReconnectAttempts)
    }

    constructor (v: Variant, c: Config)
      ensures Valid()
      ensures variant == v && config == c
      ensures connection.None? && !isConnected && reconnectAttempts == 0
      ensures commandsProcessed == 0 && messagesReceived == 0 && connectTime.None? && lastActivity.None?
    {
      variant := v;
      config := c;
      connection := None;
      isConnected := false;
      reconnectAttempts := 0;
      commandsProcessed := 0;
      messagesReceived := 0;
      connectTime := None;
      lastActivity := None;
    }

    /**
     * `handleConnectionFailure`: while below the maximum the counter goes up and a
     * new `start` is scheduled after the reconnect delay; at the maximum nothing changes.
     */
    method HandleConnectionFailure() returns (retryScheduled: bool)
      requires Valid()
      modifies this
      ensures Valid()
      ensures retryScheduled <==> old(reconnectAttempts) < config.maxReconnectAttempts
      ensures reconnectAttempts == NextAttempts(old(reconnectAttempts), config.maxReconnectAttempts)
      ensures connection == old(connection) && isConnected == old(isConnected)
      ensures commandsProcessed == old(commandsProcessed) && messagesReceived == old(messagesReceived)
      ensures connectTime == old(connectTime) && lastActivity == old(lastActivity)
    {
      if reconnectAttempts < config.maxReconnectAttempts {
        reconnectAttempts := reconnectAttempts + 1;
        retryScheduled := true;
      } else {
        retryScheduled := false;
      }
    }

    /**
     * `start`: false with nothing changed when disabled or misconfigured; otherwise a
     * connection is created (with the sign API key when one is set, for `Ts`) and
     * connected. A failed connect goes through `handleConnectionFailure` and gives false.
     */
    method Start(connect: Result<(), ProviderError>, signApiKey: Option<string>) returns (started: bool, retryScheduled: bool)
      requires Valid()
      modifies this
      ensures Valid()
      ensures !config.enabled || !ValidateConfiguration(config) ==>
        !started && !retryScheduled && connection == old(connection) && reconnectAttempts == old(reconnectAttempts)
      ensures config.enabled && ValidateConfiguration(config) ==>
        && connection == Some(Connection(config.username, if variant == Ts && Truthy(signApiKey) then signApiKey else None))
        && started == connect.Ok?
        && (connect.Ok? ==> !retryScheduled && reconnectAttempts == old(reconnectAttempts))
        && (connect.Err? ==> retryScheduled == (old(reconnectAttempts) < config.maxReconnectAttempts)
                             && reconnectAttempts == NextAttempts(old(reconnectAttempts), config.maxReconnectAttempts))
      ensures isConnected == old(isConnected) && connectTime == old(connectTime)
      ensures commandsProcessed == old(commandsProcessed) && messagesReceived == old(messagesReceived)
      ensures lastActivity == old(lastActivity)
    {
      retryScheduled := false;
      if !config.enabled {
        return false, false;
      }
      if !ValidateConfiguration(config) {
        return false, false;
      }
      var key := if variant == Ts && Truthy(signApiKey) then signApiKey else None;
      connection := Some(Connection(config.username, key));
      if connect.Ok? {
        return true, false;
      }
      retryScheduled := HandleConnectionFailure();
      started := false;
    }

    /**
     * `handleConnected`: connected, counter reset, connect time recorded. The event
     * comes from a connection, so there is one.
     */
    method HandleConnected(now: int)
      requires Valid() && connection.Some?
      modifies this
      ensures Valid()
      ensures isConnected && reconnectAttempts == 0 && connectTime == Some(now)
      ensures connection == old(connection) && lastActivity == old(lastActivity)
      ensures commandsProcessed == old(commandsProcessed) && messagesReceived == old(messagesReceived)
    {
      isConnected := true;
      reconnectAttempts := 0;
      connectTime := Some(now);
    }

    /** `handleDisconnected`: not connected and no connect time. */
    method HandleDisconnected()
      requires Valid()
      modifies this
      ensures Valid()
      ensures !isConnected && connectTime.None?
      ensures connection == old(connection) && reconnectAttempts == old(reconnectAttempts) && lastActivity == old(lastActivity)
      ensures commandsProcessed == old(commandsProcessed) && messagesReceived == old(messagesReceived)
    {
      isConnected := false;
      connectTime := None;
    }

    /** `handleError`: only the connected flag is cleared; the connect time is kept. */
    method HandleError()
      requires Valid()
      modifies this
      ensures Valid()
      ensures !isConnected
      ensures connectTime == old(connectTime) && connection == old(connection)
      ensures reconnectAttempts == old(reconnectAttempts) && lastActivity == old(lastActivity)
      ensures commandsProcessed == old(commandsProcessed) && messagesReceived == old(messagesReceived)
    {
      isConnected := false;
    }

    /**
     * `handleChatMessage`: every message is counted and stamped; the command counter
     * goes up exactly when a command is executed.
     */
    method HandleChatMessage(cmds: seq<Command>, data: ChatData, now: int) returns (outcome: ChatOutcome)
      requires Valid()
      modifies this
      ensures Valid()
      ensures outcome == ChatVerdict(variant, config, cmds, data)
      ensures messagesReceived == old(messagesReceived) + 1 && lastActivity == Some(now)
      ensures commandsProcessed == old(commandsProcessed) + (if outcome.Executed? then 1 else 0)
      ensures connection == old(connection) && isConnected == old(isConnected)
      ensures reconnectAttempts == old(reconnectAttempts) && connectTime == old(connectTime)
    {
      messagesReceived := messagesReceived + 1;
      lastActivity := Some(now);
      if !IsValidCommand(variant, data.comment, config.prefix) {
        return NotACommand;
      }
      var (name, args) := ParseCommand(data.comment.value, config.prefix);
      var command := GetDiscordCommand(cmds, name);
      if command.None? {
        return NotFound(name);
      }
      if !HasCommandPermission(config, data.uniqueId, name, data.user) {
        return Denied(name);
      }
      outcome := Executed(command.value, args);
      commandsProcessed := commandsProcessed + 1;
    }

    /** `getStats`: the counters and times, the connected flag, the username and the uptime. */
    function GetStats(now: int): (s: Stats)
      reads this
      ensures connectTime.None? ==> s.uptime == 0
      ensures connectTime.Some? ==> s.uptime == now - connectTime.value
      ensures s.commandsProcessed == commandsProcessed && s.messagesReceived == messagesReceived
      ensures s.isConnected == isConnected && s.username == config.username
    {
      Stats(commandsProcessed, messagesReceived, connectTime, lastActivity, isConnected, config.username,
            if connectTime.Some? then now - connectTime.value else 0)
    }

    /**
     * `disconnect`: with a connection, it is dropped, the flag cleared and the connect
     * time reset; without one nothing changes.
     */
    method Disconnect() returns (disconnected: bool)
      requires Valid()
      modifies this
      ensures Valid()
      ensures disconnected <==> old(connection).Some?
      ensures disconnected ==> connection.None? && !isConnected && connectTime.None?
      ensures !disconnected ==> connection == old(connection) && isConnected == old(isConnected) && connectTime == old(connectTime)
      ensures reconnectAttempts == old(reconnectAttempts) && lastActivity == old(lastActivity)
      ensures commandsProcessed == old(commandsProcessed) && messagesReceived == old(messagesReceived)
    {
      if connection.None? {
        return false;
      }
      connection := None;
      isConnected := false;
      connectTime := None;
      disconnected := true;
    }
  }

  /** A refused command is never executed: it leaves the command counter unchanged. */
  lemma DeniedNeverExecutes(v: Variant, c: Config, cmds: seq<Command>, data: ChatData)
    requires IsValidCommand(v, data.comment, c.prefix)
    requires !HasCommandPermission(c, data.uniqueId, ParseCommand(data.comment.value, c.prefix).0, data.user)
    ensures !ChatVerdict(v, c, cmds, data).Executed?
  {
  }

  /** A viewer's allow-listed command that exists is executed whoever sends it. */
  lemma AllowedCommandExecutes(v: Variant, c: Config, cmds: seq<Command>, data: ChatData)
    requires IsValidCommand(v, data.comment, c.prefix)
    requires ParseCommand(data.comment.value, c.prefix).0 in AllowedCommands
    requires GetDiscordCommand(cmds, ParseCommand(data.comment.value, c.prefix).0).Some?
    ensures ChatVerdict(v, c, cmds, data).Executed?
  {
  }

  /** A found command sent by the host or a moderator is executed, whether or not it is allow-listed. */
  lemma PrivilegedCommandExecutes(v: Variant, c: Config, cmds: seq<Command>, data: ChatData)
    requires IsValidCommand(v, data.comment, c.prefix)
    requires IsPrivilegedUser(c, data.uniqueId, data.user)
    requires GetDiscordCommand(cmds, ParseCommand(data.comment.value, c.prefix).0).Some?
    ensures ChatVerdict(v, c, cmds, data) ==
      Executed(GetDiscordCommand(cmds, ParseCommand(data.comment.value, c.prefix).0).value,
               ParseCommand(data.comment.value, c.prefix).1)
  {
  }
}
