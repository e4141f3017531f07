# kunang-kunang music bot: a verified model of its core

This project models the logic of the kunang-kunang Discord music bot and proves properties about it. The bot plays music from SoundCloud, YouTube and Spotify. It also takes commands from a TikTok live chat and shows what is playing on an overlay web page. Five parts are modelled:

- **the provider extractors**
  - SoundCloud, YouTube via btch-downloader, and the "google video" SABR wrapper.
  - The Spotify bridge, which looks a song up on Spotify and finds it on SoundCloud.
  - For each one the model covers its URL recognisers, its duration and view-count normalisers, its conversion into the player's track record, its resolution of a query into tracks, and its ordered fallback chain for finding a stream;
- **the TikTok bridge**, a small state machine:
  - the fields it keeps: connection, connected flag, reconnect counter and counters;
  - the command gate: the prefix, the parsing, the allow-list and the host/moderator check;
- **the formatting helpers**
  - uptime and relative time from the `tiktok` command, with that command's subcommand dispatch and its guards;
  - the queue command's total duration and its "Up Next" list;
  - `formatTime` and `createProgressBar`;
- **the logger**: the level filter, the line template, and the choice of stream;
- **the overlay servers**: the status snapshot that `updateStatus` installs, and the `/api/nowplaying` response.

Several source files exist twice, as a TypeScript file and an older JavaScript twin.
- Where the twins behave alike, one member models both, and the "states" column names the twin's lines.
- Where they differ, the member takes a `Variant` (`Ts` or `Js`), and a lemma states exactly where the two versions disagree.

How the model represents the outside world:
- Each call into a provider SDK is an oracle, a function-valued field that returns `Ok(data)` or `Err(ProviderError)`. This covers soundcloud.ts, btch-downloader's `youtube`/`yts`/`spotify`, the SABR delegate and the TikTok connection.
- Every stream chain is an early-return method. It is proved equal to `Chain.Run` over an explicit list of steps. Each step either finds a stream, is passed over, or aborts with an error.
- JavaScript semantics are written out explicitly:
  - `undefined` is modelled as `None`, with truthiness;
  - `a || b` on strings;
  - `%` truncates toward zero;
  - `Math.floor` and `Math.round`, `parseInt`, `toString`, `padStart`, `trim`, `split(/ +/)`, ASCII `toLowerCase`, and `slice` with negative ends.
- Clocks are explicit integer parameters: `now`, in milliseconds. The environment variables are parameters as well: `LOG_LEVEL`, `SOUNDCLOUD_CLIENT_ID` and the sign API key.
- A timer callback is modelled as an explicit step. The reconnect timer becomes the `retryScheduled` result. The 100 ms overlay timer becomes `Server.FireTimer`.

Modules:
- `Wrappers`, `JsText`, `JsNumber`, `JsValue`: the JavaScript vocabulary.
- `Durations`: the shared `m:ss` rendering.
- `Chain`: fallback chains.
- `UrlMatch`: anchored URL patterns.
- `Tracks`, `SoundCloudApi`: the shared record shapes.
- One module per core file: `SoundCloudExtractor`, `YouTubeExtractor`, `GoogleVideoExtractor`, `SpotifyBridgeExtractor`, `TikTokBridge`, `TikTokStats`, `QueueCommand`, `Helpers`, `Logging`, `OverlayServer`.

## Model

| member | source | states |
|---|---|---|
| Chain.RunStopsAtFirstDecision | src/extractors/SoundCloudExtractor.js:66-107 | A fallback chain's outcome is decided by the first strategy that is not passed over. Every strategy before it was passed over. |
| Chain.RunFindsIff | src/extractors/SoundCloudExtractor.js:66-107 | A chain yields a stream exactly when some strategy finds one and every earlier strategy was passed over. |
| Chain.RunExhausted | src/extractors/SoundCloudExtractor.js:102 | When every strategy is passed over, all of them are tried and the chain throws its own error. |
| Chain.RunIgnoresUnreached | src/extractors/SoundCloudExtractor.js:66-107 | Strategies after the deciding one cannot change the outcome. |
| UrlMatch.SchemeUrlIff | src/extractors/SoundCloudExtractor.js:134-137 | The step-by-step matcher for `^https?://(sub)?(host)` followed by one character of a class holds exactly when the URL starts with one of the literal prefixes, followed by a character of that class. |
| Durations.MillisClock | src/extractors/SoundCloudExtractor.js:146-152 | `formatDuration` in milliseconds: a falsy value gives "0:00"; otherwise the clock of ⌊ms/1000⌋ seconds (the same code is at SpotifyBridgeExtractor.ts:168-174 and SpotifyBridgeExtractor.js:166-172). |
| Durations.SecondsClockReadsBack | src/extractors/SoundCloudExtractor.js:148-151 | For a non-negative count, the clock is the minutes, a colon and exactly two digits in 00..59. Together they read back as the count. |
| Durations.MillisClockSecondsField | src/extractors/SpotifyBridgeExtractor.ts:168-174 | The seconds field of a millisecond duration is always two digits in 00..59. |
| Durations.ZeroClock | src/extractors/SoundCloudExtractor.js:147 | The falsy fallback "0:00" is itself a valid clock. |
| Durations.SecondsClockHasColon | src/extractors/YouTubeExtractor.js:111-120 | Every rendered clock has a colon after the minutes. |
| Durations.SecondsClockInjective | src/extractors/YouTubeExtractor.js:118-120 | Distinct non-negative second counts render differently. |
| Durations.MillisClockExample | src/extractors/SoundCloudExtractor.js:146-152 | 125000 ms renders as "2:05". |
| SoundCloudApi.SearchHits | src/extractors/SoundCloudExtractor.js:45 | Computes `collection \|\| results \|\| []`: the collection when there is one, a bare array as it is, nothing for an object without a collection. |
| SoundCloudApi.FirstProgressiveAudio | src/extractors/SoundCloudExtractor.js:89-90 | `find` stops at the first progressive audio transcoding; none before it qualifies. |
| SoundCloudApi.PickTranscoding | src/extractors/SoundCloudExtractor.js:88-91 | Nothing unless there are transcodings. Otherwise the first progressive audio transcoding, or the first transcoding when none is progressive audio. |
| Tracks.WithClientId | src/extractors/SoundCloudExtractor.js:80 | The stream url is the base url followed by exactly `?client_id=` and the client id, rendered as "undefined" when the variable is unset. |
| Tracks.MapAll | src/extractors/SoundCloudExtractor.js:52 | `map` gives one converted record per provider record, in order. It is used with each extractor's `Convert` (also YouTubeExtractor.js:29 and GoogleVideoExtractor.ts:81). |
| SoundCloudExtractor.Validate | src/extractors/SoundCloudExtractor.js:15-17 | `validate` accepts any non-empty string. |
| SoundCloudExtractor.IsSoundCloudUrl | src/extractors/SoundCloudExtractor.js:134-137 | The anchored SoundCloud pattern, matched part by part; IsSoundCloudUrlIff characterises it. |
| SoundCloudExtractor.IsSoundCloudUrlIff | src/extractors/SoundCloudExtractor.js:134-137 | A URL is a SoundCloud URL exactly when it starts with `http://` or `https://`, then an optional `www.`, then `soundcloud.com/` or `snd.sc/`, then one character that is not a line terminator. |
| SoundCloudExtractor.FirstPathMatch | src/extractors/SoundCloudExtractor.js:142 | Finds the leftmost position where the unanchored `soundcloud\.com\/(.+)` matches. |
| SoundCloudExtractor.LineRun | src/extractors/SoundCloudExtractor.js:142 | The greedy `.+` captures the longest prefix without a line terminator. |
| SoundCloudExtractor.ExtractPath | src/extractors/SoundCloudExtractor.js:139-144 | The capture after the leftmost match, which is never empty. The URL itself when nothing matches. |
| SoundCloudExtractor.ExtractPathWithoutHost | src/extractors/SoundCloudExtractor.js:139-144 | A URL without "soundcloud.com/", such as an `snd.sc` link, is returned unchanged. |
| SoundCloudExtractor.ExtractPathOfOneLineUrl | src/extractors/SoundCloudExtractor.js:139-144 | On a one-line URL the path is everything after the first "soundcloud.com/". |
| SoundCloudExtractor.Convert | src/extractors/SoundCloudExtractor.js:110-132 | Each field with its fixed default: "Unknown Title", "", "Unknown Artist" and "". The artwork falls back to the avatar, then to null. The duration comes from `formatDuration`, views default to 0, the source is "soundcloud" and live is false. |
| SoundCloudExtractor.StreamSteps | src/extractors/SoundCloudExtractor.js:66-101 | The three strategies, in source order. |
| SoundCloudExtractor.Extractor.Activate | src/extractors/SoundCloudExtractor.js:7-13 | Stores the client and answers true. |
| SoundCloudExtractor.Extractor.Handle | src/extractors/SoundCloudExtractor.js:19-64 | Never throws. The answer is `[]` without a client, for free text without a client id, on any failed call and on an empty result. A `/sets/` URL gives the playlist's tracks; any other SoundCloud URL gives exactly the one track; free text gives the hits of a search limited to 10. |
| SoundCloudExtractor.Extractor.Stream | src/extractors/SoundCloudExtractor.js:66-107 | The result is the chain's outcome over `StreamSteps`: the stream utility, then `stream_url` with the client id, then the refetched transcoding. It returns the list of strategies reached, in order. |
| SoundCloudExtractor.StreamUtilityWins | src/extractors/SoundCloudExtractor.js:71-76 | When the stream utility succeeds, its stream is returned and nothing else is tried. |
| SoundCloudExtractor.RefetchWithoutUrlThrows | src/extractors/SoundCloudExtractor.js:88-102 | When the chosen refetched transcoding has no url, no other transcoding is tried: all three strategies are reached, and `stream` throws "Unable to extract stream for track: <title>". |
| SoundCloudExtractor.StreamOrder | src/extractors/SoundCloudExtractor.js:66-107 | A later strategy runs only when every earlier one was passed over. The outcome is the verdict of the last strategy reached. |
| YouTubeExtractor.IsYouTubeUrl | src/extractors/YouTubeExtractor.js:93-96 | The anchored YouTube pattern, matched part by part; IsYouTubeUrlIff characterises it. |
| YouTubeExtractor.Validate | src/extractors/YouTubeExtractor.js:11-13 | `validate` is `isYouTubeURL`. |
| YouTubeExtractor.IsYouTubeUrlIff | src/extractors/YouTubeExtractor.js:93-96 | Accepts exactly the anchored `http(s)://` URLs with an optional `www.` and one of `youtube.com/watch?v=`, `youtu.be/`, `youtube.com/embed/` or `youtube.com/v/`, followed by an id character other than `&`, `?`, `#` or newline. `validate` is this predicate (lines 11-13). |
| YouTubeExtractor.ShortsAndMobileRejected | src/extractors/YouTubeExtractor.js:93-96 | Shorts URLs and the `m.` and `music.` hosts are refused. |
| YouTubeExtractor.FormatDuration | src/extractors/YouTubeExtractor.js:98-124 | A falsy value gives "0:00". An object gives its truthy `timestamp`, else "0:00". A string with a colon passes through. A numeric string or a number counts seconds. |
| YouTubeExtractor.FormatDurationNumericString | src/extractors/YouTubeExtractor.js:105-121 | Every integer, rendered as a string, formats just like the number; for 0 both give "0:00". |
| YouTubeExtractor.FormatDurationExample | src/extractors/YouTubeExtractor.js:105-121 | Both 125 and "125" give "2:05". |
| YouTubeExtractor.FirstDigitRun | src/extractors/YouTubeExtractor.js:133 | `(\d+)` captures nothing exactly when the text has no digit. Otherwise the capture starts at the first digit, is all digits, and runs until the text ends or a non-digit follows. |
| YouTubeExtractor.RemoveCommas | src/extractors/YouTubeExtractor.js:132 | The result has no comma and is not longer than the input. |
| YouTubeExtractor.RemoveCommasAppend | src/extractors/YouTubeExtractor.js:132 | Removing commas from a concatenation removes them from each part, so with RemoveCommasChar every non-comma character is kept, in order. |
| YouTubeExtractor.RemoveCommasChar | src/extractors/YouTubeExtractor.js:132 | A single character is dropped exactly when it is a comma. |
| YouTubeExtractor.ParseViews | src/extractors/YouTubeExtractor.js:126-138 | A falsy value gives 0. A number passes through. A non-empty string gives the value of `FirstDigitRun` of the comma-free text, or 0 without a digit. An object gives 0. |
| YouTubeExtractor.ParseViewsRendering | src/extractors/YouTubeExtractor.js:131-135 | A rendered count reads back as itself. |
| YouTubeExtractor.ParseViewsExample | src/extractors/YouTubeExtractor.js:131-135 | "1,234" gives 1234. |
| YouTubeExtractor.AuthorOf | src/extractors/YouTubeExtractor.js:70-75 | A search result (`type === 'video'`) takes `author.name`; anything else takes `author`. The default is "Unknown Artist". |
| YouTubeExtractor.Convert | src/extractors/YouTubeExtractor.js:69-91 | Fixed defaults apply. The thumbnail falls back to `image`, then to null. The duration comes from `FormatDuration` and the views from `ParseViews`. The source is "youtube" and live is false. |
| YouTubeExtractor.Handle | src/extractors/YouTubeExtractor.js:15-41 | A URL gives at most one track, preferring `data.result` over `data`. A search gives the first ten videos, in provider order. A failure gives `[]`. |
| YouTubeExtractor.StreamSteps | src/extractors/YouTubeExtractor.js:43-62 | The four candidates, in source order: `raw.mp3`, `raw.mp4`, then the refetched `mp3` and `mp4`. |
| YouTubeExtractor.Stream | src/extractors/YouTubeExtractor.js:43-67 | The result is the chain's outcome over the four candidates. It returns the list of strategies reached. |
| YouTubeExtractor.NoRefetchWithoutYouTubeUrl | src/extractors/YouTubeExtractor.js:52-62 | Without a YouTube `info.url`, only the raw candidates are tried, and otherwise it throws. |
| YouTubeExtractor.StreamComesFromCandidates | src/extractors/YouTubeExtractor.js:43-67 | A returned stream is one of `raw.mp3` or `raw.mp4`, or the refetched `mp3` or `mp4` of a YouTube `info.url`. |
| GoogleVideoExtractor.IsYouTubeUrl | src/extractors/GoogleVideoExtractor.ts:171-174 | The anchored alternatives or an unanchored `youtu.be/` anywhere; ShortLinkAnywhere and CoversYouTubeExtractor characterise it. |
| GoogleVideoExtractor.Validate | src/extractors/GoogleVideoExtractor.ts:39-63 | Empty text is refused, YouTube URLs accepted, other `http(s)://` URLs refused and other text accepted; SearchTextAccepted and UrlAcceptedIff characterise it. |
| GoogleVideoExtractor.SearchTextAccepted | src/extractors/GoogleVideoExtractor.ts:39-63 | Non-empty text without an `http(s)://` scheme is accepted as a search. |
| GoogleVideoExtractor.UrlAcceptedIff | src/extractors/GoogleVideoExtractor.ts:39-63 | A string with a scheme is accepted exactly when it is a YouTube URL. |
| GoogleVideoExtractor.ShortLinkAnywhere | src/extractors/GoogleVideoExtractor.ts:171-174 | The unanchored `youtu.be` alternative matches wherever it occurs in the text. |
| GoogleVideoExtractor.ShortsAndMobileAccepted | src/extractors/GoogleVideoExtractor.ts:171-174 | Shorts and the `m.` and `music.` hosts are accepted. |
| GoogleVideoExtractor.CoversYouTubeExtractor | src/extractors/GoogleVideoExtractor.ts:171-174 | Every URL the btch-downloader extractor accepts is accepted here as well, apart from `www.youtu.be`. |
| GoogleVideoExtractor.FormatDuration | src/extractors/GoogleVideoExtractor.ts:176-206 | A falsy value gives "0:00". A number counts milliseconds. A string with a colon passes through. A numeric string counts seconds. An object gives its truthy `seconds`, otherwise "0:00". |
| GoogleVideoExtractor.SecondsAgreeWithMillis | src/extractors/GoogleVideoExtractor.ts:179-203 | For every integer n, including 0, n seconds, whether as a string or as `.seconds`, format the same as n·1000 milliseconds. |
| GoogleVideoExtractor.FormatDurationHasColon | src/extractors/GoogleVideoExtractor.ts:176-206 | Every formatted duration contains a colon. |
| GoogleVideoExtractor.FormatDurationIdempotent | src/extractors/GoogleVideoExtractor.ts:187-190 | Formatting a formatted duration again leaves it unchanged. |
| GoogleVideoExtractor.FirstThumbnailUrl | src/extractors/GoogleVideoExtractor.ts:154 | Reads `thumbnails?.[0]?.url`. |
| GoogleVideoExtractor.Convert | src/extractors/GoogleVideoExtractor.ts:147-169 | The author falls back to the channel name, then to "Unknown Artist". The thumbnail falls back to the first thumbnail's url, then to null. The duration falls back to `durationMS`. Views default to 0 and live to false. The source is "youtube-sabr". |
| GoogleVideoExtractor.Extractor.Activate | src/extractors/GoogleVideoExtractor.ts:9-23 | The delegate is stored, and its activation outcome is returned or rethrown. |
| GoogleVideoExtractor.Extractor.Handle | src/extractors/GoogleVideoExtractor.ts:65-98 | The answer is empty without a delegate, on its error and when it finds nothing. Otherwise it gives the converted tracks with the delegate's playlist. |
| GoogleVideoExtractor.Extractor.Stream | src/extractors/GoogleVideoExtractor.ts:100-119 | Throws "SABR extractor not initialized" without a delegate. Otherwise it returns the delegate's stream or its rethrown error. |
| GoogleVideoExtractor.Extractor.GetRelatedTracks | src/extractors/GoogleVideoExtractor.ts:121-145 | The answer is empty without a delegate, without the delegate's method and on its error. Otherwise it gives the converted tracks and never a playlist. |
| SpotifyBridgeExtractor.IsSpotifyUrl | src/extractors/SpotifyBridgeExtractor.ts:163-166 | The two anchored Spotify patterns, matched part by part; IsSpotifyUrlIff characterises it. |
| SpotifyBridgeExtractor.Validate | src/extractors/SpotifyBridgeExtractor.ts:19-23 | `validate` is `isSpotifyURL`. |
| SpotifyBridgeExtractor.IsSpotifyUrlIff | src/extractors/SpotifyBridgeExtractor.ts:163-166 | A prefix match of `http(s)://(open.)?spotify.com/(track\|album\|playlist)/` or of `spotify:(track\|album\|playlist):`, followed by a word character. `validate` is this predicate (lines 19-23; the JS twin is at lines 21-25 and 161-164). |
| SpotifyBridgeExtractor.TrackUriAccepted | src/extractors/SpotifyBridgeExtractor.ts:163-166 | A `spotify:track:` URI with a word-character id is accepted. |
| SpotifyBridgeExtractor.NonWordIdRejected | src/extractors/SpotifyBridgeExtractor.ts:163-166 | An id starting with a character other than a word character is refused. |
| SpotifyBridgeExtractor.Convert | src/extractors/SpotifyBridgeExtractor.ts:139-161 | The Spotify title, artist and thumbnail take precedence over the SoundCloud fields and their defaults. The source is "spotify-soundcloud" and live is false (the JS twin is at lines 137-159). |
| SpotifyBridgeExtractor.ConvertWithoutMetadata | src/extractors/SpotifyBridgeExtractor.ts:139-161 | Without Spotify metadata the record is the SoundCloud extractor's record, apart from its source. |
| SpotifyBridgeExtractor.SearchQuery | src/extractors/SpotifyBridgeExtractor.ts:43 | The search text lies inside "{title} {artist \|\| ''}" with only trimmable characters around it, and neither starts nor ends with one. |
| SpotifyBridgeExtractor.SearchQueryOfTitleAndArtist | src/extractors/SpotifyBridgeExtractor.ts:43 | With both parts given, the query is "title artist". |
| SpotifyBridgeExtractor.SearchQueryWithoutArtist | src/extractors/SpotifyBridgeExtractor.ts:43 | A missing artist leaves no trailing blank. |
| SpotifyBridgeExtractor.StreamSteps | src/extractors/SpotifyBridgeExtractor.ts:88-127 | No step at all without a permalink. Otherwise the SoundCloud extractor's three strategies, in the same order. |
| SpotifyBridgeExtractor.NoPermalinkThrows | src/extractors/SpotifyBridgeExtractor.ts:90-130 | Without `raw.permalink_url`, nothing is tried and `stream` throws at once. |
| SpotifyBridgeExtractor.StreamLikeSoundCloud | src/extractors/SpotifyBridgeExtractor.ts:90-127 | With a permalink, the chain has the same outcome as the SoundCloud extractor's chain. |
| SpotifyBridgeExtractor.Extractor.Activate | src/extractors/SpotifyBridgeExtractor.js:11-19 | Stores the SoundCloud client and answers true, as the JavaScript twin does (src/extractors/SpotifyBridgeExtractor.ts:10-17 stores it and returns nothing). |
| SpotifyBridgeExtractor.Extractor.Handle | src/extractors/SpotifyBridgeExtractor.ts:25-83 | At most one track, and it never throws. The answer is `[]` for non-Spotify input, for a missing status or result, for an empty search and for a failed search. Otherwise it is the first hit of a limit-5 search for the query, converted with the metadata (the JS twin is at lines 27-83). |
| SpotifyBridgeExtractor.Extractor.Stream | src/extractors/SpotifyBridgeExtractor.ts:85-137 | The result is the chain's outcome over `StreamSteps`, with the strategies reached (the JS twin is at lines 85-135). |
| TikTokBridge.ValidateConfiguration | src/utils/TikTokBridge.ts:83-106 | A configuration is valid exactly with a truthy username, guild id and channel id; ShippedConfigNeverStarts applies it. |
| TikTokBridge.IsValidCommand | src/utils/TikTokBridge.ts:243-245 | A message is a command when it starts with the prefix; IsValidCommandVariants compares the two versions. |
| TikTokBridge.ParseCommand | src/utils/TikTokBridge.ts:250-254 | The text after the prefix, trimmed and split on runs of spaces; the first piece lowercased is the name. ParseCommandOfWords and ParseBarePrefix characterise it. |
| TikTokBridge.IsPrivilegedUser | src/utils/TikTokBridge.ts:276-291 | The host (the configured username) or a moderator. |
| TikTokBridge.HasCommandPermission | src/utils/TikTokBridge.ts:259-271 | Allow-listed commands for everyone, any other only for a privileged user; PermissionOutsideAllowList and SkipNeedsPrivilege characterise it. |
| TikTokBridge.ShippedConfigNeverStarts | src/config.js:26-31 | The shipped configuration is disabled and fails `validateConfiguration` (no username). |
| TikTokBridge.IsValidCommandVariants | src/utils/TikTokBridge.js:188-190 | `isValidCommand` of the two versions (TikTokBridge.ts:243-245 is the other) differs only on an empty message under an empty prefix, which only the JS version refuses. |
| TikTokBridge.SplitSpaces | src/utils/TikTokBridge.ts:251 | `split(/ +/)` cuts at every run of spaces, and always gives at least one piece (the JS twin is at TikTokBridge.js:196). |
| TikTokBridge.SplitSpacesHasNoSpaces | src/utils/TikTokBridge.ts:251 | No piece of a split contains a space. |
| TikTokBridge.JoinSpacesEnds | src/utils/TikTokBridge.ts:250-254 | Words joined by single spaces start and end with a character that is not trimmed. |
| TikTokBridge.SplitJoin | src/utils/TikTokBridge.ts:250-254 | Splitting words joined by single spaces gives back the words. |
| TikTokBridge.ParseCommandOfWords | src/utils/TikTokBridge.ts:250-254 | The prefix followed by words parses to the lowercased first word, with the remaining words as the arguments, in order and with their case (the JS twin is at lines 195-199). |
| TikTokBridge.ParseBarePrefix | src/utils/TikTokBridge.ts:250-254 | A bare prefix parses to the empty name with no arguments. |
| TikTokBridge.PermissionOutsideAllowList | src/utils/TikTokBridge.ts:259-291 | A command outside play/help/nowplaying/queue is permitted exactly for the host and for moderators (the JS twin is at lines 204-230). |
| TikTokBridge.SkipNeedsPrivilege | src/utils/TikTokBridge.ts:259-291 | An ordinary viewer may not skip, while a moderator and the host may. |
| TikTokBridge.FindCommand | src/utils/TikTokBridge.ts:296-299 | `find` stops at the first match; no earlier command matches. |
| TikTokBridge.GetDiscordCommand | src/utils/TikTokBridge.ts:296-299 | An exact name wins. Only when no command has the name is an alias used, and then the first command in registration order that lists it. A found command is registered and carries the name or the alias. |
| TikTokBridge.ChatVerdict | src/utils/TikTokBridge.ts:180-222 | Not a command exactly without the prefix; not found exactly when prefixed and no command has the name or alias; denied exactly when found but not permitted; executed exactly when prefixed, found and permitted, with the found command and the parsed arguments. |
| TikTokBridge.DenialLog | src/utils/TikTokBridge.ts:207-211 | A refused command is logged as a warning that names the user and the command. |
| TikTokBridge.DenialLogAsWrittenDiffers | src/utils/TikTokBridge.js:156-160 | In the JS version the warning is lost: `this.log` throws, and the catch logs an error instead. |
| TikTokBridge.CreateTikTokUser | src/utils/TikTokBridge.ts:370-378 | The id is "tiktok_<name>" and the tag "<name>#TikTok"; it is never a bot. |
| TikTokBridge.TikTokUserIdsInjective | src/utils/TikTokBridge.ts:370-378 | Distinct TikTok users get distinct ids and tags. |
| TikTokBridge.ReplyLine | src/utils/TikTokBridge.ts:401-420 | Every reply is logged as "To <user>: …": text as it is, an embed as its `EmbedLine`, anything else as "[Complex response]". |
| TikTokBridge.EmbedLine | src/utils/TikTokBridge.ts:406-410 | The title (or the author's name, or "Response"), " - ", then the description (or "No description"). A truthy title, or without one a truthy author name, starts the line. |
| TikTokBridge.ReplyLineAuthorFallback | src/utils/TikTokBridge.ts:406-410 | Without a title, the author's name and the given description are logged. |
| TikTokBridge.ReplyLineFallbacks | src/utils/TikTokBridge.ts:408-411 | An empty embed is logged as "Response - No description". |
| TikTokBridge.NextAttempts | src/utils/TikTokBridge.ts:425-440 | A failure raises the counter by one only while it is below the maximum, so it never exceeds the maximum. |
| TikTokBridge.AttemptsBounded | src/utils/TikTokBridge.ts:425-440 | However many failures come in a row, the counter stays within the maximum and settles at it (the JS twin is at lines 348-359). |
| TikTokBridge.Bridge.constructor | src/utils/TikTokBridge.ts:22-48 | Not connected, no connection, and every counter at zero. |
| TikTokBridge.Bridge.HandleConnectionFailure | src/utils/TikTokBridge.ts:425-440 | The counter is raised, and a retry scheduled, only while the counter is below the maximum. Nothing else changes, and the invariant is kept. |
| TikTokBridge.Bridge.Start | src/utils/TikTokBridge.ts:53-78 | When disabled or misconfigured it answers false, creates no connection and changes nothing. Otherwise it creates a connection (with the sign API key in TS, as at lines 111-130) and answers whether the connect succeeded, going through the failure handler when it did not. |
| TikTokBridge.Bridge.HandleConnected | src/utils/TikTokBridge.ts:150-156 | Connected, with the counter reset to 0 and the connect time recorded (the JS twin is at lines 107-115). |
| TikTokBridge.Bridge.HandleDisconnected | src/utils/TikTokBridge.ts:161-166 | Clears the connected flag and the connect time. |
| TikTokBridge.Bridge.HandleError | src/utils/TikTokBridge.ts:171-175 | Clears only the connected flag. |
| TikTokBridge.Bridge.HandleChatMessage | src/utils/TikTokBridge.ts:180-222 | Every message is counted and stamped. The command counter goes up exactly when a command is executed, so `commandsProcessed <= messagesReceived` is kept (the JS twin is at lines 134-167). |
| TikTokBridge.Bridge.GetStats | src/utils/TikTokBridge.ts:445-452 | The counters, the flag and the username. The uptime is 0 without a connect time, and now minus that time otherwise. |
| TikTokBridge.Bridge.Disconnect | src/utils/TikTokBridge.ts:457-469 | With a connection, it drops the connection, clears the flag and resets the connect time; without one, nothing changes (the JS twin is at lines 376-384). |
| TikTokBridge.DeniedNeverExecutes | src/utils/TikTokBridge.js:156-160 | A command that is refused permission is never executed. |
| TikTokBridge.AllowedCommandExecutes | src/utils/TikTokBridge.ts:259-266 | An allow-listed command that exists is executed, whoever sends it. |
| TikTokBridge.PrivilegedCommandExecutes | src/utils/TikTokBridge.ts:200-216 | Any found command sent by the host or a moderator is executed, with the parsed arguments. |
| TikTokStats.UnitsFromMillis | src/commands/tiktok-stats.ts:145-148 | Seconds, minutes, hours and days derived one from another equal the direct floors of the milliseconds. |
| TikTokStats.FormatUptime | src/commands/tiktok-stats.ts:142-154 | Gives "Not connected" for ≤ 0. Otherwise it uses the largest non-zero unit and the units below it ("Dd Hh Mm", "Hh Mm", "Mm Ss", "Ss"), with the lower fields taken mod 24 or 60 (the JS twin is at lines 189-201). |
| TikTokStats.FormatUptimeExamples | src/commands/tiktok-stats.ts:145-153 | 59999 gives "59s", 60000 gives "1m 0s" and 90061000 gives "1d 1h 1m". |
| TikTokStats.FormatUptimeDropsSeconds | src/commands/tiktok-stats.ts:149-150 | Past an hour, uptimes within the same minute render alike. |
| TikTokStats.FormatRelativeTime | src/commands/tiktok-stats.ts:156-169 | Gives "Just now" under a minute, then "Nm ago", "Nh ago" or "Nd ago" (the JS twin is at lines 203-216). |
| TikTokStats.RelativeTimeJustNow | src/commands/tiktok-stats.ts:156-169 | "Just now" is given exactly under a minute, and no relative time reads as "No activity". |
| TikTokStats.Subcommand | src/commands/tiktok-stats.ts:178 | `args[0]?.toLowerCase()` is present exactly when there is an argument. |
| TikTokStats.Dispatch | src/commands/tiktok-stats.ts:176-229 | Without a bridge: the "not available" reply. "stats" and "status" both show the statistics. "disconnect" and "reconnect" manage the bridge. A missing or unknown subcommand is refused in TS and shows the status in JS (tiktok-stats.js:7-38). |
| TikTokStats.DispatchVariantsAgree | src/commands/tiktok-stats.js:7-38 | With a bridge, the versions differ exactly on a missing or unknown subcommand. |
| TikTokStats.TsNeverShowsStatus | src/commands/tiktok-stats.ts:190-229 | The TS version never reaches its status overview. |
| TikTokStats.DispatchIgnoresCase | src/commands/tiktok-stats.ts:178 | The subcommand is case-insensitive. |
| TikTokStats.DispatchJsAsWritten | src/commands/tiktok-stats.js:7-38 | In the JS version, every subcommand fails once a bridge exists. |
| TikTokStats.DispatchJsAsWrittenFails | src/commands/tiktok-stats.js:23 | "stats" fails with "this.showStats is not a function", where `Dispatch` shows the statistics. |
| TikTokStats.ShowStatsView | src/commands/tiktok-stats.ts:37-83 | The view shows the uptime as `FormatUptime`. "No activity" appears exactly without a last activity. The target is "@" + (the username, or "Not configured"). The connected-since field is present exactly with a connect time. The status line follows the connected flag, the counters are their decimal texts, a last activity shows as `FormatRelativeTime` of it, and guild and channel fall back to "Not set". |
| TikTokStats.StatusTarget | src/commands/tiktok-stats.ts:6-35 | Gives "@name", or "Not configured" without the "@". |
| TikTokStats.UnconfiguredTargetViews | src/commands/tiktok-stats.ts:6-83 | Without a username, the two views disagree: "@Not configured" against "Not configured". |
| TikTokStats.FreshBridgeView | src/commands/tiktok-stats.ts:37-83 | A bridge that never connected shows "Not connected", no activity and zero counters. |
| TikTokStats.DisconnectGuard | src/commands/tiktok-stats.ts:85-107 | `disconnect()` is called only on a connected bridge. Otherwise the reply is "not connected" and nothing changes (the JS twin is at lines 127-151). |
| TikTokStats.ReconnectGuard | src/commands/tiktok-stats.ts:109-140 | `start()` is called only on a bridge that is not connected, and the reply reports its result. The connection and the reconnect counter are those `start()` leaves; a connected bridge is not touched (the JS twin is at lines 153-187). |
| QueueCommand.SumSecondsAppend | src/commands/queue.ts:14-18 | The sum of whole seconds splits over concatenation. |
| QueueCommand.SumSecondsNonNegative | src/commands/queue.ts:14-18 | Non-negative durations add up to a non-negative total. |
| QueueCommand.TotalSeconds | src/commands/queue.ts:8-18 | The accumulator loop gives the current track's ⌊durationMS/1000⌋ plus each queued track's. A missing or zero duration adds 0 (the JS twin is at lines 5-15). |
| QueueCommand.EstimatedMinutes | src/commands/queue.ts:23 | The estimate is ⌊songs·3.5⌋. |
| QueueCommand.TotalDurationText | src/commands/queue.ts:20-34 | A total of 0 gives "~⌊(n+1)·3.5⌋m". Otherwise "Hh Mm" once there are hours, and "Mm" before that (the JS twin is at lines 17-31). |
| QueueCommand.TotalDurationReadsBack | src/commands/queue.ts:27-34 | The hours and minutes shown account for the total, up to the dropped seconds. |
| QueueCommand.EstimateExamples | src/commands/queue.ts:20-25 | With no durations, one song is estimated at "~3m" and two at "~7m". |
| QueueCommand.CalculateTotalDuration | src/commands/queue.ts:6-38 | The text is `TotalDurationText` of the summed seconds and the queue length. |
| QueueCommand.EntriesIndexed | src/commands/queue.ts:93-95 | Entry i is track i, numbered from 1. |
| QueueCommand.UpNextText | src/commands/queue.ts:91-99 | The entries of the first ten tracks, then the "more songs" line; UpNextShape characterises it. |
| QueueCommand.UpNextShape | src/commands/queue.ts:91-99 | The list holds at most the first ten tracks, numbered from 1. "... and K more songs" is appended exactly when there are more than ten, with K = n − 10 (the JS twin is at lines 73-88). |
| QueueCommand.BuildUpNext | src/commands/queue.ts:92-99 | The `queueList +=` loop builds exactly `UpNextText`. |
| QueueCommand.FooterCountsCurrent | src/commands/queue.ts:89 | The footer counts n + 1 songs (the JS twin is at line 63). |
| QueueCommand.Execute | src/commands/queue.ts:43-109 | The guards come in order: not in a server, empty queue, no current track. Then the view follows. The "Up Next" field is present exactly when tracks are queued. |
| QueueCommand.VariantsAgreeOnView | src/commands/queue.js:40-88 | The versions agree whenever TS shows the queue or reports it empty. |
| Helpers.FormatTime | src/utils/helpers.ts:5-9 | Whole minutes, a colon, then the floored seconds left over, padded below 10; FormatTimeReadsBack characterises it. |
| Helpers.FormatTimeJs | src/utils/helpers.js:5-9 | As FormatTime, but the seconds left over are rounded with `toFixed(0)`; FormatTimeVariantsAgree and FormatTimeJsShowsSixty relate the two. |
| Helpers.FormatTimeReadsBack | src/utils/helpers.ts:5-9 | The text is the minutes, then exactly two digits of seconds in 00..59. Together they give the duration to the second, rounded down. |
| Helpers.FormatTimeNeverSixtySeconds | src/utils/helpers.ts:5-9 | The TS seconds field never shows 60. |
| Helpers.ToFixedMillis | src/utils/helpers.js:7 | `toFixed(0)` of r/1000 rounds to the nearest integer, halves away from zero, keeping the sign. |
| Helpers.FormatTimeVariantsAgree | src/utils/helpers.js:5-9 | The two versions agree while the remainder is whole seconds. |
| Helpers.FormatTimeJsShowsSixty | src/utils/helpers.js:5-9 | With 59500, the JS version gives "0:60" where the TS version gives "0:59". |
| Helpers.RepeatChar | src/utils/helpers.ts:14-15 | `repeat` gives n copies of the character. |
| Helpers.CreateProgressBar | src/utils/helpers.ts:11-16 | The bar renders exactly when the rounded count p lies in 0..length. It is then "[", p "=", length − p "-" and "]", character by character. Otherwise a `RangeError` is thrown. With a zero total it renders "[]" exactly when current or length is 0. |
| Helpers.ProgressInRange | src/utils/helpers.ts:13 | For 0 ≤ current ≤ total, the rounded count lies in 0..length. |
| Helpers.ProgressBarShape | src/utils/helpers.ts:11-16 | Within range, the bar renders with length + 2 characters. It has no "=" at the start and no "-" at the end (the JS twin is at lines 11-16). |
| Helpers.DefaultBarEnds | src/utils/helpers.ts:11 | The default bar is twenty "-" at the start and twenty "=" at the end. |
| Logging.IndexOf | src/utils/logging.ts:27-30 | `indexOf` is present exactly for one of the seven levels, and names it. |
| Logging.ShouldLog | src/utils/logging.ts:26-35 | Everything passes when either level is unknown; otherwise the level passes when its index is at least the minimum's. ShouldLogOrder and ShouldLogFallback characterise it. |
| Logging.ShouldLogFallback | src/utils/logging.ts:26-32 | An unset or unknown `LOG_LEVEL`, and an unknown level, pass (the JS twin is at lines 24-33). |
| Logging.ShouldLogOrder | src/utils/logging.ts:26-35 | Between known levels, a line passes exactly when its level is at or after the minimum in debug < info < success < warn < error < command < reply. |
| Logging.ShouldLogExtremes | src/utils/logging.ts:26-35 | A minimum of "debug" lets everything through, and "reply" always passes. |
| Logging.ShouldLogMonotone | src/utils/logging.ts:26-35 | A level at least as severe as one that passes also passes. |
| Logging.EffectiveLevel | src/utils/logging.js:54 | TS defaults only a missing level to "debug"; JS defaults any falsy level. |
| Logging.StreamOf | src/utils/logging.ts:64-94 | The line goes to stderr exactly for warn and error. |
| Logging.Log | src/utils/logging.ts:54-95 | Nothing is logged when the filter refuses the level. Otherwise the line goes on the level's stream (the JS twin is at lines 53-96). |
| Logging.LogLineLayout | src/utils/logging.ts:58-61 | A line is "[ts] [LEVEL]", then " prefix:" exactly when a prefix is given, then " " and the message. |
| Logging.VariantsDifferOnlyOnEmptyLevel | src/utils/logging.js:54 | The two versions log differently exactly for the empty level. |
| OverlayServer.RequesterName | src/web/server.js:148 | The requester's username, or "Unknown". |
| OverlayServer.SliceEnd | src/web/server.js:160 | `slice(0, end)` stops at min(end, n) for a non-negative end. |
| OverlayServer.Entries | src/web/server.js:155-159 | Each track is reduced to its title, author and requester, in order. |
| OverlayServer.Snapshot | src/web/server.js:140-164 | `isPlaying` holds exactly when a track is given, and `current` is null exactly when none is. The queue is the first `maxQueueDisplay` tracks in order, and `[]` without a queue or tracks. `requestedBy` is defaulted. The twin is at web-overlay/server.js:104-124. |
| OverlayServer.ShippedQueueLimit | src/config.js:37 | With the shipped limit of 3, at most three entries show, and a shorter queue shows whole. |
| OverlayServer.SnapshotAsWritten | src/web/server.js:151-161 | As written, the update throws exactly on a queue whose tracks are a plain array. |
| OverlayServer.TestUpdateAsWrittenFails | src/web/server.js:62-98 | The test endpoint's update never applies as written. The intended snapshot shows the mock track playing, with the mock queue. |
| OverlayServer.Preset | src/web/server.js:51 | `preset \|\| 1`. |
| OverlayServer.Server.constructor | src/web/server.js:16-21 | The initial status: no current track, no queue, not playing (the twin is at web-overlay/server.js:10-15). |
| OverlayServer.Server.UpdateStatus | src/web/server.js:135-168 | Schedules a timer holding the track and queue objects it was handed, and leaves the status as it is for now. |
| OverlayServer.Server.FireTimer | src/web/server.js:139-167 | The oldest scheduled timer fires and reads its objects as they are now (`live`, still present or absent as handed): their snapshot, taken as written, replaces the whole status, and when taking it throws (a plain-array queue) the status stays as it was. |
| OverlayServer.Server.GetStatus | src/web/server.js:204-207 | Returns the current status. |
| OverlayServer.Server.NowPlayingResponse | src/web/server.js:50-58 | The status, the polling interval and the preset, with 1 when the preset is falsy (the twin is at web-overlay/server.js:42-48). |
| OverlayServer.Server.TestUpdate | src/web/server.js:62-98 | Schedules the mock update and answers success. |
| OverlayServer.Server.Start | src/web/server.js:170-191 | Refuses when disabled. Otherwise the server listens, unless `listen` throws, which is caught and answered with false. |
| OverlayServer.Server.Stop | src/web/server.js:193-202 | The server no longer listens. |
| OverlayServer.UpdateThenFire | src/web/server.js:135-168 | An update followed by its timer leaves the snapshot of what the handed objects hold when the timer fires, playing exactly when a track was handed, unless the queue's tracks are a plain array, which leaves the old status. Only when the objects did not change in the 100 ms is it the snapshot of the values handed. |
| OverlayServer.TestUpdateThenFire | src/web/server.js:62-98 | `/api/test-update` answers success, but once its timer fires the status is what it was before. |

## Left out

- Provider SDKs, Discord, Express and the TikTok connector are not modelled; their calls are oracle results (`Ok` or `Err`). Network failures, retries inside the libraries and their data formats beyond the fields read are not modelled.
- Query routing between extractors and the registration order live in discord-player and `src/index.ts`. They are not part of this model.
- `deactivate` of the SABR wrapper, and every `Logger.debug` call inside the extractors, are not modelled. These are logging and delegate cleanup only, with no effect on results.
- YouTube's `activate` only answers true and sets nothing, so it has no member.
- The `metadata` sub-objects of the track records (genre, tags, likes and so on) are not modelled; the model keeps the fields the player reads.
- Timers are not modelled.
  - The reconnect `setTimeout` is the `retryScheduled` result of `Bridge.HandleConnectionFailure`; the re-run of `start` is a later, separate call.
  - The 100 ms overlay timer is `Server.FireTimer`; several timers firing in any other order than scheduling order are not modelled.
- `Date.now()`, `new Date()` and `toLocaleString()` are not modelled. Instants are integer milliseconds passed in, and the locale text of "connected since" is only present or absent.
- `chalk` colours and `console` writes are not modelled beyond the chosen stream and colour. A `%` directive inside the prefix, which is part of the `util.format` template, is left to the runtime; the message itself is passed as an argument and is never read as a template.
- `toLowerCase`/`toUpperCase` are ASCII-only; Unicode case mapping is not modelled.
- `executeCommand` side effects are not modelled. The bot command itself, the embeds it builds, and the Discord message stand-in (`createDiscordMessage`, `getTargetGuild`, `getTargetVoiceChannel`, `createTikTokMember`) are left out. The model stops at which command runs with which arguments.
- Bridge event wiring (`setupEventHandlers`) is left out. The member-join and like handlers only log.
- Logger aliases (`success`, `info`, `warn`, `error`, `command`, `reply`, `debug`) are `Logging.Log` with a fixed level.
- Helpers.CreateProgressBar: `Math.round(current / total * length)` is modelled as exact rounding of the rational value. A float whose rounding error crosses a .5 boundary is not modelled, nor are `NaN`/`Infinity` beyond the zero-total case, nor non-integer inputs.
- Numbers are integers throughout; fractional milliseconds, `NaN` and non-number JavaScript values other than the cases each normaliser names are not modelled.
- QueueCommand.Execute: `queue.isEmpty()` is a parameter, and the embed's colours and timestamps are left out. The Discord reply is the model's `QueueReply`.
- TikTokBridge.ReplyLine: a `null` or `undefined` reply is not modelled. There `content.embeds` throws and the handler logs "Error in reply handler"; the `Other` case is any other non-string object without a first embed.
- The JavaScript `createDiscordMessage` without a reply handler is not modelled (only the TypeScript reply handler is, as `ReplyLine`).
- The TikTok connection options other than the sign API key are not modelled.
- GoogleVideoExtractor.FormatDuration: values that are neither numbers, strings nor objects with `seconds` are not modelled; negative millisecond counts follow Dafny's flooring, as `Math.floor` does.
- OverlayServer.Server.FireTimer: the values the timer reads are passed in as `live`; which other code holds the same track and queue objects (the player's `GuildQueue`) and how it changes them is not modelled, only that the callback's bindings stay present or absent.
- OverlayServer.Server.FireTimer: the `TypeError` thrown inside the timer callback is modelled as the status left unchanged; the uncaught exception, and the process exit it most likely causes, are not modelled.
- YouTubeExtractor.AuthorOf: an object `author` is copied into the track as the object itself; the model's track holds text, so that case is the text "[object Object]".
- Static file serving, CORS, the HTML fallback page and the overlay browser script are HTTP and UI plumbing and are left out.

## Findings

| source | as written | input that shows it | evidently intended | confidence | as-written member | corrected member |
|---|---|---|---|---|---|---|
| src/utils/helpers.js:7 | seconds rounded with `toFixed(0)`, so the seconds field can reach 60 | `formatTime(59500)` gives "0:60" | seconds floored, always 00..59 ("0:59"), as in helpers.ts | not executed | Helpers.FormatTimeJsShowsSixty | Helpers.FormatTimeReadsBack |
| src/utils/TikTokBridge.js:157 | a denied command calls `this.log`, which does not exist; the catch logs "Error handling chat message" instead | a viewer sending `!skip` | a warning naming the user and the command, as in TikTokBridge.ts | not executed | TikTokBridge.DenialLogAsWrittenDiffers | TikTokBridge.DenialLog |
| src/commands/tiktok-stats.js:23 | `execute` is an arrow function, so `this.showStats` and its siblings are not functions | `!tiktok stats` with a bridge present | dispatch to the module's own handlers, as in tiktok-stats.ts | not executed | TikTokStats.DispatchJsAsWrittenFails | TikTokStats.Dispatch |
| src/web/server.js:153-154 | `queue.tracks.toArray()` is called on the plain array that `/api/test-update` passes, so the timer callback throws. The status is never replaced, and with no `uncaughtException` handler the Node process most likely exits (also web-overlay/server.js) | `POST /api/test-update` | the mock status shown, playing, with its queue | not executed | OverlayServer.TestUpdateAsWrittenFails | OverlayServer.Snapshot |
