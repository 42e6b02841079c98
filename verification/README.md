# noobtube music bot: the per-guild queue, in Dafny

noobtube is a Discord bot that plays YouTube audio in voice channels. All of its logic
lives in `bot.js`. For each guild (a Discord server) it keeps one record in a `queues` map. The record holds
the waiting `songs`, the voice `connection`, the `currentSong` and an `isPlaying` flag.
Slash commands (`play`, `pause`, `resume`, `skip`, `queue`, `nowplaying`, `stop`, `leave`)
change or read that record. The audio player's Idle and error events advance the queue
through `playNext`. A dropped voice connection that does not recover wipes the queue.

The model has six modules:

- `Options`: the optional value used for JavaScript's `null`/`undefined` fields.
- `Decimal`: how JavaScript prints a whole number below 1e21. `Show` prints it, `Value` reads it back,
  and the two are proved inverse on canonical digit strings.
- `Duration`: `formatDuration` as `FormatDuration` over natural-number seconds. `PadStart` is
  JavaScript's `padStart`. The lemmas prove that `FormatDuration` is a bijection onto the
  well-formed `m:ss` texts.
- `YouTubeUrl`: `isValidYouTubeUrl`. `MatchesPattern` states what the regular expression
  accepts, as a choice among its alternatives. `IsValidYouTubeUrl` decides it by stripping
  the optional parts greedily. `ValidIffMatches` proves the two agree.
- `GuildQueues`: the record as the class `GuildQueue`, with one method per transition.
  `playNext` recursively retries after a stream failure; here it is a loop. Each method's
  `ensures` ties the new state to the old one. The pure function `Advance` specifies
  `playNext`, and its lemmas (`AdvanceOutcome`, `AdvanceToFirstWorking`) say which song
  ends up playing.
- `MusicBot`: the `queues` map as the class `Bot`, with `getQueue` and the command handler.

Everything the bot learns from outside is a parameter, so each transition is proved for
every outcome. These are:

- whether yt-dlp's metadata fetch succeeded, and what it returned;
- whether a new voice connection became ready within 30 seconds;
- whether the k-th stream start inside one `playNext` call succeeded (`streamOk(k)`);
- the audio player's status;
- whether a dropped connection started reconnecting within 5 seconds;
- whether the "Added to Queue" reply could be sent.

Two invariants are proved:

- `GuildQueue.Valid`: a playing guild has a current song. Every transition keeps it.
- `GuildQueue.Settled`: an idle guild has neither a current song nor waiting songs. Every
  transition keeps it except one. If the "Added to Queue" reply throws
  (bot.js:394-411), the song stays queued but playback is not started. An idle guild can
  then hold a waiting song until the next `play`.

Some behaviour one might expect of a music bot is absent from `bot.js`, and so from the model:

- `bot.js` has no inactivity timer: the bot stays in a channel until `leave` or a lost connection.
- `bot.js` has no playlist expansion: `play` adds exactly one song.
- `bot.js` keeps no playback timestamp or elapsed time.
- An existing connection is reused whenever it is non-null (bot.js:343). The code does not check
  its status or its channel.
- A failed join replies "Failed to join voice channel" and changes nothing.

## Model

| member | source | states |
|---|---|---|
| Decimal.Show | bot.js:268 | the text of a number is a non-empty digit string with no leading zero (except "0"), one digit exactly for numbers below 10 |
| Decimal.ValueOfShow | bot.js:268 | reading the printed minutes or seconds back gives the number printed |
| Decimal.ShowOfValue | bot.js:268 | every canonical digit string is the printed text of its value, so printing is onto |
| Duration.PadStart | bot.js:268 | `padStart(width, fill)`: the result has length max(\|s\|, width), ends with `s`, and has only `fill` before it |
| Duration.FormatDuration | bot.js:265-269 | the result is `mins ":" ss` with canonical minutes and exactly two digits of seconds; secs < 60 and mins*60 + secs == the input |
| Duration.FormatSeconds | bot.js:265-269 | every well-formed `m:ss` text is what `FormatDuration` prints for its own number of seconds (round trip) |
| Duration.FormatDurationInjective | bot.js:265-269 | different numbers of seconds never print the same text |
| Duration.TwoMinutesFive | bot.js:265-269 | 125 seconds print as "2:05" |
| Duration.ZeroSeconds | bot.js:338 | a missing or zero duration prints as "0:00" |
| Duration.OneHour | bot.js:265-269 | minutes are not folded into hours: 3600 seconds print as "60:00" |
| YouTubeUrl.ValidIffMatches | bot.js:260-262 | the validator accepts a text iff some optional `http://`/`https://`, optional `www.` and one of `youtube.com/watch?v=`, `youtube.com/shorts/`, `youtu.be/`, concatenated, is a prefix of it |
| YouTubeUrl.AcceptsExtensions | bot.js:261 | the expression has no end anchor: anything may follow an accepted text |
| YouTubeUrl.LeadingCharacter | bot.js:261 | an accepted text starts with a lower-case `h`, `w` or `y` (case-sensitive, anchored at the start) |
| YouTubeUrl.RefusesUpperCaseScheme | bot.js:261 | "HTTPS://youtu.be/x" is refused |
| YouTubeUrl.RefusesUnanchoredMatch | bot.js:261 | a valid link later in the text is refused even behind a stripped scheme ("https://example.com/?u=https://youtu.be/x") |
| YouTubeUrl.AcceptsShortLink | bot.js:261 | a scheme-less short link with a query is accepted |
| GuildQueues.MakeSong | bot.js:335-341 | the song keeps the URL, requester and thumbnail; an empty or missing title becomes "Unknown" and is never empty; the duration is a well-formed `m:ss` text worth the metadata's seconds, or 0 when missing |
| GuildQueues.AdvanceOutcome | bot.js:196-233 | `playNext` either plays the first song whose stream starts, having dropped exactly the failed songs before it and kept the rest in order, or fails every song, empties the queue and ends with no current song and not playing; it dequeues at most \|songs\| songs |
| GuildQueues.AdvanceToFirstWorking | bot.js:206-232 | when the n-th dequeued song is the first whose stream starts, `playNext` plays song n and leaves `songs[n+1..]` waiting |
| GuildQueues.UpNext | bot.js:440-442 | the queue listing has min(\|songs\|, 10) lines, line i reading "`i+1`. title of songs[i]" |
| GuildQueues.GuildQueue.constructor | bot.js:109-115 | a new record has no songs, no connection, no current song, is not playing and has no player handlers |
| GuildQueues.GuildQueue.PlayNext | bot.js:196-233 | the new songs, current song and playing flag are `Advance` of the old songs; the result is the new playing flag; connection untouched; `Valid` and `Settled` hold afterwards |
| GuildQueues.GuildQueue.SetupPlayerEvents | bot.js:236-257 | installs the player handlers (replacing any earlier ones) and changes nothing else |
| GuildQueues.GuildQueue.OnPlayerEvent | bot.js:240-256 | with handlers installed, Idle and error run `playNext`; Playing, Buffering, and any event before the handlers exist, change nothing |
| GuildQueues.GuildQueue.OnDisconnected | bot.js:376-391 | a recovered connection changes nothing; otherwise the connection is nulled and songs, current song and playing flag are cleared |
| GuildQueues.GuildQueue.Play | bot.js:310-414 | `PlayOutcome`: checks in order voice channel, URL, metadata, connection ready, each failure answering its error and changing nothing. On success the song is appended at the tail and the reply's position is the new queue length. An existing connection is kept; otherwise the new connection joins the caller's channel and handlers are installed. `playNext` runs only if the guild was idle. A failed reply keeps the song queued without playing it |
| GuildQueues.GuildQueue.Admit | bot.js:344-412 | after the request checks: without a connection and not ready, "Failed to join voice channel" and nothing changes; otherwise the connection is kept or joined and the song appended at the tail, with playback started only if the guild was idle and the reply went out |
| GuildQueues.GuildQueue.EnsureConnection | bot.js:344-392 | an existing connection is reused as it is; a new one is kept only if ready within the timeout, otherwise destroyed and nulled; the queue is untouched either way |
| GuildQueues.GuildQueue.Enqueue | bot.js:394-412 | the song is appended at the tail with position \|old songs\|+1; if the guild was playing, nothing else changes; if idle, the state is `Advance` of the longer queue; a failed reply skips `playNext` |
| GuildQueues.GuildQueue.Pause | bot.js:416-420 | succeeds exactly when `isPlaying`, otherwise "Nothing playing"; never changes the record |
| GuildQueues.GuildQueue.Resume | bot.js:422-427 | succeeds exactly when the player reports Paused, otherwise "Not paused"; never changes the record |
| GuildQueues.GuildQueue.Skip | bot.js:429-433 | succeeds exactly when there is a current song and names it, otherwise "Nothing to skip"; the record is unchanged until the player's Idle event |
| GuildQueues.GuildQueue.ShowQueue | bot.js:435-448 | "Queue empty" exactly when there is no current song and no waiting song; otherwise the current title and exactly the `UpNext` lines of the waiting songs |
| GuildQueues.GuildQueue.NowPlayingTitle | bot.js:450-458 | names the current song exactly when there is one, otherwise "Nothing playing" |
| GuildQueues.GuildQueue.Stop | bot.js:460-466 | clears songs, current song and playing flag; leaves the connection as it is |
| GuildQueues.GuildQueue.Leave | bot.js:468-476 | without a connection: "Not in a channel" and nothing changes; otherwise the connection is nulled and songs, current song and playing flag cleared |
| MusicBot.Key | bot.js:302-306 | `getQueue` is called with the guild's id, or with null exactly when the command came from a direct message |
| MusicBot.Bot.constructor | bot.js:98 | the bot starts with an empty map of guild records |
| MusicBot.Bot.GetQueue | bot.js:101-118 | an unknown key (a guild id, or null for a direct message) gets a fresh, empty record added under it. A known key gets its existing record back, and the map is unchanged |
| MusicBot.Bot.HandleInteraction | bot.js:299-307 | non-command interactions change nothing and get no reply; otherwise the record under the interaction's key exists afterwards and no other entry changes; a direct message answers "Error" for every command, as the outer catch at bot.js:478-483 does, and leaves any earlier record untouched; in a guild only an unknown command name goes unanswered |
| MusicBot.Bot.Dispatch | bot.js:309-477 | per command: `play` has `PlayOutcome`; `pause`, `resume`, `skip`, `queue` and `nowplaying` leave the record unchanged and answer exactly as their branches do; `stop` clears the queue and keeps the connection; `leave` refuses without a connection, otherwise clears the queue and drops it; an unknown name gets no reply and changes nothing |

## Left out

- The Express web server, `client.login`, slash-command registration, the embeds' layout
  and all console logging (bot.js:12-18, 272-296, 396-406, 478-484). These are I/O and presentation.
  The `queue` reply is modelled as its title and numbered lines, without the Markdown framing.
- `findYtDlp`, `getVideoInfo` and `createYtDlpStream` (bot.js:35-73, 121-193) spawn processes and
  parse their output. Only their outcome enters the model, as a parameter: the metadata or a
  failure, and whether a stream started.
- The audio player and the voice connection are external objects. The model keeps only:
  - the player status, read by `resume`;
  - whether `setupPlayerEvents` has installed handlers;
  - the connection handle itself.
  A reply such as "Paused" stands for the player call made just before it. Destroying a
  connection is modelled by nulling the field.
- Timing and concurrency: the 30-second ready wait and the 5-second reconnect race
  (bot.js:363, 379-382) are boolean parameters. Each command runs to completion in the model.
  Another event for the same guild arriving at one of the handler's `await`s is not
  modelled, for example two `play` commands that both find no connection.
- The outer `catch` (bot.js:478-483) is modelled for a command sent by direct message, where
  reading `member.voice` throws. Its other causes, failures of `deferReply` and of the short
  replies, change no state and are not modelled. The failure of the "Added to Queue" reply
  does change state, and it is modelled.
- `Duration.FormatDuration` takes only natural-number seconds. yt-dlp may report fractional
  or missing durations; `Math.floor` over JavaScript numbers is floating point.
- `MusicBot.Bot.HandleInteraction` does not restate what each command does in a guild. That is
  stated on `MusicBot.Bot.Dispatch`, which it calls.
- `Decimal.Show` is JavaScript's number printing only below 1e21, where JavaScript switches to
  exponent notation; JavaScript numbers are also exact only up to 2^53. Durations that large
  are not modelled.
- `GuildQueues.GuildQueue.OnDisconnected` may be called at any time. The source installs the
  Disconnected handler only on a connection that became ready; the model does not track that.
- `website/script.js` is not part of this model: it is a status page with no queue logic.
- The process-level `unhandledRejection` and `uncaughtException` handlers (bot.js:81-87).
