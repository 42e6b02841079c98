/**
  The per-guild queue record of bot.js and the transitions the bot applies to it:
  `playNext` (bot.js:196-233), the player handlers of `setupPlayerEvents`
  (bot.js:236-257), the branches of the command handler (bot.js:310-476) and the
  voice connection's Disconnected handler (bot.js:376-391).

  What the bot learns from outside (yt-dlp's metadata, whether a voice connection
  becomes ready in time, whether a stream starts, the audio player's status, whether
  a dropped connection recovers, whether a reply could be sent) is passed in as a
  parameter, so each transition is stated for every possible outcome.
*/
module GuildQueues {

  import opened Options
  import Decimal
  import Duration
  import YouTubeUrl

  type GuildId = string
  type ChannelId = string

  /** A queued song as the `play` branch builds it (bot.js:335-341); `duration` is already formatted. */
  datatype Song = Song(url: string, title: string, duration: string, thumbnail: Option<string>, requestedBy: string)

  /** The fields of yt-dlp's JSON output that the bot reads; any of them may be missing. */
  datatype VideoInfo = VideoInfo(title: Option<string>, duration: Option<nat>, thumbnail: Option<string>)

  /** A voice connection handle, joined to one channel of one guild. */
  datatype Connection = Connection(channelId: ChannelId, guildId: GuildId)

  /** The playback part of a record: the waiting songs, the current song and the playing flag. */
  datatype Playback = Playback(songs: seq<Song>, current: Option<Song>, playing: bool)

  /** What `stop`, `leave`, a failed reconnect and `playNext` on an empty queue leave behind. */
  const Cleared := Playback([], None, false)

  /** `AudioPlayerStatus` of @discordjs/voice. */
  datatype PlayerStatus = Idle | Buffering | Playing | Paused | AutoPaused

  /** The player events `setupPlayerEvents` listens to. */
  datatype PlayerEvent = BecameIdle | BecamePlaying | BecameBuffering | PlayerError(message: string)

  /** The bot's error replies. */
  datatype Failure =
    | NotInVoiceChannel   // "Join a voice channel first!"
    | InvalidUrl          // "Invalid YouTube URL"
    | AddFailed           // "Failed to add song"
    | JoinFailed          // "Failed to join voice channel"
    | NothingPlaying      // "Nothing playing"
    | NotPaused           // "Not paused"
    | NothingToSkip       // "Nothing to skip"
    | QueueIsEmpty        // "Queue empty"
    | NotInChannel        // "Not in a channel"
    | CommandError        // "Error", from the handler's outer catch

  /** The bot's success replies. An acknowledgement of `pause`, `resume`, `skip` or `stop`
      stands for the call it made on the audio player just before replying. */
  datatype Ack =
    | Added(song: Song, position: nat)
    | PausedPlayback
    | ResumedPlayback
    | Skipped(title: string)
    | QueueListing(now: Option<string>, upNext: seq<string>)
    | NowPlaying(title: string)
    | StoppedPlayback
    | LeftChannel

  datatype Reply = Ok(ack: Ack) | Err(failure: Failure)

  /** The song the `play` branch builds from the metadata (bot.js:335-341): an empty or missing
      title becomes "Unknown", a missing or zero duration is formatted as 0 seconds. */
  function MakeSong(url: string, info: VideoInfo, requester: string): (song: Song)
    ensures song.url == url && song.requestedBy == requester && song.thumbnail == info.thumbnail
    ensures song.title != ""
    ensures info.title.Some? && info.title.value != "" ==> song.title == info.title.value
    ensures Duration.IsMinutesSeconds(song.duration)
    ensures Duration.Seconds(song.duration) == (if info.duration.Some? then info.duration.value else 0)
  {
    var title := if info.title.Some? && info.title.value != "" then info.title.value else "Unknown";
    var seconds := if info.duration.Some? then info.duration.value else 0;
    Song(url, title, Duration.FormatDuration(seconds), info.thumbnail, requester)
  }

  /**
    The state `playNext` leaves behind when it is called with `songs` waiting, where
    `streamOk(attempt + n)` tells whether the stream for the n-th song it dequeues starts.
    A song whose stream fails is dropped and the next one tried (bot.js:215-218, 229-231).
  */
  function Advance(songs: seq<Song>, streamOk: nat -> bool, attempt: nat): Playback
    decreases |songs|
  {
    if songs == [] then Cleared
    else if streamOk(attempt) then Playback(songs[1..], Some(songs[0]), true)
    else Advance(songs[1..], streamOk, attempt + 1)
  }

  /**
    `playNext` either starts the first song whose stream works, after dropping exactly the
    songs before it (each of which failed), and keeps the rest in order; or, when every
    stream fails, it consumes the whole queue and ends idle. It dequeues at most `|songs|` songs.
  */
  lemma {:induction false} AdvanceOutcome(songs: seq<Song>, streamOk: nat -> bool, attempt: nat)
    ensures var r := Advance(songs, streamOk, attempt);
      && (r.playing <==> r.current.Some?)
      && (!r.playing ==> r == Cleared && forall k :: attempt <= k < attempt + |songs| ==> !streamOk(k))
      && (r.playing ==>
            var n := |songs| - |r.songs| - 1;
            && 0 <= n < |songs|
            && r.current == Some(songs[n])
            && r.songs == songs[n + 1..]
            && streamOk(attempt + n)
            && forall k :: attempt <= k < attempt + n ==> !streamOk(k))
    decreases |songs|
  {
    if songs != [] && !streamOk(attempt) {
      AdvanceOutcome(songs[1..], streamOk, attempt + 1);
      var r := Advance(songs, streamOk, attempt);
      if r.playing {
        var n := |songs| - |r.songs| - 1;
        assert songs[1..][n - 1] == songs[n];
        assert songs[1..][n..] == songs[n + 1..];
      }
    }
  }

  /** When the first working stream is the n-th, `playNext` plays song n and keeps the songs after it. */
  lemma {:induction false} AdvanceToFirstWorking(songs: seq<Song>, streamOk: nat -> bool, attempt: nat, n: nat)
    requires n < |songs| && streamOk(attempt + n)
    requires forall k :: attempt <= k < attempt + n ==> !streamOk(k)
    ensures Advance(songs, streamOk, attempt) == Playback(songs[n + 1..], Some(songs[n]), true)
    decreases n
  {
    if n > 0 {
      AdvanceToFirstWorking(songs[1..], streamOk, attempt + 1, n - 1);
      assert songs[1..][n - 1] == songs[n] && songs[1..][n..] == songs[n + 1..];
    }
  }

  /** The "Up next" lines of the `queue` reply (bot.js:440-442): at most ten songs, numbered from 1. */
  function UpNext(songs: seq<Song>): (lines: seq<string>)
    ensures |lines| == if |songs| < 10 then |songs| else 10
    ensures forall i :: 0 <= i < |lines| ==> lines[i] == Decimal.Show(i + 1) + ". " + songs[i].title
  {
    Numbered(if |songs| < 10 then songs else songs[..10], 1)
  }

  /** `s.map((s, i) => `${i + first}. ${s.title}`)` */
  function Numbered(songs: seq<Song>, first: nat): (lines: seq<string>)
    ensures |lines| == |songs|
    ensures forall i :: 0 <= i < |lines| ==> lines[i] == Decimal.Show(i + first) + ". " + songs[i].title
    decreases |songs|
  {
    if songs == [] then []
    else [Decimal.Show(first) + ". " + songs[0].title] + Numbered(songs[1..], first + 1)
  }

  /** One guild's record in the `queues` map (bot.js:109-115). The audio player it owns is
      external; of it the model keeps only whether `setupPlayerEvents` has installed the
      Idle and error handlers. */
  class GuildQueue {
    var songs: seq<Song>
    var connection: Option<Connection>
    var currentSong: Option<Song>
    var isPlaying: bool
    var handlersInstalled: bool

    /** The record's invariant: a playing guild has a current song. */
    ghost predicate Valid()
      reads this
    {
      isPlaying ==> currentSong.Some?
    }

    /** The stronger shape every transition except a failed `play` reply keeps: an idle guild has
        no current song and nothing waiting. */
    ghost predicate Settled()
      reads this
    {
      Valid() && (!isPlaying ==> currentSong.None? && songs == [])
    }

    function State(): Playback
      reads this
    {
      Playback(songs, currentSong, isPlaying)
    }

    /** The fresh record `getQueue` stores for a guild it has not seen (bot.js:109-115). */
    constructor ()
      ensures Valid() && Settled()
      ensures State() == Cleared && connection == None && !handlersInstalled
    {
      songs := [];
      connection := None;
      currentSong := None;
      isPlaying := false;
      handlersInstalled := false;
    }

    /** `playNext` (bot.js:196-233), its retry on a failed stream turned into a loop.
        `streamOk(k)` is whether the k-th stream start of this call succeeds. */
    method PlayNext(streamOk: nat -> bool) returns (started: bool)
      requires Valid()
      modifies this
      ensures Valid() && Settled()
      ensures State() == Advance(old(songs), streamOk, 0)
      ensures started == isPlaying
      ensures connection == old(connection) && handlersInstalled == old(handlersInstalled)
    {
      var attempt: nat := 0;
      while true
        invariant Valid()
        invariant Advance(songs, streamOk, attempt) == Advance(old(songs), streamOk, 0)
        invariant connection == old(connection) && handlersInstalled == old(handlersInstalled)
        decreases |songs|
      {
        if songs == [] {
          currentSong := None;
          isPlaying := false;
          return false;
        }
        var song := songs[0];
        songs := songs[1..];
        currentSong := Some(song);
        isPlaying := true;
        if streamOk(attempt) {
          return true;
        }
        attempt := attempt + 1;
      }
    }

    /** `setupPlayerEvents` (bot.js:236-257): drops earlier listeners and installs the handlers
        once, so rejoining never doubles them. */
    method SetupPlayerEvents()
      requires Valid()
      modifies this
      ensures Valid() && handlersInstalled
      ensures State() == old(State()) && connection == old(connection)
    {
      handlersInstalled := true;
    }

    /** A player event reaching the handlers (bot.js:240-256): Idle and error advance the queue,
        Playing and Buffering are only logged; without installed handlers nothing happens. */
    method OnPlayerEvent(event: PlayerEvent, streamOk: nat -> bool)
      requires Valid()
      modifies this
      ensures Valid()
      ensures handlersInstalled == old(handlersInstalled) && connection == old(connection)
      ensures handlersInstalled && (event.BecameIdle? || event.PlayerError?) ==>
                Settled() && State() == Advance(old(songs), streamOk, 0)
      ensures !(handlersInstalled && (event.BecameIdle? || event.PlayerError?)) ==> State() == old(State())
    {
      if handlersInstalled && (event.BecameIdle? || event.PlayerError?) {
        var _ := PlayNext(streamOk);
      }
    }

    /** The Disconnected handler (bot.js:376-391): unless the connection starts signalling or
        connecting again within 5 seconds, it is destroyed and the queue wiped. */
    method OnDisconnected(recovered: bool)
      requires Valid()
      modifies this
      ensures Valid() && handlersInstalled == old(handlersInstalled)
      ensures recovered ==> State() == old(State()) && connection == old(connection)
      ensures !recovered ==> Settled() && State() == Cleared && connection == None
    {
      if !recovered {
        connection := None;
        songs := [];
        currentSong := None;
        isPlaying := false;
      }
    }

    /** The checks `play` passes before it adds a song: the user is in a voice channel, the URL is
        accepted, the metadata arrived, and a connection exists or the new one became ready. */
    static predicate PlayAccepted(channel: Option<ChannelId>, url: string, info: Option<VideoInfo>,
                                  connected: bool, ready: bool)
    {
      channel.Some? && YouTubeUrl.IsValidYouTubeUrl(url) && info.Some? && (connected || ready)
    }

    /**
      What the `play` branch (bot.js:310-414) does to the record and answers. The checks run in
      order: voice channel, URL, metadata, connection; a failed check answers its error and
      changes nothing. Otherwise the song is appended and its position is the new queue length;
      an existing connection is kept, a new one joins the caller's channel with the player
      handlers; playback starts only if the guild was idle and the reply went out.
    */
    twostate predicate PlayOutcome(guildId: GuildId, channel: Option<ChannelId>, url: string, requester: string,
                                   info: Option<VideoInfo>, ready: bool, replied: bool, streamOk: nat -> bool,
                                   reply: Reply)
      reads this
    {
      && (channel.None? ==> reply == Err(NotInVoiceChannel))
      && (channel.Some? && !YouTubeUrl.IsValidYouTubeUrl(url) ==> reply == Err(InvalidUrl))
      && (channel.Some? && YouTubeUrl.IsValidYouTubeUrl(url) && info.None? ==> reply == Err(AddFailed))
      && (channel.Some? && YouTubeUrl.IsValidYouTubeUrl(url) && info.Some? && old(connection).None? && !ready ==>
            reply == Err(JoinFailed))
      && (!PlayAccepted(channel, url, info, old(connection).Some?, ready) ==>
            State() == old(State()) && connection == old(connection) && handlersInstalled == old(handlersInstalled))
      && (PlayAccepted(channel, url, info, old(connection).Some?, ready) ==>
            var song := MakeSong(url, info.value, requester);
            && connection == (if old(connection).Some? then old(connection) else Some(Connection(channel.value, guildId)))
            && handlersInstalled == (old(handlersInstalled) || old(connection).None?)
            && (replied ==> reply == Ok(Added(song, |old(songs)| + 1)))
            && (!replied ==> reply == Err(AddFailed) && State() == Playback(old(songs) + [song], old(currentSong), old(isPlaying)))
            && (replied && old(isPlaying) ==> State() == Playback(old(songs) + [song], old(currentSong), true))
            && (replied && !old(isPlaying) ==> State() == Advance(old(songs) + [song], streamOk, 0)))
    }

    /**
      The `play` branch (bot.js:310-414). `info` is what `getVideoInfo` resolved to (None when it
      failed), `ready` whether a new connection reached Ready within 30 seconds, `replied` whether
      the "Added to Queue" reply went out (when it throws, the song is already queued and the
      handler answers "Failed to add song" without starting playback).
    */
    method Play(guildId: GuildId, channel: Option<ChannelId>, url: string, requester: string,
                info: Option<VideoInfo>, ready: bool, replied: bool, streamOk: nat -> bool)
      returns (reply: Reply)
      requires Valid()
      modifies this
      ensures Valid()
      ensures PlayOutcome(guildId, channel, url, requester, info, ready, replied, streamOk, reply)
      ensures old(Settled()) && replied ==> Settled()
    {
      if channel.None? {
        return Err(NotInVoiceChannel);
      }
      if !YouTubeUrl.IsValidYouTubeUrl(url) {
        return Err(InvalidUrl);
      }
      if info.None? {
        return Err(AddFailed);
      }
      reply := Admit(guildId, channel.value, MakeSong(url, info.value, requester), ready, replied, streamOk);
    }

    /** What `play` does with a song once the checks on the request have passed: join the
        caller's channel if need be (bot.js:344-392), then queue the song (bot.js:394-412). */
    method Admit(guildId: GuildId, channel: ChannelId, song: Song, ready: bool, replied: bool,
                 streamOk: nat -> bool) returns (reply: Reply)
      requires Valid()
      modifies this
      ensures Valid()
      ensures old(connection).None? && !ready ==>
                reply == Err(JoinFailed) && State() == old(State())
                && connection == old(connection) && handlersInstalled == old(handlersInstalled)
      ensures old(connection).Some? || ready ==>
                && connection == (if old(connection).Some? then old(connection) else Some(Connection(channel, guildId)))
                && handlersInstalled == (old(handlersInstalled) || old(connection).None?)
                && (replied ==> reply == Ok(Added(song, |old(songs)| + 1)))
                && (!replied ==> reply == Err(AddFailed) && State() == Playback(old(songs) + [song], old(currentSong), old(isPlaying)))
                && (replied && old(isPlaying) ==> State() == Playback(old(songs) + [song], old(currentSong), true))
                && (replied && !old(isPlaying) ==> State() == Advance(old(songs) + [song], streamOk, 0))
      ensures old(Settled()) && replied ==> Settled()
    {
      var joined := EnsureConnection(guildId, channel, ready);
      if !joined {
        return Err(JoinFailed);
      }
      reply := Enqueue(song, replied, streamOk);
    }

    /** Joining the caller's channel when the guild has no connection (bot.js:344-392). An existing
        connection is kept as it is, whichever channel it is in. A new one that does not become
        ready within 30 seconds is destroyed and dropped; a ready one gets the player handlers. */
    method EnsureConnection(guildId: GuildId, channel: ChannelId, ready: bool) returns (joined: bool)
      requires Valid()
      modifies this
      ensures Valid() && State() == old(State())
      ensures joined == (old(connection).Some? || ready)
      ensures old(connection).Some? ==> connection == old(connection) && handlersInstalled == old(handlersInstalled)
      ensures old(connection).None? && ready ==> connection == Some(Connection(channel, guildId)) && handlersInstalled
      ensures old(connection).None? && !ready ==> connection == None && handlersInstalled == old(handlersInstalled)
    {
      if connection.Some? {
        return true;
      }
      connection := Some(Connection(channel, guildId));
      if !ready {
        connection := None;
        return false;
      }
      SetupPlayerEvents();
      joined := true;
    }

    /** Appending the new song and replying with its position, then starting playback when the
        guild was idle (bot.js:394-408). A failed reply leaves the song queued without starting it. */
    method Enqueue(song: Song, replied: bool, streamOk: nat -> bool) returns (reply: Reply)
      requires Valid()
      modifies this
      ensures Valid() && connection == old(connection) && handlersInstalled == old(handlersInstalled)
      ensures replied ==> reply == Ok(Added(song, |old(songs)| + 1))
      ensures !replied ==> reply == Err(AddFailed) && State() == Playback(old(songs) + [song], old(currentSong), old(isPlaying))
      ensures replied && old(isPlaying) ==> State() == Playback(old(songs) + [song], old(currentSong), true)
      ensures replied && !old(isPlaying) ==> State() == Advance(old(songs) + [song], streamOk, 0)
      ensures old(Settled()) && replied ==> Settled()
    {
      songs := songs + [song];
      if !replied {
        return Err(AddFailed);
      }
      reply := Ok(Added(song, |songs|));
      if !isPlaying {
        var _ := PlayNext(streamOk);
      }
    }

    /** The `pause` branch (bot.js:416-420): refused unless the guild is playing. The record does
        not change; `isPlaying` stays true while the player is paused. */
    method Pause() returns (reply: Reply)
      ensures reply.Ok? <==> isPlaying
      ensures reply.Ok? ==> reply.ack == PausedPlayback
      ensures reply.Err? ==> reply.failure == NothingPlaying
    {
      if !isPlaying {
        return Err(NothingPlaying);
      }
      reply := Ok(PausedPlayback);
    }

    /** The `resume` branch (bot.js:422-427): refused unless the player reports Paused. */
    method Resume(status: PlayerStatus) returns (reply: Reply)
      ensures reply.Ok? <==> status == Paused
      ensures reply.Ok? ==> reply.ack == ResumedPlayback
      ensures reply.Err? ==> reply.failure == NotPaused
    {
      if status != Paused {
        return Err(NotPaused);
      }
      reply := Ok(ResumedPlayback);
    }

    /** The `skip` branch (bot.js:429-433): refused without a current song; otherwise it stops the
        player and names the song; the player's Idle event then advances the queue. */
    method Skip() returns (reply: Reply)
      ensures reply.Ok? <==> currentSong.Some?
      ensures reply.Ok? ==> reply.ack == Skipped(currentSong.value.title)
      ensures reply.Err? ==> reply.failure == NothingToSkip
    {
      if currentSong.None? {
        return Err(NothingToSkip);
      }
      reply := Ok(Skipped(currentSong.value.title));
    }

    /** The `queue` branch (bot.js:435-448): empty only when there is neither a current song nor a
        waiting one; otherwise the current title and the first ten waiting ones. */
    method ShowQueue() returns (reply: Reply)
      ensures reply.Err? <==> currentSong.None? && songs == []
      ensures reply.Err? ==> reply.failure == QueueIsEmpty
      ensures reply.Ok? ==> reply.ack.QueueListing?
      ensures reply.Ok? ==> reply.ack.now == (if currentSong.Some? then Some(currentSong.value.title) else None)
      ensures reply.Ok? ==> reply.ack.upNext == UpNext(songs)
    {
      if currentSong.None? && songs == [] {
        return Err(QueueIsEmpty);
      }
      var now := if currentSong.Some? then Some(currentSong.value.title) else None;
      reply := Ok(QueueListing(now, UpNext(songs)));
    }

    /** The `nowplaying` branch (bot.js:450-458). */
    method NowPlayingTitle() returns (reply: Reply)
      ensures reply.Ok? <==> currentSong.Some?
      ensures reply.Ok? ==> reply.ack == NowPlaying(currentSong.value.title)
      ensures reply.Err? ==> reply.failure == NothingPlaying
    {
      if currentSong.None? {
        return Err(NothingPlaying);
      }
      reply := Ok(NowPlaying(currentSong.value.title));
    }

    /** The `stop` branch (bot.js:460-466): clears the queue and stops the player, but stays in the channel. */
    method Stop() returns (reply: Reply)
      requires Valid()
      modifies this
      ensures Valid() && Settled()
      ensures State() == Cleared && connection == old(connection) && handlersInstalled == old(handlersInstalled)
      ensures reply == Ok(StoppedPlayback)
    {
      songs := [];
      currentSong := None;
      isPlaying := false;
      reply := Ok(StoppedPlayback);
    }

    /** The `leave` branch (bot.js:468-476): refused without a connection; otherwise destroys it and
        clears the queue. */
    method Leave() returns (reply: Reply)
      requires Valid()
      modifies this
      ensures Valid() && handlersInstalled == old(handlersInstalled)
      ensures old(connection).None? ==> reply == Err(NotInChannel) && State() == old(State()) && connection == None
      ensures old(connection).Some? ==> reply == Ok(LeftChannel) && Settled() && State() == Cleared && connection == None
    {
      if connection.None? {
        return Err(NotInChannel);
      }
      connection := None;
      songs := [];
      currentSong := None;
      isPlaying := false;
      reply := Ok(LeftChannel);
    }
  }
}
