/**
  The bot's `queues` map (bot.js:98), `getQueue` (bot.js:101-118) and the command
  handler's dispatch (bot.js:299-485): every chat command looks up (or creates) its
  guild's record and runs one branch on it.
*/
module MusicBot {

  import opened Options
  import opened GuildQueues

  /** The slash commands registered at bot.js:272-284; `Unknown` stands for any other name. */
  datatype Command =
    | PlayCommand(url: string)
    | PauseCommand
    | ResumeCommand
    | SkipCommand
    | QueueCommand
    | NowPlayingCommand
    | StopCommand
    | LeaveCommand
    | Unknown(name: string)

  /** Where a command was sent from. In a guild the interaction carries the guild's id and the
      member, whose voice channel (`member.voice?.channel`) may be absent. A direct message
      carries neither: `guildId` and `member` are both null. */
  datatype Origin =
    | InGuild(guildId: GuildId, voiceChannel: Option<ChannelId>)
    | DirectMessage

  /** The parts of a Discord interaction the handler reads. */
  datatype Interaction = Interaction(
    isChatInputCommand: bool,
    origin: Origin,
    command: Command,
    userTag: string)

  /** The key `getQueue` is called with: the guild's id, or null for a direct message. */
  function Key(origin: Origin): (key: Option<GuildId>)
    ensures key.None? <==> origin.DirectMessage?
    ensures origin.InGuild? ==> key == Some(origin.guildId)
  {
    match origin
    case InGuild(guildId, _) => Some(guildId)
    case DirectMessage => None
  }

  /** What the outside world answers while one interaction is handled. */
  datatype World = World(
    info: Option<VideoInfo>,   // getVideoInfo resolved (Some) or rejected (None)
    ready: bool,               // a new connection reached Ready within 30 seconds
    replied: bool,             // the "Added to Queue" reply was delivered
    status: PlayerStatus,      // queue.player.state.status
    streamOk: nat -> bool)     // whether the k-th stream start of a playNext call succeeds

  class Bot {
    /** The records by guild id. A direct message's record is stored under null (`None`). */
    var queues: map<Option<GuildId>, GuildQueue>

    /** Every record is valid, and no record is shared by two keys. */
    ghost predicate Valid()
      reads this, queues.Values
    {
      && (forall g :: g in queues ==> queues[g].Valid())
      && (forall g, h :: g in queues && h in queues && g != h ==> queues[g] != queues[h])
    }

    /** The record stored under `key`, if any: the only object a command with that key may change. */
    function Record(key: Option<GuildId>): set<GuildQueue>
      reads this
    {
      if key in queues then {queues[key]} else {}
    }

    constructor ()
      ensures Valid() && queues == map[]
    {
      queues := map[];
    }

    /** `getQueue` (bot.js:101-118): returns the record under `key`, first creating an empty one
        when there is none; no other entry changes. */
    method GetQueue(key: Option<GuildId>) returns (q: GuildQueue)
      requires Valid()
      modifies this
      ensures Valid()
      ensures key in old(queues) ==> q == old(queues)[key] && queues == old(queues)
      ensures key !in old(queues) ==>
                && fresh(q) && queues == old(queues)[key := q]
                && q.State() == Cleared && q.connection == None && !q.handlersInstalled
      ensures key in queues && queues[key] == q && q.Valid()
    {
      if key !in queues {
        var created := new GuildQueue();
        queues := queues[key := created];
      }
      q := queues[key];
    }

    /**
      The `interactionCreate` handler (bot.js:299-485). Anything but a chat command is ignored.
      Otherwise the record under the interaction's key is fetched (or created). In a direct
      message `member` is null, so reading `member.voice` throws and the outer catch answers
      "Error" (bot.js:307, 478-483) whatever the command; in a guild the command's branch runs
      on the record. Only that record can change.
    */
    method HandleInteraction(interaction: Interaction, world: World) returns (reply: Option<Reply>)
      requires Valid()
      modifies this, Record(Key(interaction.origin))
      ensures Valid()
      ensures !interaction.isChatInputCommand ==>
                reply == None && queues == old(queues) && unchanged(Record(Key(interaction.origin)))
      ensures interaction.isChatInputCommand ==>
                var key := Key(interaction.origin);
                && key in queues
                && queues == old(queues)[key := queues[key]]
                && (key in old(queues) ==> queues[key] == old(queues)[key])
                && (key !in old(queues) ==> fresh(queues[key]))
      ensures interaction.isChatInputCommand && interaction.origin.DirectMessage? ==>
                && reply == Some(Err(CommandError))
                && unchanged(old(Record(None)))
                && (None !in old(queues) ==> queues[None].State() == Cleared && queues[None].connection == None)
      ensures interaction.isChatInputCommand && interaction.origin.InGuild? ==>
                (reply.None? <==> interaction.command.Unknown?)
    {
      if !interaction.isChatInputCommand {
        return None;
      }
      var q := GetQueue(Key(interaction.origin));
      match interaction.origin {
        case DirectMessage =>
          reply := Some(Err(CommandError));
        case InGuild(guildId, voiceChannel) =>
          reply := Dispatch(q, guildId, voiceChannel, interaction.command, interaction.userTag, world);
      }
    }

    /** The `switch (commandName)` of bot.js:309-477 on a guild's record: each command's reply and
        the record it leaves, as the `GuildQueue` method for that branch states them. An unknown
        command name matches no case and gets no reply. */
    static method Dispatch(q: GuildQueue, guildId: GuildId, voiceChannel: Option<ChannelId>, command: Command,
                           userTag: string, world: World) returns (reply: Option<Reply>)
      requires q.Valid()
      modifies q
      ensures q.Valid()
      ensures command.PlayCommand? ==>
                reply.Some? && q.PlayOutcome(guildId, voiceChannel, command.url, userTag, world.info, world.ready,
                                             world.replied, world.streamOk, reply.value)
      ensures command.PauseCommand? ==>
                unchanged(q) && reply == Some(if q.isPlaying then Ok(PausedPlayback) else Err(NothingPlaying))
      ensures command.ResumeCommand? ==>
                unchanged(q) && reply == Some(if world.status == Paused then Ok(ResumedPlayback) else Err(NotPaused))
      ensures command.SkipCommand? ==>
                unchanged(q) && reply == Some(if q.currentSong.Some? then Ok(Skipped(q.currentSong.value.title))
                                              else Err(NothingToSkip))
      ensures command.QueueCommand? ==>
                unchanged(q) && reply == Some(if q.currentSong.None? && q.songs == [] then Err(QueueIsEmpty)
                                              else Ok(QueueListing(if q.currentSong.Some? then Some(q.currentSong.value.title)
                                                                   else None, UpNext(q.songs))))
      ensures command.NowPlayingCommand? ==>
                unchanged(q) && reply == Some(if q.currentSong.Some? then Ok(NowPlaying(q.currentSong.value.title))
                                              else Err(NothingPlaying))
      ensures command.StopCommand? ==>
                && reply == Some(Ok(StoppedPlayback)) && q.State() == Cleared
                && q.connection == old(q.connection) && q.handlersInstalled == old(q.handlersInstalled)
      ensures command.LeaveCommand? ==>
                && q.connection == None && q.handlersInstalled == old(q.handlersInstalled)
                && (old(q.connection).None? ==> reply == Some(Err(NotInChannel)) && q.State() == old(q.State()))
                && (old(q.connection).Some? ==> reply == Some(Ok(LeftChannel)) && q.State() == Cleared)
      ensures command.Unknown? ==> reply == None && unchanged(q)
    {
      var r: Reply;
      match command {
        case PlayCommand(url) =>
          r := q.Play(guildId, voiceChannel, url, userTag, world.info, world.ready, world.replied, world.streamOk);
        case PauseCommand =>
          r := q.Pause();
        case ResumeCommand =>
          r := q.Resume(world.status);
        case SkipCommand =>
          r := q.Skip();
        case QueueCommand =>
          r := q.ShowQueue();
        case NowPlayingCommand =>
          r := q.NowPlayingTitle();
        case StopCommand =>
          r := q.Stop();
        case LeaveCommand =>
          r := q.Leave();
        case Unknown(_) =>
          return None;
      }
      reply := Some(r);
    }
  }
}
