/** The `/meme-auto` command (src/commands/meme-auto.ts): validates a `set` request and
    hands it to `setAutoMeme`, clears a guild's schedule with `disableAutoMeme`, and
    reports a schedule in whole minutes.

    Discord lookups are inputs: whether the chosen channel is a guild text channel, the
    outcome of fetching it (it may throw), whether the bot's member was found (the fetch of
    it may throw) and whether the bot may send embeds there; for `status`, whether fetching
    the configured channel threw. A Redis failure is an input too: which Redis command
    on the command's path throws, if any. */
module MemeAuto {
  import opened JsText
  import opened Memes

  /** An awaited lookup: it threw an error with this message, or produced a value. */
  datatype Attempt<T> = Threw(message: string) | Got(value: T)

  /** What the `set` subcommand sees. `interval` is the optional integer option;
      `fetched` says whether the fetched channel is a usable guild text channel. */
  datatype SetInput = SetInput(
    channelId: ChannelId,
    isGuildText: bool,
    interval: Option<int>,
    fetched: Attempt<bool>,
    botMember: Attempt<bool>,
    canSendEmbeds: bool)

  /** Redis during one command: every command succeeds, or the `call`-th Redis command
      on the command's path (counting from 0) throws an error with this message. On
      `set` the calls are `sadd` and `set`; on `disable` the `get` of `getAutoConfig`,
      then `srem` and `del`; on `status` the `get`. */
  datatype RedisFault = Healthy | FailsAt(call: nat, message: string)

  datatype Command = Command(
    sub: string,
    guildId: Option<GuildId>,
    setInput: SetInput,
    statusFetchThrew: bool,
    redis: RedisFault)

  /** The `call`-th Redis command throws. */
  predicate FailsOn(f: RedisFault, call: nat)
  {
    f.FailsAt? && f.call == call
  }

  /** One of the two writes that start at call `first` throws. */
  predicate WriteFailed(f: RedisFault, first: nat)
  {
    f.FailsAt? && first <= f.call < first + 2
  }

  /** How many of the two writes that start at call `first` complete. */
  function WritesDone(f: RedisFault, first: nat): (n: nat)
    ensures n <= 2
    ensures n == 2 <==> !WriteFailed(f, first)
    ensures WriteFailed(f, first) ==> n == f.call - first
  {
    if WriteFailed(f, first) then f.call - first else 2
  }

  /** The change the command makes through the scheduler's store operations, with the
      number of their two writes that complete. */
  datatype Action =
    | NoChange
    | Enable(guildId: GuildId, channelId: ChannelId, intervalMin: int, completes: nat)
    | Disable(guildId: GuildId, completes: nat)

  datatype Outcome = Outcome(reply: string, action: Action)

  const DefaultIntervalMin := 120
  const MaxIntervalMin := 1440

  const Cross := "\U{274C} "
  const Check := "\U{2705} "
  const Info := "\U{2139}\U{FE0F} "

  const ServersOnlyText := Cross + "This command only works in servers."
  const PickTextChannelText := Cross + "Please select a text channel."
  const BadIntervalText := Cross + "Interval must be between 5 and 1440 minutes."
  const InvalidChannelText := Cross + "Invalid channel. Please select a text channel."
  const NoAccessText := Cross + "Unable to access that channel."
  const NoBotMemberText := Cross + "Unable to verify bot permissions."
  const NoPermissionText := Cross + "I don't have permission to send messages with embeds in that channel."
  const NotEnabledText := Info + "Auto memes are not currently enabled."
  const DisabledText := Check + "Auto memes disabled."
  const NotConfiguredText := Info + "Auto memes not configured for this server.\nUse `/meme-auto set` to enable."
  const UnknownText := Cross + "Unknown subcommand."
  const DatabaseErrorText := Cross + "Database connection error. Please try again later."
  const FailedText := Cross + "Failed to update auto meme settings. Please try again."

  function Mention(channelId: ChannelId): string
  {
    "<#" + channelId + ">"
  }

  /** `s.includes(part)`. */
  predicate Includes(s: string, part: string)
    decreases |s|
  {
    |part| <= |s| && (s[..|part|] == part || Includes(s[1..], part))
  }

  /** The outer catch block's message: a database error when the error mentions Redis. */
  function ErrorText(message: string): (r: string)
    ensures Includes(message, "Redis") ==> r == DatabaseErrorText
    ensures !Includes(message, "Redis") ==> r == FailedText
  {
    if Includes(message, "Redis") then DatabaseErrorText else FailedText
  }

  /** The interval option, defaulting to two hours. */
  function IntervalOf(s: SetInput): (m: int)
    ensures s.interval.Some? ==> m == s.interval.value
    ensures s.interval.None? ==> m == DefaultIntervalMin
  {
    if s.interval.Some? then s.interval.value else DefaultIntervalMin
  }

  /** `Math.floor(ms / 60000)`: Dafny's division rounds down for a positive divisor,
      like `Math.floor` of the quotient, negative operands included. */
  function WholeMinutes(ms: int): (m: int)
    ensures m * MinuteMs <= ms < (m + 1) * MinuteMs
  {
    ms / MinuteMs
  }

  /** The interval line of `status`. */
  function IntervalMinutes(c: AutoConfig): (m: int)
    ensures m * MinuteMs <= c.intervalMs < (m + 1) * MinuteMs
  {
    WholeMinutes(c.intervalMs)
  }

  /** The "next meme" line of `status`: whole minutes until `nextAt`, and zero once the
      post is due. */
  function NextMinutes(c: AutoConfig, now: int): (m: int)
    ensures m >= 0
    ensures m == 0 <==> c.nextAt - now < MinuteMs
    ensures m > 0 ==> m * MinuteMs <= c.nextAt - now < (m + 1) * MinuteMs
  {
    var left := WholeMinutes(c.nextAt - now);
    if left < 0 then 0 else left
  }

  /** The interval a record keeps is reported back as the minutes it was set with, and a
      freshly set schedule reports its first post one minute ahead. */
  lemma StatusAfterSet(channelId: ChannelId, intervalMin: int, now: int)
    requires MinIntervalMin <= intervalMin
    ensures var c := AutoConfig(channelId, intervalMin * MinuteMs, now + FirstPostDelayMs);
            IntervalMinutes(c) == intervalMin && NextMinutes(c, now) == 1
  {
    var c := AutoConfig(channelId, intervalMin * MinuteMs, now + FirstPostDelayMs);
    var m := IntervalMinutes(c);
    assert (m - intervalMin) * MinuteMs <= 0 < (m - intervalMin + 1) * MinuteMs;
  }

  /** Every check of `set` passes: the one case in which `setAutoMeme` runs. */
  predicate SetAllowed(s: SetInput)
  {
    && s.isGuildText
    && MinIntervalMin <= IntervalOf(s) <= MaxIntervalMin
    && s.fetched == Got(true) && s.botMember == Got(true) && s.canSendEmbeds
  }

  /** The reply to a `set` that `setAutoMeme` completes. */
  function EnabledText(s: SetInput): string
  {
    Check + "Auto memes enabled in " + Mention(s.channelId) + " every " + IntToDecimal(IntervalOf(s)) + " minutes."
  }

  /** The `set` branch: each failed check has its own reply and changes nothing; when all
      pass, `setAutoMeme` runs, and a Redis error in it turns the reply into the catch
      block's message after the writes before it are done. */
  function DecideSet(guildId: GuildId, s: SetInput, redis: RedisFault): (o: Outcome)
    ensures o.action.Enable? <==> SetAllowed(s)
    ensures o.action.Enable? ==> o.action == Enable(guildId, s.channelId, IntervalOf(s), WritesDone(redis, 0))
    ensures SetAllowed(s) && !WriteFailed(redis, 0) ==> o.reply == EnabledText(s)
    ensures SetAllowed(s) && WriteFailed(redis, 0) ==> o.reply == ErrorText(redis.message)
    ensures !o.action.Disable?
    ensures !s.isGuildText ==> o == Outcome(PickTextChannelText, NoChange)
    ensures s.isGuildText && !(MinIntervalMin <= IntervalOf(s) <= MaxIntervalMin) ==>
              o == Outcome(BadIntervalText, NoChange)
    ensures s.isGuildText && MinIntervalMin <= IntervalOf(s) <= MaxIntervalMin ==>
              && (s.fetched.Threw? ==> o == Outcome(NoAccessText, NoChange))
              && (s.fetched == Got(false) ==> o == Outcome(InvalidChannelText, NoChange))
              && (s.fetched == Got(true) && s.botMember.Threw? ==>
                    o == Outcome(ErrorText(s.botMember.message), NoChange))
              && (s.fetched == Got(true) && s.botMember == Got(false) ==> o == Outcome(NoBotMemberText, NoChange))
              && (s.fetched == Got(true) && s.botMember == Got(true) && !s.canSendEmbeds ==>
                    o == Outcome(NoPermissionText, NoChange))
  {
    var interval := IntervalOf(s);
    if !s.isGuildText then Outcome(PickTextChannelText, NoChange)
    else if interval < MinIntervalMin || interval > MaxIntervalMin then Outcome(BadIntervalText, NoChange)
    else match s.fetched
      case Threw(_) => Outcome(NoAccessText, NoChange)
      case Got(usable) =>
        if !usable then Outcome(InvalidChannelText, NoChange)
        else match s.botMember
          case Threw(m) => Outcome(ErrorText(m), NoChange)
          case Got(found) =>
            if !found then Outcome(NoBotMemberText, NoChange)
            else if !s.canSendEmbeds then Outcome(NoPermissionText, NoChange)
            else
              var action := Enable(guildId, s.channelId, interval, WritesDone(redis, 0));
              if WriteFailed(redis, 0) then Outcome(ErrorText(redis.message), action)
              else Outcome(EnabledText(s), action)
  }

  /** The `status` reply for a readable record. */
  function StatusText(c: AutoConfig, now: int, fetchThrew: bool): string
  {
    if fetchThrew then
      "\U{26A0}\U{FE0F} **Auto Meme Status**\nChannel: " + Mention(c.channelId)
      + " (channel deleted or inaccessible)\nUse `/meme-auto set` to reconfigure."
    else
      "\U{1F4CA} **Auto Meme Status**\nChannel: " + Mention(c.channelId)
      + "\nInterval: " + IntToDecimal(IntervalMinutes(c)) + " min\nNext meme: "
      + IntToDecimal(NextMinutes(c, now)) + " min"
  }

  /** `handleMemeAuto` as a decision over the command, the stored records and `now`. */
  function Decide(cmd: Command, configs: map<GuildId, StoredConfig>, now: int): (o: Outcome)
    ensures !Truthy(cmd.guildId) ==> o == Outcome(ServersOnlyText, NoChange)
    ensures o.action.Enable? <==> Truthy(cmd.guildId) && cmd.sub == "set" && SetAllowed(cmd.setInput)
    ensures o.action.Enable? ==>
              o.action == Enable(cmd.guildId.value, cmd.setInput.channelId, IntervalOf(cmd.setInput),
                                 WritesDone(cmd.redis, 0))
    ensures Truthy(cmd.guildId) && cmd.sub == "set" ==> o == DecideSet(cmd.guildId.value, cmd.setInput, cmd.redis)
    ensures o.action.Disable? <==>
              Truthy(cmd.guildId) && cmd.sub == "disable" && !FailsOn(cmd.redis, 0)
              && GetAutoConfig(configs, cmd.guildId.value).Some?
    ensures o.action.Disable? ==>
              o.action == Disable(cmd.guildId.value, WritesDone(cmd.redis, 1))
              && o.reply == (if WriteFailed(cmd.redis, 1) then ErrorText(cmd.redis.message) else DisabledText)
    ensures Truthy(cmd.guildId) && cmd.sub in {"disable", "status"} && FailsOn(cmd.redis, 0) ==>
              o == Outcome(ErrorText(cmd.redis.message), NoChange)
    ensures Truthy(cmd.guildId) && cmd.sub == "disable" && !FailsOn(cmd.redis, 0)
            && GetAutoConfig(configs, cmd.guildId.value).None? ==>
              o == Outcome(NotEnabledText, NoChange)
    ensures Truthy(cmd.guildId) && cmd.sub == "status" && !FailsOn(cmd.redis, 0) ==>
              o.action == NoChange
              && o.reply == (var c := GetAutoConfig(configs, cmd.guildId.value);
                             if c.None? then NotConfiguredText else StatusText(c.value, now, cmd.statusFetchThrew))
    ensures Truthy(cmd.guildId) && cmd.sub !in {"set", "disable", "status"} ==> o == Outcome(UnknownText, NoChange)
  {
    if !Truthy(cmd.guildId) then Outcome(ServersOnlyText, NoChange)
    else
      var g := cmd.guildId.value;
      if cmd.sub == "set" then DecideSet(g, cmd.setInput, cmd.redis)
      else if cmd.sub == "disable" then
        if FailsOn(cmd.redis, 0) then Outcome(ErrorText(cmd.redis.message), NoChange)
        else if GetAutoConfig(configs, g).None? then Outcome(NotEnabledText, NoChange)
        else if WriteFailed(cmd.redis, 1) then Outcome(ErrorText(cmd.redis.message), Disable(g, WritesDone(cmd.redis, 1)))
        else Outcome(DisabledText, Disable(g, 2))
      else if cmd.sub == "status" then
        if FailsOn(cmd.redis, 0) then Outcome(ErrorText(cmd.redis.message), NoChange)
        else
          var c := GetAutoConfig(configs, g);
          if c.None? then Outcome(NotConfiguredText, NoChange)
          else Outcome(StatusText(c.value, now, cmd.statusFetchThrew), NoChange)
      else Outcome(UnknownText, NoChange)
  }

  /** The command never stores an interval outside 5..1440 minutes, although
      `setAutoMeme` itself clamps only the lower bound. */
  lemma EnabledIntervalInRange(cmd: Command, configs: map<GuildId, StoredConfig>, now: int)
    requires Decide(cmd, configs, now).action.Enable?
    ensures MinIntervalMin <= Decide(cmd, configs, now).action.intervalMin <= MaxIntervalMin
  {
  }

  /** An empty record, or one that does not parse, reads as no record, so `disable`
      leaves it (and the guild's set entry) in place and answers that auto memes are off. */
  lemma UnreadableRecordSurvivesDisable(cmd: Command, configs: map<GuildId, StoredConfig>, now: int)
    requires cmd.sub == "disable" && Truthy(cmd.guildId)
    requires cmd.guildId.value in configs && !configs[cmd.guildId.value].Config?
    ensures Decide(cmd, configs, now).action == NoChange
    ensures !FailsOn(cmd.redis, 0) ==> Decide(cmd, configs, now).reply == NotEnabledText
  {
  }

  /** `handleMemeAuto`: replies as `Decide` says and performs its action through
      `setAutoMeme` or `disableAutoMeme`, whose writes stop at a Redis error; the meme
      queue is not touched. A `set` whose record write fails leaves the guild in the set
      with its old record (or none), and a `disable` whose `del` fails leaves the record
      of a guild that is no longer scheduled. */
  method HandleMemeAuto(store: MemeStore, cmd: Command, now: int) returns (reply: string)
    requires store.Valid()
    modifies store
    ensures store.Valid()
    ensures var o := Decide(cmd, old(store.autoConfigs), now);
            && reply == o.reply
            && (o.action.NoChange? ==>
                  store.autoGuilds == old(store.autoGuilds) && store.autoConfigs == old(store.autoConfigs))
            && (o.action.Enable? ==>
                  && store.autoGuilds == (if o.action.completes >= 1 then old(store.autoGuilds) + {o.action.guildId}
                                          else old(store.autoGuilds))
                  && store.autoConfigs == (if o.action.completes >= 2 then old(store.autoConfigs)[o.action.guildId :=
                       Config(AutoConfig(o.action.channelId, o.action.intervalMin * MinuteMs, now + FirstPostDelayMs))]
                                           else old(store.autoConfigs)))
            && (o.action.Disable? ==>
                  && store.autoGuilds == (if o.action.completes >= 1 then old(store.autoGuilds) - {o.action.guildId}
                                          else old(store.autoGuilds))
                  && store.autoConfigs == (if o.action.completes >= 2 then old(store.autoConfigs) - {o.action.guildId}
                                           else old(store.autoConfigs)))
    ensures store.queue.entries == old(store.queue.entries)
  {
    var o := Decide(cmd, store.autoConfigs, now);
    reply := o.reply;
    match o.action
    case NoChange =>
    case Enable(g, c, m, n) =>
      store.SetAutoMeme(g, c, m, now, n);
    case Disable(g, n) =>
      store.DisableAutoMeme(g, n);
  }
}
