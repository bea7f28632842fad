/** The `/autoai` command (src/commands/aiChat.ts): the per-guild AI channel pointer
    `ai:auto:<guild>` that the message handler of src/utils/replyWIthAI.ts reads, and the
    command that sets, clears and reports it.

    Discord lookups are inputs: whether the chosen channel is a guild text channel, the
    outcome of fetching it and the bot's member (either may throw), and whether the bot
    may send embeds there. A Redis failure is an input too: which Redis command on the
    command's path throws, if any. */
module AiChat {
  import opened JsText
  import opened ChatStore
  import AiReply

  /** A value thrown inside the command's `try`: an `Error` with its message, or
      anything else. */
  datatype Thrown = ErrorValue(message: string) | OtherValue

  /** An awaited lookup: it threw, or it produced a value. */
  datatype Attempt<T> = Threw(thrown: Thrown) | Got(value: T)

  /** What the `set` subcommand sees: the chosen channel's id and type, whether fetching
      it gave a usable guild text channel, whether the bot's member was found, and whether
      the bot may send messages with embeds in it. */
  datatype SetInput = SetInput(
    channelId: ChannelId,
    isGuildText: bool,
    fetched: Attempt<bool>,
    botMember: Attempt<bool>,
    canSendEmbeds: bool)

  /** Redis during one command: every command succeeds, or the `call`-th Redis command
      on the command's path (counting from 0) throws. On `set` the one call is `set`; on
      `disable` the `get` of `getAIChannel`, then `del`; on `status` the `get`. */
  datatype RedisFault = Healthy | FailsAt(call: nat, thrown: Thrown)

  datatype Command = Command(
    sub: string,
    guildId: Option<GuildId>,
    canManageGuild: bool,
    setInput: SetInput,
    redis: RedisFault)

  /** The `call`-th Redis command throws. */
  predicate FailsOn(f: RedisFault, call: nat)
  {
    f.FailsAt? && f.call == call
  }

  datatype Reply = Reply(text: string, ephemeral: bool)

  /** The change the command makes to the pointer store. */
  datatype Action = NoChange | Point(guildId: GuildId, channelId: ChannelId) | Clear(guildId: GuildId)

  datatype Outcome = Outcome(reply: Reply, action: Action)

  const Cross := "\U{274C} "
  const Check := "\U{2705} "
  const Info := "\U{2139}\U{FE0F} "
  const Pin := "\U{1F4CD} "

  const ServersOnlyText := "This command can only be used in servers."
  const NeedManageText := Cross + "You need the Manage Server permission to modify AI chat settings."
  const PickTextChannelText := Cross + "Please select a text channel."
  const InvalidChannelText := Cross + "Invalid channel. Please select a text channel."
  const NoBotMemberText := Cross + "Unable to verify bot permissions."
  const NoPermissionText := Cross + "I don't have permission to send messages with embeds in that channel."
  const NotEnabledText := Info + "AI chat isn't currently enabled."
  const DisabledText := Check + "AI chat disabled."
  const NotSetText := Info + "AI chat channel is not set."
  const UnknownText := Cross + "Unknown subcommand."
  const FailedText := Cross + "Failed to update AI settings. Please try again."

  function Mention(channelId: ChannelId): string
  {
    "<#" + channelId + ">"
  }

  /** The catch block's message: an `Error`'s own message, or the stock failure line. */
  function ErrorText(t: Thrown): (s: string)
    ensures t.ErrorValue? ==> s == t.message
    ensures t.OtherValue? ==> s == FailedText
  {
    match t
    case ErrorValue(m) => m
    case OtherValue => FailedText
  }

  /** `getAIChannel`: the stored pointer, if any. */
  function GetAiChannel(pointers: map<GuildId, ChannelId>, guildId: GuildId): (r: Option<ChannelId>)
    ensures r.Some? <==> guildId in pointers
    ensures r.Some? ==> r.value == pointers[guildId]
  {
    if guildId in pointers then Some(pointers[guildId]) else None
  }

  /** Every check of `set` passes: the one case in which the pointer is written. */
  predicate SetAllowed(s: SetInput)
  {
    s.isGuildText && s.fetched == Got(true) && s.botMember == Got(true) && s.canSendEmbeds
  }

  /** The reply to a `set` that stores the pointer. */
  function EnabledReply(s: SetInput): Reply
  {
    Reply(Check + "AI chat enabled in " + Mention(s.channelId) + ".", false)
  }

  /** The `set` branch, past the guild and permission gates: each failed check has its
      own reply and changes nothing, and the pointer is written only when all pass and
      the write itself does not throw. */
  function DecideSet(guildId: GuildId, s: SetInput, redis: RedisFault): (o: Outcome)
    ensures o.action.Point? <==> SetAllowed(s) && !FailsOn(redis, 0)
    ensures o.action.Point? ==> o == Outcome(EnabledReply(s), Point(guildId, s.channelId))
    ensures SetAllowed(s) && FailsOn(redis, 0) ==> o == Outcome(Reply(ErrorText(redis.thrown), true), NoChange)
    ensures o.action.Clear? == false
    ensures !s.isGuildText ==> o == Outcome(Reply(PickTextChannelText, true), NoChange)
    ensures s.isGuildText ==>
              && (s.fetched.Threw? ==> o == Outcome(Reply(ErrorText(s.fetched.thrown), true), NoChange))
              && (s.fetched == Got(false) ==> o == Outcome(Reply(InvalidChannelText, true), NoChange))
              && (s.fetched == Got(true) && s.botMember.Threw? ==>
                    o == Outcome(Reply(ErrorText(s.botMember.thrown), true), NoChange))
              && (s.fetched == Got(true) && s.botMember == Got(false) ==>
                    o == Outcome(Reply(NoBotMemberText, true), NoChange))
              && (s.fetched == Got(true) && s.botMember == Got(true) && !s.canSendEmbeds ==>
                    o == Outcome(Reply(NoPermissionText, true), NoChange))
  {
    if !s.isGuildText then Outcome(Reply(PickTextChannelText, true), NoChange)
    else match s.fetched
      case Threw(t) => Outcome(Reply(ErrorText(t), true), NoChange)
      case Got(usable) =>
        if !usable then Outcome(Reply(InvalidChannelText, true), NoChange)
        else match s.botMember
          case Threw(t) => Outcome(Reply(ErrorText(t), true), NoChange)
          case Got(found) =>
            if !found then Outcome(Reply(NoBotMemberText, true), NoChange)
            else if !s.canSendEmbeds then Outcome(Reply(NoPermissionText, true), NoChange)
            else if FailsOn(redis, 0) then Outcome(Reply(ErrorText(redis.thrown), true), NoChange)
            else Outcome(EnabledReply(s), Point(guildId, s.channelId))
  }

  /** `handleAutoAI` as a decision over the command and the current pointers. */
  function Decide(cmd: Command, pointers: map<GuildId, ChannelId>): (o: Outcome)
    ensures !Truthy(cmd.guildId) ==> o == Outcome(Reply(ServersOnlyText, true), NoChange)
    ensures Truthy(cmd.guildId) && !cmd.canManageGuild && cmd.sub != "status" ==>
              o == Outcome(Reply(NeedManageText, true), NoChange)
    ensures Truthy(cmd.guildId) && cmd.canManageGuild && cmd.sub == "set" ==>
              o == DecideSet(cmd.guildId.value, cmd.setInput, cmd.redis)
    ensures o.action.Point? <==>
              Truthy(cmd.guildId) && cmd.canManageGuild && cmd.sub == "set" && SetAllowed(cmd.setInput)
              && !FailsOn(cmd.redis, 0)
    ensures o.action.Point? ==> o.action == Point(cmd.guildId.value, cmd.setInput.channelId)
    ensures o.action.Clear? <==>
              Truthy(cmd.guildId) && cmd.canManageGuild && cmd.sub == "disable"
              && !FailsOn(cmd.redis, 0) && !FailsOn(cmd.redis, 1)
              && Truthy(GetAiChannel(pointers, cmd.guildId.value))
    ensures o.action.Clear? ==> o == Outcome(Reply(DisabledText, false), Clear(cmd.guildId.value))
    ensures Truthy(cmd.guildId) && (cmd.canManageGuild || cmd.sub == "status") && cmd.sub in {"disable", "status"}
            && FailsOn(cmd.redis, 0) ==>
              o == Outcome(Reply(ErrorText(cmd.redis.thrown), true), NoChange)
    ensures Truthy(cmd.guildId) && cmd.canManageGuild && cmd.sub == "disable" && FailsOn(cmd.redis, 1)
            && Truthy(GetAiChannel(pointers, cmd.guildId.value)) ==>
              o == Outcome(Reply(ErrorText(cmd.redis.thrown), true), NoChange)
    ensures Truthy(cmd.guildId) && cmd.sub == "status" && !FailsOn(cmd.redis, 0) ==>
              o.action == NoChange
              && o.reply == (var cur := GetAiChannel(pointers, cmd.guildId.value);
                             if Truthy(cur) then Reply(Pin + "AI chat is enabled in " + Mention(cur.value) + ".", true)
                             else Reply(NotSetText, true))
    ensures Truthy(cmd.guildId) && cmd.canManageGuild && cmd.sub == "disable" && !FailsOn(cmd.redis, 0)
            && !Truthy(GetAiChannel(pointers, cmd.guildId.value)) ==>
              o == Outcome(Reply(NotEnabledText, true), NoChange)
    ensures Truthy(cmd.guildId) && cmd.canManageGuild && cmd.sub !in {"set", "disable", "status"} ==>
              o == Outcome(Reply(UnknownText, true), NoChange)
  {
    if !Truthy(cmd.guildId) then Outcome(Reply(ServersOnlyText, true), NoChange)
    else
      var g := cmd.guildId.value;
      if !cmd.canManageGuild && cmd.sub != "status" then Outcome(Reply(NeedManageText, true), NoChange)
      else if cmd.sub == "set" then DecideSet(g, cmd.setInput, cmd.redis)
      else if cmd.sub == "disable" then
        if FailsOn(cmd.redis, 0) then Outcome(Reply(ErrorText(cmd.redis.thrown), true), NoChange)
        else if !Truthy(GetAiChannel(pointers, g)) then Outcome(Reply(NotEnabledText, true), NoChange)
        else if FailsOn(cmd.redis, 1) then Outcome(Reply(ErrorText(cmd.redis.thrown), true), NoChange)
        else Outcome(Reply(DisabledText, false), Clear(g))
      else if cmd.sub == "status" then
        if FailsOn(cmd.redis, 0) then Outcome(Reply(ErrorText(cmd.redis.thrown), true), NoChange)
        else
          var cur := GetAiChannel(pointers, g);
          if !Truthy(cur) then Outcome(Reply(NotSetText, true), NoChange)
          else Outcome(Reply(Pin + "AI chat is enabled in " + Mention(cur.value) + ".", true), NoChange)
      else Outcome(Reply(UnknownText, true), NoChange)
  }

  /** The pointers after an action. */
  function Apply(pointers: map<GuildId, ChannelId>, a: Action): (p: map<GuildId, ChannelId>)
    ensures a.NoChange? ==> p == pointers
    ensures a.Point? ==> p == pointers[a.guildId := a.channelId]
    ensures a.Clear? ==> p == pointers - {a.guildId}
  {
    match a
    case NoChange => pointers
    case Point(g, c) => pointers[g := c]
    case Clear(g) => pointers - {g}
  }

  /** Only the command's own guild is ever touched. */
  lemma OnlyOwnGuildChanges(cmd: Command, pointers: map<GuildId, ChannelId>, g: GuildId)
    requires cmd.guildId != Some(g)
    ensures g in Apply(pointers, Decide(cmd, pointers).action) <==> g in pointers
    ensures g in pointers ==> Apply(pointers, Decide(cmd, pointers).action)[g] == pointers[g]
  {
  }

  /** After a successful `set`, the message handler engages exactly with human, non-blank
      messages posted in the chosen channel of that guild. */
  lemma SetDecidesEngagement(cmd: Command, pointers: map<GuildId, ChannelId>, msg: AiReply.Inbound)
    requires Decide(cmd, pointers).action.Point?
    requires msg.guildId == cmd.guildId
    requires cmd.setInput.channelId != ""
    ensures var after := Apply(pointers, Decide(cmd, pointers).action);
            AiReply.Engages(msg, GetAiChannel(after, msg.guildId.value), false)
            <==> !msg.fromBot && Trim(msg.content) != "" && msg.channelId == cmd.setInput.channelId
  {
  }

  /** After `disable`, the handler engages with no message of that guild. */
  lemma DisableStopsEngagement(cmd: Command, pointers: map<GuildId, ChannelId>, msg: AiReply.Inbound)
    requires Decide(cmd, pointers).action.Clear?
    requires msg.guildId == cmd.guildId
    ensures !AiReply.Engages(msg, GetAiChannel(Apply(pointers, Decide(cmd, pointers).action), msg.guildId.value), false)
  {
  }

  /** `setAIChannel`. */
  method SetAiChannel(store: ChatStore, guildId: GuildId, channelId: ChannelId)
    modifies store
    ensures store.aiChannels == old(store.aiChannels)[guildId := channelId]
    ensures store.histories == old(store.histories)
  {
    store.aiChannels := store.aiChannels[guildId := channelId];
  }

  /** `disableAIChannel`. */
  method DisableAiChannel(store: ChatStore, guildId: GuildId)
    modifies store
    ensures store.aiChannels == old(store.aiChannels) - {guildId}
    ensures store.histories == old(store.histories)
  {
    store.aiChannels := store.aiChannels - {guildId};
  }

  /** `handleAutoAI`: replies as `Decide` says and performs its action on the store;
      histories are never touched. */
  method HandleAutoAi(store: ChatStore, cmd: Command) returns (reply: Reply)
    modifies store
    ensures reply == Decide(cmd, old(store.aiChannels)).reply
    ensures store.aiChannels == Apply(old(store.aiChannels), Decide(cmd, old(store.aiChannels)).action)
    ensures store.histories == old(store.histories)
  {
    var o := Decide(cmd, store.aiChannels);
    reply := o.reply;
    match o.action
    case NoChange =>
    case Point(g, c) => SetAiChannel(store, g, c);
    case Clear(g) => DisableAiChannel(store, g);
  }
}
