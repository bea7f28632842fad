/** The keys of the shared Redis client (src/utils/redisClient.ts) that the AI chat
    uses: the per-guild AI channel pointer `ai:auto:<guild>`, written by the `/autoai`
    command (src/commands/aiChat.ts) and read by the message handler
    (src/utils/replyWIthAI.ts), and the per-channel history
    `channel:history:<guild>:<channel>`. Guild and channel ids are Discord snowflakes
    (decimal digits), so each key string determines its ids and the model keys by them. */
module ChatStore {

  type GuildId = string
  type ChannelId = string

  /** Who spoke a history turn. */
  datatype Role = User | Assistant

  /** One stored history turn: `{role, user, content}`. */
  datatype Turn = Turn(role: Role, user: string, content: string)

  /** The most turns a stored history keeps. */
  const MaxMessages := 20

  class ChatStore {
    /** `ai:auto:<guild>`. */
    var aiChannels: map<GuildId, ChannelId>
    /** `channel:history:<guild>:<channel>`. */
    var histories: map<(GuildId, ChannelId), seq<Turn>>

    /** A stored history never holds more than `MaxMessages` turns. */
    ghost predicate Valid()
      reads this
    {
      forall k :: k in histories ==> |histories[k]| <= MaxMessages
    }

    constructor ()
      ensures Valid() && aiChannels == map[] && histories == map[]
    {
      aiChannels := map[];
      histories := map[];
    }
  }

  /** `${guildId}:${channelId}`, the key of a channel's reply queue. */
  function ChannelKey(guildId: GuildId, channelId: ChannelId): string
  {
    guildId + ":" + channelId
  }

  predicate IsSnowflake(id: string)
  {
    forall i :: 0 <= i < |id| ==> '0' <= id[i] <= '9'
  }

  /** For snowflake ids the composite key names one channel: different (guild, channel)
      pairs never share a queue or a history. */
  lemma ChannelKeyInjective(g1: GuildId, c1: ChannelId, g2: GuildId, c2: ChannelId)
    requires IsSnowflake(g1) && IsSnowflake(g2)
    requires ChannelKey(g1, c1) == ChannelKey(g2, c2)
    ensures g1 == g2 && c1 == c2
  {
    var k := ChannelKey(g1, c1);
    assert k[|g1|] == ':' && k[|g2|] == ':';
    assert |g1| == |g2|;
    assert g1 == k[..|g1|] == g2;
    assert c1 == k[|g1| + 1..] == c2;
  }
}
