/** The meme side of the bot (src/utils/memeFetcher.ts): the meme queue with its
    refill, the embed a meme is posted as, and the per-guild auto-post schedule with the
    periodic tick that fires it. The Redis connection of that file is one `MemeStore`:
    the queue `memes:queue`, the set `memes:auto:guilds` and one `memes:auto:cfg:<guild>`
    record per guild. */
module Memes {
  import opened JsText
  import opened ContentCache

  type GuildId = string
  type ChannelId = string

  /** A meme as meme-api returns it; every field may be missing from the JSON. */
  datatype Meme = Meme(
    postLink: Option<string>,
    subreddit: Option<string>,
    title: Option<string>,
    url: Option<string>,
    author: Option<string>,
    ups: Option<int>,
    nsfw: Option<bool>,
    spoiler: Option<bool>)

  /** The outcome of the one meme-api request: failed (any error or timeout), or a body
      whose `memes` array may be missing and may hold `null`s. */
  datatype MemeResponse = RequestFailed | Body(memes: Option<seq<Option<Meme>>>)

  const LowThreshold := 5
  const MinuteMs := 60000
  /** The smallest interval `setAutoMeme` stores, in minutes. */
  const MinIntervalMin := 5
  /** The delay before the first post after enabling. */
  const FirstPostDelayMs := 60000
  /** The delay before the next attempt after a failed post. */
  const RetryDelayMs := 5 * 60000

  /** The filter of `fetchFromAPI`: both `url` and `title` are truthy. */
  predicate HasUrlAndTitle(m: Meme)
  {
    Truthy(m.url) && Truthy(m.title)
  }

  /** `fetchFromAPI`: the well-formed memes of the response in their order; a failed
      request (there is no retry) or a body without `memes` gives none. */
  function FetchFromApi(response: MemeResponse): (memes: seq<Meme>)
    ensures response.RequestFailed? || response.memes.None? ==> memes == []
    ensures forall i :: 0 <= i < |memes| ==> HasUrlAndTitle(memes[i])
    ensures response.Body? && response.memes.Some? ==>
              forall m :: m in memes <==> Some(m) in response.memes.value && HasUrlAndTitle(m)
  {
    match response
    case RequestFailed => []
    case Body(None) => []
    case Body(Some(entries)) => Keep(entries, HasUrlAndTitle)
  }

  /** The embed a meme is posted as. `url` is the link of the title. */
  datatype Embed = Embed(url: Option<string>, title: string, image: string, footer: string)

  const NsfwSign := "\U{1F51E}"
  const Separator := " \U{2022} "

  /** `meme.nsfw || meme.spoiler`. */
  predicate Flagged(m: Meme)
  {
    m.nsfw == Some(true) || m.spoiler == Some(true)
  }

  /** ` • u/<author>` when the author is truthy, else nothing. */
  function AuthorSegment(m: Meme): (a: string)
    ensures Truthy(m.author) ==> a == Separator + "u/" + m.author.value
    ensures !Truthy(m.author) ==> a == ""
  {
    if Truthy(m.author) then Separator + "u/" + m.author.value else ""
  }

  /** ` • 👍 <ups>` when the score is truthy (present and not zero), else nothing. */
  function ScoreSegment(m: Meme): (a: string)
    ensures m.ups.Some? && m.ups.value != 0 ==> a == Separator + "\U{1F44D} " + IntToDecimal(m.ups.value)
    ensures !(m.ups.Some? && m.ups.value != 0) ==> a == ""
  {
    if m.ups.Some? && m.ups.value != 0 then Separator + "\U{1F44D} " + IntToDecimal(m.ups.value) else ""
  }

  /** ` • 🔞 NSFW` for a flagged meme, else nothing. */
  function NsfwSegment(m: Meme): (a: string)
    ensures Flagged(m) ==> a == Separator + NsfwSign + " NSFW"
    ensures !Flagged(m) ==> a == ""
  {
    if Flagged(m) then Separator + NsfwSign + " NSFW" else ""
  }

  /** The footer: the subreddit, then the author and the score when truthy, then an NSFW
      note for a flagged meme, each segment in that order and only when it applies. */
  function Footer(m: Meme): (f: string)
    ensures f == "r/" + Show(m.subreddit) + AuthorSegment(m) + ScoreSegment(m) + NsfwSegment(m)
    ensures |f| >= 2 + |Show(m.subreddit)| && f[..2 + |Show(m.subreddit)|] == "r/" + Show(m.subreddit)
    ensures Flagged(m) ==> |f| >= |Separator + NsfwSign + " NSFW"| && f[|f| - |Separator + NsfwSign + " NSFW"|..] == Separator + NsfwSign + " NSFW"
    ensures !Truthy(m.author) && !(m.ups.Some? && m.ups.value != 0) && !Flagged(m) ==>
              f == "r/" + Show(m.subreddit)
  {
    var head := "r/" + Show(m.subreddit);
    var f := head + AuthorSegment(m) + ScoreSegment(m) + NsfwSegment(m);
    assert f[..|head|] == head;
    assert f == (head + AuthorSegment(m) + ScoreSegment(m)) + NsfwSegment(m);
    f
  }

  /** `createEmbed`: a flagged meme gets the NSFW sign before its title and its image
      wrapped in spoiler bars; the link is `postLink`, falling back to `url`. */
  function CreateEmbed(m: Meme): (e: Embed)
    requires m.title.Some? && m.url.Some?
    ensures e.url == OrElse(m.postLink, m.url)
    ensures Flagged(m) ==> e.title == NsfwSign + " " + m.title.value && e.image == "||" + m.url.value + "||"
    ensures !Flagged(m) ==> e.title == m.title.value && e.image == m.url.value
    ensures e.footer == Footer(m)
  {
    if Flagged(m) then
      Embed(OrElse(m.postLink, m.url), NsfwSign + " " + m.title.value, "||" + m.url.value + "||", Footer(m))
    else
      Embed(OrElse(m.postLink, m.url), m.title.value, m.url.value, Footer(m))
  }

  /** A guild's auto-post record. */
  datatype AutoConfig = AutoConfig(channelId: ChannelId, intervalMs: int, nextAt: int)

  /** The value under `memes:auto:cfg:<guild>`: a record, the empty string, or other text
      that `JSON.parse` rejects. */
  datatype StoredConfig = Config(cfg: AutoConfig) | Empty | Unreadable

  /** The two keys the scheduler works on. */
  datatype Schedule = Schedule(guilds: set<GuildId>, configs: map<GuildId, StoredConfig>)

  datatype TickResult = TickResult(schedule: Schedule, aborted: bool)

  /** Which Redis command of the tick throws while it visits a guild: none, the `get` of
      its record, or the write that follows it (the `srem` of a guild without a record, or
      the `set` of the rescheduled record after the post). */
  datatype StoreFault = NoFault | ReadFails | WriteFails

  /** `!raw`: the guild has no record, or its record is the empty string. */
  predicate NoRecord(configs: map<GuildId, StoredConfig>, g: GuildId)
  {
    g !in configs || configs[g].Empty?
  }

  /** Visiting `g` throws out of the loop: its `get` fails, its record does not parse, or
      the write its visit makes fails (a guild that is not due makes none). */
  predicate Throws(configs: map<GuildId, StoredConfig>, g: GuildId, now: int, fault: StoreFault)
  {
    || fault == ReadFails
    || (!NoRecord(configs, g) && configs[g].Unreadable?)
    || (fault == WriteFails && (NoRecord(configs, g) || (configs[g].Config? && now >= configs[g].cfg.nextAt)))
  }

  /** The new record after a post attempt at `now`. */
  function Reschedule(c: AutoConfig, now: int, ok: bool): (c': AutoConfig)
    ensures c'.channelId == c.channelId && c'.intervalMs == c.intervalMs
    ensures ok ==> c'.nextAt == now + c.intervalMs
    ensures !ok ==> c'.nextAt == now + RetryDelayMs
  {
    c.(nextAt := now + if ok then c.intervalMs else RetryDelayMs)
  }

  /** One visit that does not throw: a guild without a record leaves the set, a guild not
      yet due is skipped, a due guild is posted to and rescheduled by the outcome `ok`. */
  function Visit(s: Schedule, g: GuildId, now: int, ok: bool): Schedule
    requires NoRecord(s.configs, g) || s.configs[g].Config?
  {
    if NoRecord(s.configs, g) then s.(guilds := s.guilds - {g})
    else if now < s.configs[g].cfg.nextAt then s
    else s.(configs := s.configs[g := Config(Reschedule(s.configs[g].cfg, now, ok))])
  }

  /** The body of `tick` over the guilds still to visit, in `smembers` order. `delivered`
      is what `sendMeme` reports for a guild and `faults` which Redis command throws during
      its visit. Anything thrown leaves the loop: the single `try` ends the tick there. */
  function TickFrom(members: seq<GuildId>, s: Schedule, now: int, delivered: GuildId -> bool,
                    faults: GuildId -> StoreFault): TickResult
    decreases |members|
  {
    if members == [] then TickResult(s, false)
    else if Throws(s.configs, members[0], now, faults(members[0])) then TickResult(s, true)
    else TickFrom(members[1..], Visit(s, members[0], now, delivered(members[0])), now, delivered, faults)
  }

  /** A tick never creates or deletes a record. */
  lemma {:induction false} TickKeepsRecords(members: seq<GuildId>, s: Schedule, now: int, delivered: GuildId -> bool,
                                            faults: GuildId -> StoreFault)
    ensures TickFrom(members, s, now, delivered, faults).schedule.configs.Keys == s.configs.Keys
    decreases |members|
  {
    if members != [] && !Throws(s.configs, members[0], now, faults(members[0])) {
      TickKeepsRecords(members[1..], Visit(s, members[0], now, delivered(members[0])), now, delivered, faults);
    }
  }

  /** What a tick can do to one guild's record: leave it, or (only for a listed guild that
      was due) reschedule it from `now` by the outcome of its post. */
  lemma {:induction false} TickRecordOutcome(members: seq<GuildId>, s: Schedule, now: int, delivered: GuildId -> bool,
                                             faults: GuildId -> StoreFault, g: GuildId)
    requires g in s.configs
    ensures var t := TickFrom(members, s, now, delivered, faults).schedule;
            g in t.configs
            && (t.configs[g] == s.configs[g]
                || (s.configs[g].Config? && now >= s.configs[g].cfg.nextAt && g in members
                    && t.configs[g] == Config(Reschedule(s.configs[g].cfg, now, delivered(g)))))
    decreases |members|
  {
    TickKeepsRecords(members, s, now, delivered, faults);
    if members != [] && !Throws(s.configs, members[0], now, faults(members[0])) {
      var s' := Visit(s, members[0], now, delivered(members[0]));
      TickRecordOutcome(members[1..], s', now, delivered, faults, g);
      if s'.configs[g] != s.configs[g] {
        var r := Reschedule(s.configs[g].cfg, now, delivered(g));
        assert Reschedule(r, now, delivered(g)) == r;
      }
    }
  }

  /** A tick that runs to the end reschedules every listed guild that was due. */
  lemma {:induction false} TickFiresEveryDueGuild(members: seq<GuildId>, s: Schedule, now: int, delivered: GuildId -> bool,
                                                  faults: GuildId -> StoreFault, g: GuildId)
    requires g in members && g in s.configs && s.configs[g].Config? && now >= s.configs[g].cfg.nextAt
    requires !TickFrom(members, s, now, delivered, faults).aborted
    ensures g in TickFrom(members, s, now, delivered, faults).schedule.configs
    ensures TickFrom(members, s, now, delivered, faults).schedule.configs[g]
            == Config(Reschedule(s.configs[g].cfg, now, delivered(g)))
    decreases |members|
  {
    TickKeepsRecords(members, s, now, delivered, faults);
    var s' := Visit(s, members[0], now, delivered(members[0]));
    if members[0] == g {
      TickRecordOutcome(members[1..], s', now, delivered, faults, g);
      var r := Reschedule(s.configs[g].cfg, now, delivered(g));
      assert Reschedule(r, now, delivered(g)) == r;
    } else {
      TickFiresEveryDueGuild(members[1..], s', now, delivered, faults, g);
    }
  }

  /** Only guilds without a record (or with an empty one) leave the set, and a tick that
      runs to the end drops every listed guild that has none. */
  lemma {:induction false} TickSelfHeals(members: seq<GuildId>, s: Schedule, now: int, delivered: GuildId -> bool,
                                         faults: GuildId -> StoreFault)
    ensures var t := TickFrom(members, s, now, delivered, faults);
            && t.schedule.guilds <= s.guilds
            && (forall g :: g in s.guilds && g !in t.schedule.guilds ==> g in members && NoRecord(s.configs, g))
            && (!t.aborted ==> forall g :: g in members && NoRecord(s.configs, g) ==> g !in t.schedule.guilds)
    decreases |members|
  {
    if members != [] && !Throws(s.configs, members[0], now, faults(members[0])) {
      var s' := Visit(s, members[0], now, delivered(members[0]));
      assert forall g :: NoRecord(s'.configs, g) == NoRecord(s.configs, g);
      TickSelfHeals(members[1..], s', now, delivered, faults);
    }
  }

  /** The first visit that throws ends the tick: the guilds listed after it are not
      visited, so the result is that of the tick over the guilds before it. (`smembers`
      lists each guild once.) */
  lemma {:induction false} TickEndsAtFirstThrow(members: seq<GuildId>, s: Schedule, now: int, delivered: GuildId -> bool,
                                                faults: GuildId -> StoreFault, k: nat)
    requires k < |members|
    requires forall i, j :: 0 <= i < j <= k ==> members[i] != members[j]
    requires forall i :: 0 <= i < k ==> !Throws(s.configs, members[i], now, faults(members[i]))
    requires Throws(s.configs, members[k], now, faults(members[k]))
    ensures TickFrom(members, s, now, delivered, faults)
            == TickResult(TickFrom(members[..k], s, now, delivered, faults).schedule, true)
    decreases k
  {
    if k > 0 {
      var s' := Visit(s, members[0], now, delivered(members[0]));
      var rest := members[1..];
      assert members[..k][1..] == rest[..k - 1];
      forall i | 0 <= i <= k - 1
        ensures Throws(s'.configs, rest[i], now, faults(rest[i])) == Throws(s.configs, rest[i], now, faults(rest[i]))
      {
        assert rest[i] == members[i + 1] != members[0];
      }
      TickEndsAtFirstThrow(rest, s', now, delivered, faults, k - 1);
    } else {
      assert members[..0] == [];
    }
  }

  /** A due guild whose rescheduled record cannot be saved after its post keeps its old
      record: the tick ends there and the guild is still due, so the next tick posts to it
      again. */
  lemma FailedSaveLeavesGuildDue(members: seq<GuildId>, s: Schedule, now: int, delivered: GuildId -> bool,
                                 faults: GuildId -> StoreFault, k: nat)
    requires k < |members|
    requires forall i, j :: 0 <= i < j <= k ==> members[i] != members[j]
    requires forall i :: 0 <= i < k ==> !Throws(s.configs, members[i], now, faults(members[i]))
    requires members[k] in s.configs && s.configs[members[k]].Config? && now >= s.configs[members[k]].cfg.nextAt
    requires faults(members[k]) == WriteFails
    ensures var t := TickFrom(members, s, now, delivered, faults);
            t.aborted && members[k] in t.schedule.configs && t.schedule.configs[members[k]] == s.configs[members[k]]
            && now >= t.schedule.configs[members[k]].cfg.nextAt
  {
    TickEndsAtFirstThrow(members, s, now, delivered, faults, k);
    TickRecordOutcome(members[..k], s, now, delivered, faults, members[k]);
    assert members[k] !in members[..k];
  }

  /** Every readable record has a positive interval. */
  predicate PositiveIntervals(configs: map<GuildId, StoredConfig>)
  {
    forall g :: g in configs && configs[g].Config? ==> configs[g].cfg.intervalMs > 0
  }

  /** After a tick that runs to the end with positive intervals, no listed guild is due
      any more at `now`: a guild is never posted to twice in one tick. */
  lemma NothingDueAfterTick(members: seq<GuildId>, s: Schedule, now: int, delivered: GuildId -> bool,
                            faults: GuildId -> StoreFault)
    requires PositiveIntervals(s.configs)
    requires !TickFrom(members, s, now, delivered, faults).aborted
    ensures var t := TickFrom(members, s, now, delivered, faults).schedule;
            forall g :: g in members && g in t.configs && t.configs[g].Config? ==> now < t.configs[g].cfg.nextAt
  {
    var t := TickFrom(members, s, now, delivered, faults).schedule;
    TickKeepsRecords(members, s, now, delivered, faults);
    forall g | g in members && g in t.configs && t.configs[g].Config?
      ensures now < t.configs[g].cfg.nextAt
    {
      TickRecordOutcome(members, s, now, delivered, faults, g);
      if now >= s.configs[g].cfg.nextAt {
        TickFiresEveryDueGuild(members, s, now, delivered, faults, g);
      }
    }
  }

  /** `getAutoConfig`: the guild's record, or nothing when it is missing or unreadable. */
  function GetAutoConfig(configs: map<GuildId, StoredConfig>, guildId: GuildId): (c: Option<AutoConfig>)
    ensures c.Some? <==> guildId in configs && configs[guildId].Config?
    ensures c.Some? ==> c.value == configs[guildId].cfg
  {
    if guildId in configs && configs[guildId].Config? then Some(configs[guildId].cfg) else None
  }

  /** The Redis state of src/utils/memeFetcher.ts. */
  class MemeStore {
    /** `memes:queue`. */
    const queue: Pool<Meme>
    /** `memes:auto:guilds`. */
    var autoGuilds: set<GuildId>
    /** `memes:auto:cfg:<guild>`. */
    var autoConfigs: map<GuildId, StoredConfig>

    /** Every meme in the queue passed the fetch filter, and every record keeps an
        interval of at least five minutes. */
    ghost predicate Valid()
      reads this, queue
    {
      && queue.lowWatermark == LowThreshold
      && AllStored(queue.entries, HasUrlAndTitle)
      && forall g :: g in autoConfigs && autoConfigs[g].Config? ==>
           autoConfigs[g].cfg.intervalMs >= MinIntervalMin * MinuteMs
    }

    constructor ()
      ensures Valid() && fresh(queue)
      ensures queue.entries == [] && autoGuilds == {} && autoConfigs == map[]
    {
      queue := new Pool(LowThreshold, []);
      autoGuilds := {};
      autoConfigs := map[];
    }

    /** `fillCache`: the memes that pass the filter go to the tail of the queue in order,
        and their number is returned; an empty fetch changes nothing and returns 0. */
    method FillCache(response: MemeResponse) returns (added: nat)
      requires Valid()
      modifies queue
      ensures Valid()
      ensures added == |FetchFromApi(response)|
      ensures queue.entries == old(queue.entries) + Encode(FetchFromApi(response))
    {
      added := queue.Fill(FetchFromApi(response));
    }

    /** `popMeme`: the head of the queue; on an empty queue exactly one `fillCache` (with
        `refetch` as its response) and one more pop. `refilled` says whether that fill ran,
        `backgroundRefill` whether a refill is started after a successful pop. */
    method PopMeme(refetch: MemeResponse) returns (meme: Option<Meme>, refilled: bool, backgroundRefill: bool)
      requires Valid()
      modifies queue
      ensures Valid()
      ensures refilled <==> Falsy(Head(old(queue.entries)))
      ensures !refilled ==>
                queue.entries == Rest(old(queue.entries)) && meme == Parse(old(queue.entries)[0])
                && backgroundRefill == (|queue.entries| < LowThreshold)
      ensures refilled ==>
                var filled := Rest(old(queue.entries)) + Encode(FetchFromApi(refetch));
                queue.entries == Rest(filled)
                && (Falsy(Head(filled)) ==> meme.None? && !backgroundRefill)
                && (!Falsy(Head(filled)) ==>
                      meme == Parse(filled[0]) && backgroundRefill == (|queue.entries| < LowThreshold))
      ensures meme.Some? ==> HasUrlAndTitle(meme.value)
    {
      ghost var before := queue.entries;
      var fetched := FetchFromApi(refetch);
      meme, refilled, backgroundRefill := queue.Pop(fetched);
      if refilled {
        AllStoredRefill(before, fetched, HasUrlAndTitle);
      } else {
        AllStoredRest(before, HasUrlAndTitle);
      }
    }

    /** `setAutoMeme`: the guild joins the set (`sadd`), then its record is overwritten
        (`set`) with the interval raised to at least five minutes (no upper bound here) and
        the first post one minute from `now`. `completes` is how many of those two writes
        succeed before one throws; the writes after a throw do not happen. */
    method SetAutoMeme(guildId: GuildId, channelId: ChannelId, intervalMin: int, now: int, completes: nat)
      requires Valid()
      modifies this
      ensures Valid()
      ensures completes >= 1 ==> autoGuilds == old(autoGuilds) + {guildId}
      ensures completes == 0 ==> autoGuilds == old(autoGuilds)
      ensures completes >= 2 ==>
                autoConfigs == old(autoConfigs)[guildId := Config(AutoConfig(
                  channelId, (if intervalMin < MinIntervalMin then MinIntervalMin else intervalMin) * MinuteMs,
                  now + FirstPostDelayMs))]
      ensures completes < 2 ==> autoConfigs == old(autoConfigs)
    {
      var minutes := if intervalMin < MinIntervalMin then MinIntervalMin else intervalMin;
      if completes >= 1 {
        autoGuilds := autoGuilds + {guildId};
      }
      if completes >= 2 {
        autoConfigs := autoConfigs[guildId := Config(AutoConfig(channelId, minutes * MinuteMs, now + FirstPostDelayMs))];
      }
    }

    /** `disableAutoMeme`: the guild leaves the set (`srem`), then its record is deleted
        (`del`); `completes` is as for `SetAutoMeme`. */
    method DisableAutoMeme(guildId: GuildId, completes: nat)
      requires Valid()
      modifies this
      ensures Valid()
      ensures completes >= 1 ==> autoGuilds == old(autoGuilds) - {guildId}
      ensures completes == 0 ==> autoGuilds == old(autoGuilds)
      ensures completes >= 2 ==> autoConfigs == old(autoConfigs) - {guildId}
      ensures completes < 2 ==> autoConfigs == old(autoConfigs)
    {
      if completes >= 1 {
        autoGuilds := autoGuilds - {guildId};
      }
      if completes >= 2 {
        autoConfigs := autoConfigs - {guildId};
      }
    }

    /** One `tick` at time `now`. `snapshot` is what `smembers` returned at its start
        (nothing when it threw); `delivered` and `faults` are as for `TickFrom`. Returns
        whether something thrown ended it early. */
    method Tick(now: int, snapshot: Option<seq<GuildId>>, delivered: GuildId -> bool,
                faults: GuildId -> StoreFault) returns (aborted: bool)
      requires Valid()
      modifies this
      ensures Valid()
      ensures snapshot.None? ==> aborted && autoGuilds == old(autoGuilds) && autoConfigs == old(autoConfigs)
      ensures snapshot.Some? ==>
                TickResult(Schedule(autoGuilds, autoConfigs), aborted)
                == TickFrom(snapshot.value, Schedule(old(autoGuilds), old(autoConfigs)), now, delivered, faults)
    {
      if snapshot.None? {
        return true;
      }
      var members := snapshot.value;
      ghost var target := TickFrom(members, Schedule(autoGuilds, autoConfigs), now, delivered, faults);
      var i := 0;
      while i < |members|
        invariant 0 <= i <= |members|
        invariant Valid()
        invariant TickFrom(members[i..], Schedule(autoGuilds, autoConfigs), now, delivered, faults) == target
      {
        var gid := members[i];
        assert members[i..][1..] == members[i + 1..];
        if faults(gid) == ReadFails {
          return true;
        }
        if NoRecord(autoConfigs, gid) {
          if faults(gid) == WriteFails {
            return true;
          }
          autoGuilds := autoGuilds - {gid};
        } else {
          match autoConfigs[gid]
          case Unreadable =>
            return true;
          case Config(c) =>
            if now >= c.nextAt {
              var ok := delivered(gid);
              if faults(gid) == WriteFails {
                return true;
              }
              autoConfigs := autoConfigs[gid := Config(Reschedule(c, now, ok))];
            }
        }
        i := i + 1;
      }
      return false;
    }
  }
}
