# A Dafny model of the core of a Discord bot

The bot (TypeScript, discord.js, Redis) does four things this project models:

- **Content caches.** It keeps three FIFO queues in Redis lists: memes from meme-api, jokes from JokeAPI and dad jokes from icanhazdadjoke.
  - Each queue is filled in batches that pass a shape filter.
  - A pop takes the head. An empty queue gets one synchronous refill.
  - A background refill starts when the queue runs low.
- **Scheduled meme posting.** There is a set of enabled guilds, and each has a `{channelId, intervalMs, nextAt}` record.
  - A minute tick posts to every guild that is due and reschedules it.
  - The `/meme-auto` command enables, disables and reports a guild's schedule.
- **AI chat.** Each guild may point to one AI channel, set by `/autoai`.
  - Human, non-blank messages in that channel are queued per channel.
  - Each queue is drained one model call at a time.
  - The last 20 turns of each channel's history are stored.
- **Commands that shape text.** `/search` validates the query and truncates the answer. `/internetlore` and `/joke` render embeds. Start-up configuration is read from the environment.

State that the source updates in place is modelled by classes whose methods are proved against functions:

- `ContentCache.Pool` is one Redis list.
- `Memes.MemeStore` holds the meme queue, the auto-post set and the records.
- `Jokes.JokeStore` holds the two joke queues.
- `ChatStore.ChatStore` holds the AI-channel pointers and the histories.
- `AiReply.ReplyQueue` holds the per-channel queues and the processing flags.

The decisions made by commands and renderers are pure functions.

Everything outside the bot is an input to the model:
- the network and its responses;
- Redis failures;
- the clock (`now`);
- Discord lookups and permissions;
- whether a post was delivered;
- the language model's reply.

Where the bot's documented behaviour and its code differ, the model follows the code:
- **No retries.** An upstream fetch that fails yields an empty batch. It is not retried and has no backoff.
- **The tick stops at the first throw.** The tick has a single `try` around its whole loop. A stored record that does not parse as JSON, or a Redis command that fails, ends the tick, so the guilds after it are skipped (`Memes.TickEndsAtFirstThrow`). An empty record counts as no record: the guild leaves the set.
- **Only the AI channel engages.** The bot replies only to messages posted in the guild's stored AI channel. There is no mention or reply trigger.
- **The user turn is kept only in the task.** An engaged message's user turn is added to a snapshot of the history inside the queued task; it is not stored. Two messages queued back to back therefore both start from the same stored history, and saving the second reply overwrites the first exchange (`AiReply.QueueTwoMessages`, `AiReply.BackToBackMessages`).

## Model

| member | source | states |
|---|---|---|
| JsText.Trim | src/utils/config.ts:4 | `trim()` returns a string that is no longer than its input and neither starts nor ends with ECMAScript whitespace |
| JsText.TrimInfix | src/utils/replyWIthAI.ts:114 | the trimmed string is the infix of the input left between an all-whitespace prefix and an all-whitespace suffix |
| JsText.TrimEmptyIffBlank | src/utils/replyWIthAI.ts:97 | the trimmed text is empty exactly when the message is all whitespace, the case the handler drops |
| JsText.TrimUnpadded | src/commands/search.ts:34 | a string with no whitespace at either end is its own trim |
| JsText.TrimIdempotent | src/commands/search.ts:34 | trimming twice is trimming once |
| JsText.OrElse | src/commands/search.ts:93 | `a \|\| b` on optional strings yields `a` when it is present and non-empty, else `b` |
| JsText.Show | src/commands/joke.ts:19 | a template literal renders a present value as itself and a missing one as "undefined" |
| JsText.NatToDecimal | src/commands/lore.ts:23 | a number renders as a non-empty string of decimal digits without a leading zero |
| JsText.IntToDecimal | src/commands/lore.ts:23 | a negative number renders as "-" followed by the digits of its magnitude |
| JsText.DecimalRoundTrip | src/commands/meme-auto.ts:141 | reading the rendered digits back gives the number again |
| JsText.Ellipsize | src/commands/lore.ts:16-18 | a string that fits the limit is unchanged; a longer one becomes its first `keep` characters plus "...", and is then within the limit |
| BotConfig.Lookup | src/utils/config.ts:4 | the variable's trimmed value is present exactly when the variable is set |
| BotConfig.GetEnv | src/utils/config.ts:3-9 | it throws exactly when both the trimmed value and the fallback are empty or missing, with the "Missing required environment variable" message; otherwise it returns the trimmed value or the fallback, never empty |
| BotConfig.EmptyFallbackIsNoFallback | src/utils/config.ts:5 | an empty fallback behaves exactly like no fallback |
| BotConfig.LoadConfigAsWritten | src/utils/config.ts:11-20 | the configuration as written; any configuration it yields has a non-empty guild id, and a missing token is the first failure |
| BotConfig.GuildIdRequiredAsWritten | src/utils/config.ts:15 | with TOKEN and APPLICATION_ID set and GUILD_ID unset, start-up throws for GUILD_ID |
| BotConfig.GetOptionalEnv | src/utils/config.ts:15 | an optional variable yields its trimmed value when that is not blank, else the fallback |
| BotConfig.LoadConfig | src/utils/config.ts:11-20 | the configuration with GUILD_ID optional; a missing token is still the first failure |
| BotConfig.LoadConfigSucceedsIffCredentials | src/utils/config.ts:13-18 | start-up succeeds exactly when TOKEN and APPLICATION_ID are non-blank; the token and application id are then their trimmed values, and the Redis URL is never empty |
| ContentCache.Parse | src/utils/memeFetcher.ts:85-89 | `JSON.parse` in its `try` yields the item for a well-formed element and null for a corrupt one |
| ContentCache.Encode | src/utils/memeFetcher.ts:61 | a batch is pushed as one element per item, in order |
| ContentCache.Keep | src/utils/memeFetcher.ts:48 | `filter` keeps exactly the present items that pass the test, never adds any, and every kept item passes |
| ContentCache.KeepAppend | src/utils/jokeFetcher.ts:43 | filtering a concatenation is the concatenation of the filtered parts |
| ContentCache.AllStoredRefill | src/utils/memeFetcher.ts:69-77 | a pop followed by a fill of good items leaves only good well-formed elements |
| ContentCache.Pool.Fill | src/utils/memeFetcher.ts:55-67 | an empty batch adds nothing; otherwise every item goes to the tail in order, and the batch size is returned |
| ContentCache.Pool.LPop | src/utils/memeFetcher.ts:71 | `lpop` removes and returns the head, or nothing from an empty list |
| ContentCache.Pool.Pop | src/utils/memeFetcher.ts:69-90 | a usable head is taken at once. An empty list or an empty-string head leads to exactly one fill and one more pop. A background refill is due iff fewer elements than the low watermark remain. A corrupt element is consumed and yields null |
| Memes.FetchFromApi | src/utils/memeFetcher.ts:42-53 | a failed request or a missing list yields no memes; otherwise the result is the memes with a truthy url and title, in order |
| Memes.AuthorSegment | src/utils/memeFetcher.ts:99 | ` • u/<author>` exactly when the author is truthy, else nothing |
| Memes.ScoreSegment | src/utils/memeFetcher.ts:100 | ` • 👍 <ups>` exactly when the score is present and not zero, else nothing |
| Memes.NsfwSegment | src/utils/memeFetcher.ts:101 | the NSFW note exactly for a flagged meme, else nothing |
| Memes.Footer | src/utils/memeFetcher.ts:97-103 | the footer is `r/<subreddit>` followed by the author, score and NSFW segments in that order, each present only when its field is truthy; so it starts with `r/<subreddit>`, ends with the NSFW note for a flagged meme, and is just `r/<subreddit>` when there is no author, score or flag |
| Memes.CreateEmbed | src/utils/memeFetcher.ts:92-116 | the link is `postLink \|\| url`; a flagged meme gets the 🔞 title prefix and a spoilered image; otherwise the title and image are unchanged |
| Memes.Reschedule | src/utils/memeFetcher.ts:194 | after a delivered post the next time is now plus the interval; after a failed one it is now plus five minutes; the channel and interval are kept |
| Memes.TickKeepsRecords | src/utils/memeFetcher.ts:183-196 | a tick never creates or deletes a record, whatever fails |
| Memes.TickRecordOutcome | src/utils/memeFetcher.ts:183-196 | a record is left unchanged or rescheduled from this tick's `now`, and only a listed, due guild is rescheduled |
| Memes.TickFiresEveryDueGuild | src/utils/memeFetcher.ts:191-195 | a tick that runs to the end reschedules every listed guild that was due, by whether its post was delivered |
| Memes.TickSelfHeals | src/utils/memeFetcher.ts:184-187 | only guilds with no record or an empty one leave the set; a tick that runs to the end removes every listed guild with no record or an empty one |
| Memes.TickEndsAtFirstThrow | src/utils/memeFetcher.ts:178-199 | the first visit that throws (a failed `get`, an unparsable record, a failed `srem` or `set`) aborts the tick with the state the earlier visits left, and no guild after it is visited |
| Memes.FailedSaveLeavesGuildDue | src/utils/memeFetcher.ts:193-195 | when the `set` after a post fails, the tick aborts and the guild keeps its old record, so it is still due and gets posted to again by the next tick |
| Memes.NothingDueAfterTick | src/utils/memeFetcher.ts:191-194 | after a tick that runs to the end, with positive intervals, no listed guild with a record is still due at `now` |
| Memes.GetAutoConfig | src/utils/memeFetcher.ts:160-171 | the guild's record is returned exactly when it exists, is not empty and parses |
| Memes.MemeStore.FillCache | src/utils/memeFetcher.ts:55-67 | the filtered memes are appended in order and counted; the store invariant is kept |
| Memes.MemeStore.PopMeme | src/utils/memeFetcher.ts:69-90 | the pop discipline on the meme queue, and every meme returned has a url and a title |
| Memes.MemeStore.SetAutoMeme | src/utils/memeFetcher.ts:137-151 | the guild joins the set if `sadd` succeeds; then, if `set` succeeds too, its record is overwritten with the interval clamped to at least five minutes and the first post one minute from now; a failed write changes nothing after it |
| Memes.MemeStore.DisableAutoMeme | src/utils/memeFetcher.ts:153-158 | the guild leaves the set if `srem` succeeds, then its record is deleted if `del` succeeds too |
| Memes.MemeStore.Tick | src/utils/memeFetcher.ts:177-200 | a failed `smembers` changes nothing and aborts; otherwise the loop over the snapshot, with the given Redis failures, leaves exactly the set and records the tick function gives, and reports whether it aborted |
| Jokes.FetchJokesFromApi | src/utils/jokeFetcher.ts:35-48 | a failed request or a missing list yields nothing; otherwise the result is the jokes with a truthy setup or joke, in order |
| Jokes.Candidate | src/utils/jokeFetcher.ts:60-61 | a response offers a dad joke exactly when its body has a `joke` field, and the joke carries that text and the body's id |
| Jokes.KeptDadJokes | src/utils/jokeFetcher.ts:60-62 | a dad joke is kept exactly when some response's body carries it with a non-empty text; no more are kept than there were responses |
| Jokes.KeptDadJokesAppend | src/utils/jokeFetcher.ts:55-63 | the jokes of two runs of requests are those of the first followed by those of the second, so request order is kept |
| Jokes.KeptDadJokesSingle | src/utils/jokeFetcher.ts:60-62 | one request yields its joke and id exactly when its body's `joke` is truthy |
| Jokes.FetchDadJokesFromApi | src/utils/jokeFetcher.ts:51-69 | the requests run in order; one failure discards the whole batch; otherwise the kept jokes are returned |
| Jokes.JokeStore.FillJokesCache | src/utils/jokeFetcher.ts:72-84 | the filtered jokes go to the tail of the joke queue and are counted; the dad-joke queue is untouched |
| Jokes.JokeStore.FillDadJokesCache | src/utils/jokeFetcher.ts:87-99 | a failed batch adds nothing; otherwise the kept dad jokes go to the tail and are counted; the joke queue is untouched |
| Jokes.JokeStore.PopJoke | src/utils/jokeFetcher.ts:102-123 | the pop discipline on the joke queue, with a low watermark of three; a returned joke has a setup or a joke |
| Jokes.JokeStore.PopDadJoke | src/utils/jokeFetcher.ts:126-147 | the pop discipline on the dad-joke queue, whose synchronous fill makes the default 30 requests; a returned dad joke is never empty |
| ChatStore.ChannelKeyInjective | src/utils/replyWIthAI.ts:36 | for snowflake ids, the `guild:channel` queue key names exactly one channel |
| AiReply.GetChannelHistory | src/utils/replyWIthAI.ts:11-14 | a missing history reads as empty; otherwise it is the stored one |
| AiReply.LastTurns | src/utils/replyWIthAI.ts:22-24 | at most 20 turns are kept, and they are the most recent ones |
| AiReply.LastTurnsAppend | src/utils/replyWIthAI.ts:81-82 | truncating before appending a turn and truncating after it give the same stored history |
| AiReply.LastTurnsIdempotent | src/utils/replyWIthAI.ts:22-24 | a stored history is not shortened again |
| AiReply.ToChatMessage | src/utils/replyWIthAI.ts:59-66 | an assistant turn is sent as its content; any other turn is sent as a user message `<name>: <content>` |
| AiReply.Payload | src/utils/replyWIthAI.ts:45-70 | the system prompt comes first and only there, followed by one message per history turn in order |
| AiReply.AnswerText | src/utils/replyWIthAI.ts:75-77 | the reply is the model's content when truthy, else the stock line; it is never empty |
| AiReply.SaveChannelHistory | src/utils/replyWIthAI.ts:17-29 | the last 20 turns are stored under the channel, and nothing else changes |
| AiReply.ReplyQueue.TaskFor | src/utils/replyWIthAI.ts:113-122 | the queued task is the message with the stored history plus the trimmed user turn |
| AiReply.ReplyQueue.Advance | src/utils/replyWIthAI.ts:41-89 | the loop head takes the next task in arrival order, or clears the flag on an empty queue; the per-channel invariant is restored |
| AiReply.ReplyQueue.HandleMessage | src/utils/replyWIthAI.ts:95-126 | a message is queued exactly when it is from a human in a guild, is not blank, is in the guild's stored AI channel whose lookup succeeded, and its history could be read. A busy channel only queues it; an idle one becomes busy and starts on it; no other channel changes, and a stuck channel stays stuck |
| AiReply.ReplyQueue.Enqueue | src/utils/replyWIthAI.ts:120-125 | the task joins the channel's arrivals; a busy channel only queues it, an idle one is flagged and starts on it; no other channel changes; at most one model call per channel is outstanding, and tasks start in arrival order |
| AiReply.ReplyQueue.Respond | src/utils/replyWIthAI.ts:72-86 | a posted answer is saved with the last 20 turns of the task's history; if the call, the answer or the save fails, the apology is posted (when that succeeds) and nothing is stored |
| AiReply.ReplyQueue.Complete | src/utils/replyWIthAI.ts:72-89 | as `Respond`; then the loop moves on to the next task or clears the flag, except that a failed apology leaves the loop with the flag set, so the channel is stuck |
| AiReply.ReplyQueue.CompleteGuarded | src/utils/replyWIthAI.ts:83-89 | as `Complete` with the apology's failure caught: the loop always moves on and the channel is never stuck |
| AiReply.QueueTwoMessages | src/utils/replyWIthAI.ts:117-125 | two messages in a row: the first is in flight, and the second waits with a snapshot that lacks the first exchange |
| AiReply.BackToBackMessages | src/utils/replyWIthAI.ts:81-82 | after both replies, the stored history holds only the second exchange |
| AiReply.ApologyFailureStallsChannel | src/utils/replyWIthAI.ts:83-89 | a failed model call whose apology also fails leaves the channel stuck, with the waiting message and a later one both queued and neither in flight |
| AiChat.ErrorText | src/commands/aiChat.ts:134-137 | an `Error`'s own message, else the stock failure line |
| AiChat.GetAiChannel | src/commands/aiChat.ts:20-22 | the stored pointer exactly when there is one |
| AiChat.DecideSet | src/commands/aiChat.ts:48-95 | the pointer is written exactly when all of these hold and the Redis write succeeds: a guild text channel, a usable fetch, the bot member, and send and embed permission. Each failed check has its own reply (a thrown fetch or lookup shows the error's message), and a failed write shows the error's message |
| AiChat.Decide | src/commands/aiChat.ts:24-148 | outside a guild nothing happens. Without Manage Server, only `status` runs. `set` points, and `disable` clears only an existing pointer. `status` reports the pointer, and an unknown subcommand is refused. A Redis command that throws changes nothing and shows the error's message |
| AiChat.Apply | src/commands/aiChat.ts:12-18 | a pointer is written or deleted for the one guild |
| AiChat.OnlyOwnGuildChanges | src/commands/aiChat.ts:90-106 | no other guild's pointer ever changes |
| AiChat.SetDecidesEngagement | src/utils/replyWIthAI.ts:96-107 | after a successful `set`, the handler engages exactly with human, non-blank messages in the chosen channel |
| AiChat.DisableStopsEngagement | src/utils/replyWIthAI.ts:106-107 | after `disable`, the handler engages with no message of that guild |
| AiChat.SetAiChannel | src/commands/aiChat.ts:12-14 | the guild's pointer becomes the channel; histories are untouched |
| AiChat.DisableAiChannel | src/commands/aiChat.ts:16-18 | the guild's pointer is deleted; histories are untouched |
| AiChat.HandleAutoAi | src/commands/aiChat.ts:24-148 | the reply and the store change are those of the decision |
| MemeAuto.ErrorText | src/commands/meme-auto.ts:153-155 | an error mentioning "Redis" gives the database line; any other gives the failure line |
| MemeAuto.IntervalOf | src/commands/meme-auto.ts:30 | the interval option, or 120 minutes when absent |
| MemeAuto.WholeMinutes | src/commands/meme-auto.ts:124 | `Math.floor(ms / 60000)` brackets `ms` between whole minutes |
| MemeAuto.IntervalMinutes | src/commands/meme-auto.ts:124 | the status interval is the whole minutes of the stored interval |
| MemeAuto.NextMinutes | src/commands/meme-auto.ts:125-128 | the minutes to the next post are never negative, and are zero exactly when less than a minute remains |
| MemeAuto.StatusAfterSet | src/commands/meme-auto.ts:124-128 | a record just set reports its interval as the minutes it was set with, and its next post as one minute away |
| MemeAuto.WritesDone | src/commands/meme-auto.ts:91 | of two writes, both complete unless one throws, and then exactly those before it do |
| MemeAuto.DecideSet | src/commands/meme-auto.ts:25-96 | `setAutoMeme` runs exactly when all of these hold: a guild text channel, an interval in 5..1440, a usable fetch, the bot member, and send and embed permission. Each failed check has its own reply, a throwing fetch gives the "Unable to access" line, and a throwing bot-member lookup or Redis write gives the catch block's line |
| MemeAuto.Decide | src/commands/meme-auto.ts:13-165 | outside a guild nothing happens. `set` enables, and `disable` removes only a readable record. `status` reports a readable record or "not configured", and an unknown subcommand is refused. A failed `get` changes nothing; a failed write stops the writes after it; either gives the catch block's line |
| MemeAuto.EnabledIntervalInRange | src/commands/meme-auto.ts:41-46 | the command never stores an interval outside 5..1440 minutes |
| MemeAuto.UnreadableRecordSurvivesDisable | src/commands/meme-auto.ts:99-105 | an empty or unparsable record reads as none, so `disable` changes nothing and, when its `get` succeeds, reports "not enabled" |
| MemeAuto.HandleMemeAuto | src/commands/meme-auto.ts:13-165 | the reply and the store change are those of the decision, with the writes before a Redis failure done and the rest not; so a failed `set` leaves the guild's old record; the meme queue is untouched |
| Search.Query | src/commands/search.ts:34 | the query is present exactly when given, and is then its trimmed text |
| Search.AnswerBody | src/commands/search.ts:70-73 | an answer of at most 1900 characters is unchanged; a longer one is its first 1900 plus the truncation note |
| Search.QuestionField | src/commands/search.ts:78-82 | the field fits 1024 characters: the query itself, or its first 1021 characters plus "..." |
| Search.FailureReason | src/commands/search.ts:90-93 | status 429 gives the rate-limit line; otherwise the error message when non-empty, else the stock line |
| Search.HandleSearch | src/commands/search.ts:25-97 | it replies early exactly when there is no client or the query is blank or over 512 characters; it reports blank answers, shapes found ones, and shows failures as "Search failed" |
| Search.QuestionFieldIsQuery | src/commands/search.ts:39-81 | because of the 512 limit, the question field is always the whole trimmed query |
| Search.AnswerBounds | src/commands/search.ts:63-73 | a shown answer is non-empty, bounded by 1900 plus the note, and whole when it fits |
| Lore.HandleLore | src/commands/lore.ts:4-41 | no post gives the "no lore" reply. Otherwise the title is shortened to 256 characters. The description is present exactly when the text is non-empty, shortened to 4096. The image is present exactly when the image url is non-empty |
| Lore.TitleFits | src/commands/lore.ts:15-19 | the title fits 256 characters, is the post's title exactly when that fits, and otherwise is its first 253 characters plus "..." |
| Lore.DescriptionFits | src/commands/lore.ts:27-33 | a shown description is non-empty, fits 4096 characters, and is the whole text when that fits |
| Lore.FooterNamesSource | src/commands/lore.ts:22-24 | the footer starts with `r/<subreddit>`, then ` • u/<author>`, and ends with the score |
| JokeCommand.CategoryFooter | src/commands/joke.ts:20-24 | `Category: <category>` when there is a category, else "Random Joke" |
| JokeCommand.HandleJoke | src/commands/joke.ts:4-37 | no joke gives the "no jokes" reply. Otherwise the title is "~ Joke" with the category footer. A two-part joke shows its setup and spoilered delivery, and any other joke shows its text or nothing |
| JokeCommand.EmptyDescriptionIff | src/commands/joke.ts:16-28 | the description is empty exactly for a joke that is not two-part and has no joke text |
| JokeCommand.TwoPartShowsBoth | src/commands/joke.ts:19 | a two-part joke shows its setup in bold at the start and its delivery in spoiler bars at the end |

## Left out

- **Network.** Network I/O, HTTP timeouts and the JSON shape of API bodies are left out. Each request's outcome is an input datatype.
- **Redis effects.**
  - The key TTLs (`expire`, the 60-second history `EX`) are not modelled.
  - Connection events are not modelled.
  - Pipelining is not modelled, and a pipeline's effects are applied at once.
  - A Redis error is modelled in the tick, in `/meme-auto` and `/autoai`, in the AI-channel and history lookups of the message handler, and in the history save. Elsewhere (the content queues' `lpop`, `llen` and pipelines) it is not modelled: there it only rejects the caller's promise.
- **Timing and concurrency.** Timers (`setInterval`, `setTimeout`) and the interleaving of concurrent async handlers are left out.
  - A tick and a command are each one atomic step.
  - The reply queue's model call is split into an enqueue step and a completion step.
  - A background refill is a returned flag, not a concurrent fill.
- **Lengths.** Lengths are counted in characters. JavaScript counts UTF-16 code units, and the two differ only for astral-plane characters.
- **Non-`Error` throws.**
  - `MemeAuto.ErrorText`: assumes that what is thrown has a `message`. A non-`Error` value makes the source's own `catch` block throw, and that path is not modelled.
  - `Search.FailureReason`: a thrown value without a `message` is modelled as a missing message.
- **Model prompt.** The model's prompt text, temperature and token limit are left out; the system prompt is an opaque constant.
- **Sending memes.** `sendMeme` (channel fetch, pop, send) is not part of this model. Whether the post was delivered is an input to the tick.
- **Unused embed fields.** Embed colours and the search prompt text are left out, since nothing depends on them.
- **Trivial wrappers.** `help`, `ping`, `meme` and `dadjoke` are thin wrappers or static text. `src/index.ts` and `src/registerCommands.ts` are dispatch and registration glue. None is part of this model.
- **`popLore`.** lore.ts imports `popLore`, but the joke fetcher does not define it, so it is not part of this model. `Lore.HandleLore` takes the post it would return as an input.
- **Failed replies.** A failure of a command's own `reply`, `deferReply` or `editReply` is not modelled.
- **Editing a deferred reply.** The commands' "edit the deferred reply" path in the `catch` blocks is not modelled, since none of them defers. A reply's ephemeral flag is modelled only for `/autoai`.

## Findings

| source | as written | input that shows it | evidently intended | confidence | as-written member | corrected member |
|---|---|---|---|---|---|---|
| src/utils/config.ts:15 | `getEnv("GUILD_ID", "")` throws when GUILD_ID is unset, because an empty fallback is falsy | TOKEN and APPLICATION_ID set, GUILD_ID unset | GUILD_ID is optional ("optional for dev"; registerCommands.ts treats it as optional) | high; not executed | BotConfig.GuildIdRequiredAsWritten | BotConfig.LoadConfigSucceedsIffCredentials |
| src/utils/replyWIthAI.ts:83-89 | the apology is awaited inside the `catch` with no guard, so when it throws `processQueue` rejects before the flag is cleared | a user deletes their message in the AI channel while the model answers, so the answer and the apology both fail | the runner clears the flag or goes on with the next task whatever the apology does | medium; not executed | AiReply.ApologyFailureStallsChannel | AiReply.ReplyQueue.CompleteGuarded |
