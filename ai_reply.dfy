/** The AI chat replies (src/utils/replyWIthAI.ts): messages posted in a guild's AI
    channel are queued per channel and answered one at a time by the local model, with a
    bounded history per channel.

    The handler and `processQueue` are asynchronous; they are modelled as a sequential
    state machine whose steps are the handler (`HandleMessage`, which runs through the
    synchronous start of `processQueue`) and the resumption of a runner after its model
    call (`Complete`). Between steps, the runner of a busy channel is waiting on the
    model for `inFlight[k]`. */
module AiReply {
  import opened JsText
  import opened ChatStore

  type MessageId = string
  type QueueKey = (GuildId, ChannelId)

  /** An inbound message as the handler reads it. */
  datatype Inbound = Inbound(
    id: MessageId,
    fromBot: bool,
    guildId: Option<GuildId>,
    channelId: ChannelId,
    displayName: string,
    content: string)

  /** A queued reply job: the message and the history snapshot taken when it arrived. */
  datatype Task = Task(message: Inbound, history: seq<Turn>)

  datatype ChatRole = SystemRole | UserRole | AssistantRole
  datatype ChatMessage = ChatMessage(role: ChatRole, content: string)

  /** What happened to one model call and the writes after it: the call failed (error or
      timeout), or it answered with the first choice's content (possibly missing), the
      answer was or was not posted, and once posted the history was or was not saved. */
  datatype Generation = GenerationFailed | Generated(content: Option<string>, replySent: bool, saved: bool)

  /** A reply posted to the message `to`. */
  datatype Reply = Reply(to: MessageId, text: string)

  const BotName := "Avy"
  const NoReplyText := "Hmm, can't think of a reply."
  /** The apology exactly as the source file spells it (its emoji is stored mis-encoded). */
  const ApologyText := "I can't chat right now \U{F0}\U{178}\U{2DC}\U{A9}. Too busy!"
  /** The persona instruction; its wording is not modelled. */
  const SystemPrompt := "You are Avy"

  /** `getChannelHistory`: the stored history, or the empty list when there is none. */
  function GetChannelHistory(store: ChatStore, guildId: GuildId, channelId: ChannelId): (h: seq<Turn>)
    reads store
    ensures (guildId, channelId) !in store.histories ==> h == []
    ensures (guildId, channelId) in store.histories ==> h == store.histories[(guildId, channelId)]
  {
    if (guildId, channelId) in store.histories then store.histories[(guildId, channelId)] else []
  }

  /** `history.slice(-MAX_MESSAGES)` when too long: the most recent turns, in order. */
  function LastTurns(h: seq<Turn>): (r: seq<Turn>)
    ensures |r| == if |h| <= MaxMessages then |h| else MaxMessages
    ensures r == h[|h| - |r|..]
  {
    if |h| > MaxMessages then h[|h| - MaxMessages..] else h
  }

  /** Appending a turn to the stored window and cutting it again gives the same window
      as cutting the whole conversation: the bound never drops a recent turn. */
  lemma LastTurnsAppend(h: seq<Turn>, t: Turn)
    ensures LastTurns(LastTurns(h) + [t]) == LastTurns(h + [t])
  {
    var w := LastTurns(h);
    var a := LastTurns(w + [t]);
    var b := LastTurns(h + [t]);
    assert |a| == |b|;
    forall i | 0 <= i < |a| ensures a[i] == b[i] {
      if i == |a| - 1 {
        assert a[i] == t && b[i] == t;
      } else {
        assert a[i] == (w + [t])[|w| + 1 - |a| + i] == w[|w| + 1 - |a| + i];
        assert w[|w| + 1 - |a| + i] == h[|h| - |w| + |w| + 1 - |a| + i];
      }
    }
  }

  /** Keeping the last turns of a kept window changes nothing. */
  lemma LastTurnsIdempotent(h: seq<Turn>)
    ensures LastTurns(LastTurns(h)) == LastTurns(h)
  {
  }

  /** How one history turn is sent to the model: an assistant turn as it is, any other
      turn as a user message prefixed with the speaker's name. */
  function ToChatMessage(t: Turn): (m: ChatMessage)
    ensures t.role == Assistant ==> m == ChatMessage(AssistantRole, t.content)
    ensures t.role != Assistant ==> m == ChatMessage(UserRole, t.user + ": " + t.content)
  {
    if t.role == Assistant then ChatMessage(AssistantRole, t.content)
    else ChatMessage(UserRole, t.user + ": " + t.content)
  }

  /** The `messages` of the request: the system instruction, then one message per
      history turn in order. */
  function Payload(history: seq<Turn>): (p: seq<ChatMessage>)
    ensures |p| == |history| + 1
    ensures p[0] == ChatMessage(SystemRole, SystemPrompt)
    ensures forall i :: 0 <= i < |history| ==> p[i + 1] == ToChatMessage(history[i])
    ensures forall i :: 1 <= i < |p| ==> p[i].role != SystemRole
  {
    [ChatMessage(SystemRole, SystemPrompt)] + seq(|history|, i requires 0 <= i < |history| => ToChatMessage(history[i]))
  }

  /** The text of a successful answer: the first choice's content, or a stock line when
      it is missing or empty. */
  function AnswerText(content: Option<string>): (s: string)
    ensures s != ""
    ensures Truthy(content) ==> s == content.value
  {
    if Truthy(content) then content.value else NoReplyText
  }

  /** The handler's filter: a human message with a guild id, not blank, posted in the
      guild's stored AI channel; an unset or empty pointer, or a failed lookup of it, drops
      the message. */
  predicate Engages(msg: Inbound, aiChannel: Option<ChannelId>, lookupFailed: bool)
  {
    && !msg.fromBot
    && Truthy(msg.guildId)
    && Trim(msg.content) != ""
    && !lookupFailed
    && Truthy(aiChannel)
    && aiChannel.value == msg.channelId
  }

  /** `saveChannelHistory`: stores the last `MaxMessages` turns of `history` (all of them
      when there are no more) and returns what it stored. */
  method SaveChannelHistory(store: ChatStore, guildId: GuildId, channelId: ChannelId, history: seq<Turn>)
    returns (saved: seq<Turn>)
    requires store.Valid()
    modifies store
    ensures store.Valid()
    ensures saved == LastTurns(history)
    ensures store.histories == old(store.histories)[(guildId, channelId) := saved]
    ensures store.aiChannels == old(store.aiChannels)
  {
    saved := history;
    if |history| > MaxMessages {
      saved := history[|history| - MaxMessages..];
    }
    store.histories := store.histories[(guildId, channelId) := saved];
  }

  /** Something in the loop body threw, so its catch block posts the apology: the call
      failed, the answer could not be posted, or its history could not be saved. */
  predicate Apologises(outcome: Generation)
  {
    !(outcome.Generated? && outcome.replySent && outcome.saved)
  }

  /** The replies that reach the channel for one task: the answer when it was posted,
      then the apology when the catch block ran and its own post succeeded. */
  function Posted(to: MessageId, outcome: Generation, apologySent: bool): seq<Reply>
  {
    (if outcome.Generated? && outcome.replySent then [Reply(to, AnswerText(outcome.content))] else [])
    + (if Apologises(outcome) && apologySent then [Reply(to, ApologyText)] else [])
  }

  /** `Stuck` over given flags and outstanding calls. */
  predicate StuckIn(processing: map<QueueKey, bool>, inFlight: map<QueueKey, Task>, k: QueueKey)
  {
    k in processing && processing[k] && k !in inFlight
  }

  /** The module-level `channelQueues` and `channelProcessing` of the source, with the
      task each busy channel's runner is waiting on. */
  class ReplyQueue {
    const store: ChatStore
    var queues: map<QueueKey, seq<Task>>
    var processing: map<QueueKey, bool>
    var inFlight: map<QueueKey, Task>
    /** Every task ever queued per channel, and those a runner has taken, in order. */
    ghost var arrived: map<QueueKey, seq<Task>>
    ghost var started: map<QueueKey, seq<Task>>

    function Pending(k: QueueKey): seq<Task>
      reads this
    {
      if k in queues then queues[k] else []
    }

    predicate Busy(k: QueueKey)
      reads this
    {
      k in processing && processing[k]
    }

    /** The channel's flag is set but no runner is left to clear it: every later message
        is queued and none reaches the model again. */
    predicate Stuck(k: QueueKey)
      reads this
    {
      StuckIn(processing, inFlight, k)
    }

    ghost function Arrived(k: QueueKey): seq<Task>
      reads this
    {
      if k in arrived then arrived[k] else []
    }

    ghost function Started(k: QueueKey): seq<Task>
      reads this
    {
      if k in started then started[k] else []
    }

    /** One channel's invariant: a model call is outstanding only for a flagged channel,
        and at most one; no task waits while the flag is clear; the runner takes tasks in
        arrival order; and the outstanding call is for the last task taken. */
    ghost predicate ChannelOk(k: QueueKey)
      reads this
    {
      && (k in inFlight ==> Busy(k))
      && (!Busy(k) ==> Pending(k) == [])
      && Arrived(k) == Started(k) + Pending(k)
      && (k in inFlight ==> Started(k) != [] && Started(k)[|Started(k)| - 1] == inFlight[k])
    }

    ghost predicate Valid()
      reads this, store
    {
      store.Valid() && forall k :: ChannelOk(k)
    }

    constructor (store: ChatStore)
      requires store.Valid()
      ensures Valid() && this.store == store
      ensures queues == map[] && processing == map[] && inFlight == map[]
    {
      this.store := store;
      queues := map[];
      processing := map[];
      inFlight := map[];
      arrived := map[];
      started := map[];
    }

    /** The head of the `processQueue` loop for a channel whose runner is active and
        between tasks: take the next task and call the model for it, or clear the flag
        when the queue is empty. */
    method Advance(k: QueueKey)
      requires store.Valid()
      requires forall k' :: k' != k ==> ChannelOk(k')
      requires Busy(k) && k !in inFlight && Arrived(k) == Started(k) + Pending(k)
      modifies this
      ensures Valid()
      ensures old(Pending(k)) != [] ==>
                && queues == old(queues)[k := old(Pending(k))[1..]]
                && inFlight == old(inFlight)[k := old(Pending(k))[0]]
                && processing == old(processing)
      ensures old(Pending(k)) == [] ==>
                && queues == old(queues) && inFlight == old(inFlight)
                && processing == old(processing)[k := false]
      ensures arrived == old(arrived)
    {
      if k in queues && |queues[k]| > 0 {
        var task := queues[k][0];
        queues := queues[k := queues[k][1..]];
        inFlight := inFlight[k := task];
        started := started[k := Started(k) + [task]];
        assert ChannelOk(k);
      } else {
        processing := processing[k := false];
        assert ChannelOk(k);
      }
      forall k' ensures ChannelOk(k') {
        if k' != k {
          assert old(ChannelOk(k'));
        }
      }
    }

    /** The AI channel stored for the message's guild, if any. */
    function AiChannelOf(msg: Inbound): Option<ChannelId>
      reads store
    {
      if msg.guildId.Some? && msg.guildId.value in store.aiChannels
      then Some(store.aiChannels[msg.guildId.value]) else None
    }

    /** The task queued for an engaged message: the channel's stored history followed by
        the message as a user turn, its content trimmed. */
    function TaskFor(msg: Inbound): (t: Task)
      requires msg.guildId.Some?
      reads store
      ensures t.message == msg
      ensures t.history == GetChannelHistory(store, msg.guildId.value, msg.channelId)
                           + [Turn(User, msg.displayName, Trim(msg.content))]
    {
      Task(msg, GetChannelHistory(store, msg.guildId.value, msg.channelId)
                + [Turn(User, msg.displayName, Trim(msg.content))])
    }

    /** The `MessageCreate` handler. An engaged message is queued under its channel with
        the stored history plus the trimmed user turn (nothing is persisted here), then
        `processQueue` runs: it returns at once when the channel is busy, and otherwise
        marks it busy and sends this task to the model. `historyFailed` says that reading
        the stored history threw, which ends the handler before anything is queued. */
    method HandleMessage(msg: Inbound, lookupFailed: bool, historyFailed: bool) returns (enqueued: bool)
      requires Valid()
      modifies this
      ensures Valid()
      ensures enqueued <==> Engages(msg, AiChannelOf(msg), lookupFailed) && !historyFailed
      ensures forall c :: StuckIn(old(processing), old(inFlight), c) ==> Stuck(c)
      ensures !enqueued ==>
                queues == old(queues) && processing == old(processing) && inFlight == old(inFlight)
      ensures enqueued ==>
                var k := (msg.guildId.value, msg.channelId);
                && arrived == old(arrived)[k := old(Arrived(k)) + [TaskFor(msg)]]
                && (old(Busy(k)) ==>
                      queues == old(queues)[k := old(Pending(k)) + [TaskFor(msg)]]
                      && inFlight == old(inFlight) && processing == old(processing))
                && (!old(Busy(k)) ==>
                      queues == old(queues)[k := []] && processing == old(processing)[k := true]
                      && inFlight == old(inFlight)[k := TaskFor(msg)])
    {
      if !Engages(msg, AiChannelOf(msg), lookupFailed) || historyFailed {
        return false;
      }
      Enqueue((msg.guildId.value, msg.channelId), TaskFor(msg));
      enqueued := true;
    }

    /** Queue `task` under channel `k` and run the start of `processQueue`: a busy channel
        (including a stuck one) only queues it, an idle one is flagged and its runner sends
        this task to the model. Nothing changes for any other channel. */
    method Enqueue(k: QueueKey, task: Task)
      requires Valid()
      modifies this
      ensures Valid()
      ensures arrived == old(arrived)[k := old(Arrived(k)) + [task]]
      ensures forall c :: StuckIn(old(processing), old(inFlight), c) ==> Stuck(c)
      ensures old(Busy(k)) ==>
                queues == old(queues)[k := old(Pending(k)) + [task]]
                && inFlight == old(inFlight) && processing == old(processing)
      ensures !old(Busy(k)) ==>
                queues == old(queues)[k := []] && processing == old(processing)[k := true]
                && inFlight == old(inFlight)[k := task]
    {
      assert ChannelOk(k);
      if Busy(k) {
        queues := queues[k := Pending(k) + [task]];
        arrived := arrived[k := Arrived(k) + [task]];
        assert ChannelOk(k);
        forall k' | k' != k ensures ChannelOk(k') {
          assert old(ChannelOk(k'));
        }
        return;
      }
      queues := queues[k := [task]];
      arrived := arrived[k := Arrived(k) + [task]];
      processing := processing[k := true];
      forall k' | k' != k ensures ChannelOk(k') {
        assert old(ChannelOk(k'));
      }
      ghost var queued := queues;
      Advance(k);
      assert [task][1..] == [];
      assert queues == queued[k := []] == old(queues)[k := []];
    }

    /** The loop body's `try`/`catch` after the model call for `k`'s task: a posted
        answer is appended to the task's own snapshot and saved (cut to the last turns);
        if anything threw, the apology is posted, which succeeds exactly when
        `apologySent`. The runner is no longer waiting on the model. */
    method Respond(k: QueueKey, outcome: Generation, apologySent: bool) returns (replies: seq<Reply>)
      requires Valid()
      requires k in inFlight
      modifies this, store
      ensures store.Valid()
      ensures var task := old(inFlight[k]);
              && replies == Posted(task.message.id, outcome, apologySent)
              && (!Apologises(outcome) ==>
                    store.histories == old(store.histories)[k := LastTurns(task.history
                                         + [Turn(Assistant, BotName, AnswerText(outcome.content))])])
              && (Apologises(outcome) ==> store.histories == old(store.histories))
      ensures store.aiChannels == old(store.aiChannels)
      ensures inFlight == old(inFlight) - {k}
      ensures queues == old(queues) && processing == old(processing)
      ensures arrived == old(arrived) && started == old(started)
      ensures forall k' :: k' != k ==> ChannelOk(k')
      ensures Busy(k) && Arrived(k) == Started(k) + Pending(k)
    {
      var task := inFlight[k];
      var to := task.message.id;
      replies := [];
      if outcome.Generated? && outcome.replySent {
        var text := AnswerText(outcome.content);
        replies := [Reply(to, text)];
        if outcome.saved {
          var _ := SaveChannelHistory(store, k.0, k.1, task.history + [Turn(Assistant, BotName, text)]);
        }
      }
      if Apologises(outcome) && apologySent {
        replies := replies + [Reply(to, ApologyText)];
      }
      assert old(ChannelOk(k));
      inFlight := inFlight - {k};
      forall k' | k' != k ensures ChannelOk(k') {
        assert old(ChannelOk(k'));
        assert Busy(k') == old(Busy(k')) && Pending(k') == old(Pending(k'));
        assert Arrived(k') == old(Arrived(k')) && Started(k') == old(Started(k'));
        assert k' in inFlight <==> k' in old(inFlight);
        assert k' in inFlight ==> inFlight[k'] == old(inFlight)[k'];
      }
    }

    /** The runner of channel `k` resumes after its model call, as the source does it:
        `Respond`, then the loop goes on with the next task or clears the flag. An
        apology whose own post throws escapes the loop instead, so the flag is never
        cleared and the channel is left stuck. */
    method Complete(k: QueueKey, outcome: Generation, apologySent: bool) returns (replies: seq<Reply>)
      requires Valid()
      requires k in inFlight
      modifies this, store
      ensures Valid()
      ensures var task := old(inFlight[k]);
              && replies == Posted(task.message.id, outcome, apologySent)
              && (!Apologises(outcome) ==>
                    store.histories == old(store.histories)[k := LastTurns(task.history
                                         + [Turn(Assistant, BotName, AnswerText(outcome.content))])])
              && (Apologises(outcome) ==> store.histories == old(store.histories))
      ensures store.aiChannels == old(store.aiChannels)
      ensures arrived == old(arrived)
      ensures Apologises(outcome) && !apologySent ==>
                Stuck(k) && queues == old(queues) && inFlight == old(inFlight) - {k}
                && processing == old(processing)
      ensures !(Apologises(outcome) && !apologySent) && old(Pending(k)) != [] ==>
                queues == old(queues)[k := old(Pending(k))[1..]]
                && inFlight == old(inFlight)[k := old(Pending(k))[0]] && processing == old(processing)
      ensures !(Apologises(outcome) && !apologySent) && old(Pending(k)) == [] ==>
                queues == old(queues) && inFlight == old(inFlight) - {k}
                && processing == old(processing)[k := false]
    {
      replies := Respond(k, outcome, apologySent);
      if Apologises(outcome) && !apologySent {
        return;
      }
      Advance(k);
    }

    /** `Complete` with the apology's own failure caught inside the loop: the runner
        always goes on, so no channel is ever left stuck. */
    method CompleteGuarded(k: QueueKey, outcome: Generation, apologySent: bool) returns (replies: seq<Reply>)
      requires Valid()
      requires k in inFlight
      modifies this, store
      ensures Valid()
      ensures var task := old(inFlight[k]);
              && replies == Posted(task.message.id, outcome, apologySent)
              && (!Apologises(outcome) ==>
                    store.histories == old(store.histories)[k := LastTurns(task.history
                                         + [Turn(Assistant, BotName, AnswerText(outcome.content))])])
              && (Apologises(outcome) ==> store.histories == old(store.histories))
      ensures store.aiChannels == old(store.aiChannels)
      ensures arrived == old(arrived)
      ensures !Stuck(k)
      ensures old(Pending(k)) != [] ==>
                queues == old(queues)[k := old(Pending(k))[1..]]
                && inFlight == old(inFlight)[k := old(Pending(k))[0]] && processing == old(processing)
      ensures old(Pending(k)) == [] ==>
                queues == old(queues) && inFlight == old(inFlight) - {k}
                && processing == old(processing)[k := false]
    {
      replies := Respond(k, outcome, apologySent);
      Advance(k);
    }
  }

  /** Two messages posted back to back in the AI channel `("1", "2")` of a fresh store:
      the first goes to the model, the second waits with a snapshot of the (still empty)
      stored history plus its own turn. */
  method QueueTwoMessages(first: string, second: string) returns (q: ReplyQueue)
    requires Trim(first) != "" && Trim(second) != ""
    ensures fresh(q) && fresh(q.store) && q.Valid()
    ensures ("1", "2") in q.inFlight && q.store.aiChannels == map["1" := "2"]
    ensures q.Pending(("1", "2")) == [Task(Inbound("m2", false, Some("1"), "2", "Bo", second),
                                           [Turn(User, "Bo", Trim(second))])]
  {
    var store := new ChatStore();
    store.aiChannels := map["1" := "2"];
    q := new ReplyQueue(store);
    var m1 := Inbound("m1", false, Some("1"), "2", "Al", first);
    var m2 := Inbound("m2", false, Some("1"), "2", "Bo", second);
    assert q.AiChannelOf(m1) == Some("2");
    var e1 := q.HandleMessage(m1, false, false);
    assert q.AiChannelOf(m2) == Some("2");
    assert Engages(m2, Some("2"), false);
    var e2 := q.HandleMessage(m2, false, false);
    assert e1 && e2;
    assert GetChannelHistory(store, "1", "2") == [];
    var turn := Turn(User, "Bo", Trim(second));
    assert q.TaskFor(m2).history == [] + [turn] == [turn];
    assert q.Pending(("1", "2")) == [q.TaskFor(m2)];
  }

  /** Both answers are posted. The second task's snapshot was taken before the first
      answer was saved, so saving the second answer overwrites the first exchange: the
      stored history ends up holding only the second message and its answer. */
  method BackToBackMessages(first: string, second: string) returns (saved: seq<Turn>)
    requires Trim(first) != "" && Trim(second) != ""
    ensures saved == [Turn(User, "Bo", Trim(second)), Turn(Assistant, BotName, "answer")]
  {
    var q := QueueTwoMessages(first, second);
    var k := ("1", "2");
    var t2 := q.Pending(k)[0];
    var r1 := q.CompleteGuarded(k, Generated(Some("reply"), true, true), true);
    assert q.inFlight[k] == t2;
    var r2 := q.CompleteGuarded(k, Generated(Some("answer"), true, true), true);
    assert AnswerText(Some("answer")) == "answer";
    var h := t2.history + [Turn(Assistant, BotName, "answer")];
    assert LastTurns(h) == h;
    saved := q.store.histories[k];
    assert saved == h;
  }

  /** The first model call fails and so does the apology (the message was deleted, say).
      The runner is gone with the flag still set: the waiting message and one posted
      afterwards are only queued, and neither goes to the model. */
  method ApologyFailureStallsChannel(first: string, second: string, third: string) returns (q: ReplyQueue)
    requires Trim(first) != "" && Trim(second) != "" && Trim(third) != ""
    ensures q.Valid() && q.Stuck(("1", "2"))
    ensures |q.Pending(("1", "2"))| == 2
  {
    q := QueueTwoMessages(first, second);
    var k := ("1", "2");
    var replies := q.Complete(k, GenerationFailed, false);
    assert replies == [];
    var m3 := Inbound("m3", false, Some("1"), "2", "Cy", third);
    assert q.AiChannelOf(m3) == Some("2");
    assert Engages(m3, Some("2"), false);
    var e3 := q.HandleMessage(m3, false, false);
  }
}
