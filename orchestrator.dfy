/** The dialog orchestrator: runs one conversation turn (retrieve memories,
    save the user message, build the prompt, call the model, save one entry per
    reply sentence), starts a conversation after an idle spell, and compresses
    a long short-term history into a mid-term summary, promoting an important
    one to long-term memory. The model, the JSON decoder, the memory stores'
    queries, the clock and fresh ids are parameters. */
module Orchestrator {
  import opened Wrappers
  import opened PyStr
  import opened Json
  import opened Turns
  import opened Cache
  import opened ShortTerm
  import opened Summarizer
  import opened TokenCounter
  import opened PromptBuilder
  import opened LlmWrapper
  import opened MemoryManager

  const MemoriesHeader: string := "Relevant past memories:"

  /** Python's `list.insert(i, x)` for a position inside the list. */
  function Insert<T>(s: seq<T>, i: nat, x: T): (r: seq<T>)
    requires i <= |s|
    ensures |r| == |s| + 1 && r[i] == x
    ensures r[..i] == s[..i] && r[i + 1..] == s[i..]
  {
    s[..i] + [x] + s[i..]
  }

  /** How many system notes a turn inserts. */
  function NoteCount(summaries: string, memories: string): nat {
    (if summaries != "" then 1 else 0) + (if memories != "" then 1 else 0)
  }

  /** The prompt edits of a turn: the retrieved summaries, when there are any,
      go right after the system prompt, and the retrieved memories right after
      them. */
  function WithNotes(messages: seq<ChatMessage>, summaries: string, memories: string): (r: seq<ChatMessage>)
    requires |messages| >= 1
  {
    var m1 := if summaries != "" then Insert(messages, 1, ChatMessage("system", summaries)) else messages;
    var pos := if summaries != "" then 2 else 1;
    if memories != "" then Insert(m1, pos, ChatMessage("system", memories)) else m1
  }

  /** The prompt assembly of a turn: `build_prompt`, then the
      `messages.insert` steps on the resulting list. */
  method AssemblePrompt(prompt: string, userMessage: Option<string>, history: seq<ContextEntry>,
                        isAutoTrigger: bool, summaries: string, memories: string)
    returns (messages: seq<ChatMessage>)
    ensures messages == WithNotes(BuildPrompt(prompt, userMessage, history, isAutoTrigger), summaries, memories)
  {
    messages := BuildPrompt(prompt, userMessage, history, isAutoTrigger);
    ghost var built := messages;
    var insertPosition := 1;
    if summaries != "" {
      messages := Insert(messages, insertPosition, ChatMessage("system", summaries));
      insertPosition := insertPosition + 1;
    }
    if memories != "" {
      messages := Insert(messages, insertPosition, ChatMessage("system", memories));
    }
  }

  /** The notes sit at positions 1 and 2 (or 1 alone), and the rest of the
      prompt keeps its order behind them. */
  lemma WithNotesLayout(messages: seq<ChatMessage>, summaries: string, memories: string)
    requires |messages| >= 1
    ensures var r := WithNotes(messages, summaries, memories);
            var k := NoteCount(summaries, memories);
            |r| == |messages| + k && r[0] == messages[0] && r[1 + k..] == messages[1..]
            && (summaries != "" ==> r[1] == ChatMessage("system", summaries))
            && (memories != "" ==> r[k] == ChatMessage("system", memories))
  {
    var m1 := if summaries != "" then Insert(messages, 1, ChatMessage("system", summaries)) else messages;
    if summaries != "" {
      assert m1[2..] == messages[1..];
    }
    if memories != "" {
      var pos := if summaries != "" then 2 else 1;
      var r := Insert(m1, pos, ChatMessage("system", memories));
      assert r[pos + 1..] == m1[pos..];
      if summaries != "" {
        assert r[1] == m1[1];
      }
    }
  }

  /** Every prompt message after the system prompt moves back by the number
      of notes inserted. */
  lemma WithNotesShifts(messages: seq<ChatMessage>, summaries: string, memories: string, i: int)
    requires 1 <= i < |messages|
    ensures var r := WithNotes(messages, summaries, memories);
            |r| == |messages| + NoteCount(summaries, memories)
            && r[i + NoteCount(summaries, memories)] == messages[i]
  {
    WithNotesLayout(messages, summaries, memories);
    var r := WithNotes(messages, summaries, memories);
    var k := NoteCount(summaries, memories);
    assert r[1 + k..][i - 1] == messages[1..][i - 1];
  }

  /** The prompt a user turn sends. */
  function TurnPrompt(prompt: string, history: seq<ContextEntry>, userMessage: string,
                      summaries: string, memories: string): (r: seq<ChatMessage>)
  {
    WithNotes(BuildPrompt(prompt, Some(userMessage), history, false), summaries, memories)
  }

  /** The prompt an idle-triggered turn sends: no user message and no memories. */
  function AutoPrompt(prompt: string, history: seq<ContextEntry>, summaries: string): (r: seq<ChatMessage>)
  {
    WithNotes(BuildPrompt(prompt, None, history, true), summaries, "")
  }

  /** An idle-triggered prompt ends with the auto-trigger instruction. */
  lemma AutoPromptEndsWithInstruction(prompt: string, history: seq<ContextEntry>, summaries: string)
    ensures var r := AutoPrompt(prompt, history, summaries);
            |r| >= 2 && r[|r| - 1] == ChatMessage("user", AutoTriggerInstruction)
  {
    var b := BuildPrompt(prompt, None, history, true);
    WithNotesShifts(b, summaries, "", |b| - 1);
  }

  /** Because the user entry is saved before the history is read, a turn's
      prompt ends with the message twice: as the newest history entry, with
      its emotion tag, and as the final user message. */
  lemma TurnPromptEndsWithUser(prompt: string, history: seq<ContextEntry>, userMessage: string,
                               emotion: string, summaries: string, memories: string)
    requires history != [] && history[|history| - 1] == ContextEntry(Some("user"), userMessage, Some(emotion))
    requires userMessage != ""
    ensures var r := TurnPrompt(prompt, history, userMessage, summaries, memories);
            |r| >= 3
            && r[|r| - 1] == ChatMessage("user", userMessage)
            && r[|r| - 2] == ChatMessage("user", "[User emotion: " + emotion + "] " + userMessage)
  {
    var b := BuildPrompt(prompt, Some(userMessage), history, false);
    BuildPromptEnds(prompt, userMessage, history);
    WithNotesShifts(b, summaries, memories, |b| - 1);
    WithNotesShifts(b, summaries, memories, |b| - 2);
  }

  /** The history read right after saving a user entry ends with that entry. */
  lemma SavedUserEntryEndsHistory(l: seq<Turn>, entry: Turn, maxSize: int)
    requires maxSize >= 1 && entry.UserTurn?
    ensures var h := Context(Bounded(l + [entry], maxSize));
            h != [] && h[|h| - 1] == ContextEntry(Some("user"), entry.user.message, Some(entry.user.emotion))
  {
    var r := Bounded(l + [entry], maxSize);
    BoundedAppend(l, entry, maxSize);
    assert r == r[..|r| - 1] + [entry];
    ContextConcat(r[..|r| - 1], [entry]);
    assert [entry][..0] == [];
  }

  /** The idle check of the watchdog loop. */
  predicate IdleExpired(isProcessing: bool, now: real, lastInteraction: real, idleTimeout: real) {
    !isProcessing && now - lastInteraction >= idleTimeout
  }

  /** Once expired, the idle check stays expired as the clock advances, and
      with a positive timeout it is never expired at the moment of an interaction. */
  lemma IdleExpiredMonotone(now: real, later: real, lastInteraction: real, idleTimeout: real)
    requires now <= later
    ensures IdleExpired(false, now, lastInteraction, idleTimeout) ==> IdleExpired(false, later, lastInteraction, idleTimeout)
    ensures idleTimeout > 0.0 ==> !IdleExpired(false, lastInteraction, lastInteraction, idleTimeout)
  {
  }

  /** A memory promoted from mid-term to long-term storage. */
  datatype PromotedMemory = PromotedMemory(memoryId: string, content: string, summaryId: int,
                                           importance: real, timestamp: int)

  /** What one run of `_compress_to_mid_term` does. */
  datatype CompressOutcome =
    | NoMidTerm
    | AddFailed
    | Compressed(record: SummaryRecord, summaryId: int, promoted: Option<PromotedMemory>)

  /** `_compress_to_mid_term` with the summary, the mid-term store's answer
      (`Failure` when it raised) and the long-term store's failure as inputs. */
  function CompressPlan(messages: seq<Turn>, summary: string, counter: Counter, sessionId: string,
                        hasMidTerm: bool, hasLongTerm: bool, importanceThreshold: real,
                        compressedAt: int, summaryId: Result<int>, promoteFails: bool,
                        promotedAt: int): (r: CompressOutcome)
  {
    if !hasMidTerm then NoMidTerm
    else if summaryId.Failure? then AddFailed
    else
      var record := SummaryRecordOf(messages, summary, counter, sessionId, compressedAt);
      var promote := record.importance >= importanceThreshold && hasLongTerm && !promoteFails;
      Compressed(record, summaryId.value,
        if promote then Some(PromotedMemory("mid_" + IntToString(summaryId.value), summary, summaryId.value,
                                            record.importance, promotedAt))
        else None)
  }

  /** A compression stores a summary of exactly the given messages; it is
      promoted exactly when its score reaches the threshold and the long-term
      store exists and accepts it, under the id `mid_<summary id>`. */
  lemma CompressPlanProperties(messages: seq<Turn>, summary: string, counter: Counter, sessionId: string,
                               hasMidTerm: bool, hasLongTerm: bool, importanceThreshold: real,
                               compressedAt: int, summaryId: Result<int>, promoteFails: bool, promotedAt: int)
    ensures var r := CompressPlan(messages, summary, counter, sessionId, hasMidTerm, hasLongTerm,
                                  importanceThreshold, compressedAt, summaryId, promoteFails, promotedAt);
      (r.Compressed? <==> hasMidTerm && summaryId.Success?)
      && (r.Compressed? ==>
            r.record.originalMessages == messages && r.record.summary == summary
            && r.record.sessionId == sessionId
            && r.record.tokenCount == MessagesTokens(counter, messages)
            && (r.promoted.Some? <==> r.record.importance >= importanceThreshold && hasLongTerm && !promoteFails)
            && (r.promoted.Some? ==>
                  r.promoted.value.memoryId == "mid_" + IntToString(summaryId.value)
                  && r.promoted.value.content == summary))
      && (importanceThreshold > 1.0 ==> !(r.Compressed? && r.promoted.Some?))
  {
  }

  /** A second write to a key replaces the first. */
  lemma UpdateTwice<K, V>(m: map<K, V>, k: K, a: V, b: V)
    ensures m[k := a][k := b] == m[k := b]
  {
  }

  class DialogOrchestrator {
    const shortMemory: ShortTermMemory
    const hasMidTerm: bool
    const hasLongTerm: bool
    const idleTimeout: real
    const tokenLimit: int
    const importanceThreshold: real
    const counter: Counter
    /** The character prompt the prompt builder loaded. */
    const prompt: string
    var lastInteractionTime: real
    var isProcessing: bool
    /** The summaries added to the mid-term store. */
    var midTerm: seq<SummaryRecord>
    /** The memories added to the long-term store. */
    var longTerm: seq<PromotedMemory>

    constructor(shortMemory: ShortTermMemory, hasMidTerm: bool, hasLongTerm: bool, idleTimeout: real,
                tokenLimit: int, importanceThreshold: real, counter: Counter, prompt: string, now: real)
      ensures this.shortMemory == shortMemory && this.hasMidTerm == hasMidTerm && this.hasLongTerm == hasLongTerm
      ensures this.idleTimeout == idleTimeout && this.tokenLimit == tokenLimit
      ensures this.importanceThreshold == importanceThreshold && this.counter == counter && this.prompt == prompt
      ensures lastInteractionTime == now && !isProcessing && midTerm == [] && longTerm == []
    {
      this.shortMemory := shortMemory;
      this.hasMidTerm := hasMidTerm;
      this.hasLongTerm := hasLongTerm;
      this.idleTimeout := idleTimeout;
      this.tokenLimit := tokenLimit;
      this.importanceThreshold := importanceThreshold;
      this.counter := counter;
      this.prompt := prompt;
      lastInteractionTime := now;
      isProcessing := false;
      midTerm := [];
      longTerm := [];
    }

    /** `process_user_message`. `fetchedSummaries` and `fetchedMemories` are
        what the mid-term and long-term stores return for this turn
        (`Failure` when they raise); `now` is the clock, `nowSec`/`nowMillis`
        its whole seconds and milliseconds, `latencyMs` the measured model
        latency, `uuid`/`millis` the ids and clock of the reply saves. A model
        failure is passed on as `Failure`. */
    method ProcessUserMessage(message: string, emotion: string, lang: string, source: string, interrupt: bool,
                              fetchedSummaries: Result<seq<string>>, fetchedMemories: Result<seq<string>>,
                              generate: seq<ChatMessage> -> Result<string>, decode: Decoder,
                              now: real, nowSec: int, nowMillis: int, latencyMs: int,
                              uuid: nat -> string, millis: nat -> int)
      returns (r: Result<seq<Turn>>)
      modifies this, shortMemory, shortMemory.storage
      ensures !isProcessing && lastInteractionTime == now
      ensures midTerm == old(midTerm) && longTerm == old(longTerm)
      ensures var key := old(shortMemory.KeyForAdd(nowSec));
        var entry := UserTurn(UserEntry(message, emotion, lang, old(shortMemory.SessionForAdd(nowSec)),
                                        source, interrupt, nowMillis));
        var saved := Bounded(ListOf(old(shortMemory.storage.storage), key) + [entry], shortMemory.maxSize);
        var sent := TurnPrompt(prompt, Context(saved), message,
                               RetrievedText(hasMidTerm, SummariesHeader, fetchedSummaries),
                               RetrievedText(hasLongTerm, MemoriesHeader, fetchedMemories));
        var reply := GenerateAndParse(sent, generate, decode);
        shortMemory.SessionKey() == key
        && (r.Failure? <==> reply.Failure?)
        && (r.Failure? ==> shortMemory.storage.storage == old(shortMemory.storage.storage)[key := saved])
        && (r.Success? ==>
              r.value == SentenceTurns(reply.value, latencyMs, uuid, millis)
              && shortMemory.storage.storage ==
                   old(shortMemory.storage.storage)[key := BoundedFold(saved, r.value, shortMemory.maxSize)])
    {
      isProcessing := true;
      lastInteractionTime := now;
      r := Converse(message, emotion, lang, source, interrupt, fetchedSummaries, fetchedMemories,
                    generate, decode, nowSec, nowMillis, latencyMs, uuid, millis);
      isProcessing := false;
    }

    /** The memory and model work of a turn, between setting and clearing
        the processing flag. */
    method Converse(message: string, emotion: string, lang: string, source: string, interrupt: bool,
                    fetchedSummaries: Result<seq<string>>, fetchedMemories: Result<seq<string>>,
                    generate: seq<ChatMessage> -> Result<string>, decode: Decoder,
                    nowSec: int, nowMillis: int, latencyMs: int,
                    uuid: nat -> string, millis: nat -> int)
      returns (r: Result<seq<Turn>>)
      modifies shortMemory, shortMemory.storage
      ensures var key := old(shortMemory.KeyForAdd(nowSec));
        var entry := UserTurn(UserEntry(message, emotion, lang, old(shortMemory.SessionForAdd(nowSec)),
                                        source, interrupt, nowMillis));
        var saved := Bounded(ListOf(old(shortMemory.storage.storage), key) + [entry], shortMemory.maxSize);
        var sent := TurnPrompt(prompt, Context(saved), message,
                               RetrievedText(hasMidTerm, SummariesHeader, fetchedSummaries),
                               RetrievedText(hasLongTerm, MemoriesHeader, fetchedMemories));
        var reply := GenerateAndParse(sent, generate, decode);
        shortMemory.SessionKey() == key
        && (r.Failure? <==> reply.Failure?)
        && (r.Failure? ==> shortMemory.storage.storage == old(shortMemory.storage.storage)[key := saved])
        && (r.Success? ==>
              r.value == SentenceTurns(reply.value, latencyMs, uuid, millis)
              && shortMemory.storage.storage ==
                   old(shortMemory.storage.storage)[key := BoundedFold(saved, r.value, shortMemory.maxSize)])
    {
      var summaries := RetrievedText(hasMidTerm, SummariesHeader, fetchedSummaries);
      var memories := RetrievedText(hasLongTerm, MemoriesHeader, fetchedMemories);
      ghost var m0 := shortMemory.storage.storage;
      ghost var key := shortMemory.KeyForAdd(nowSec);
      ghost var entry := UserTurn(UserEntry(message, emotion, lang, shortMemory.SessionForAdd(nowSec),
                                            source, interrupt, nowMillis));
      ghost var withUser := Bounded(ListOf(m0, key) + [entry], shortMemory.maxSize);
      var history := SaveUserMessage(message, emotion, lang, source, interrupt, nowSec, nowMillis);
      ghost var m1 := shortMemory.storage.storage;
      assert ListOf(m1, key) == withUser;
      assert shortMemory.KeyForAdd(nowSec) == key;
      var messages := AssemblePrompt(prompt, Some(message), history, false, summaries, memories);
      assert messages == TurnPrompt(prompt, Context(withUser), message, summaries, memories);
      var reply, saved := Respond(messages, generate, decode, latencyMs, uuid, nowSec, millis);
      if reply.Success? && saved != [] {
        assert shortMemory.storage.storage == m1[key := BoundedFold(withUser, saved, shortMemory.maxSize)];
        UpdateTwice(m0, key, withUser, BoundedFold(withUser, saved, shortMemory.maxSize));
      }
      r := if reply.Failure? then Failure(reply.error) else Success(saved);
    }

    /** The user-message save of a turn and the history read right after it. */
    method SaveUserMessage(message: string, emotion: string, lang: string, source: string, interrupt: bool,
                           nowSec: int, nowMillis: int)
      returns (history: seq<ContextEntry>)
      modifies shortMemory, shortMemory.storage
      ensures var key := old(shortMemory.KeyForAdd(nowSec));
        var entry := UserTurn(UserEntry(message, emotion, lang, old(shortMemory.SessionForAdd(nowSec)),
                                        source, interrupt, nowMillis));
        var saved := Bounded(ListOf(old(shortMemory.storage.storage), key) + [entry], shortMemory.maxSize);
        shortMemory.SessionKey() == key && Truthy(shortMemory.currentSessionId)
        && shortMemory.storage.storage == old(shortMemory.storage.storage)[key := saved]
        && history == Context(saved)
    {
      ghost var key := shortMemory.KeyForAdd(nowSec);
      var _ := shortMemory.AddUserMessage(message, emotion, lang, source, interrupt, nowSec, nowMillis);
      history := shortMemory.GetConversationContext();
    }

    /** `auto_trigger_conversation`: skipped while a turn is in progress;
        otherwise one model call on the history with the auto-trigger
        instruction. Every failure is swallowed and gives `[]`; only a
        successful call counts as an interaction. */
    method AutoTriggerConversation(fetchedSummaries: Result<seq<string>>,
                                   generate: seq<ChatMessage> -> Result<string>, decode: Decoder,
                                   now: real, nowSec: int, latencyMs: int, uuid: nat -> string, millis: nat -> int)
      returns (saved: seq<Turn>)
      modifies this, shortMemory, shortMemory.storage
      ensures midTerm == old(midTerm) && longTerm == old(longTerm)
      ensures old(isProcessing) ==>
        saved == [] && isProcessing && lastInteractionTime == old(lastInteractionTime)
        && shortMemory.storage.storage == old(shortMemory.storage.storage)
        && shortMemory.currentSessionId == old(shortMemory.currentSessionId)
      ensures !old(isProcessing) ==>
        var reply := GenerateAndParse(
          AutoPrompt(prompt, Context(old(shortMemory.AllMessages())),
                     RetrievedText(hasMidTerm, SummariesHeader, fetchedSummaries)),
          generate, decode);
        !isProcessing
        && (reply.Failure? ==>
              saved == [] && lastInteractionTime == old(lastInteractionTime)
              && shortMemory.storage.storage == old(shortMemory.storage.storage))
        && (reply.Success? ==>
              saved == SentenceTurns(reply.value, latencyMs, uuid, millis) && lastInteractionTime == now
              && (saved == [] ==> shortMemory.storage.storage == old(shortMemory.storage.storage))
              && (saved != [] ==>
                    var key := old(shortMemory.KeyForAdd(nowSec));
                    shortMemory.storage.storage == old(shortMemory.storage.storage)[key :=
                      BoundedFold(ListOf(old(shortMemory.storage.storage), key), saved, shortMemory.maxSize)]))
    {
      if isProcessing {
        return [];
      }
      isProcessing := true;
      var summaries := RetrievedText(hasMidTerm, SummariesHeader, fetchedSummaries);
      var reply;
      reply, saved := AutoReply(summaries, generate, decode, latencyMs, uuid, nowSec, millis);
      lastInteractionTime := if reply.Success? then now else lastInteractionTime;
      isProcessing := false;
    }

    /** The prompt, model call and saves of an idle-triggered turn. */
    method AutoReply(summaries: string, generate: seq<ChatMessage> -> Result<string>, decode: Decoder,
                     latencyMs: int, uuid: nat -> string, nowSec: int, millis: nat -> int)
      returns (reply: Result<seq<JsonObject>>, saved: seq<Turn>)
      modifies shortMemory, shortMemory.storage
      ensures reply == GenerateAndParse(AutoPrompt(prompt, Context(old(shortMemory.AllMessages())), summaries),
                                        generate, decode)
      ensures reply.Failure? || saved == [] ==>
        shortMemory.storage.storage == old(shortMemory.storage.storage)
      ensures reply.Failure? ==> saved == []
      ensures reply.Success? ==> saved == SentenceTurns(reply.value, latencyMs, uuid, millis)
      ensures reply.Success? && saved != [] ==>
        var key := old(shortMemory.KeyForAdd(nowSec));
        shortMemory.storage.storage == old(shortMemory.storage.storage)[key :=
          BoundedFold(ListOf(old(shortMemory.storage.storage), key), saved, shortMemory.maxSize)]
    {
      var history := shortMemory.GetConversationContext();
      var messages := AssemblePrompt(prompt, None, history, true, summaries, "");
      reply, saved := Respond(messages, generate, decode, latencyMs, uuid, nowSec, millis);
    }

    /** The model call of a turn and the saving loop over its sentences: a
        failed call saves nothing. */
    method Respond(messages: seq<ChatMessage>, generate: seq<ChatMessage> -> Result<string>, decode: Decoder,
                   latencyMs: int, uuid: nat -> string, nowSec: int, millis: nat -> int)
      returns (reply: Result<seq<JsonObject>>, saved: seq<Turn>)
      modifies shortMemory, shortMemory.storage
      ensures reply == GenerateAndParse(messages, generate, decode)
      ensures reply.Failure? || saved == [] ==>
        shortMemory.storage.storage == old(shortMemory.storage.storage)
        && shortMemory.currentSessionId == old(shortMemory.currentSessionId)
      ensures reply.Failure? ==> saved == []
      ensures reply.Success? ==> saved == SentenceTurns(reply.value, latencyMs, uuid, millis)
      ensures reply.Success? && saved != [] ==>
        var key := old(shortMemory.KeyForAdd(nowSec));
        shortMemory.SessionKey() == key
        && shortMemory.storage.storage == old(shortMemory.storage.storage)[key :=
             BoundedFold(ListOf(old(shortMemory.storage.storage), key), saved, shortMemory.maxSize)]
    {
      reply := GenerateAndParse(messages, generate, decode);
      if reply.Failure? {
        return reply, [];
      }
      saved := SaveSentences(shortMemory, reply.value, latencyMs, uuid, nowSec, millis);
    }

    /** The idle check of `start_auto_trigger_loop` at clock `now`. */
    predicate ShouldAutoTrigger(now: real)
      reads this
    {
      IdleExpired(isProcessing, now, lastInteractionTime, idleTimeout)
    }

    /** One pass of the watchdog loop: trigger a conversation exactly when not
        processing and idle for at least `idleTimeout`. */
    method WatchdogTick(now: real, fetchedSummaries: Result<seq<string>>,
                        generate: seq<ChatMessage> -> Result<string>, decode: Decoder,
                        nowSec: int, latencyMs: int, uuid: nat -> string, millis: nat -> int)
      returns (fired: bool, saved: seq<Turn>)
      modifies this, shortMemory, shortMemory.storage
      ensures fired <==> old(ShouldAutoTrigger(now))
      ensures !fired ==>
        saved == [] && isProcessing == old(isProcessing) && lastInteractionTime == old(lastInteractionTime)
        && shortMemory.storage.storage == old(shortMemory.storage.storage)
        && shortMemory.currentSessionId == old(shortMemory.currentSessionId)
      ensures fired ==> !isProcessing
      ensures fired ==>
        var reply := GenerateAndParse(
          AutoPrompt(prompt, Context(old(shortMemory.AllMessages())),
                     RetrievedText(hasMidTerm, SummariesHeader, fetchedSummaries)),
          generate, decode);
        (reply.Failure? ==>
           saved == [] && lastInteractionTime == old(lastInteractionTime)
           && shortMemory.storage.storage == old(shortMemory.storage.storage))
        && (reply.Success? ==>
              saved == SentenceTurns(reply.value, latencyMs, uuid, millis) && lastInteractionTime == now
              && (saved == [] ==> shortMemory.storage.storage == old(shortMemory.storage.storage))
              && (saved != [] ==>
                    var key := old(shortMemory.KeyForAdd(nowSec));
                    shortMemory.storage.storage == old(shortMemory.storage.storage)[key :=
                      BoundedFold(ListOf(old(shortMemory.storage.storage), key), saved, shortMemory.maxSize)]))
      ensures midTerm == old(midTerm) && longTerm == old(longTerm)
    {
      if isProcessing {
        return false, [];
      }
      if now - lastInteractionTime >= idleTimeout {
        saved := AutoTriggerConversation(fetchedSummaries, generate, decode, now, nowSec, latencyMs, uuid, millis);
        fired := true;
      } else {
        fired, saved := false, [];
      }
    }

    /** `_compress_to_mid_term`: `summary` is what the summarizer returned for
        `messages`, `summaryId` the mid-term store's answer, `promoteFails`
        whether the long-term store raised. Short-term memory is not changed:
        the code clears a fresh copy of the buffer. */
    method CompressToMidTerm(messages: seq<Turn>, summary: string, compressedAt: int, summaryId: Result<int>,
                             promoteFails: bool, promotedAt: int)
      returns (outcome: CompressOutcome)
      modifies this
      ensures outcome == CompressPlan(messages, summary, counter,
        if Truthy(shortMemory.currentSessionId) then shortMemory.currentSessionId.value else "default",
        hasMidTerm, hasLongTerm, importanceThreshold, compressedAt, summaryId, promoteFails, promotedAt)
      ensures outcome.Compressed? ==> midTerm == old(midTerm) + [outcome.record]
      ensures !outcome.Compressed? ==> midTerm == old(midTerm)
      ensures longTerm == old(longTerm) + (if outcome.Compressed? && outcome.promoted.Some?
                                           then [outcome.promoted.value] else [])
      ensures isProcessing == old(isProcessing) && lastInteractionTime == old(lastInteractionTime)
    {
      var sessionId := if Truthy(shortMemory.currentSessionId) then shortMemory.currentSessionId.value else "default";
      outcome := CompressPlan(messages, summary, counter, sessionId, hasMidTerm, hasLongTerm, importanceThreshold,
                              compressedAt, summaryId, promoteFails, promotedAt);
      if outcome.Compressed? {
        midTerm := midTerm + [outcome.record];
        if outcome.promoted.Some? {
          longTerm := longTerm + [outcome.promoted.value];
        }
      }
    }

    /** `_check_and_compress_memory`: compress the stored history once its
        token count reaches `tokenLimit`. `summarize` stands for the summarizer. */
    method CheckAndCompressMemory(summarize: seq<Turn> -> string, compressedAt: int, summaryId: Result<int>,
                                  promoteFails: bool, promotedAt: int)
      returns (outcome: Option<CompressOutcome>)
      modifies this
      ensures var messages := shortMemory.AllMessages();
        (outcome.None? <==> MessagesTokens(counter, messages) < tokenLimit)
        && (outcome.Some? ==> outcome.value == CompressPlan(messages, summarize(messages), counter,
              if Truthy(shortMemory.currentSessionId) then shortMemory.currentSessionId.value else "default",
              hasMidTerm, hasLongTerm, importanceThreshold, compressedAt, summaryId, promoteFails, promotedAt))
      ensures outcome.None? ==> midTerm == old(midTerm) && longTerm == old(longTerm)
      ensures outcome.Some? && outcome.value.Compressed? ==> midTerm == old(midTerm) + [outcome.value.record]
      ensures outcome.Some? && !outcome.value.Compressed? ==> midTerm == old(midTerm)
      ensures outcome.Some? ==>
        longTerm == old(longTerm) + (if outcome.value.Compressed? && outcome.value.promoted.Some?
                                     then [outcome.value.promoted.value] else [])
      ensures isProcessing == old(isProcessing) && lastInteractionTime == old(lastInteractionTime)
    {
      var recent := shortMemory.GetRecentMessages(None);
      var tokenCount := MessagesTokens(counter, recent);
      if tokenCount >= tokenLimit {
        var o := CompressToMidTerm(recent, summarize(recent), compressedAt, summaryId, promoteFails, promotedAt);
        outcome := Some(o);
      } else {
        outcome := None;
      }
    }

    /** `clear_conversation`: clears short-term memory and counts as an interaction. */
    method ClearConversation(now: real)
      modifies this, shortMemory, shortMemory.storage
      ensures old(Truthy(shortMemory.currentSessionId)) ==>
        shortMemory.storage.storage == old(shortMemory.storage.storage) - {old(shortMemory.SessionKey())}
      ensures old(!Truthy(shortMemory.currentSessionId)) ==>
        shortMemory.storage.storage == old(shortMemory.storage.storage)
      ensures shortMemory.currentSessionId == None && lastInteractionTime == now
      ensures isProcessing == old(isProcessing)
    {
      shortMemory.Clear();
      lastInteractionTime := now;
    }
  }
}
