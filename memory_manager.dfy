/** The memory manager: event handlers that save each user message and each
    reply sentence into short-term memory, and the compression step that moves a
    full buffer into a long-term summary. */
module MemoryManager {
  import opened Wrappers
  import opened PySeq
  import opened PyStr
  import opened Json
  import opened Events
  import opened Turns
  import opened Cache
  import opened ShortTerm
  import opened Summarizer
  import opened TokenCounter

  /** The stored list after appending each of `ts` in turn, bounding after every append. */
  function BoundedFold(l: seq<Turn>, ts: seq<Turn>, maxSize: int): (r: seq<Turn>)
  {
    if ts == [] then l else Bounded(BoundedFold(l, ts[..|ts| - 1], maxSize) + [ts[|ts| - 1]], maxSize)
  }

  lemma BoundedFoldSnoc(l: seq<Turn>, ts: seq<Turn>, i: nat, maxSize: int)
    requires i < |ts|
    ensures BoundedFold(l, ts[..i + 1], maxSize) == Bounded(BoundedFold(l, ts[..i], maxSize) + [ts[i]], maxSize)
  {
    assert ts[..i + 1][..i] == ts[..i];
  }

  /** Folding over `ts` is the first append followed by folding over the rest. */
  lemma {:induction false} BoundedFoldCons(l: seq<Turn>, ts: seq<Turn>, maxSize: int)
    requires ts != []
    ensures BoundedFold(l, ts, maxSize) == BoundedFold(Bounded(l + [ts[0]], maxSize), ts[1..], maxSize)
    decreases |ts|
  {
    if |ts| == 1 {
      assert ts[..0] == [] && ts[1..] == [];
    } else {
      var init := ts[..|ts| - 1];
      BoundedFoldCons(l, init, maxSize);
      assert init[0] == ts[0];
      assert init[1..] == ts[1..][..|ts[1..]| - 1];
      assert ts[1..][|ts[1..]| - 1] == ts[|ts| - 1];
    }
  }

  /** Bounding before an append changes nothing, for `maxSize >= 0`. */
  lemma BoundedSnoc(l: seq<Turn>, t: Turn, maxSize: int)
    requires maxSize >= 0
    ensures Bounded(Bounded(l, maxSize) + [t], maxSize) == Bounded(l + [t], maxSize)
  {
    BoundedShape(l, maxSize);
    BoundedShape(l + [t], maxSize);
    BoundedShape(Bounded(l, maxSize) + [t], maxSize);
    if maxSize >= 1 && |l| >= maxSize {
      assert (l[|l| - maxSize..] + [t])[1..] == l[|l| - maxSize + 1..] + [t];
      assert (l + [t])[|l| + 1 - maxSize..] == l[|l| - maxSize + 1..] + [t];
    }
  }

  /** With `maxSize >= 0`, appending several entries one at a time bounds once:
      the list holds the last `maxSize` of the old entries followed by the new ones. */
  lemma {:induction false} BoundedFoldIsBounded(l: seq<Turn>, ts: seq<Turn>, maxSize: int)
    requires maxSize >= 0 && ts != []
    ensures BoundedFold(l, ts, maxSize) == Bounded(l + ts, maxSize)
    decreases |ts|
  {
    var init := ts[..|ts| - 1];
    var t := ts[|ts| - 1];
    assert l + ts == (l + init) + [t];
    if init == [] {
      assert l + init == l;
    } else {
      BoundedFoldIsBounded(l, init, maxSize);
      BoundedSnoc(l + init, t, maxSize);
    }
  }

  /** The assistant entry `_on_llm_response` saves for sentence `i` of `n`:
      stream index `i`, completed only for the last sentence, the reply's
      latency only on the first. `uuid` and `millis` stand for the fresh id and
      the clock at that save. */
  function ResponseTurn(sentence: JsonObject, i: nat, n: nat, latencyMs: int, uuid: nat -> string,
                        millis: nat -> int): (r: Turn)
    ensures r.AssistantTurn? && r.assistant.streamIndex == IntToString(i)
    ensures r.assistant.isCompleted <==> i + 1 == n
    ensures r.assistant.latencyMs == (if i == 0 then latencyMs else 0)
    ensures r.assistant.textSpoken == GetStr(sentence, "text_spoken", "")
    ensures r.assistant.textDisplay == GetStr(sentence, "text_display", "")
    ensures r.assistant.ttsEmotion == GetStr(sentence, "emo", "normal")
    ensures r.assistant.action == GetStr(sentence, "act", "none")
    ensures r.assistant.intensity == GetNum(sentence, "intensity", 0.5)
    ensures r.assistant.ttsLang == "jp" && r.assistant.responseId == uuid(i) && r.assistant.timestamp == millis(i)
  {
    AssistantTurn(AssistantEntry(uuid(i), IntToString(i), i + 1 == n,
      GetStr(sentence, "text_spoken", ""), GetStr(sentence, "text_display", ""), "",
      "jp", GetStr(sentence, "emo", "normal"), GetStr(sentence, "act", "none"),
      GetNum(sentence, "intensity", 0.5), if i == 0 then latencyMs else 0, millis(i)))
  }

  /** The entries saved for a list of reply sentences, in sentence order. */
  function SentenceTurns(sentences: seq<JsonObject>, latencyMs: int, uuid: nat -> string,
                         millis: nat -> int): (r: seq<Turn>)
    ensures |r| == |sentences|
    ensures forall i | 0 <= i < |r| :: r[i] == ResponseTurn(sentences[i], i, |sentences|, latencyMs, uuid, millis)
  {
    seq(|sentences|, i requires 0 <= i < |sentences| =>
      ResponseTurn(sentences[i], i, |sentences|, latencyMs, uuid, millis))
  }

  /** All entries of one reply, in sentence order. */
  function ResponseTurns(data: LlmResponsePayload, uuid: nat -> string, millis: nat -> int): (r: seq<Turn>)
    ensures |r| == |data.sentences|
    ensures forall i | 0 <= i < |r| ::
      r[i] == ResponseTurn(data.sentences[i], i, |data.sentences|, data.latencyMs, uuid, millis)
  {
    SentenceTurns(data.sentences, data.latencyMs, uuid, millis)
  }

  /** Exactly one entry of a non-empty reply is marked completed: the last. */
  lemma SentenceTurnsOneCompleted(sentences: seq<JsonObject>, latencyMs: int, uuid: nat -> string,
                                  millis: nat -> int)
    ensures var r := SentenceTurns(sentences, latencyMs, uuid, millis);
      forall i | 0 <= i < |r| :: r[i].assistant.isCompleted <==> i == |r| - 1
  {
  }

  /** A row the compression step adds to the long-term store. */
  datatype SummaryRecord = SummaryRecord(
    sessionId: string,
    summary: string,
    originalMessages: seq<Turn>,
    tokenCount: nat,
    importance: real,
    compressedAt: int,
    messageCount: nat)

  /** The record stored for a compressed snapshot `messages` with summary
      `summary`: its token count, importance score and size. */
  function SummaryRecordOf(messages: seq<Turn>, summary: string, counter: Counter, sessionId: string,
                           compressedAt: int): (r: SummaryRecord)
    ensures r.originalMessages == messages && r.messageCount == |messages|
    ensures r.summary == summary && r.sessionId == sessionId && r.compressedAt == compressedAt
    ensures r.tokenCount == MessagesTokens(counter, messages)
    ensures r.importance == ImportanceScore(|messages|, summary) && 0.5 <= r.importance <= 1.0
  {
    SummaryRecord(sessionId, summary, messages, MessagesTokens(counter, messages),
                  ImportanceScore(|messages|, summary), compressedAt, |messages|)
  }

  /** What one run of `_check_and_compress` does. */
  datatype CompressStep =
    | BelowThreshold
    | Unavailable
    | Failed(error: string)
    | Compress(record: SummaryRecord)

  /** Python's binding of keyword arguments to a function's parameters: an unknown
      keyword, or a required parameter left without a value, is a `TypeError`. */
  function BindKeywords(params: set<string>, required: set<string>, given: set<string>): (r: Result<()>)
    ensures r.Success? <==> given <= params && required <= given
  {
    if given <= params && required <= given then Success(()) else Failure("TypeError")
  }

  /** The parameters of the long-term store's `add_summary`, and those without a default. */
  const AddSummaryParams: set<string> :=
    {"session_id", "summary", "original_messages", "token_count", "importance_score", "metadata"}
  const AddSummaryRequired: set<string> := {"session_id", "summary", "original_messages", "token_count"}

  /** The keywords the compression step passes to `add_summary`. */
  const AddSummaryKeywordsAsWritten: set<string> := {"summary", "original_messages", "importance_score", "metadata"}

  /** The attributes a short-term memory object has; `storage_key` is not one of them. */
  const ShortTermAttributes: set<string> := {"max_size", "key_prefix", "current_session_id", "storage"}

  /** `_check_and_compress` as written. After the threshold and availability
      checks it calls `add_summary` without `session_id` and `token_count`, and
      then reads `short_term.storage_key`. */
  function PlanAsWritten(messages: seq<Turn>, threshold: int, hasLongTerm: bool, hasSummarizer: bool,
                         summarize: seq<Turn> -> string): (r: CompressStep)
  {
    if |messages| < threshold then BelowThreshold
    else if !hasLongTerm || !hasSummarizer then Unavailable
    else
      var summary := summarize(messages);
      var _ := ImportanceScore(|messages|, summary);
      match BindKeywords(AddSummaryParams, AddSummaryRequired, AddSummaryKeywordsAsWritten)
      case Failure(e) => Failed(e)
      case Success(_) =>
        if "storage_key" in ShortTermAttributes then Failed("unreachable") else Failed("AttributeError")
  }

  /** As written, the compression step never compresses: every run that passes
      the checks raises, and the handler catches it. */
  lemma AsWrittenNeverCompresses(messages: seq<Turn>, threshold: int, hasLongTerm: bool, hasSummarizer: bool,
                                 summarize: seq<Turn> -> string)
    ensures !PlanAsWritten(messages, threshold, hasLongTerm, hasSummarizer, summarize).Compress?
    ensures |messages| >= threshold && hasLongTerm && hasSummarizer ==>
      PlanAsWritten(messages, threshold, hasLongTerm, hasSummarizer, summarize) == Failed("TypeError")
  {
    assert "session_id" in AddSummaryRequired && "session_id" !in AddSummaryKeywordsAsWritten;
  }

  /** The compression step as intended: `add_summary` receives the current
      session id and the token count of the snapshot. `addFails` says whether
      the store raised. */
  function Plan(messages: seq<Turn>, threshold: int, hasLongTerm: bool, hasSummarizer: bool,
                summarize: seq<Turn> -> string, counter: Counter, sessionId: string,
                compressedAt: int, addFails: bool): (r: CompressStep)
  {
    if |messages| < threshold then BelowThreshold
    else if !hasLongTerm || !hasSummarizer then Unavailable
    else if addFails then Failed("add_summary")
    else Compress(SummaryRecordOf(messages, summarize(messages), counter, sessionId, compressedAt))
  }

  /** Compression happens exactly when the threshold is reached, both services
      exist and the store accepts the summary; the record then holds the whole
      snapshot, its token count, and an importance score in [0.5, 1.0]. */
  lemma PlanCompresses(messages: seq<Turn>, threshold: int, hasLongTerm: bool, hasSummarizer: bool,
                       summarize: seq<Turn> -> string, counter: Counter, sessionId: string,
                       compressedAt: int, addFails: bool)
    ensures var r := Plan(messages, threshold, hasLongTerm, hasSummarizer, summarize, counter, sessionId,
                          compressedAt, addFails);
      (r.Compress? <==> |messages| >= threshold && hasLongTerm && hasSummarizer && !addFails)
      && (r.Compress? ==>
            r.record.originalMessages == messages && r.record.messageCount == |messages|
            && r.record.summary == summarize(messages) && r.record.sessionId == sessionId
            && r.record.tokenCount == MessagesTokens(counter, messages)
            && 0.5 <= r.record.importance <= 1.0)
  {
  }

  /** `trim(key, n, -1)` after a snapshot of `n` entries keeps exactly the
      entries appended after the snapshot. */
  lemma TrimAfterSnapshot(snapshot: seq<Turn>, later: seq<Turn>)
    ensures RedisRange(snapshot + later, |snapshot|, -1) == later
  {
    if later == [] {
      assert RedisRange(snapshot, |snapshot|, -1) == [];
    } else {
      assert (snapshot + later)[|snapshot|..] == later;
    }
  }

  /** A header line followed by one `- item` line per item, joined by newlines:
      how retrieved summaries and memories are put into a prompt. */
  function BulletedText(header: string, items: seq<string>): (r: string)
    requires items != []
  {
    header + "\n" + Join(seq(|items|, i requires 0 <= i < |items| => "- " + items[i]), "\n")
  }

  const SummariesHeader: string := "Recent conversation summaries:"

  /** When neither the header nor an item holds a newline, the text splits into
      the header line followed by one `- item` line per item, in order. */
  lemma BulletedTextLines(header: string, items: seq<string>)
    requires items != [] && '\n' !in header
    requires forall i | 0 <= i < |items| :: '\n' !in items[i]
    ensures Split(BulletedText(header, items), '\n') ==
      [header] + seq(|items|, i requires 0 <= i < |items| => "- " + items[i])
  {
    var lines := seq(|items|, i requires 0 <= i < |items| => "- " + items[i]);
    var all := [header] + lines;
    assert all[1..] == lines;
    assert Join(all, "\n") == header + "\n" + Join(lines, "\n");
    forall i | 0 <= i < |all|
      ensures '\n' !in all[i]
    {
      if i > 0 {
        assert all[i] == "- " + items[i - 1];
      }
    }
    SplitJoin(all, '\n');
  }

  /** What a retrieval from an optional store puts into a prompt: nothing when
      the store is missing, raised (`Failure`) or returned nothing; otherwise the
      header and one line per returned item. */
  function RetrievedText(available: bool, header: string, fetched: Result<seq<string>>): (r: string)
    ensures !available || fetched.Failure? || (fetched.Success? && fetched.value == []) ==> r == ""
    ensures available && fetched.Success? && fetched.value != [] ==> r == BulletedText(header, fetched.value)
  {
    if !available then ""
    else match fetched
      case Failure(_) => ""
      case Success(items) => if items == [] then "" else BulletedText(header, items)
  }

  /** The lines a retrieval adds to a prompt: none unless the store is there,
      answered and returned something; then the header line and one `- item`
      line per returned item, in order (for a header and items without
      newlines). */
  lemma RetrievedTextLines(available: bool, header: string, fetched: Result<seq<string>>)
    requires '\n' !in header
    requires fetched.Success? ==> forall i | 0 <= i < |fetched.value| :: '\n' !in fetched.value[i]
    ensures var r := RetrievedText(available, header, fetched);
      r == "" <==> !available || fetched.Failure? || fetched.value == []
    ensures available && fetched.Success? && fetched.value != [] ==>
      Split(RetrievedText(available, header, fetched), '\n') ==
        [header] + seq(|fetched.value|, i requires 0 <= i < |fetched.value| => "- " + fetched.value[i])
  {
    if available && fetched.Success? && fetched.value != [] {
      BulletedTextLines(header, fetched.value);
      assert |RetrievedText(available, header, fetched)| > 0;
    }
  }

  /** One iteration of the reply-saving loop: the entry for sentence `i` of `n`. */
  method SaveSentence(shortTerm: ShortTermMemory, s: JsonObject, i: nat, n: nat, latencyMs: int,
                      uuid: nat -> string, now: int, millis: nat -> int)
    returns (entry: Turn)
    modifies shortTerm, shortTerm.storage
    ensures entry == ResponseTurn(s, i, n, latencyMs, uuid, millis)
    ensures Truthy(shortTerm.currentSessionId) && shortTerm.SessionKey() == old(shortTerm.KeyForAdd(now))
    ensures shortTerm.currentSessionId == Some(old(shortTerm.SessionForAdd(now)))
    ensures shortTerm.storage.storage == old(shortTerm.storage.storage)[shortTerm.SessionKey() :=
      Bounded(ListOf(old(shortTerm.storage.storage), shortTerm.SessionKey()) + [entry], shortTerm.maxSize)]
  {
    entry := shortTerm.AddChinoResponse(
      GetStr(s, "text_spoken", ""), GetStr(s, "text_display", ""), "jp", GetStr(s, "emo", "normal"),
      GetStr(s, "act", "none"), GetNum(s, "intensity", 0.5), i, i + 1 == n,
      if i == 0 then latencyMs else 0, uuid(i), now, millis(i));
  }

  /** Saving one more entry to a list built by a fold extends the fold. */
  lemma SaveStep(m0: map<string, seq<Turn>>, m: map<string, seq<Turn>>, key: string, l: seq<Turn>,
                 rest: seq<Turn>, entry: Turn, maxSize: int)
    requires m == m0[key := BoundedFold(l, rest, maxSize)]
    ensures m[key := Bounded(ListOf(m, key) + [entry], maxSize)]
         == m0[key := BoundedFold(l, rest + [entry], maxSize)]
  {
    var t := rest + [entry];
    assert ListOf(m, key) == BoundedFold(l, rest, maxSize);
    assert t[..|t| - 1] == rest && t[|t| - 1] == entry;
    assert BoundedFold(l, t, maxSize) == Bounded(BoundedFold(l, rest, maxSize) + [entry], maxSize);
  }

  /** The reply-saving loop of `_on_llm_response` (and of the dialog
      orchestrator's turns): one assistant entry per sentence, in order. */
  method SaveSentences(shortTerm: ShortTermMemory, sentences: seq<JsonObject>, latencyMs: int,
                       uuid: nat -> string, now: int, millis: nat -> int)
    returns (saved: seq<Turn>)
    modifies shortTerm, shortTerm.storage
    ensures saved == SentenceTurns(sentences, latencyMs, uuid, millis)
    ensures sentences == [] ==>
      shortTerm.storage.storage == old(shortTerm.storage.storage)
      && shortTerm.currentSessionId == old(shortTerm.currentSessionId)
    ensures sentences != [] ==>
      var key := old(shortTerm.KeyForAdd(now));
      shortTerm.SessionKey() == key && shortTerm.currentSessionId == Some(old(shortTerm.SessionForAdd(now)))
      && Truthy(shortTerm.currentSessionId)
      && shortTerm.storage.storage == old(shortTerm.storage.storage)[key :=
           BoundedFold(ListOf(old(shortTerm.storage.storage), key), saved, shortTerm.maxSize)]
  {
    ghost var turns := SentenceTurns(sentences, latencyMs, uuid, millis);
    var n := |sentences|;
    if n == 0 {
      return [];
    }
    ghost var key := shortTerm.KeyForAdd(now);
    ghost var l0 := ListOf(shortTerm.storage.storage, key);
    var entry := SaveSentence(shortTerm, sentences[0], 0, n, latencyMs, uuid, now, millis);
    ghost var m1 := shortTerm.storage.storage;
    assert entry == turns[0];
    assert m1 == old(shortTerm.storage.storage)[key := Bounded(l0 + [turns[0]], shortTerm.maxSize)];
    var rest := SaveRest(shortTerm, sentences, latencyMs, uuid, now, millis);
    saved := [entry] + rest;
    HeadTail(turns);
    FirstThenRest(old(shortTerm.storage.storage), m1, key, l0, turns, shortTerm.maxSize);
  }

  /** Saving the first entry and then folding the rest is folding them all. */
  lemma FirstThenRest(m0: map<string, seq<Turn>>, m1: map<string, seq<Turn>>, key: string, l0: seq<Turn>,
                      turns: seq<Turn>, maxSize: int)
    requires turns != [] && l0 == ListOf(m0, key)
    requires m1 == m0[key := Bounded(l0 + [turns[0]], maxSize)]
    ensures m1[key := BoundedFold(ListOf(m1, key), turns[1..], maxSize)] == m0[key := BoundedFold(l0, turns, maxSize)]
  {
    BoundedFoldCons(l0, turns, maxSize);
  }

  /** The saving loop from the second sentence on, once the session exists. */
  method SaveRest(shortTerm: ShortTermMemory, sentences: seq<JsonObject>, latencyMs: int,
                  uuid: nat -> string, now: int, millis: nat -> int)
    returns (rest: seq<Turn>)
    requires |sentences| >= 1 && Truthy(shortTerm.currentSessionId)
    requires shortTerm.SessionKey() in shortTerm.storage.storage
    modifies shortTerm, shortTerm.storage
    ensures rest == SentenceTurns(sentences, latencyMs, uuid, millis)[1..]
    ensures shortTerm.SessionKey() == old(shortTerm.SessionKey())
    ensures shortTerm.currentSessionId == old(shortTerm.currentSessionId)
    ensures var key := shortTerm.SessionKey();
      shortTerm.storage.storage == old(shortTerm.storage.storage)[key :=
        BoundedFold(ListOf(old(shortTerm.storage.storage), key), rest, shortTerm.maxSize)]
  {
    ghost var key := shortTerm.SessionKey();
    ghost var m0 := shortTerm.storage.storage;
    ghost var all := SentenceTurns(sentences, latencyMs, uuid, millis);
    var n := |sentences|;
    var i := 1;
    rest := [];
    while i < n
      invariant 1 <= i <= n
      invariant rest == all[1..i]
      invariant shortTerm.SessionKey() == key && Truthy(shortTerm.currentSessionId)
      invariant shortTerm.currentSessionId == old(shortTerm.currentSessionId)
      invariant shortTerm.storage.storage == m0[key := BoundedFold(ListOf(m0, key), rest, shortTerm.maxSize)]
    {
      ghost var before := shortTerm.storage.storage;
      var entry := SaveSentence(shortTerm, sentences[i], i, n, latencyMs, uuid, now, millis);
      SaveStep(m0, before, key, ListOf(m0, key), rest, entry, shortTerm.maxSize);
      SliceSnoc(all, 1, i);
      rest := rest + [entry];
      i := i + 1;
    }
  }

  class MemoryManager {
    const shortTerm: ShortTermMemory
    const hasLongTerm: bool
    const hasSummarizer: bool
    const compressThreshold: int
    const counter: Counter
    /** The rows added to the long-term store. */
    var summaries: seq<SummaryRecord>
    /** The `MEMORY_FULL` payloads published on the event bus. */
    var published: seq<MemoryFullPayload>

    constructor(shortTerm: ShortTermMemory, hasLongTerm: bool, hasSummarizer: bool, compressThreshold: int,
                counter: Counter)
      ensures this.shortTerm == shortTerm && this.hasLongTerm == hasLongTerm && this.hasSummarizer == hasSummarizer
      ensures this.compressThreshold == compressThreshold && this.counter == counter
      ensures summaries == [] && published == []
    {
      this.shortTerm := shortTerm;
      this.hasLongTerm := hasLongTerm;
      this.hasSummarizer := hasSummarizer;
      this.compressThreshold := compressThreshold;
      this.counter := counter;
      summaries := [];
      published := [];
    }

    /** `_on_stt_ready`: one user entry with the payload's fields. */
    method OnSttReady(data: SttReadyPayload, now: int, nowMillis: int)
      modifies shortTerm, shortTerm.storage
      ensures old(!Truthy(shortTerm.currentSessionId)) ==> shortTerm.currentSessionId == Some(SessionIdAt(now))
      ensures old(Truthy(shortTerm.currentSessionId)) ==> shortTerm.currentSessionId == old(shortTerm.currentSessionId)
      ensures Truthy(shortTerm.currentSessionId) && shortTerm.SessionKey() == old(shortTerm.KeyForAdd(now))
      ensures var key := shortTerm.SessionKey();
        shortTerm.storage.storage == old(shortTerm.storage.storage)[key :=
          Bounded(ListOf(old(shortTerm.storage.storage), key) +
                  [UserTurn(UserEntry(data.text, data.emotion, data.lang, shortTerm.currentSessionId.value,
                                      data.source, false, nowMillis))], shortTerm.maxSize)]
    {
      var _ := shortTerm.AddUserMessage(data.text, data.emotion, data.lang, data.source, false, now, nowMillis);
    }

    /** `_check_and_compress`, as intended (see `Plan`). `summarize` stands for
        the summarizer, `addFails` for an exception from the long-term store. */
    method CheckAndCompress(summarize: seq<Turn> -> string, compressedAt: int, addFails: bool)
      returns (step: CompressStep)
      modifies this, shortTerm.storage
      ensures var messages := old(shortTerm.AllMessages());
        step == Plan(messages, compressThreshold, hasLongTerm, hasSummarizer, summarize, counter,
                     (if old(Truthy(shortTerm.currentSessionId)) then old(shortTerm.currentSessionId.value) else "default"),
                     compressedAt, addFails)
      ensures !step.Compress? ==>
        summaries == old(summaries) && published == old(published)
        && shortTerm.storage.storage == old(shortTerm.storage.storage)
      ensures step.Compress? ==>
        summaries == old(summaries) + [step.record]
        && published == old(published) + [MemoryFullPayload(0, step.record.messageCount, compressThreshold)]
        && ListOf(shortTerm.storage.storage, shortTerm.SessionKey()) == []
        && shortTerm.storage.storage.Keys == old(shortTerm.storage.storage).Keys
        && forall k | k in shortTerm.storage.storage && k != shortTerm.SessionKey() ::
             shortTerm.storage.storage[k] == old(shortTerm.storage.storage)[k]
    {
      var messages := shortTerm.GetRecentMessages(None);
      step := Plan(messages, compressThreshold, hasLongTerm, hasSummarizer, summarize, counter,
                   if Truthy(shortTerm.currentSessionId) then shortTerm.currentSessionId.value else "default",
                   compressedAt, addFails);
      if !step.Compress? {
        return;
      }
      summaries := summaries + [step.record];
      var key := shortTerm.SessionKey();
      TrimAfterSnapshot(messages, []);
      assert messages + [] == messages;
      shortTerm.storage.Trim(key, |messages|, -1);
      published := published + [MemoryFullPayload(0, |messages|, compressThreshold)];
    }

    /** `_on_llm_response`: save every sentence, then try to compress; `step` is
        the compression step taken. An empty reply saves nothing and still
        tries to compress the current session's list. */
    method OnLlmResponse(data: LlmResponsePayload, uuid: nat -> string, now: int, millis: nat -> int,
                         summarize: seq<Turn> -> string, compressedAt: int, addFails: bool)
      returns (step: CompressStep)
      modifies this, shortTerm, shortTerm.storage
      ensures var key := if data.sentences == [] then old(shortTerm.SessionKey()) else old(shortTerm.KeyForAdd(now));
        var sessionId := if data.sentences == [] then
                           (if old(Truthy(shortTerm.currentSessionId)) then old(shortTerm.currentSessionId.value) else "default")
                         else old(shortTerm.SessionForAdd(now));
        var messages := BoundedFold(ListOf(old(shortTerm.storage.storage), key), ResponseTurns(data, uuid, millis),
                                    shortTerm.maxSize);
        step == Plan(messages, compressThreshold, hasLongTerm, hasSummarizer, summarize, counter, sessionId,
                     compressedAt, addFails)
        && (!step.Compress? ==>
              summaries == old(summaries) && published == old(published)
              && ListOf(shortTerm.storage.storage, key) == messages)
        && (step.Compress? ==>
              summaries == old(summaries) + [step.record]
              && published == old(published) + [MemoryFullPayload(0, |messages|, compressThreshold)]
              && ListOf(shortTerm.storage.storage, key) == [])
        && forall k | k != key :: ListOf(shortTerm.storage.storage, k) == ListOf(old(shortTerm.storage.storage), k)
      ensures old(|summaries|) <= |summaries| <= old(|summaries|) + 1 && summaries[..old(|summaries|)] == old(summaries)
      ensures data.sentences != [] && |summaries| == old(|summaries|) ==>
        var key := old(shortTerm.KeyForAdd(now));
        ListOf(shortTerm.storage.storage, key) ==
          BoundedFold(ListOf(old(shortTerm.storage.storage), key), ResponseTurns(data, uuid, millis), shortTerm.maxSize)
      ensures data.sentences != [] && |summaries| > old(|summaries|) ==>
        var key := old(shortTerm.KeyForAdd(now));
        ListOf(shortTerm.storage.storage, key) == []
        && summaries[|summaries| - 1].originalMessages ==
          BoundedFold(ListOf(old(shortTerm.storage.storage), key), ResponseTurns(data, uuid, millis), shortTerm.maxSize)
    {
      var _ := SaveSentences(shortTerm, data.sentences, data.latencyMs, uuid, now, millis);
      step := CheckAndCompress(summarize, compressedAt, addFails);
    }

    /** `get_recent_summaries`, with what the long-term store returned for the
        limit given as `fetched`, or a failure when it raised. */
    function GetRecentSummaries(fetched: Result<seq<string>>): (r: string)
      ensures r == RetrievedText(hasLongTerm, SummariesHeader, fetched)
    {
      RetrievedText(hasLongTerm, SummariesHeader, fetched)
    }

    /** `clear`: clears short-term memory. */
    method Clear()
      modifies shortTerm, shortTerm.storage
      ensures old(Truthy(shortTerm.currentSessionId)) ==>
        shortTerm.storage.storage == old(shortTerm.storage.storage) - {old(shortTerm.SessionKey())}
      ensures old(!Truthy(shortTerm.currentSessionId)) ==> shortTerm.storage.storage == old(shortTerm.storage.storage)
      ensures shortTerm.currentSessionId == None
    {
      shortTerm.Clear();
    }
  }
}
