# Chino-Kafuu coordination layer in Dafny

Chino-Kafuu is a voice assistant: microphone audio is cut into utterances, transcribed, answered by
a language model in newline-delimited JSON (one sentence object per line), and the answer is routed
sentence by sentence towards speech synthesis. This project models the layer that coordinates those
services and proves properties of the model:

- **EventBus** (`event_bus.dfy`): the in-process event bus. Subscriptions are kept per event,
  ordered HIGH, NORMAL, LOW and otherwise in subscription order (a stable sort). Publishing runs the
  event's handlers merged with the wildcard `"*"` handlers. A handler's exception is logged and the
  others still run. The last 100 publications are kept as history.
- **DialogTokenRouter** (`dialog_token_router.dfy`): labels the sentences of one reply `0, 1, …`.
  Sentence `i` is queued in FIFO slot `i % num_slots`. The router then tracks which sentences are
  completed and reassembles them in index order.
- **TtsTokenRouter** (`tts_token_router.dfy`): gives each sentence a global sequence id, a queue
  label and a token count. It sorts items back by id and collects items from several queues in id
  order.
- **Cache** (`memory_cache.py` → `memory_cache.dfy`): the dictionary-of-lists storage backend with
  Redis-style inclusive `start`/`end` ranges.
- **ShortTerm** (`short_term.dfy`): the conversation buffer for the current session. Every append
  is followed by a trim to the newest `max_size` entries. It also renders the buffer as the
  role/content/emotion context the prompt is built from.
- **Summarizer** and **TokenCounter**: the summary prompt, the fallback summary when the model
  fails, the keyword-based importance score in [0.5, 1.0], and token counting (an encoder, or
  `len // 4`).
- **MemoryManager** (`memory_manager.dfy`): the event handlers. They save the user's transcription
  and the reply sentences, and they compress the buffer into a long-term summary once it reaches
  a threshold.
- **PromptBuilder**, **LlmWrapper**: the prompt is the system prompt, the last 20 history entries
  and then the user message or the auto-trigger instruction. The reply parser keeps the lines that
  decode to objects having all six required keys.
- **Orchestrator** (`orchestrator.dfy`): one user turn runs retrieval, save, prompt, model call and
  save. Retrieved summaries and memories are inserted after the system prompt. It also covers the
  idle auto-trigger, the watchdog's check, and token-limited compression into mid-term memory with
  promotion to long-term memory.
- **AudioRing** (`audio_buffer.dfy`): the preallocated circular audio buffer. Writes wrap around
  and reads return the newest frames oldest-first.
- **Transcription** (`transcriber.dfy`): end-of-speech detection. Speech chunks are buffered
  until enough silent chunks in a row follow; the joined bytes are then transcribed.

Shared modules: `Wrappers` (Option, Result, Min/Max, Python truthiness of optional strings),
`PySeq` (Python slice semantics with negative indices), `PyStr` (strip, split, join, substring
test, ASCII lower-casing, integer to decimal), `Json` (decoded JSON values and `dict.get`), `Turns`
(the stored conversation entries and chat messages) and `Events` (event names and payloads).

The model calls, the JSON decoder, the speech-to-text model, the voice-activity verdicts, clocks,
uuids and the long-term/mid-term stores are parameters: a function argument, a `Result` for a
call that can raise, or a flag such as `addFails`. Where an operation changes state, the model is
a class with `modifies` clauses, and each method's `ensures` gives its whole new state in terms of
pure functions whose properties are proved as lemmas.

## Model

| member | source | states |
|---|---|---|
| EventBus.SortByPrioritySorted | src/core/event_bus.py:24-28 | the order subscriptions are sorted into is non-decreasing in priority: HIGH before NORMAL before LOW |
| EventBus.SortByPriorityPermutes | src/core/event_bus.py:59 | sorting neither drops nor adds a subscription: same multiset, same length |
| EventBus.SortByPriorityStable | src/core/event_bus.py:24-28 | within one priority the sort keeps the original order, because `handler` and `owner` take no part in comparison |
| EventBus.SortedIsFixpoint | src/core/event_bus.py:114-120 | sorting an already ordered list changes nothing, so skipping the sort when there are no wildcard handlers agrees with sorting |
| EventBus.SortUnique | src/core/event_bus.py:59 | an ordered list whose per-priority subsequences equal those of `s` is exactly the stable sort of `s` |
| EventBus.BandMembers | src/core/event_bus.py:24-28 | the subsequence of one priority holds exactly the subscriptions of that priority |
| EventBus.BandsPartition | src/core/event_bus.py:18-21 | the three priority subsequences together hold every subscription exactly once |
| EventBus.WithoutHandlerMembers | src/core/event_bus.py:68 | the filtered list keeps exactly the subscriptions of other handlers |
| EventBus.WithoutHandlerShorter | src/core/event_bus.py:67-69 | the list gets shorter exactly when the handler was subscribed, which is what `removed` reports |
| EventBus.WithoutHandlerSorted | src/core/event_bus.py:68 | removing subscriptions keeps the priority order |
| EventBus.WithoutOwnerMembers | src/core/event_bus.py:82 | the filtered list keeps exactly the subscriptions of other owners |
| EventBus.WithoutOwnerSorted | src/core/event_bus.py:82 | removing an owner's subscriptions keeps the priority order |
| EventBus.AppendCapped | src/core/event_bus.py:134-138 | the new record is last and the newest 100 records are kept |
| EventBus.FilterOwner | src/core/event_bus.py:80-85 | every event's list loses the owner's subscriptions, the events left empty are collected, and `removed` counts what disappeared |
| EventBus.PrunedTable | src/core/event_bus.py:80-90 | filtering every list and then deleting the events left empty yields the table of non-empty filtered lists |
| EventBus.WithoutOwnerTableSorted | src/core/event_bus.py:80-90 | that table keeps every list non-empty and in priority order, with none of the owner's subscriptions |
| EventBus.DeleteEvents | src/core/event_bus.py:87-88 | exactly the collected events are deleted and the other lists are untouched |
| EventBus.TotalDelete | src/core/event_bus.py:87-90 | deleting empty lists leaves the total number of subscriptions unchanged, so the returned count is exact |
| EventBus.TotalUpdate | src/core/event_bus.py:143-146 | replacing one event's list changes the total by the difference of the list lengths |
| EventBus.EventBus.constructor | src/core/event_bus.py:41-45 | no subscriptions and no history |
| EventBus.EventBus.Subscribe | src/core/event_bus.py:47-59 | the new subscription joins the event's list, which stays ordered; every priority group is the old group followed by the new entry when it has that priority |
| EventBus.EventBus.Unsubscribe | src/core/event_bus.py:63-74 | true exactly when the handler was subscribed; afterwards none of its subscriptions to the event remain; a list left empty is deleted; other events are untouched |
| EventBus.EventBus.UnsubscribeAll | src/core/event_bus.py:76-90 | the owner has no subscription left, empty events are gone, the other subscriptions stay in order, and the result is how many were removed |
| EventBus.EventBus.GetHandlers | src/core/event_bus.py:114-120 | the event's handlers merged with the wildcard handlers, ordered by priority, each priority group being the event's entries followed by the wildcard's |
| EventBus.EventBus.RecordHistory | src/core/event_bus.py:134-138 | the history gains the record at its end and keeps the newest 100 |
| EventBus.RunHandlers | src/core/event_bus.py:100-105 | one call per handler, in the handlers' order, each recording whether that handler raised |
| EventBus.EventBus.Publish | src/core/event_bus.py:92-105 | each handler of `GetHandlers` is called once, in order; a raising handler is logged and the rest still run; the count is the number of calls; history is recorded only when some handler exists |
| EventBus.EventBus.GetHistory | src/core/event_bus.py:140-141 | the newest `limit` records; `limit == 0` returns the whole history because `-0 == 0`; a negative limit drops the oldest `-limit` records |
| EventBus.EventBus.GetSubscriberCount | src/core/event_bus.py:143-146 | the event's list length for a non-empty name, otherwise the sum over all events |
| EventBus.EventBus.Reset | src/core/event_bus.py:157-160 | no subscriptions and no history |
| DialogTokenRouter.EnqueueFifo | src/modules/dialog/token_router.py:45-46 | a slot queue is first in, first out: enqueueing adds one waiting sentence at the back, keeps the front one first, and the slot is no longer idle |
| DialogTokenRouter.EmptySlots | src/modules/dialog/token_router.py:106 | one empty, idle slot per slot id `0 … n-1` |
| DialogTokenRouter.RoundRobin | src/modules/dialog/token_router.py:126-136 | the queue of slot `k` after routing `n` sentences holds exactly the indices below `n` congruent to `k`, in increasing order |
| DialogTokenRouter.RoutedStep | src/modules/dialog/token_router.py:126-136 | routing sentence `n` appends it to slot `n % num_slots` and leaves every other slot alone |
| DialogTokenRouter.RoutedOk | src/modules/dialog/token_router.py:126-136 | every routed index sits in the slot its residue selects and is below the total |
| DialogTokenRouter.Label | src/modules/dialog/token_router.py:126-136 | sentence `i` is labelled `i` and pending, and the slots are those of routing `0 … n-1` round-robin |
| DialogTokenRouter.SortedIndices | src/modules/dialog/token_router.py:190-191 | the completed indices listed in index order |
| DialogTokenRouter.SortedIndicesOrdered | src/modules/dialog/token_router.py:190 | every completed index appears, strictly increasing |
| DialogTokenRouter.SortedIndicesAll | src/modules/dialog/token_router.py:188-191 | when all of `0 … n-1` are completed the ordered list is `0, 1, …, n-1` |
| DialogTokenRouter.IndexSetCard | src/modules/dialog/token_router.py:176-178 | a set of indices below `n` has `n` members exactly when it holds every index below `n`, so `len(completed) == total` means all are complete |
| DialogTokenRouter.RoutedQueuesAll | src/modules/dialog/token_router.py:126-136 | after routing, every sentence waits in some slot |
| DialogTokenRouter.TokenRouter.constructor | src/modules/dialog/token_router.py:104-112 | `num_slots` empty slots, nothing routed or completed, event cleared |
| DialogTokenRouter.TokenRouter.Reset | src/modules/dialog/token_router.py:202-209 | fresh empty slots and no sentences, completions, total or reply id; the finished event is cleared |
| DialogTokenRouter.TokenRouter.RouteSentences | src/modules/dialog/token_router.py:114-143 | sentence `i` is labelled `i`, stored pending and queued on slot `i % num_slots`; the reply id is the given one or a fresh one when none or an empty one is given |
| DialogTokenRouter.TokenRouter.Dequeue | src/modules/dialog/token_router.py:48-54 | the head of the slot's queue becomes its current sentence, marked processing; an empty queue gives `None` and changes nothing |
| DialogTokenRouter.TokenRouter.GetNext | src/modules/dialog/token_router.py:145-149 | `None` for a slot id at or above `num_slots`; a negative id picks a slot from the end as Python indexing does; otherwise the slot's `dequeue` |
| DialogTokenRouter.TokenRouter.IsAllCompleted | src/modules/dialog/token_router.py:176-178 | true exactly when something was routed and every sentence is completed |
| DialogTokenRouter.TokenRouter.MarkCompleted | src/modules/dialog/token_router.py:155-174 | false, changing nothing, for an unknown or already completed index; otherwise the index is completed and the slot's current sentence (whichever it is) is marked completed and released; the finished event is set exactly when all are completed |
| DialogTokenRouter.TokenRouter.BuildOrderedResponse | src/modules/dialog/token_router.py:188-191 | one entry per completed sentence, the `j`-th being the data of the `j`-th completed index in increasing order (SortedIndicesOrdered: increasing and covering every completed index) |
| DialogTokenRouter.TokenRouter.AllCompletedOrdered | src/modules/dialog/token_router.py:188-191 | once every sentence is completed, the reassembled response is the routed input in its original order |
| DialogTokenRouter.TokenRouter.GetCompletedUpTo | src/modules/dialog/token_router.py:193-200 | the longest run of completed sentences starting at index 0, with their data |
| DialogTokenRouter.TokenRouter.GetStatus | src/modules/dialog/token_router.py:211-225 | counts, the all-completed flag and per-slot pending counts and idleness agree with the router's state |
| DialogTokenRouter.TokenRouter.ProcessNext | src/modules/dialog/token_router.py:233-238 | one step of the drain loop: stop on an empty slot, else the head sentence is dequeued and completed and the slot is idle again |
| DialogTokenRouter.TokenRouter.DrainSlot | src/modules/dialog/token_router.py:234-238 | the slot's queue is emptied, every sentence that waited in it joins the completed set and has its status set to completed (`MarkAll`), and nothing else changes |
| DialogTokenRouter.TokenRouter.DrainAll | src/modules/dialog/token_router.py:233-238 | every slot is drained; exactly the queued sentences join the completed set and get the completed status (`MarkSlots`) |
| DialogTokenRouter.MarkAllSpec | src/modules/dialog/token_router.py:234-238 | marking a queue completed sets exactly the statuses of the queued indices to completed and leaves the rest |
| DialogTokenRouter.MarkSlotsSpec | src/modules/dialog/token_router.py:233-238 | draining every slot in turn completes exactly the sentences queued in some slot |
| DialogTokenRouter.TokenRouter.ProcessAllSequential | src/modules/dialog/token_router.py:227-240 | drains every slot and returns the ordered response; right after routing this is the routed input, unchanged and in order |
| TtsTokenRouter.DefaultTokenText | src/modules/tts/token_router.py:30 | the default token text is the sentence's `text_spoken` string as it is, empty when the key is missing |
| TtsTokenRouter.LabelChoice | src/modules/tts/token_router.py:47-51 | the label is the selector's unless that is empty, the default for every sentence without a selector, and never empty when the default is not |
| TtsTokenRouter.AppendAllQueue | src/modules/tts/token_router.py:63 | after routing, each label's queue is its old contents followed by the routed items with that label, in order |
| TtsTokenRouter.InsertByIdSorted | src/modules/tts/token_router.py:69-72 | inserting an item into an id-sorted list keeps it sorted |
| TtsTokenRouter.InsertByIdPermutes | src/modules/tts/token_router.py:69-72 | insertion adds exactly the one item |
| TtsTokenRouter.ReorderSortedPermutation | src/modules/tts/token_router.py:68-72 | `reorder` returns the items sorted by sequence id and as a permutation of its input |
| TtsTokenRouter.ReorderStable | src/modules/tts/token_router.py:68-72 | the sort is stable: for every id, the items with that id keep their input order |
| TtsTokenRouter.ReorderKeepsEqualIds | src/modules/tts/token_router.py:68-72 | two items with equal ids come out in input order |
| TtsTokenRouter.InsertByIdWithId | src/modules/tts/token_router.py:69-72 | an inserted item goes in front of the items with its id; other ids' items are unchanged |
| TtsTokenRouter.TokenRouter.constructor | src/modules/tts/token_router.py:21-32 | no queues, counter at 0, token text selector defaulting to `text_spoken` |
| TtsTokenRouter.TokenRouter.GetQueue | src/modules/tts/token_router.py:34-39 | the queue of the label, created empty on first use; an existing queue is returned unchanged |
| TtsTokenRouter.TokenRouter.Item | src/modules/tts/token_router.py:51-60 | the item's id, label, token count and sentence |
| TtsTokenRouter.TokenRouter.Route | src/modules/tts/token_router.py:41-66 | one item per sentence in input order with consecutive ids from the counter, each appended to its label's queue; the counter advances by the number of sentences |
| TtsTokenRouter.TokenRouter.CollectInOrder | src/modules/tts/token_router.py:74-103 | nothing for a non-positive count; otherwise the output holds consecutive ids from `start`, each an arrived item, and it stops when `expected_count` items are collected or the next id has not arrived |
| Cache.RedisRangeExact | src/modules/memory/cache/memory_cache.py:33-40 | the range holds exactly the consecutive elements whose positions lie between start and end inclusive |
| Cache.RedisRangeAll | src/modules/memory/cache/memory_cache.py:33 | `(0, -1)`, the default range, is the whole list |
| Cache.RedisRangeLast | src/modules/memory/short_term.py:95 | `(-n, -1)` is the newest `n` entries |
| Cache.RedisRangeInside | src/modules/memory/cache/memory_cache.py:33-40 | for in-range indices, `start … end` inclusive |
| Cache.RedisRangeTestCases | tests/test_memory_cache.py:33-72 | the range examples the repository's cache tests use |
| Cache.AsWrittenAgrees | src/modules/memory/cache/memory_cache.py:25-31 | the code as written agrees with Redis ranges whenever `end >= -len-1`, which covers every call site |
| Cache.AsWrittenWraps | src/modules/memory/cache/memory_cache.py:29-31 | as written, `end = -7` on five entries returns four entries where Redis returns none |
| Cache.MemoryCache.constructor | src/modules/memory/cache/memory_cache.py:14-17 | empty storage |
| Cache.MemoryCache.AddMessage | src/modules/memory/cache/memory_cache.py:19-23 | the message is appended to the key's list, which is created when missing; other keys are untouched |
| Cache.MemoryCache.GetMessages | src/modules/memory/cache/memory_cache.py:33-40 | the Redis range of the key's list, empty for a missing key |
| Cache.MemoryCache.Trim | src/modules/memory/cache/memory_cache.py:42-49 | the key's list is replaced by its range; a missing key changes nothing |
| Cache.MemoryCache.Delete | src/modules/memory/cache/memory_cache.py:51-54 | the key is gone and reads as empty; other keys are untouched |
| Cache.MemoryCache.ClearAll | src/modules/memory/cache/memory_cache.py:60-63 | no key is left |
| ShortTerm.ParseStorageType | src/modules/memory/short_term.py:44-57 | `"cache"` and `"redis"` pick a backend; any other name is an error |
| ShortTerm.KeyForInjective | src/modules/memory/short_term.py:59-62 | different non-empty session ids get different keys |
| ShortTerm.SessionIdAtReadBack | src/modules/memory/short_term.py:191-194 | a session id is `session_` followed by the decimal clock reading, which reads back to that reading |
| ShortTerm.SessionIdAtInjective | src/modules/memory/short_term.py:191-194 | session ids taken at different clock readings differ |
| ShortTerm.BoundedShape | src/modules/memory/short_term.py:94-95 | append-then-trim keeps the newest `max_size` entries; `max_size == 0` keeps everything (`-0 == 0`), and a negative size drops the oldest entries |
| ShortTerm.BoundedAppend | src/modules/memory/short_term.py:94-95 | after an append the buffer is at most `max_size` long and ends with the new entry |
| ShortTerm.BoundedIdempotent | src/modules/memory/short_term.py:95 | trimming a trimmed buffer again changes nothing |
| ShortTerm.ContextConcat | src/modules/memory/short_term.py:156-175 | the context of a concatenation is the concatenation of the contexts |
| ShortTerm.ContextPointwise | src/modules/memory/short_term.py:161-173 | a buffer of user and assistant entries maps entry by entry |
| ShortTerm.ShortTermMemory.constructor | src/modules/memory/short_term.py:21-57 | the settings as given, an empty store and no session |
| ShortTerm.ShortTermMemory.StartNewSession | src/modules/memory/short_term.py:185-189 | the new id is `session_<seconds>` and becomes current |
| ShortTerm.ShortTermMemory.Store | src/modules/memory/short_term.py:92-95 | the entry is appended under the session key and the list trimmed to the newest `max_size` |
| ShortTerm.ShortTermMemory.AddUserMessage | src/modules/memory/short_term.py:64-97 | the session is started when missing; the returned user entry carries the session id and the clock's milliseconds, and it is appended and trimmed |
| ShortTerm.ShortTermMemory.AddChinoResponse | src/modules/memory/short_term.py:99-143 | same for an assistant entry, with the stream index as decimal text and empty phonemes |
| ShortTerm.ShortTermMemory.AllMessages | src/modules/memory/short_term.py:145-154 | the whole list of the session key |
| ShortTerm.ShortTermMemory.GetRecentMessages | src/modules/memory/short_term.py:145-154 | everything for `None` or 0; the newest `count` entries for a positive count |
| ShortTerm.ShortTermMemory.GetConversationContext | src/modules/memory/short_term.py:156-175 | the context rendering of the whole buffer |
| ShortTerm.ShortTermMemory.Clear | src/modules/memory/short_term.py:177-183 | the current session's list is deleted when there is a session, and the session is forgotten |
| ShortTerm.ShortTermMemory.Buffer | src/modules/memory/short_term.py:196-199 | the whole buffer |
| TokenCounter.EstimateTokens | src/modules/memory/token_counter.py:48-51 | the fallback estimate is the length divided by 4, rounded down |
| TokenCounter.CountTokens | src/modules/memory/token_counter.py:31-36 | the encoder's token count, or the estimate when no encoder is loaded |
| TokenCounter.MessagesTokensConcat | src/modules/memory/token_counter.py:38-46 | the total over a concatenation is the sum of the totals |
| TokenCounter.MessagesTokensAppend | src/modules/memory/token_counter.py:38-46 | appending an entry adds its count and never lowers the total |
| TokenCounter.MessagesTokensOthers | src/modules/memory/token_counter.py:41-45 | entries that are neither user nor assistant add nothing |
| Summarizer.FormattedLinesConcat | src/modules/memory/summarizer.py:69-89 | formatting distributes over concatenation |
| Summarizer.FormattedLinesPointwise | src/modules/memory/summarizer.py:73-87 | user and assistant entries give one line each, in order |
| Summarizer.FormatMessagesSplit | src/modules/memory/summarizer.py:89 | splitting the formatted text at newlines gives back the lines |
| Summarizer.CountsAreLines | src/modules/memory/summarizer.py:91-104 | the two counts of the fallback summary add up to the number of formatted lines |
| Summarizer.FallbackSummaryCounts | src/modules/memory/summarizer.py:104 | the fallback text determines both counts |
| Summarizer.SummaryPrompt | src/modules/memory/summarizer.py:48-54 | the system prompt, then the formatted conversation, with `Previous context` appended only when the context is non-empty |
| Summarizer.SummarizeConversationTrimmed | src/modules/memory/summarizer.py:39-67 | a successful summary is the model output with only surrounding whitespace cut off, beginning and ending with a non-space; a failed call gives the `Conversation with ...` fallback |
| Summarizer.BonusBounds | src/modules/memory/summarizer.py:126-132 | each keyword adds its weight at most once |
| Summarizer.BonusByContainment | src/modules/memory/summarizer.py:126-132 | the bonus depends only on which keywords occur |
| Summarizer.ImportanceScore | src/modules/memory/summarizer.py:106-137 | the score lies in [0.5, 1.0]: the uncapped sum whenever that is at most 1.0, and exactly 1.0 above it |
| Summarizer.ImportanceMonotone | src/modules/memory/summarizer.py:134-135 | more messages never lower the score |
| Summarizer.ImportanceByKeywords | src/modules/memory/summarizer.py:124-132 | summaries containing the same keywords (after lower-casing) score the same |
| MemoryManager.BoundedFoldIsBounded | src/modules/memory/memory_manager.py:58-70 | saving reply sentences one by one, each followed by a trim, leaves the same buffer as appending them all and trimming once |
| MemoryManager.BoundedFoldCons | src/modules/memory/memory_manager.py:58-70 | the save loop peels off one sentence at a time |
| MemoryManager.BoundedFoldSnoc | src/modules/memory/memory_manager.py:58-70 | the save loop's invariant step |
| MemoryManager.BoundedSnoc | src/modules/memory/short_term.py:94-95 | trimming before an append and trim does not change the result |
| MemoryManager.SentenceTurnsOneCompleted | src/modules/memory/memory_manager.py:59 | exactly the last entry of a reply is marked completed |
| MemoryManager.SummaryRecordOf | src/modules/memory/memory_manager.py:89-102 | the long-term row: the snapshot, its size, its token count and an importance in [0.5, 1.0] |
| MemoryManager.AsWrittenNeverCompresses | src/modules/memory/memory_manager.py:94-106 | as written, compression never takes place: every run that passes the checks raises a `TypeError` that the handler swallows |
| MemoryManager.PlanCompresses | src/modules/memory/memory_manager.py:76-118 | as intended, compression happens exactly when the buffer reached the threshold, both services exist and the store accepts the summary; the row then holds the whole snapshot |
| MemoryManager.TrimAfterSnapshot | src/modules/memory/memory_manager.py:104-106 | trimming from the snapshot's length keeps exactly the entries saved after the snapshot |
| MemoryManager.BulletedTextLines | src/modules/memory/memory_manager.py:130-132 | the retrieved text is the header line followed by one `- item` line per item |
| MemoryManager.RetrievedTextLines | src/modules/memory/memory_manager.py:125-135 | a retrieval adds nothing exactly when the store is missing, raises or returns nothing; otherwise the header line and one `- item` line per returned item, in order |
| MemoryManager.SaveSentence | src/modules/memory/memory_manager.py:60-70 | one reply sentence is saved as its assistant entry under the session key |
| MemoryManager.SaveSentences | src/modules/memory/memory_manager.py:58-70 | all reply sentences are saved in order, each followed by a trim; no sentence leaves storage and session unchanged |
| MemoryManager.SaveRest | src/modules/memory/memory_manager.py:58-70 | the sentences after the first are saved under the now existing session key |
| MemoryManager.MemoryManager.constructor | src/modules/memory/memory_manager.py:22-35 | the collaborators and threshold as given, nothing summarised or published |
| MemoryManager.MemoryManager.OnSttReady | src/modules/memory/memory_manager.py:44-54 | the transcription is saved as a user entry with its emotion, language and source under the session key; the session stays the current one when it is set, and otherwise becomes `session_<now>` |
| MemoryManager.MemoryManager.CheckAndCompress | src/modules/memory/memory_manager.py:76-118 | the corrected compression step: on success the store gains the row, the session's buffer is emptied, other keys are untouched, and `memory_full` is published with the message count and threshold; otherwise nothing changes |
| MemoryManager.MemoryManager.OnLlmResponse | src/modules/memory/memory_manager.py:56-74 | the reply's sentences are saved in order under the add key (an empty reply saves nothing and uses the current key); then the compression step is the plan for that buffer: without compression the buffer stays as saved, with it the summary row and the `memory_full` payload are added and the buffer is emptied; no other key changes |
| MemoryManager.MemoryManager.Clear | src/modules/memory/memory_manager.py:140-142 | the short-term session is cleared |
| PromptBuilder.BuildPrompt | src/modules/dialog/prompt_builder.py:32-72 | the system prompt first, then the last twenty history entries in order, then the auto-trigger instruction when auto-triggered without a message, else the user message when non-empty |
| PromptBuilder.BuildPromptSlidingWindow | src/modules/dialog/prompt_builder.py:42-43 | once the window is full, one more entry pushes the oldest out and comes last in the history section |
| PromptBuilder.BuildPromptEnds | src/modules/dialog/prompt_builder.py:49-72 | with history and a user message, the prompt ends with the newest history entry's message and then the user message |
| PromptBuilder.BuildPromptIgnoresOlderHistory | src/modules/dialog/prompt_builder.py:42-43 | history older than the last twenty entries does not affect the prompt |
| PromptBuilder.SpeakerOf | src/modules/dialog/prompt_builder.py:81 | `User` only for an explicit `user` role |
| PromptBuilder.FormatConversationSummary | src/modules/dialog/prompt_builder.py:74-77 | `No previous conversation.` for an empty history |
| PromptBuilder.FormatConversationSummaryLines | src/modules/dialog/prompt_builder.py:79-85 | one `Speaker: content` line for each of the last five entries, oldest first |
| PromptBuilder.MissingRoleReadsDifferently | src/modules/dialog/prompt_builder.py:46 | an entry without a role is the user's in the prompt but Chino's in the summary |
| LlmWrapper.CleanLine | src/modules/dialog/llm_wrapper.py:115-123 | blank lines and bare code-fence lines are skipped; no kept line is empty |
| LlmWrapper.CleanLineFenced | src/modules/dialog/llm_wrapper.py:118-123 | a fenced line becomes a contiguous piece of the stripped line with only backticks and whitespace cut off around it, not beginning or ending with whitespace, and never `json` |
| LlmWrapper.CleanLinePlain | src/modules/dialog/llm_wrapper.py:115-125 | an unfenced line reaches the decoder stripped and otherwise unchanged |
| LlmWrapper.Sentence | src/modules/dialog/llm_wrapper.py:127-131 | a decoded line is kept exactly when it is an object having all six required keys |
| LlmWrapper.ParseLinesSelects | src/modules/dialog/llm_wrapper.py:109-137 | the parsed sentences are exactly the kept lines' objects, in line order |
| LlmWrapper.ParseLinesConcat | src/modules/dialog/llm_wrapper.py:114 | parsing distributes over a split of the lines |
| LlmWrapper.ParseNdjsonResponse | src/modules/dialog/llm_wrapper.py:109-137 | no more sentences than lines of the stripped reply |
| LlmWrapper.GenerateAndParse | src/modules/dialog/llm_wrapper.py:139-147 | a model failure is passed on; otherwise the reply is parsed |
| LlmWrapper.KeyInAsWritten | src/modules/dialog/llm_wrapper.py:128 | Python's `in` on a decoded value: key lookup in an object, and a `TypeError` for a number, a boolean or null |
| LlmWrapper.AllKeysInObject | src/modules/dialog/llm_wrapper.py:128 | on an object the `all(...)` test is the required-keys check |
| LlmWrapper.AsWrittenAgreesOnObjects | src/modules/dialog/llm_wrapper.py:109-137 | when every line decodes to an object or not at all, the code as written keeps the same sentences as the corrected parser |
| LlmWrapper.AllKeysInScalar | src/modules/dialog/llm_wrapper.py:128 | asking for a key in a number, a boolean or null raises |
| LlmWrapper.AsWrittenRaisesOnNumber | src/modules/dialog/llm_wrapper.py:125-135 | a reply line `42` makes the code as written raise, where the corrected parser returns no sentence |
| Orchestrator.Insert | src/modules/dialog/orchestrator.py:199 | `list.insert`: the element lands at the position and the rest shift right by one |
| Orchestrator.AssemblePrompt | src/modules/dialog/orchestrator.py:191-209 | the built prompt with the retrieved notes inserted |
| Orchestrator.WithNotesLayout | src/modules/dialog/orchestrator.py:197-209 | summaries, when non-empty, go right after the system prompt, memories right after them, and the rest of the prompt follows unchanged |
| Orchestrator.WithNotesShifts | src/modules/dialog/orchestrator.py:197-209 | every message after the system prompt moves back by the number of notes inserted |
| Orchestrator.AutoPromptEndsWithInstruction | src/modules/dialog/orchestrator.py:257-267 | an auto-triggered prompt ends with the auto-trigger instruction |
| Orchestrator.TurnPromptEndsWithUser | src/modules/dialog/orchestrator.py:180-209 | because the user message is saved before the history is read, a turn's prompt ends with it twice: tagged with the emotion from history, then plain |
| Orchestrator.SavedUserEntryEndsHistory | src/modules/dialog/orchestrator.py:180-189 | the saved user message is the last history entry |
| Orchestrator.IdleExpiredMonotone | src/modules/dialog/orchestrator.py:307-312 | once idle long enough, the watchdog's check stays true as time passes; right after an interaction it is false for a positive timeout |
| Orchestrator.CompressPlanProperties | src/modules/dialog/orchestrator.py:104-162 | a summary is stored when mid-term memory exists and accepts it; it is promoted as `mid_<id>` exactly when its importance reaches the threshold, long-term memory exists and accepts it; a threshold above 1.0 never promotes |
| Orchestrator.DialogOrchestrator.constructor | src/modules/dialog/orchestrator.py:25-51 | the settings as given, idle, last interaction now |
| Orchestrator.DialogOrchestrator.ProcessUserMessage | src/modules/dialog/orchestrator.py:164-240 | the user message is saved first; the prompt is built from the history including it plus the retrieved notes; when the model call fails, only the user message is saved and that failure is passed on; otherwise every reply sentence is saved in order; processing ends either way |
| Orchestrator.DialogOrchestrator.Converse | src/modules/dialog/orchestrator.py:176-233 | the memory and model work of a turn: the user entry is saved, the prompt sent is built from the history that ends with it, and the reply's sentences are saved after it |
| Orchestrator.DialogOrchestrator.SaveUserMessage | src/modules/dialog/orchestrator.py:180-189 | the user entry is appended and trimmed and the new history is returned |
| Orchestrator.DialogOrchestrator.AutoTriggerConversation | src/modules/dialog/orchestrator.py:242-297 | skipped while processing; otherwise the prompt is the history plus the auto-trigger instruction; a failure saves nothing and returns nothing; a success saves the sentences and records the interaction time |
| Orchestrator.DialogOrchestrator.AutoReply | src/modules/dialog/orchestrator.py:253-288 | the auto-triggered prompt, the model call and the saving of the reply |
| Orchestrator.DialogOrchestrator.Respond | src/modules/dialog/orchestrator.py:211-230 | the model's parsed reply, saved sentence by sentence under the session key |
| Orchestrator.DialogOrchestrator.WatchdogTick | src/modules/dialog/orchestrator.py:303-314 | one wake-up of the watchdog: it fires exactly when idle and not processing, and otherwise changes nothing; when it fires, the auto-trigger's reply decides the state: a failure saves nothing and keeps the interaction time, a success saves the sentences under the add key and records the time |
| Orchestrator.DialogOrchestrator.CompressToMidTerm | src/modules/dialog/orchestrator.py:104-138 | mid-term memory gains the summary row when stored, long-term memory the promoted memory when promoted; the short-term buffer is not changed, because `buffer.clear()` empties a copy |
| Orchestrator.DialogOrchestrator.CheckAndCompressMemory | src/modules/dialog/orchestrator.py:93-102 | compression runs exactly when the buffer's token count reaches the limit, with the plan's outcome; a compressed summary joins the mid-term list, a promoted one the long-term list, and otherwise both lists are unchanged |
| Orchestrator.DialogOrchestrator.ClearConversation | src/modules/dialog/orchestrator.py:344-348 | the session is cleared and the interaction time reset |
| AudioRing.Ring | src/modules/audio/audio_buffer.py:56 | the ring's offsets: a position in `0 … max-1`, at most one turn from the argument |
| AudioRing.RingMod | src/modules/audio/audio_buffer.py:56 | that offset is Python's `%` by the buffer size (which agrees with Dafny's for a positive modulus) |
| AudioRing.WriteAtCells | src/modules/audio/audio_buffer.py:43-53 | a write puts frame `j` at position `w + j` modulo the size and leaves every other cell alone |
| AudioRing.RecentSuffix | src/modules/audio/audio_buffer.py:71-86 | the newest `k'` frames are the tail of the newest `k` |
| AudioRing.RecentAfterWriteCell | src/modules/audio/audio_buffer.py:43-57 | one position of a read across a write: a written frame or an older one |
| AudioRing.RecentAfterWrite | src/modules/audio/audio_buffer.py:43-57 | after a write, the newest frames are the older newest frames followed by the written data |
| AudioRing.WriteThenRead | src/modules/audio/audio_buffer.py:43-57 | reading back as many frames as were just written returns the data |
| AudioRing.ReadRingRecent | src/modules/audio/audio_buffer.py:79-86 | the one-slice or two-slice read starting `k` cells behind the write position, wrapped into the ring, returns the `k` frames before that position, oldest first |
| AudioRing.FramesWindow | src/modules/audio/audio_buffer.py:71-86 | for a non-negative count, the newest stored frames asked for are the last ones ever written |
| AudioRing.FramesRead | src/modules/audio/audio_buffer.py:79-86 | the read starting at `(w - k) % max` returns the `k` frames before the write position, oldest first |
| AudioRing.Truncated | src/modules/audio/audio_buffer.py:38-41 | data longer than the buffer is cut to its newest `max_frames` frames |
| AudioRing.TruncateToInt | src/modules/audio/audio_buffer.py:68 | `int()` truncates toward zero: the floor for a non-negative value, and for a negative one the integer at or just above it (`r - 1 < x <= r <= 0`) |
| AudioRing.LastAppend | src/modules/audio/audio_buffer.py:56-57 | the newest frames of a longer stream end with the newest data |
| AudioRing.WindowShrink | src/modules/audio/audio_buffer.py:71-86 | before a write, the newest stored frames are the stream's newest frames, for every shorter count |
| AudioRing.WindowAfterPut | src/modules/audio/audio_buffer.py:28-57 | a write keeps the buffer's invariant: its newest frames are the stream's newest `max_frames` |
| AudioRing.AudioBuffer.constructor | src/modules/audio/audio_buffer.py:11-26 | a zeroed buffer of `max_seconds * sample_rate` frames, nothing written |
| AudioRing.AudioBuffer.Put | src/modules/audio/audio_buffer.py:28-57 | the newest `max_frames` frames of the data are written at the write position, wrapping around; the position advances modulo the size and the total counts the frames written |
| AudioRing.AudioBuffer.WriteRing | src/modules/audio/audio_buffer.py:43-53 | the in-place write, with the split at the end of the array |
| AudioRing.AudioBuffer.GetFrames | src/modules/audio/audio_buffer.py:71-86 | for a non-negative count, the newest frames, oldest first, as many as asked and available: the tail of everything ever written |
| AudioRing.AudioBuffer.GetLastNSeconds | src/modules/audio/audio_buffer.py:59-69 | the newest `int(seconds * sample_rate)` frames that are still stored |
| AudioRing.AudioBuffer.Clear | src/modules/audio/audio_buffer.py:88-93 | a zeroed buffer, nothing written |
| AudioRing.AudioBuffer.Duration | src/modules/audio/audio_buffer.py:95-101 | the stored frames divided by the sample rate, at most the buffer's length in seconds |
| Transcription.FlattenAppend | src/modules/asr/transcriber.py:53 | joining one chunk more appends its bytes |
| Transcription.FlattenConcat | src/modules/asr/transcriber.py:53 | the joined segment holds every chunk's bytes in order |
| Transcription.Transcriber.constructor | src/modules/asr/transcriber.py:13-26 | not speaking, nothing buffered, silence counter 0 |
| Transcription.Transcriber.Process | src/modules/asr/transcriber.py:34-63 | speech is buffered and resets the silence count; silence outside an utterance changes nothing; inside one it counts up; reaching the count transcribes the joined speech and resets the detector; a transcription is returned exactly then |
| PySeq.SliceIndex | src/modules/dialog/prompt_builder.py:43 | Python's slice index: negative counts from the end, clamped to the sequence |
| PySeq.Last | src/modules/dialog/prompt_builder.py:43 | `s[-n:]` for `n >= 1`: the newest `n` elements |
| PySeq.SliceFromNegated | src/core/event_bus.py:141 | `s[-k:]` is the newest `k` for positive `k` and the whole sequence for `k == 0` |
| PyStr.StripCharsCharacterised | src/modules/dialog/llm_wrapper.py:115 | `strip` removes exactly a prefix and a suffix of stripped characters and leaves no such character at either end |
| PyStr.StripCharsIdempotent | src/modules/dialog/llm_wrapper.py:121 | stripping twice is stripping once |
| PyStr.JoinSplit | src/modules/dialog/llm_wrapper.py:112 | joining the pieces of a split gives back the string |
| PyStr.SplitJoin | src/modules/dialog/prompt_builder.py:85 | splitting a join of newline-free pieces gives back the pieces |
| PyStr.ContainsIff | src/modules/memory/summarizer.py:127 | substring test: `key in s` exactly when `key` occurs at some position |
| PyStr.ParseNatToString | src/modules/memory/short_term.py:118 | the decimal rendering of a number reads back as the number |
| PyStr.NatToStringInjective | src/modules/memory/short_term.py:118 | different numbers render differently |

## Left out

- Concurrency: the asyncio locks, `gather`, tasks, `asyncio.Queue` blocking and the audio
  buffer's thread lock are not modelled. Every operation runs to completion, one at a time.
- `EventBus.publish_and_wait` and `get_stats`: a timeout wrapper and a statistics dictionary. The
  handlers' bodies are not called; a handler's exception is an input (`raises`).
- `SentenceFIFO.wait_next`, `TokenRouter.wait_next`, `wait_until_done`: these block on asyncio. The
  finished event is modelled as a flag.
- DialogTokenRouter aliasing: one `LabeledSentence` object is shared by a slot, `_all_sentences`
  and `_completed`. The model keeps a single status table indexed by sentence index, and slots
  hold indices.
- DialogTokenRouter.TokenRouter.constructor: requires `num_slots >= 1`. The source accepts any
  count, and both 0 and a negative count make no slots. Routing any sentence then fails: with 0,
  `idx % num_slots` raises `ZeroDivisionError`; with a negative count the modulo succeeds and
  indexing the empty slot list raises `IndexError` (token_router.py:106, :135). The default and the
  documented uses pass 2.
- TtsTokenRouter.DefaultTokenText: a `text_spoken` value that is truthy but not a string is
  rendered by Python's `str()`; the model reads it as `""`, like a missing key.
- DialogTokenRouter.TokenRouter.GetNext: a slot id below `-num_slots` raises an `IndexError` in the
  source; the model requires such ids away.
- TtsTokenRouter.TokenRouter.CollectInOrder: the queue reads are given as the sequence of items
  that arrive. When they run out before `expected_count` items are collected, the source would
  wait, and the model returns `Waiting`.
- Logging everywhere, and the loading of prompt files (the prompt text is a parameter).
- The Redis backend (`redis_storage.py`), the storage interface (`storage.py`), and the JSON
  dumps/loads of stored entries. The interface is not a trait and the backend is not modelled; the
  cache's (corrected) range semantics stand for both, and stored entries are values.
- ShortTerm.ShortTermMemory.GetRecentMessages: for a negative `count` the contract says nothing;
  the body follows the source, which then drops the oldest `-count` entries.
- `get_conversation_history`, `get_memory_stats`, `MemoryManager.register`, `get_stats`,
  `get_conversation_context` and `get_recent_messages` of the memory manager: delegations and
  statistics.
- `start_auto_trigger` / `stop_auto_trigger`, and the watchdog's endless loop with its sleeps.
  The loop is modelled by one wake-up (`WatchdogTick`).
- The compression task started with `create_task` after a turn is not chained into
  `ProcessUserMessage`; it is the separate `CheckAndCompressMemory`.
- Mid-term and long-term stores (`long_term.py`, and the mid-term module, which is not part of
  this model): their answers are parameters (the fetched summaries and memories, the summary id as
  a `Result`, `promoteFails`), and their contents are plain sequences of rows.
- The language models' `generate` / `generate_stream` (`local.py`, `openrouter.py`) and the JSON
  decoder: parameters. The decoded JSON values keep strings, numbers, booleans, null, arrays and
  objects.
- Missing dictionary entries in a stored turn (for example a user entry with no `message`) cannot
  occur, because stored turns are typed records; missing fields of a parsed sentence read as the
  source's `.get` defaults, and a non-string value under a string key reads as the default.
  Likewise `GetNum` reads a non-number `intensity` as 0.5, where `add_chino_response` stores
  whatever value the sentence holds (memory_manager.py:66, orchestrator.py:225).
- Orchestrator.DialogOrchestrator.ProcessUserMessage: parses the reply with the corrected line
  parser (`ParseNdjsonResponse`), which skips every line that does not decode to an object. As
  written there are two failures. A line decoding to a number, boolean or `null` raises a `TypeError`
  inside the parser, so no sentence is saved. A line decoding to a string that contains the six key
  names, or to an array that lists them, passes `key in sentence` (a substring or element test) and is
  kept; `sentence.get` then raises an `AttributeError` in the saving loop (orchestrator.py:220), after
  the sentences before it have been saved. Either way the method re-raises (orchestrator.py:236-238)
  with the user message and any earlier sentences saved. The model skips such lines, saves every other
  sentence and returns them. `Converse`, `Respond` and `AutoReply` use the same parser and differ from
  the source in the same way.
- Orchestrator.DialogOrchestrator.AutoTriggerConversation: uses the same corrected parser. As written,
  a number, boolean or `null` line makes it save nothing, and a string or array line holding the six
  key names makes `sentence.get` raise (orchestrator.py:278) after the earlier sentences are saved;
  in both cases it returns `[]` and leaves `last_interaction_time` as it was (orchestrator.py:290-294).
  The model skips such lines, saves every other sentence and records the time; `WatchdogTick`, which
  runs the auto-trigger, differs in the same way.
- Floating point: scores, intensities, clock readings and audio samples are exact reals, so float
  rounding (and the `float32` sample type) is not modelled.
- PyStr.Lower: lower-cases ASCII letters only; Python's Unicode case mapping is not modelled.
- AudioRing.AudioBuffer.GetFrames: for a negative count the source can return a slice of stored
  frames (with 10 frames and the write position at 8, a count of -5 returns frames 3 to 7); the
  body follows the source but the contract covers only counts of 0 and above.
- AudioRing.AudioBuffer.GetLastNSeconds: a negative `seconds` (or sample rate) truncates to a
  negative count, which `get_frames` handles as described for GetFrames above; the contract covers
  only a product of 0 and above.
- AudioRing.AudioBuffer.constructor: requires `max_seconds * sample_rate >= 1`. With no frames,
  `put` would divide by zero (`% 0`), and a negative size makes `np.zeros` raise.
- The numpy `flatten` of multi-dimensional data and the bytes input of `put`: data is a flat
  sequence of samples.
- The voice-activity detector and the speech-to-text model (`vad.py`, `stt.py`), and the
  bytes-to-float conversion of a chunk: the detector's verdict on each chunk and the model's
  transcription of the joined bytes are parameters. Resetting the detector is counted.
- The default `ShortTermMemory()` created by the orchestrator when none is given: a memory is
  always passed in.
- MemoryManager.MemoryManager.CheckAndCompress: the session id of the summary row follows the
  orchestrator's `current_session_id or "default"`; the memory manager's own call names no
  session at all.

## Findings

| source | as written | input that shows it | evidently intended | confidence | as-written member | corrected member |
|---|---|---|---|---|---|---|
| src/modules/memory/cache/memory_cache.py:25-31 | a negative `end` below `-len-1` becomes a negative exclusive slice bound, which Python counts from the end | five entries, `get_messages(key, 0, -7)` returns four entries | Redis `LRANGE` semantics: an end before the first element gives an empty list | high (not executed) | Cache.AsWrittenWraps | Cache.RedisRangeExact |
| src/modules/memory/memory_manager.py:94-106 | `add_summary` is called without its required `session_id` and `token_count`, and the trim reads `short_term.storage_key`, which does not exist | any buffer reaching the threshold with both services present: the call raises a `TypeError` and the handler swallows it | store the summary with the session id and token count, then trim the session key | high (not executed) | MemoryManager.AsWrittenNeverCompresses | MemoryManager.PlanCompresses |
| src/modules/dialog/llm_wrapper.py:125-135 | `key in sentence` on a decoded line that is a number, boolean or `null` raises a `TypeError`, and only `JSONDecodeError` is caught; a line that decodes to a string containing the six key names, or to an array listing them, passes the test and is kept, so the caller's `sentence.get` raises an `AttributeError` after the earlier sentences are saved | a reply whose line is `42` | skip a line that is not a sentence object | medium (not executed) | LlmWrapper.AsWrittenRaisesOnNumber | LlmWrapper.ParseLinesSelects |
