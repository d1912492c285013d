/** The event names and payload records exchanged over the event bus. */
module Events {
  import opened Json

  const SttReady := "stt_ready"
  const LlmResponse := "llm_response"
  const UserMessage := "user_message"
  const Interrupt := "interrupt"
  const MemoryFull := "memory_full"
  const MemorySaved := "memory_saved"
  const SystemShutdown := "system_shutdown"

  /** A finished transcription; `lang`, `source` and `emotion` default to
      "en", "mic" and "normal". */
  datatype SttReadyPayload = SttReadyPayload(text: string, lang: string, source: string, emotion: string)

  function NewSttReady(text: string): (p: SttReadyPayload)
    ensures p.text == text && p.lang == "en" && p.source == "mic" && p.emotion == "normal"
  {
    SttReadyPayload(text, "en", "mic", "normal")
  }

  /** Parsed sentences of one language-model reply. */
  datatype LlmResponsePayload = LlmResponsePayload(
    sentences: seq<JsonObject>, responseId: string, latencyMs: int, isAutoTrigger: bool)

  datatype UserMessagePayload = UserMessagePayload(
    text: string, emotion: string, lang: string, source: string, interrupt: bool)

  datatype InterruptPayload = InterruptPayload(reason: string, source: string)

  /** Published after short-term memory was summarised; `tokenCount` defaults
      to 0 and `threshold` to 8192. */
  datatype MemoryFullPayload = MemoryFullPayload(tokenCount: int, messageCount: int, threshold: int)
}
