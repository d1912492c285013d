/** The conversation entries that short-term memory stores. Each is a decoded
    JSON dictionary, keyed `"user"` or `"chino-kafuu"`. Any other dictionary
    that reaches the counting and formatting code is `OtherTurn`. */
module Turns {
  import opened Wrappers

  /** The `"user"` entry (short_term.py builds it in `add_user_message`). */
  datatype UserEntry = UserEntry(
    message: string,
    emotion: string,
    lang: string,
    sessionId: string,
    source: string,
    interrupt: bool,
    timestamp: int)

  /** The `"chino-kafuu"` entry (built in `add_chino_response`). `streamIndex`
      holds the decimal string the code stores. */
  datatype AssistantEntry = AssistantEntry(
    responseId: string,
    streamIndex: string,
    isCompleted: bool,
    textSpoken: string,
    textDisplay: string,
    phonemes: string,
    ttsLang: string,
    ttsEmotion: string,
    action: string,
    intensity: real,
    latencyMs: int,
    timestamp: int)

  datatype Turn =
    | UserTurn(user: UserEntry)
    | AssistantTurn(assistant: AssistantEntry)
    | OtherTurn

  /** One `{"role", "content", "emotion"}` dictionary of conversation context,
      as the prompt builder reads it. A key can be missing, which `None` stands for. */
  datatype ContextEntry = ContextEntry(role: Option<string>, content: string, emotion: Option<string>)

  /** One `{"role", "content"}` message of a chat prompt sent to the language model. */
  datatype ChatMessage = ChatMessage(role: string, content: string)
}
