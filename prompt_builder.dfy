/** Prompt assembly for the language model: the character prompt as a system
    message, a window of recent conversation and the final user message; and
    a short plain-text rendering of recent history. The prompt text, which the
    builder loads from a file, is a parameter. */
module PromptBuilder {
  import opened Wrappers
  import opened PySeq
  import opened PyStr
  import opened Turns

  /** At most this many history entries go into a prompt. */
  const HistoryLimit: nat := 20

  /** At most this many entries go into a conversation summary. */
  const SummaryLimit: nat := 5

  const AutoTriggerInstruction: string :=
    "[Auto-trigger: User has been quiet. Initiate conversation naturally.]"

  const NoConversation: string := "No previous conversation."

  /** The role a history entry is read with: a missing role counts as `"user"`. */
  function RoleOf(entry: ContextEntry): string {
    entry.role.GetOr("user")
  }

  /** The prompt message for one history entry. */
  function HistoryMessage(entry: ContextEntry): (r: ChatMessage)
    ensures r.role == "user" <==> RoleOf(entry) == "user"
    ensures r.role != "user" ==> r.role == "Chino" && r.content == entry.content
    ensures r.role == "user" ==>
      r.content == "[User emotion: " + entry.emotion.GetOr("normal") + "] " + entry.content
  {
    if RoleOf(entry) == "user" then
      ChatMessage("user", "[User emotion: " + entry.emotion.GetOr("normal") + "] " + entry.content)
    else
      ChatMessage("Chino", entry.content)
  }

  function HistoryMessages(history: seq<ContextEntry>): (r: seq<ChatMessage>)
    ensures |r| == |history|
  {
    seq(|history|, i requires 0 <= i < |history| => HistoryMessage(history[i]))
  }

  /** The message appended after the history, if any: the auto-trigger
      instruction when triggered without a message, else a non-empty message. */
  function FinalMessage(userMessage: Option<string>, isAutoTrigger: bool): Option<ChatMessage> {
    if isAutoTrigger && !Truthy(userMessage) then Some(ChatMessage("user", AutoTriggerInstruction))
    else if Truthy(userMessage) then Some(ChatMessage("user", userMessage.value))
    else None
  }

  function OptionToSeq<T>(o: Option<T>): (r: seq<T>)
    ensures |r| <= 1
  {
    if o.Some? then [o.value] else []
  }

  /** `PromptBuilder.build_prompt`: the system message, the last twenty history
      entries in order, then the auto-trigger instruction or the user message. */
  function BuildPrompt(prompt: string, userMessage: Option<string>,
                       history: seq<ContextEntry>, isAutoTrigger: bool): (r: seq<ChatMessage>)
    ensures |r| == 1 + Min(HistoryLimit, |history|)
                    + (if Truthy(userMessage) || isAutoTrigger then 1 else 0)
    ensures r[0] == ChatMessage("system", prompt)
    ensures forall j | 1 <= j <= Min(HistoryLimit, |history|) ::
      r[j] == HistoryMessage(history[|history| - Min(HistoryLimit, |history|) + j - 1])
    ensures isAutoTrigger && !Truthy(userMessage) ==>
      r[|r| - 1] == ChatMessage("user", AutoTriggerInstruction)
    ensures Truthy(userMessage) ==> r[|r| - 1] == ChatMessage("user", userMessage.value)
  {
    var window := HistoryMessages(Last(history, HistoryLimit));
    var last := OptionToSeq(FinalMessage(userMessage, isAutoTrigger));
    var r := [ChatMessage("system", prompt)] + window + last;
    assert forall j | 1 <= j <= |window| :: r[j] == window[j - 1];
    r
  }

  /** Once the window is full, one more history entry pushes the oldest one out
      of the prompt: the other messages move up by one and the new entry's
      message comes last in the history section. */
  lemma BuildPromptSlidingWindow(prompt: string, userMessage: Option<string>,
                                 history: seq<ContextEntry>, entry: ContextEntry, isAutoTrigger: bool)
    requires |history| >= HistoryLimit
    ensures var before := BuildPrompt(prompt, userMessage, history, isAutoTrigger);
            var after := BuildPrompt(prompt, userMessage, history + [entry], isAutoTrigger);
            |after| == |before|
            && after[1..HistoryLimit] == before[2..HistoryLimit + 1]
            && after[HistoryLimit] == HistoryMessage(entry)
  {
    var before := BuildPrompt(prompt, userMessage, history, isAutoTrigger);
    var after := BuildPrompt(prompt, userMessage, history + [entry], isAutoTrigger);
    var h := history + [entry];
    forall i | 1 <= i < HistoryLimit ensures after[i] == before[i + 1] {
      assert after[i] == HistoryMessage(h[|h| - HistoryLimit + i - 1]);
      assert before[i + 1] == HistoryMessage(history[|history| - HistoryLimit + (i + 1) - 1]);
    }
    assert after[HistoryLimit] == HistoryMessage(h[|h| - 1]);
  }

  /** With history and a user message, the prompt ends with the newest history
      entry's message and then the user message. */
  lemma BuildPromptEnds(prompt: string, userMessage: string, history: seq<ContextEntry>)
    requires history != [] && userMessage != ""
    ensures var r := BuildPrompt(prompt, Some(userMessage), history, false);
            |r| >= 3
            && r[|r| - 2] == HistoryMessage(history[|history| - 1])
            && r[|r| - 1] == ChatMessage("user", userMessage)
  {
    var r := BuildPrompt(prompt, Some(userMessage), history, false);
    var m := Min(HistoryLimit, |history|);
    assert |r| == m + 2;
    assert r[m] == HistoryMessage(history[|history| - m + m - 1]);
  }

  /** The prompt does not depend on history older than the window. */
  lemma BuildPromptIgnoresOlderHistory(prompt: string, userMessage: Option<string>,
                                       older: seq<ContextEntry>, recent: seq<ContextEntry>, isAutoTrigger: bool)
    requires |recent| >= HistoryLimit
    ensures BuildPrompt(prompt, userMessage, older + recent, isAutoTrigger)
         == BuildPrompt(prompt, userMessage, recent, isAutoTrigger)
  {
    assert Last(older + recent, HistoryLimit) == Last(recent, HistoryLimit);
  }

  /** The speaker name a summary line starts with. Unlike the prompt, a missing
      role here reads as `"Chino"`, since only an explicit `"user"` matches. */
  function SpeakerOf(entry: ContextEntry): (r: string)
    ensures r == "User" <==> entry.role == Some("user")
  {
    if entry.role == Some("user") then "User" else "Chino"
  }

  function SummaryLine(entry: ContextEntry): string {
    SpeakerOf(entry) + ": " + entry.content
  }

  function SummaryLines(history: seq<ContextEntry>): (r: seq<string>)
    ensures |r| == |history|
  {
    seq(|history|, i requires 0 <= i < |history| => SummaryLine(history[i]))
  }

  /** `PromptBuilder.format_conversation_summary`. */
  function FormatConversationSummary(history: seq<ContextEntry>): (r: string)
    ensures history == [] ==> r == NoConversation
  {
    if history == [] then NoConversation
    else Join(SummaryLines(Last(history, SummaryLimit)), "\n")
  }

  /** For a non-empty history, the summary's lines are the last five entries,
      oldest first, as `User: …` / `Chino: …`, provided no content holds a newline. */
  lemma FormatConversationSummaryLines(history: seq<ContextEntry>)
    requires history != []
    requires forall i | 0 <= i < |history| :: '\n' !in history[i].content
    ensures var lines := Split(FormatConversationSummary(history), '\n');
            |lines| == Min(SummaryLimit, |history|)
            && forall i | 0 <= i < |lines| ::
                 lines[i] == SpeakerOf(history[|history| - |lines| + i]) + ": "
                             + history[|history| - |lines| + i].content
  {
    var recent := Last(history, SummaryLimit);
    var lines := SummaryLines(recent);
    forall i | 0 <= i < |lines| ensures '\n' !in lines[i] {
      assert recent[i] == history[|history| - |recent| + i];
      assert lines[i] == SpeakerOf(recent[i]) + ": " + recent[i].content;
      assert '\n' !in SpeakerOf(recent[i]) + ": ";
    }
    SplitJoin(lines, '\n');
  }

  /** The two renderings disagree on an entry without a role: the prompt treats
      it as the user's, the summary as Chino's. */
  lemma MissingRoleReadsDifferently(content: string, emotion: Option<string>)
    ensures var entry := ContextEntry(None, content, emotion);
            HistoryMessage(entry).role == "user" && SpeakerOf(entry) == "Chino"
  {
  }
}
