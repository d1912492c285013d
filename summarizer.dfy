/** The conversation summarizer: formats stored turns as text for the language
    model, falls back to a counting summary when the model fails, and scores how
    important a summary is by the keywords it contains. */
module Summarizer {
  import opened Wrappers
  import opened PyStr
  import opened Turns

  /** The text line for one entry. Entries that are neither user nor assistant
      entries are skipped. */
  function FormatLine(t: Turn): (r: Option<string>)
    ensures t.UserTurn? ==> r == Some("User [" + t.user.emotion + "]: " + t.user.message)
    ensures t.AssistantTurn? ==> r == Some("Assistant [" + t.assistant.ttsEmotion + "]: " + t.assistant.textDisplay)
    ensures t.OtherTurn? ==> r.None?
  {
    match t
    case UserTurn(u) => Some("User [" + u.emotion + "]: " + u.message)
    case AssistantTurn(a) => Some("Assistant [" + a.ttsEmotion + "]: " + a.textDisplay)
    case OtherTurn => None
  }

  /** The lines `_format_messages` collects, in message order. */
  function FormattedLines(msgs: seq<Turn>): (r: seq<string>)
    ensures |r| <= |msgs|
  {
    if msgs == [] then []
    else
      var line := FormatLine(msgs[|msgs| - 1]);
      FormattedLines(msgs[..|msgs| - 1]) + (if line.Some? then [line.value] else [])
  }

  /** `_format_messages`: the lines joined by newlines. */
  function FormatMessages(msgs: seq<Turn>): (r: string)
  {
    Join(FormattedLines(msgs), "\n")
  }

  lemma {:induction false} FormattedLinesConcat(a: seq<Turn>, b: seq<Turn>)
    ensures FormattedLines(a + b) == FormattedLines(a) + FormattedLines(b)
    decreases |b|
  {
    if b == [] {
      assert a + b == a;
    } else {
      assert (a + b)[..|a + b| - 1] == a + b[..|b| - 1];
      FormattedLinesConcat(a, b[..|b| - 1]);
    }
  }

  /** With only user and assistant entries there is one line per entry, the
      i-th line formatting the i-th entry. */
  lemma {:induction false} FormattedLinesPointwise(msgs: seq<Turn>)
    requires forall i | 0 <= i < |msgs| :: !msgs[i].OtherTurn?
    ensures |FormattedLines(msgs)| == |msgs|
    ensures forall i | 0 <= i < |msgs| :: Some(FormattedLines(msgs)[i]) == FormatLine(msgs[i])
    decreases |msgs|
  {
    if msgs != [] {
      FormattedLinesPointwise(msgs[..|msgs| - 1]);
    }
  }

  /** When no line holds a newline, splitting the formatted text on newlines
      gives back the lines. */
  lemma FormatMessagesSplit(msgs: seq<Turn>)
    requires |FormattedLines(msgs)| >= 1
    requires forall i | 0 <= i < |FormattedLines(msgs)| :: '\n' !in FormattedLines(msgs)[i]
    ensures Split(FormatMessages(msgs), '\n') == FormattedLines(msgs)
  {
    SplitJoin(FormattedLines(msgs), '\n');
  }

  function UserCount(msgs: seq<Turn>): (r: nat)
    ensures r <= |msgs|
  {
    if msgs == [] then 0 else UserCount(msgs[..|msgs| - 1]) + (if msgs[|msgs| - 1].UserTurn? then 1 else 0)
  }

  function AssistantCount(msgs: seq<Turn>): (r: nat)
    ensures r <= |msgs|
  {
    if msgs == [] then 0
    else AssistantCount(msgs[..|msgs| - 1]) + (if msgs[|msgs| - 1].AssistantTurn? then 1 else 0)
  }

  /** The two counts of the fallback summary are the number of user lines and of
      assistant lines: together, the number of formatted lines. */
  lemma {:induction false} CountsAreLines(msgs: seq<Turn>)
    ensures UserCount(msgs) + AssistantCount(msgs) == |FormattedLines(msgs)|
    decreases |msgs|
  {
    if msgs != [] {
      CountsAreLines(msgs[..|msgs| - 1]);
    }
  }

  /** `_fallback_summary` */
  function FallbackSummary(msgs: seq<Turn>): (r: string)
  {
    "Conversation with " + (NatToString(UserCount(msgs)) + (" user messages and "
      + (NatToString(AssistantCount(msgs)) + " assistant responses.")))
  }

  predicate AllDigits(s: string) {
    forall i | 0 <= i < |s| :: '0' <= s[i] <= '9'
  }

  /** A run of digits followed by a non-digit can be split off in one way only. */
  lemma {:induction false} DigitsPrefixUnique(d1: string, x: string, d2: string, y: string)
    requires AllDigits(d1) && AllDigits(d2)
    requires x != [] && !('0' <= x[0] <= '9') && y != [] && !('0' <= y[0] <= '9')
    requires d1 + x == d2 + y
    ensures d1 == d2 && x == y
    decreases |d1|
  {
    assert (d1 + x)[0] == (if d1 == [] then x[0] else d1[0]);
    assert (d2 + y)[0] == (if d2 == [] then y[0] else d2[0]);
    if d1 == [] || d2 == [] {
      if d1 == [] && d2 == [] {
        assert d1 + x == x && d2 + y == y;
      }
    } else {
      assert (d1 + x)[0] == d1[0] && (d2 + y)[0] == d2[0];
      assert (d1 + x)[1..] == d1[1..] + x;
      assert (d2 + y)[1..] == d2[1..] + y;
      DigitsPrefixUnique(d1[1..], x, d2[1..], y);
      assert d1 == [d1[0]] + d1[1..];
      assert d2 == [d2[0]] + d2[1..];
    }
  }

  /** The fallback summary names both counts: two conversations with the same
      fallback summary have the same numbers of user and assistant entries. */
  lemma FallbackSummaryCounts(a: seq<Turn>, b: seq<Turn>)
    requires FallbackSummary(a) == FallbackSummary(b)
    ensures UserCount(a) == UserCount(b) && AssistantCount(a) == AssistantCount(b)
  {
    var head := "Conversation with ";
    var mid := " user messages and ";
    var tail := " assistant responses.";
    var ua, ub := NatToString(UserCount(a)), NatToString(UserCount(b));
    var aa, ab := NatToString(AssistantCount(a)), NatToString(AssistantCount(b));
    assert (head + (ua + (mid + (aa + tail))))[|head|..] == ua + (mid + (aa + tail));
    assert (head + (ub + (mid + (ab + tail))))[|head|..] == ub + (mid + (ab + tail));
    DigitsPrefixUnique(ua, mid + (aa + tail), ub, mid + (ab + tail));
    assert (mid + (aa + tail))[|mid|..] == aa + tail;
    assert (mid + (ab + tail))[|mid|..] == ab + tail;
    DigitsPrefixUnique(aa, tail, ab, tail);
    NatToStringInjective(UserCount(a), UserCount(b));
    NatToStringInjective(AssistantCount(a), AssistantCount(b));
  }

  /** The prompt of `summarize_conversation`: the system prompt, then the
      formatted conversation, with the previous context appended when non-empty. */
  function SummaryPrompt(systemPrompt: string, msgs: seq<Turn>, context: string): (r: seq<ChatMessage>)
    ensures |r| == 2 && r[0] == ChatMessage("system", systemPrompt) && r[1].role == "user"
    ensures StartsWith(r[1].content, "Summarize this conversation:\n\n" + FormatMessages(msgs))
    ensures context == "" ==> r[1].content == "Summarize this conversation:\n\n" + FormatMessages(msgs)
    ensures context != "" ==> EndsWith(r[1].content, "\n\nPrevious context: " + context)
  {
    var base := "Summarize this conversation:\n\n" + FormatMessages(msgs);
    var content := if context != "" then base + ("\n\nPrevious context: " + context) else base;
    [ChatMessage("system", systemPrompt), ChatMessage("user", content)]
  }

  /** `summarize_conversation`: the stripped model output, or the fallback
      summary when the model call fails. The model is a parameter. */
  function SummarizeConversation(msgs: seq<Turn>, context: string, systemPrompt: string,
                                 generate: seq<ChatMessage> -> Result<string>): (r: string)
    ensures generate(SummaryPrompt(systemPrompt, msgs, context)).Failure? ==> r == FallbackSummary(msgs)
    ensures generate(SummaryPrompt(systemPrompt, msgs, context)).Success? ==>
      r == Strip(generate(SummaryPrompt(systemPrompt, msgs, context)).value)
  {
    match generate(SummaryPrompt(systemPrompt, msgs, context))
    case Success(s) => Strip(s)
    case Failure(_) => FallbackSummary(msgs)
  }

  /** A successful summary is the model output with the surrounding whitespace
      cut off and nothing else changed; a failed call yields the
      "Conversation with ..." fallback. */
  lemma SummarizeConversationTrimmed(msgs: seq<Turn>, context: string, systemPrompt: string,
                                     generate: seq<ChatMessage> -> Result<string>)
    ensures var out, r := generate(SummaryPrompt(systemPrompt, msgs, context)),
                          SummarizeConversation(msgs, context, systemPrompt, generate);
      out.Success? ==>
        Trimmed(out.value, r, Whitespace) && (r != [] ==> r[0] !in Whitespace && r[|r| - 1] !in Whitespace)
    ensures generate(SummaryPrompt(systemPrompt, msgs, context)).Failure? ==>
      StartsWith(SummarizeConversation(msgs, context, systemPrompt, generate), "Conversation with ")
  {
    var out := generate(SummaryPrompt(systemPrompt, msgs, context));
    if out.Success? {
      StripCharsCharacterised(out.value, Whitespace);
    }
  }

  const EmotionalKeywords: seq<string> :=
    ["vui", "buồn", "giận", "hạnh phúc", "lo lắng", "happy", "sad", "angry", "worried", "excited"]

  const ImportantKeywords: seq<string> :=
    ["quan trọng", "nhớ", "yêu", "ghét", "cảm ơn", "important", "remember", "love", "hate", "thank"]

  /** The keyword loop: `weight` for every keyword contained in `text`. */
  function Bonus(keywords: seq<string>, text: string, weight: real): (r: real)
  {
    if keywords == [] then 0.0
    else Bonus(keywords[..|keywords| - 1], text, weight) + (if Contains(text, keywords[|keywords| - 1]) then weight else 0.0)
  }

  /** Each keyword adds its weight at most once, however often it occurs. */
  lemma {:induction false} BonusBounds(keywords: seq<string>, text: string, weight: real)
    requires weight >= 0.0
    ensures 0.0 <= Bonus(keywords, text, weight) <= weight * |keywords| as real
    decreases |keywords|
  {
    if keywords != [] {
      BonusBounds(keywords[..|keywords| - 1], text, weight);
    }
  }

  /** The bonus depends only on which keywords the text contains. */
  lemma {:induction false} BonusByContainment(keywords: seq<string>, a: string, b: string, weight: real)
    requires forall i | 0 <= i < |keywords| :: Contains(a, keywords[i]) <==> Contains(b, keywords[i])
    ensures Bonus(keywords, a, weight) == Bonus(keywords, b, weight)
    decreases |keywords|
  {
    if keywords != [] {
      BonusByContainment(keywords[..|keywords| - 1], a, b, weight);
    }
  }

  /** The score before the cap at 1.0. */
  function RawScore(messageCount: nat, summary: string): (r: real)
  {
    var lower := Lower(summary);
    0.5 + Bonus(EmotionalKeywords, lower, 0.1) + Bonus(ImportantKeywords, lower, 0.15)
      + (if messageCount >= 10 then 0.1 else 0.0)
  }

  /** `calculate_importance_score`, on exact reals; `messageCount` is `len(messages)`. */
  function ImportanceScore(messageCount: nat, summary: string): (r: real)
    ensures 0.5 <= r <= 1.0
    ensures RawScore(messageCount, summary) <= 1.0 ==> r == RawScore(messageCount, summary)
    ensures RawScore(messageCount, summary) > 1.0 ==> r == 1.0
  {
    BonusBounds(EmotionalKeywords, Lower(summary), 0.1);
    BonusBounds(ImportantKeywords, Lower(summary), 0.15);
    var s := RawScore(messageCount, summary);
    if 1.0 <= s then 1.0 else s
  }

  /** Reaching ten messages never lowers the score of a summary. */
  lemma ImportanceMonotone(m: nat, n: nat, summary: string)
    requires m <= n
    ensures ImportanceScore(m, summary) <= ImportanceScore(n, summary)
  {
  }

  /** Summaries containing the same keywords score the same. */
  lemma ImportanceByKeywords(n: nat, a: string, b: string)
    requires forall i | 0 <= i < |EmotionalKeywords| ::
      Contains(Lower(a), EmotionalKeywords[i]) <==> Contains(Lower(b), EmotionalKeywords[i])
    requires forall i | 0 <= i < |ImportantKeywords| ::
      Contains(Lower(a), ImportantKeywords[i]) <==> Contains(Lower(b), ImportantKeywords[i])
    ensures ImportanceScore(n, a) == ImportanceScore(n, b)
  {
    BonusByContainment(EmotionalKeywords, Lower(a), Lower(b), 0.1);
    BonusByContainment(ImportantKeywords, Lower(a), Lower(b), 0.15);
  }
}
