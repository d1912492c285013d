/** Token counting for memory management: a tokenizer when one loaded, otherwise
    the rough estimate of one token per four characters. */
module TokenCounter {
  import opened Wrappers
  import opened Turns

  /** The tokenizer is a foreign library. It is modelled as an optional function
      from text to its token sequence. `None` means it failed to load. */
  datatype Counter = Counter(encode: Option<string -> seq<int>>)

  /** `_estimate_tokens`: `len(text) // 4`. */
  function EstimateTokens(text: string): (r: nat)
    ensures 4 * r <= |text| < 4 * r + 4
  {
    |text| / 4
  }

  /** `count_tokens`: the tokenizer's count, or the estimate without one. */
  function CountTokens(c: Counter, text: string): (r: nat)
    ensures c.encode.None? ==> 4 * r <= |text| < 4 * r + 4
    ensures c.encode.Some? ==> r == |c.encode.value(text)|
  {
    match c.encode
    case Some(enc) => |enc(text)|
    case None => EstimateTokens(text)
  }

  /** What one entry contributes: a user entry is counted by its message, an
      assistant entry by its display text, anything else contributes 0. */
  function TurnTokens(c: Counter, t: Turn): (r: nat)
    ensures t.UserTurn? ==> r == CountTokens(c, t.user.message)
    ensures t.AssistantTurn? ==> r == CountTokens(c, t.assistant.textDisplay)
    ensures t.OtherTurn? ==> r == 0
  {
    match t
    case UserTurn(u) => CountTokens(c, u.message)
    case AssistantTurn(a) => CountTokens(c, a.textDisplay)
    case OtherTurn => 0
  }

  /** `count_messages_tokens`: the summation loop over the entries. */
  function MessagesTokens(c: Counter, msgs: seq<Turn>): (r: nat)
    ensures msgs == [] ==> r == 0
  {
    if msgs == [] then 0 else MessagesTokens(c, msgs[..|msgs| - 1]) + TurnTokens(c, msgs[|msgs| - 1])
  }

  /** The total of a concatenation is the sum of the totals of its parts. */
  lemma {:induction false} MessagesTokensConcat(c: Counter, a: seq<Turn>, b: seq<Turn>)
    ensures MessagesTokens(c, a + b) == MessagesTokens(c, a) + MessagesTokens(c, b)
    decreases |b|
  {
    if b == [] {
      assert a + b == a;
    } else {
      assert (a + b)[..|a + b| - 1] == a + b[..|b| - 1];
      MessagesTokensConcat(c, a, b[..|b| - 1]);
    }
  }

  /** Appending an entry adds exactly its contribution, so the total never decreases. */
  lemma MessagesTokensAppend(c: Counter, msgs: seq<Turn>, t: Turn)
    ensures MessagesTokens(c, msgs + [t]) == MessagesTokens(c, msgs) + TurnTokens(c, t)
    ensures MessagesTokens(c, msgs + [t]) >= MessagesTokens(c, msgs)
  {
    assert (msgs + [t])[..|msgs + [t]| - 1] == msgs;
  }

  /** A sequence of entries with no user or assistant entry counts as 0 tokens. */
  lemma {:induction false} MessagesTokensOthers(c: Counter, msgs: seq<Turn>)
    requires forall i | 0 <= i < |msgs| :: msgs[i].OtherTurn?
    ensures MessagesTokens(c, msgs) == 0
    decreases |msgs|
  {
    if msgs != [] {
      MessagesTokensOthers(c, msgs[..|msgs| - 1]);
    }
  }
}
