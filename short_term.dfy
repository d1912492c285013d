/** Short-term memory: the recent turns of the current conversation session. They
    are kept as one list per session key in a list store and bounded to the last
    `maxSize` entries after every append. */
module ShortTerm {
  import opened Wrappers
  import opened PySeq
  import opened PyStr
  import opened Turns
  import opened Cache

  /** The two storage backends; both are modelled by the list store `MemoryCache`. */
  datatype Backend = RedisBackend | CacheBackend

  /** The `storage_type` check of the constructor: anything other than `"cache"`
      or `"redis"` is a `ValueError`. */
  function ParseStorageType(storageType: string): (r: Result<Backend>)
    ensures r.Success? <==> storageType == "cache" || storageType == "redis"
    ensures r == Success(CacheBackend) <==> storageType == "cache"
    ensures r == Success(RedisBackend) <==> storageType == "redis"
  {
    if storageType == "cache" then Success(CacheBackend)
    else if storageType == "redis" then Success(RedisBackend)
    else Failure("Invalid storage_type: " + storageType + ". Must be 'redis' or 'cache'")
  }

  /** The storage key of a session: `prefix:session`, or `prefix:default`
      when there is no session (or its id is empty). */
  function KeyFor(prefix: string, session: Option<string>): (r: string)
    ensures Truthy(session) ==> r == prefix + ":" + session.value
    ensures !Truthy(session) ==> r == prefix + ":default"
  {
    prefix + ":" + (if Truthy(session) then session.value else "default")
  }

  /** Two non-empty session ids share a key only when they are equal. */
  lemma KeyForInjective(prefix: string, a: string, b: string)
    requires a != "" && b != ""
    ensures KeyFor(prefix, Some(a)) == KeyFor(prefix, Some(b)) ==> a == b
  {
    if KeyFor(prefix, Some(a)) == KeyFor(prefix, Some(b)) {
      assert a == KeyFor(prefix, Some(a))[|prefix| + 1..];
      assert b == KeyFor(prefix, Some(b))[|prefix| + 1..];
    }
  }

  /** A session id generated at clock reading `now` (whole seconds). */
  function SessionIdAt(now: int): (r: string)
    ensures |r| > |"session_"| && r[..8] == "session_"
  {
    "session_" + IntToString(now)
  }

  /** The clock reading can be read back from a session id taken at a
      non-negative time. */
  lemma SessionIdAtReadBack(now: int)
    requires now >= 0
    ensures var digits := SessionIdAt(now)[8..];
      (forall i | 0 <= i < |digits| :: '0' <= digits[i] <= '9') && ParseNat(digits) == now
  {
    assert SessionIdAt(now)[8..] == NatToString(now);
    ParseNatToString(now);
  }

  /** Session ids taken at different clock readings differ. */
  lemma SessionIdAtInjective(a: int, b: int)
    ensures SessionIdAt(a) == SessionIdAt(b) ==> a == b
  {
    if SessionIdAt(a) == SessionIdAt(b) {
      assert IntToString(a) == SessionIdAt(a)[8..];
      IntToStringInjective(a, b);
    }
  }

  /** The list after `trim(key, -max_size, -1)`. */
  function Bounded(l: seq<Turn>, maxSize: int): (r: seq<Turn>)
    ensures |r| <= |l|
  {
    RedisRange(l, -maxSize, -1)
  }

  /** For `maxSize >= 1` the bounded list is the last `maxSize` entries, so the
      newest entry stays last. `maxSize == 0` keeps everything (`-0 == 0`), and
      a negative `maxSize` drops the first `-maxSize` entries. */
  lemma BoundedShape(l: seq<Turn>, maxSize: int)
    ensures maxSize >= 1 ==> Bounded(l, maxSize) == Last(l, maxSize) && |Bounded(l, maxSize)| <= maxSize
    ensures maxSize == 0 ==> Bounded(l, maxSize) == l
    ensures maxSize < 0 ==> Bounded(l, maxSize) == l[Min(-maxSize, |l|)..]
  {
    RedisRangeLast(l, maxSize);
  }

  /** After appending `e` with `maxSize >= 1`, the list ends in `e` and is a
      suffix of the old list followed by `e`. */
  lemma BoundedAppend(l: seq<Turn>, e: Turn, maxSize: int)
    requires maxSize >= 1
    ensures var r := Bounded(l + [e], maxSize);
      |r| == Min(|l| + 1, maxSize) && r[|r| - 1] == e && r == (l + [e])[|l| + 1 - |r|..]
  {
    BoundedShape(l + [e], maxSize);
  }

  /** Bounding a list that is already bounded changes nothing. */
  lemma BoundedIdempotent(l: seq<Turn>, maxSize: int)
    requires maxSize >= 1
    ensures Bounded(Bounded(l, maxSize), maxSize) == Bounded(l, maxSize)
  {
    BoundedShape(l, maxSize);
    BoundedShape(Bounded(l, maxSize), maxSize);
  }

  /** The role mapping of `get_conversation_context` for one entry. */
  function ContextEntryOf(t: Turn): (r: Option<ContextEntry>)
    ensures t.UserTurn? ==> r == Some(ContextEntry(Some("user"), t.user.message, Some(t.user.emotion)))
    ensures t.AssistantTurn? ==>
      r == Some(ContextEntry(Some("Chino"), t.assistant.textDisplay, Some(t.assistant.ttsEmotion)))
    ensures t.OtherTurn? ==> r.None?
  {
    match t
    case UserTurn(u) => Some(ContextEntry(Some("user"), u.message, Some(u.emotion)))
    case AssistantTurn(a) => Some(ContextEntry(Some("Chino"), a.textDisplay, Some(a.ttsEmotion)))
    case OtherTurn => None
  }

  /** The context dictionaries of a list of entries, in order. */
  function Context(turns: seq<Turn>): (r: seq<ContextEntry>)
    ensures |r| <= |turns|
  {
    if turns == [] then []
    else
      var last := ContextEntryOf(turns[|turns| - 1]);
      Context(turns[..|turns| - 1]) + (if last.Some? then [last.value] else [])
  }

  /** The context of a concatenation is the concatenation of the contexts. */
  lemma {:induction false} ContextConcat(a: seq<Turn>, b: seq<Turn>)
    ensures Context(a + b) == Context(a) + Context(b)
    decreases |b|
  {
    if b == [] {
      assert a + b == a;
    } else {
      assert (a + b)[..|a + b| - 1] == a + b[..|b| - 1];
      ContextConcat(a, b[..|b| - 1]);
    }
  }

  /** Stored entries are only user and assistant entries, so each yields one
      context dictionary: the context has the same length and the i-th entry is
      the mapping of the i-th turn. */
  lemma {:induction false} ContextPointwise(turns: seq<Turn>)
    requires forall i | 0 <= i < |turns| :: !turns[i].OtherTurn?
    ensures |Context(turns)| == |turns|
    ensures forall i | 0 <= i < |turns| :: Some(Context(turns)[i]) == ContextEntryOf(turns[i])
    decreases |turns|
  {
    if turns != [] {
      ContextPointwise(turns[..|turns| - 1]);
    }
  }

  class ShortTermMemory {
    const maxSize: int
    const keyPrefix: string
    const backend: Backend
    const storage: MemoryCache<Turn>
    var currentSessionId: Option<string>

    constructor(maxSize: int, backend: Backend, keyPrefix: string)
      ensures this.maxSize == maxSize && this.backend == backend && this.keyPrefix == keyPrefix
      ensures fresh(storage) && storage.storage == map[]
      ensures currentSessionId == None
    {
      this.maxSize := maxSize;
      this.backend := backend;
      this.keyPrefix := keyPrefix;
      storage := new MemoryCache<Turn>();
      currentSessionId := None;
    }

    /** `_get_session_key` */
    function SessionKey(): (r: string)
      reads this
      ensures r == KeyFor(keyPrefix, currentSessionId)
    {
      KeyFor(keyPrefix, currentSessionId)
    }

    /** The session id the next add at clock `now` files its entry under:
        the current one, or the one that add starts. */
    function SessionForAdd(now: int): (r: string)
      reads this
      ensures Truthy(currentSessionId) ==> r == currentSessionId.value
      ensures !Truthy(currentSessionId) ==> r == SessionIdAt(now)
    {
      if Truthy(currentSessionId) then currentSessionId.value else SessionIdAt(now)
    }

    /** The storage key of the next add at clock `now`. */
    function KeyForAdd(now: int): (r: string)
      reads this
      ensures r == KeyFor(keyPrefix, Some(SessionForAdd(now)))
      ensures Truthy(currentSessionId) ==> r == SessionKey()
    {
      KeyFor(keyPrefix, Some(SessionForAdd(now)))
    }

    /** `start_new_session`, with the clock reading (whole seconds) as a parameter. */
    method StartNewSession(now: int) returns (id: string)
      modifies this
      ensures id == SessionIdAt(now) && currentSessionId == Some(id)
    {
      id := SessionIdAt(now);
      currentSessionId := Some(id);
    }

    /** The append-then-trim that both add methods end with. */
    method Store(entry: Turn)
      modifies storage
      ensures storage.storage ==
        old(storage.storage)[SessionKey() := Bounded(ListOf(old(storage.storage), SessionKey()) + [entry], maxSize)]
    {
      var key := SessionKey();
      storage.AddMessage(key, entry);
      storage.Trim(key, -maxSize, -1);
    }

    /** `add_user_message`. `now` is the clock in whole seconds (for a new
        session id) and `nowMillis` the entry's timestamp. */
    method AddUserMessage(message: string, emotion: string, lang: string, source: string, interrupt: bool,
                          now: int, nowMillis: int)
      returns (entry: Turn)
      modifies this, storage
      ensures old(!Truthy(currentSessionId)) ==> currentSessionId == Some(SessionIdAt(now))
      ensures old(Truthy(currentSessionId)) ==> currentSessionId == old(currentSessionId)
      ensures Truthy(currentSessionId)
      ensures entry == UserTurn(UserEntry(message, emotion, lang, currentSessionId.value, source, interrupt, nowMillis))
      ensures storage.storage ==
        old(storage.storage)[SessionKey() := Bounded(ListOf(old(storage.storage), SessionKey()) + [entry], maxSize)]
    {
      if !Truthy(currentSessionId) {
        var _ := StartNewSession(now);
      }
      entry := UserTurn(UserEntry(message, emotion, lang, currentSessionId.value, source, interrupt, nowMillis));
      Store(entry);
    }

    /** `add_chino_response`. `responseId` stands for the fresh UUID; `now` and
        `nowMillis` are as for `AddUserMessage`. */
    method AddChinoResponse(textSpoken: string, textDisplay: string, lang: string, emotion: string,
                            action: string, intensity: real, streamIndex: int, isCompleted: bool,
                            latencyMs: int, responseId: string, now: int, nowMillis: int)
      returns (entry: Turn)
      modifies this, storage
      ensures old(!Truthy(currentSessionId)) ==> currentSessionId == Some(SessionIdAt(now))
      ensures old(Truthy(currentSessionId)) ==> currentSessionId == old(currentSessionId)
      ensures entry == AssistantTurn(AssistantEntry(responseId, IntToString(streamIndex), isCompleted,
        textSpoken, textDisplay, "", lang, emotion, action, intensity, latencyMs, nowMillis))
      ensures storage.storage ==
        old(storage.storage)[SessionKey() := Bounded(ListOf(old(storage.storage), SessionKey()) + [entry], maxSize)]
    {
      if !Truthy(currentSessionId) {
        var _ := StartNewSession(now);
      }
      entry := AssistantTurn(AssistantEntry(responseId, IntToString(streamIndex), isCompleted,
        textSpoken, textDisplay, "", lang, emotion, action, intensity, latencyMs, nowMillis));
      Store(entry);
    }

    /** Every entry stored for the current session. */
    function AllMessages(): (r: seq<Turn>)
      reads this, storage
      ensures r == ListOf(storage.storage, SessionKey())
    {
      storage.GetMessages(SessionKey(), 0, -1)
    }

    /** `get_recent_messages`: everything for `None`, the last `c` entries for
        `Some(c)` with `c >= 1`, and, since `-0 == 0`, everything for `Some(0)`. */
    function GetRecentMessages(count: Option<int>): (r: seq<Turn>)
      reads this, storage
      ensures count.None? ==> r == AllMessages()
      ensures count.Some? && count.value >= 1 ==> r == Last(AllMessages(), count.value)
      ensures count == Some(0) ==> r == AllMessages()
    {
      var all := AllMessages();
      RedisRangeLast(all, if count.Some? then count.value else 0);
      if count.None? then storage.GetMessages(SessionKey(), 0, -1)
      else storage.GetMessages(SessionKey(), -count.value, -1)
    }

    /** `get_conversation_context`: the role mapping of every stored entry. */
    function GetConversationContext(): (r: seq<ContextEntry>)
      reads this, storage
      ensures r == Context(AllMessages())
    {
      Context(GetRecentMessages(None))
    }

    /** `clear`: deletes the current session's list, if there is a session, and
        forgets the session. */
    method Clear()
      modifies this, storage
      ensures old(Truthy(currentSessionId)) ==> storage.storage == old(storage.storage) - {old(SessionKey())}
      ensures old(!Truthy(currentSessionId)) ==> storage.storage == old(storage.storage)
      ensures currentSessionId == None
    {
      if Truthy(currentSessionId) {
        var key := SessionKey();
        storage.Delete(key);
      }
      currentSessionId := None;
    }

    /** The `buffer` property: a fresh list of every stored entry. Clearing that
        list leaves the store as it is. */
    function Buffer(): (r: seq<Turn>)
      reads this, storage
      ensures r == AllMessages()
    {
      GetRecentMessages(None)
    }
  }
}
