/** The text-to-speech router: stamps sentences with increasing sequence ids, puts
    each into the queue of its label, and reassembles the items that come back
    from several queues in sequence-id order. */
module TtsTokenRouter {
  import opened Wrappers
  import opened Json
  import opened TokenCounter
  import PySeq

  datatype RoutedSentence = RoutedSentence(
    sequenceId: int,
    queueLabel: string,
    tokenCount: nat,
    sentence: JsonObject)

  /** The default text to count tokens on: the sentence's `text_spoken` string,
      as it is; a missing key gives `""`, and so does a value that is not a
      string. */
  function DefaultTokenText(s: JsonObject): (r: string)
    ensures "text_spoken" !in s ==> r == ""
    ensures "text_spoken" in s && s["text_spoken"].JStr? ==> r == s["text_spoken"].str
  {
    GetStr(s, "text_spoken", "")
  }

  /** `selector(sentence) or default`: an empty label falls back to the default. */
  function LabelOf(selector: JsonObject -> string, default: string, s: JsonObject): (r: string)
    ensures selector(s) != "" ==> r == selector(s)
    ensures selector(s) == "" ==> r == default
  {
    if selector(s) == "" then default else selector(s)
  }

  /** `route`'s label: the selector's label unless it is empty, and the default
      label for every sentence when no selector is given. With a non-empty
      default no item is ever routed under the empty label. */
  lemma LabelChoice(labelSelector: Option<JsonObject -> string>, default: string, s: JsonObject)
    ensures labelSelector.None? ==> LabelOf(Selector(labelSelector, default), default, s) == default
    ensures labelSelector.Some? ==>
      LabelOf(Selector(labelSelector, default), default, s)
        == (if labelSelector.value(s) != "" then labelSelector.value(s) else default)
    ensures default != "" ==> LabelOf(Selector(labelSelector, default), default, s) != ""
  {
  }

  /** The label selector `route` uses: the given one, or the constant default label. */
  function Selector(labelSelector: Option<JsonObject -> string>, default: string): (f: JsonObject -> string)
    ensures labelSelector.Some? ==> f == labelSelector.value
    ensures labelSelector.None? ==> forall s :: f(s) == default
  {
    if labelSelector.Some? then labelSelector.value else _ => default
  }

  /** The queue under label `name`, or `[]` when it has not been created. */
  function QueueOf(queues: map<string, seq<RoutedSentence>>, name: string): (r: seq<RoutedSentence>)
    ensures name in queues ==> r == queues[name]
    ensures name !in queues ==> r == []
  {
    if name in queues then queues[name] else []
  }

  /** The queues after `put_nowait` of each item in turn into its label's queue. */
  function AppendAll(queues: map<string, seq<RoutedSentence>>, items: seq<RoutedSentence>)
    : (r: map<string, seq<RoutedSentence>>)
    ensures queues.Keys <= r.Keys
  {
    if items == [] then queues
    else
      var m := AppendAll(queues, items[..|items| - 1]);
      var x := items[|items| - 1];
      m[x.queueLabel := QueueOf(m, x.queueLabel) + [x]]
  }

  lemma AppendAllSnoc(queues: map<string, seq<RoutedSentence>>, items: seq<RoutedSentence>, x: RoutedSentence)
    ensures var m := AppendAll(queues, items);
      AppendAll(queues, items + [x]) == m[x.queueLabel := QueueOf(m, x.queueLabel) + [x]]
  {
    assert (items + [x])[..|items|] == items;
  }

  /** The items of `items` carrying label `name`, in order. */
  function WithLabel(items: seq<RoutedSentence>, name: string): (r: seq<RoutedSentence>)
    ensures |r| <= |items|
  {
    if items == [] then []
    else
      var x := items[|items| - 1];
      WithLabel(items[..|items| - 1], name) + (if x.queueLabel == name then [x] else [])
  }

  /** Each queue receives exactly the routed items with its label, in routing
      order, after what it already held. */
  lemma {:induction false} AppendAllQueue(queues: map<string, seq<RoutedSentence>>, items: seq<RoutedSentence>, name: string)
    ensures QueueOf(AppendAll(queues, items), name) == QueueOf(queues, name) + WithLabel(items, name)
    decreases |items|
  {
    if items != [] {
      AppendAllQueue(queues, items[..|items| - 1], name);
    }
  }

  /** Items are sorted by sequence id. */
  predicate SortedById(s: seq<RoutedSentence>) {
    forall i, j | 0 <= i < j < |s| :: s[i].sequenceId <= s[j].sequenceId
  }

  /** Insertion of one item into an id-sorted list, before the items with an
      equal id: `Reorder` inserts each item into the sorted rest of the list,
      which holds the items that came after it. */
  function InsertById(x: RoutedSentence, s: seq<RoutedSentence>): (r: seq<RoutedSentence>)
    ensures |r| == |s| + 1
  {
    if s == [] then [x]
    else if x.sequenceId <= s[0].sequenceId then [x] + s
    else [s[0]] + InsertById(x, s[1..])
  }

  /** `reorder`: the items sorted by sequence id, as Python's stable
      `list.sort` does (items with equal ids keep their order). */
  function Reorder(routed: seq<RoutedSentence>): (r: seq<RoutedSentence>)
    ensures |r| == |routed|
  {
    if routed == [] then [] else InsertById(routed[0], Reorder(routed[1..]))
  }

  /** Every id in `s` is at least `b`. */
  predicate IdsAtLeast(s: seq<RoutedSentence>, b: int) {
    forall i | 0 <= i < |s| :: b <= s[i].sequenceId
  }

  lemma {:induction false} InsertByIdAtLeast(x: RoutedSentence, s: seq<RoutedSentence>, b: int)
    requires b <= x.sequenceId && IdsAtLeast(s, b)
    ensures IdsAtLeast(InsertById(x, s), b)
    decreases |s|
  {
    if s != [] && x.sequenceId > s[0].sequenceId {
      InsertByIdAtLeast(x, s[1..], b);
    }
  }

  lemma {:induction false} InsertByIdSorted(x: RoutedSentence, s: seq<RoutedSentence>)
    requires SortedById(s)
    ensures SortedById(InsertById(x, s))
    decreases |s|
  {
    if s != [] && x.sequenceId > s[0].sequenceId {
      InsertByIdSorted(x, s[1..]);
      InsertByIdAtLeast(x, s[1..], s[0].sequenceId);
    }
  }

  lemma {:induction false} InsertByIdPermutes(x: RoutedSentence, s: seq<RoutedSentence>)
    ensures multiset(InsertById(x, s)) == multiset(s) + multiset{x}
    decreases |s|
  {
    if s != [] && x.sequenceId > s[0].sequenceId {
      InsertByIdPermutes(x, s[1..]);
      assert s == [s[0]] + s[1..];
    }
  }

  /** `reorder` returns a permutation of its input sorted by sequence id. */
  lemma {:induction false} ReorderSortedPermutation(routed: seq<RoutedSentence>)
    ensures SortedById(Reorder(routed))
    ensures multiset(Reorder(routed)) == multiset(routed)
    decreases |routed|
  {
    if routed != [] {
      ReorderSortedPermutation(routed[1..]);
      InsertByIdSorted(routed[0], Reorder(routed[1..]));
      InsertByIdPermutes(routed[0], Reorder(routed[1..]));
      assert routed == [routed[0]] + routed[1..];
    }
  }

  /** The items of `s` with sequence id `id`, in their order in `s`. */
  function WithId(s: seq<RoutedSentence>, id: int): (r: seq<RoutedSentence>)
    ensures forall i | 0 <= i < |r| :: r[i].sequenceId == id
  {
    if s == [] then [] else (if s[0].sequenceId == id then [s[0]] else []) + WithId(s[1..], id)
  }

  /** `WithId` of a list with a known first item. */
  lemma WithIdCons(h: RoutedSentence, t: seq<RoutedSentence>, id: int)
    ensures WithId([h] + t, id) == (if h.sequenceId == id then [h] else []) + WithId(t, id)
  {
    PySeq.TailConcat([h], t);
  }

  /** Inserting `x` puts it in front of the items with its id and changes no
      other id's items. */
  lemma {:induction false} InsertByIdWithId(x: RoutedSentence, s: seq<RoutedSentence>, id: int)
    ensures WithId(InsertById(x, s), id) == (if x.sequenceId == id then [x] else []) + WithId(s, id)
    decreases |s|
  {
    if s == [] {
    } else if x.sequenceId <= s[0].sequenceId {
      WithIdCons(x, s, id);
    } else {
      var t := InsertById(x, s[1..]);
      InsertByIdWithId(x, s[1..], id);
      WithIdCons(s[0], t, id);
      WithIdCons(s[0], s[1..], id);
      assert [s[0]] + s[1..] == s;
      if s[0].sequenceId == id {
        assert x.sequenceId != id;
      }
    }
  }

  /** `reorder` is stable: for every id, the items with that id come out in
      their input order. */
  lemma {:induction false} ReorderStable(routed: seq<RoutedSentence>, id: int)
    ensures WithId(Reorder(routed), id) == WithId(routed, id)
    decreases |routed|
  {
    if routed != [] {
      ReorderStable(routed[1..], id);
      InsertByIdWithId(routed[0], Reorder(routed[1..]), id);
    }
  }

  /** Two equal ids in the input, the earlier item first: Python's stable
      `sort` keeps them in that order. */
  lemma ReorderKeepsEqualIds()
    ensures var a, b := RoutedSentence(7, "a", 0, map[]), RoutedSentence(7, "b", 0, map[]);
      Reorder([a, b]) == [a, b]
  {
    var a, b := RoutedSentence(7, "a", 0, map[]), RoutedSentence(7, "b", 0, map[]);
    assert [a, b][1..] == [b];
    assert Reorder([b]) == [b];
  }

  /** How `collect_in_order` ended: with enough items, or waiting on the queues
      after the given arrivals ran out. */
  datatype CollectEnd = Filled | Waiting

  /** The router. `route` and `get_queue` change its queues and its counter. */
  class TokenRouter {
    const counter: Counter
    const defaultLabel: string
    const tokenText: JsonObject -> string
    var queues: map<string, seq<RoutedSentence>>
    var nextSequenceId: int

    /** `tokenTextSelector == None` selects the sentence's `text_spoken`. */
    constructor(counter: Counter, defaultLabel: string, tokenTextSelector: Option<JsonObject -> string>)
      ensures this.counter == counter && this.defaultLabel == defaultLabel
      ensures tokenText == (if tokenTextSelector.Some? then tokenTextSelector.value else DefaultTokenText)
      ensures queues == map[] && nextSequenceId == 0
    {
      this.counter := counter;
      this.defaultLabel := defaultLabel;
      var text: JsonObject -> string := DefaultTokenText;
      if tokenTextSelector.Some? {
        text := tokenTextSelector.value;
      }
      tokenText := text;
      queues := map[];
      nextSequenceId := 0;
    }

    /** `get_queue`: creates the queue on first use and otherwise returns the
        existing one unchanged. */
    method GetQueue(name: string) returns (q: seq<RoutedSentence>)
      modifies this
      ensures nextSequenceId == old(nextSequenceId)
      ensures queues == old(queues)[name := old(QueueOf(queues, name))]
      ensures name in old(queues) ==> queues == old(queues)
      ensures name in queues && q == queues[name]
    {
      if name !in queues {
        queues := queues[name := []];
      }
      q := queues[name];
    }

    /** The item `route` produces for the `i`-th sentence when the counter stood at `first`. */
    function Item(selector: JsonObject -> string, first: int, i: nat, s: JsonObject): (r: RoutedSentence)
      ensures r.sequenceId == first + i && r.sentence == s
      ensures r.queueLabel == LabelOf(selector, defaultLabel, s)
      ensures r.tokenCount == CountTokens(counter, tokenText(s))
    {
      RoutedSentence(first + i, LabelOf(selector, defaultLabel, s), CountTokens(counter, tokenText(s)), s)
    }

    /** `route`: consecutive ids from the counter, one item per sentence in input
        order, each put into the queue of its label. `labelSelector == None`
        gives every sentence the default label. */
    method Route(sentences: seq<JsonObject>, labelSelector: Option<JsonObject -> string>)
      returns (routed: seq<RoutedSentence>)
      modifies this
      ensures nextSequenceId == old(nextSequenceId) + |sentences|
      ensures |routed| == |sentences|
      ensures forall i | 0 <= i < |sentences| ::
        routed[i] == Item(Selector(labelSelector, defaultLabel), old(nextSequenceId), i, sentences[i])
      ensures queues == AppendAll(old(queues), routed)
    {
      var selector := Selector(labelSelector, defaultLabel);
      var first := nextSequenceId;
      var qs := queues;
      routed := [];
      var n := 0;
      while n < |sentences|
        invariant 0 <= n <= |sentences| && |routed| == n
        invariant forall i | 0 <= i < n :: routed[i] == Item(selector, first, i, sentences[i])
        invariant qs == AppendAll(old(queues), routed)
      {
        var s := sentences[n];
        var item := RoutedSentence(first + n, LabelOf(selector, defaultLabel, s), CountTokens(counter, tokenText(s)), s);
        qs := qs[item.queueLabel := QueueOf(qs, item.queueLabel) + [item]];
        AppendAllSnoc(old(queues), routed, item);
        ghost var prev := routed;
        routed := routed + [item];
        forall i | 0 <= i < n + 1
          ensures routed[i] == Item(selector, first, i, sentences[i])
        {
          if i < n {
            assert routed[i] == prev[i];
          }
        }
        n := n + 1;
      }
      queues := qs;
      nextSequenceId := first + n;
    }

    /** `collect_in_order`, with the items that the queues hand over given in
        arrival order. Early items wait in a buffer keyed by sequence id; the
        output takes ids `start, start + 1, ...` as they become available. When the
        arrivals run out first, the source would keep waiting, which `Waiting`
        reports. */
    method CollectInOrder(arrivals: seq<RoutedSentence>, expectedCount: int, start: int)
      returns (out: seq<RoutedSentence>, end: CollectEnd)
      ensures expectedCount <= 0 ==> out == [] && end == Filled
      ensures |out| <= Max(expectedCount, 0)
      ensures forall i | 0 <= i < |out| :: out[i].sequenceId == start + i && out[i] in arrivals
      ensures end == Filled <==> |out| == Max(expectedCount, 0)
      ensures end == Waiting ==> forall a | a in arrivals :: a.sequenceId != start + |out|
    {
      out := [];
      if expectedCount <= 0 {
        return out, Filled;
      }
      var buffer: map<int, RoutedSentence> := map[];
      var nextId := start;
      var j := 0;
      while |out| < expectedCount && j < |arrivals|
        invariant 0 <= j <= |arrivals| && |out| <= expectedCount
        invariant nextId == start + |out|
        invariant forall i | 0 <= i < |out| :: out[i].sequenceId == start + i && out[i] in arrivals
        invariant forall id | id in buffer :: buffer[id].sequenceId == id && buffer[id] in arrivals
        invariant |out| < expectedCount ==> nextId !in buffer
        invariant forall a | a in arrivals[..j] && a.sequenceId >= nextId :: a.sequenceId in buffer
      {
        var item := arrivals[j];
        buffer := buffer[item.sequenceId := item];
        assert arrivals[..j + 1] == arrivals[..j] + [item];
        j := j + 1;
        while nextId in buffer && |out| < expectedCount
          invariant |out| <= expectedCount && nextId == start + |out|
          invariant forall i | 0 <= i < |out| :: out[i].sequenceId == start + i && out[i] in arrivals
          invariant forall id | id in buffer :: buffer[id].sequenceId == id && buffer[id] in arrivals
          invariant forall a | a in arrivals[..j] && a.sequenceId >= nextId :: a.sequenceId in buffer
          decreases expectedCount - |out|
        {
          out := out + [buffer[nextId]];
          buffer := buffer - {nextId};
          nextId := nextId + 1;
        }
      }
      end := if |out| == expectedCount then Filled else Waiting;
      if end == Waiting {
        assert arrivals[..j] == arrivals;
      }
    }
  }
}
