/** The dialog token router: the sentences of one reply are labelled with their
    index, spread round-robin over a fixed number of FIFO slots, worked off slot
    by slot, and reassembled in index order once completed. */
module DialogTokenRouter {
  import opened Wrappers
  import opened Json
  import opened PySeq

  datatype SentenceStatus = Pending | Processing | Completed

  /** A sentence labelled with its position in the reply. */
  datatype LabeledSentence = LabeledSentence(index: nat, data: JsonObject, status: SentenceStatus, responseId: string)

  /** One slot: the indices of the sentences waiting in its queue, and the
      sentence it is working on. */
  datatype SentenceFifo = SentenceFifo(slotId: nat, queue: seq<nat>, current: Option<nat>) {

    function Enqueue(i: nat): (f: SentenceFifo)
      ensures f.queue == queue + [i] && f.current == current && f.slotId == slotId
    {
      this.(queue := queue + [i])
    }

    /** No sentence in progress and none waiting. */
    function IsIdle(): (r: bool)
      ensures r <==> current.None? && |queue| == 0
    {
      current.None? && queue == []
    }

    function PendingCount(): (n: nat)
      ensures n == |queue|
    {
      |queue|
    }
  }

  /** A slot's queue is first in, first out: enqueueing adds one waiting
      sentence at the back, leaves the front one first in line, and makes the
      slot busy. */
  lemma EnqueueFifo(f: SentenceFifo, i: nat)
    ensures f.Enqueue(i).PendingCount() == f.PendingCount() + 1
    ensures f.Enqueue(i).queue[f.PendingCount()] == i
    ensures f.queue != [] ==> f.Enqueue(i).queue[0] == f.queue[0]
    ensures !f.Enqueue(i).IsIdle()
  {
  }

  /** The indices `0 <= i < n`. */
  ghost function Indices(n: nat): set<nat>
  {
    if n == 0 then {} else Indices(n - 1) + {n - 1}
  }

  lemma {:induction false} IndicesProperties(n: nat)
    ensures forall i: nat :: i in Indices(n) <==> i < n
    ensures |Indices(n)| == n
  {
    if n > 0 {
      IndicesProperties(n - 1);
    }
  }

  /** The members of `done` below `n`. */
  ghost function Below(done: set<nat>, n: nat): (r: set<nat>)
    ensures forall i | i in r :: i < n && i in done
  {
    if n == 0 then {} else Below(done, n - 1) + (if n - 1 in done then {n - 1} else {})
  }

  lemma {:induction false} BelowAll(done: set<nat>, n: nat)
    requires forall i | i in done :: i < n
    ensures Below(done, n) == done
  {
    forall i | i in done ensures i in Below(done, n) {
      BelowMember(done, n, i);
    }
  }

  lemma {:induction false} BelowMember(done: set<nat>, n: nat, i: nat)
    requires i in done && i < n
    ensures i in Below(done, n)
  {
    if i < n - 1 {
      BelowMember(done, n - 1, i);
    }
  }

  /** The slots of a freshly reset router. */
  function EmptySlots(n: nat): (r: seq<SentenceFifo>)
    ensures |r| == n && forall k | 0 <= k < n :: r[k] == SentenceFifo(k, [], None)
  {
    if n == 0 then [] else EmptySlots(n - 1) + [SentenceFifo(n - 1, [], None)]
  }

  /** A set of indices below `n` has at most `n` members, and exactly `n` when it
      holds every index. */
  lemma {:induction false} SubsetCard<T>(a: set<T>, b: set<T>)
    requires a <= b
    ensures |a| <= |b|
    decreases |a|
  {
    if a != {} {
      var x :| x in a;
      SubsetCard(a - {x}, b - {x});
    }
  }

  lemma IndexSetCard(a: set<nat>, n: nat)
    requires forall i | i in a :: i < n
    ensures |a| <= n
    ensures |a| == n <==> forall i | 0 <= i < n :: i in a
  {
    IndicesProperties(n);
    assert a <= Indices(n);
    if forall i | 0 <= i < n :: i in a {
      assert a == Indices(n);
    }
    if exists i | 0 <= i < n :: i !in a {
      var i :| 0 <= i < n && i !in a;
      SubsetCard(a, Indices(n) - {i});
    }
    SubsetCard(a, Indices(n));
  }

  /** The indices below `n` that fall to slot `k` of `slots`: each index goes to
      slot `index % slots`, in increasing order. */
  function RoundRobin(n: nat, slots: nat, k: nat): (r: seq<nat>)
    requires slots >= 1
    ensures forall j | 0 <= j < |r| :: r[j] < n && r[j] % slots == k
    ensures forall i | 0 <= i < n && i % slots == k :: i in r
    ensures forall a, b | 0 <= a < b < |r| :: r[a] < r[b]
  {
    if n == 0 then [] else RoundRobin(n - 1, slots, k) + (if (n - 1) % slots == k then [n - 1] else [])
  }

  /** The indices in ascending order of the members of `done` below `n`:
      `sorted(done)` restricted to the first `n` indices. */
  function SortedIndices(done: set<nat>, n: nat): (r: seq<nat>)
    ensures forall j | 0 <= j < |r| :: r[j] < n && r[j] in done
  {
    if n == 0 then [] else SortedIndices(done, n - 1) + (if n - 1 in done then [n - 1] else [])
  }

  /** `SortedIndices` lists every member of `done` below `n`, in ascending order. */
  lemma {:induction false} SortedIndicesOrdered(done: set<nat>, n: nat)
    ensures forall i | 0 <= i < n && i in done :: i in SortedIndices(done, n)
    ensures forall a, b | 0 <= a < b < |SortedIndices(done, n)| :: SortedIndices(done, n)[a] < SortedIndices(done, n)[b]
  {
    if n > 0 {
      SortedIndicesOrdered(done, n - 1);
    }
  }

  lemma {:induction false} SortedIndicesCount(done: set<nat>, n: nat)
    ensures |SortedIndices(done, n)| == |Below(done, n)|
  {
    if n > 0 {
      SortedIndicesCount(done, n - 1);
      assert n - 1 !in Below(done, n - 1);
    }
  }

  lemma {:induction false} SortedIndicesAll(done: set<nat>, n: nat)
    requires forall i | 0 <= i < n :: i in done
    ensures |SortedIndices(done, n)| == n
    ensures forall j | 0 <= j < n :: SortedIndices(done, n)[j] == j
  {
    if n > 0 {
      SortedIndicesAll(done, n - 1);
      assert SortedIndices(done, n) == SortedIndices(done, n - 1) + [n - 1];
    }
  }

  ghost function Members(q: seq<nat>): set<nat>
  {
    set x | x in q
  }

  /** Every index waiting in one of the slots. */
  ghost function Queued(slots: seq<SentenceFifo>): set<nat>
  {
    if slots == [] then {} else Queued(slots[..|slots| - 1]) + Members(slots[|slots| - 1].queue)
  }

  /** Slot `k` holds only sentences below `total` that route to it. */
  ghost predicate SlotOk(f: SentenceFifo, k: nat, total: nat, numSlots: nat)
    requires numSlots >= 1
  {
    f.slotId == k
    && (forall j | 0 <= j < |f.queue| :: f.queue[j] < total && f.queue[j] % numSlots == k)
    && (f.current.Some? ==> f.current.value < total && f.current.value % numSlots == k)
  }

  /** Status snapshot of one slot. */
  datatype SlotStatus = SlotStatus(slotId: nat, pending: nat, isIdle: bool)

  /** Status snapshot of the router. */
  datatype RouterStatus = RouterStatus(
    responseId: string, totalSentences: nat, completed: nat, isAllCompleted: bool, slots: seq<SlotStatus>)

  class TokenRouter {
    const numSlots: nat
    var slots: seq<SentenceFifo>
    /** `_all_sentences[i].data` */
    var sentences: seq<JsonObject>
    /** `_all_sentences[i].status`: one status per sentence, shared by every
        list and slot that holds it. */
    var status: seq<SentenceStatus>
    /** The keys of `_completed`. */
    var completed: set<nat>
    var total: nat
    var responseId: string
    /** Whether `_finished_event` is set. */
    var finished: bool

    ghost predicate Valid()
      reads this
    {
      numSlots >= 1 && |slots| == numSlots
      && |sentences| == total && |status| == total
      && (forall k | 0 <= k < numSlots :: SlotOk(slots[k], k, total, numSlots))
      && (forall i | i in completed :: i < total)
      && (finished <==> total > 0 && |completed| == total)
    }

    /** `process_all_sequential`'s starting point right after routing: every
        sentence waits in its round-robin slot and none is completed. */
    ghost predicate JustRouted()
      reads this
      requires numSlots >= 1 && |slots| == numSlots
    {
      completed == {}
      && forall k | 0 <= k < numSlots :: slots[k] == SentenceFifo(k, RoundRobin(total, numSlots, k), None)
    }

    /** A router needs at least one slot: routing a sentence takes its index
        modulo the number of slots. */
    constructor (numSlots: nat)
      requires numSlots >= 1
      ensures Valid()
      ensures this.numSlots == numSlots
      ensures slots == EmptySlots(numSlots)
      ensures sentences == [] && completed == {} && total == 0 && responseId == "" && !finished
    {
      this.numSlots := numSlots;
      slots := EmptySlots(numSlots);
      sentences := [];
      status := [];
      completed := {};
      total := 0;
      responseId := "";
      finished := false;
    }

    method Reset()
      requires Valid()
      modifies this
      ensures Valid()
      ensures slots == EmptySlots(numSlots)
      ensures sentences == [] && status == [] && completed == {} && total == 0 && responseId == "" && !finished
    {
      slots := EmptySlots(numSlots);
      completed := {};
      sentences := [];
      status := [];
      total := 0;
      responseId := "";
      finished := false;
    }

    /** Labels the sentences `0, 1, ...` and queues sentence `i` on slot
        `i % numSlots`. The reply id is the one given, or a fresh one
        (`generatedId`) when none or an empty one is given. */
    method RouteSentences(input: seq<JsonObject>, requestedId: Option<string>, generatedId: string)
      returns (labeled: seq<LabeledSentence>)
      requires Valid()
      modifies this
      ensures Valid() && JustRouted()
      ensures responseId == if Truthy(requestedId) then requestedId.value else generatedId
      ensures total == |input| && sentences == input && completed == {} && !finished
      ensures |status| == |input| && forall i | 0 <= i < |input| :: status[i] == Pending
      ensures |labeled| == |input|
      ensures forall i | 0 <= i < |input| :: labeled[i] == LabeledSentence(i, input[i], Pending, responseId)
    {
      Reset();
      responseId := if Truthy(requestedId) then requestedId.value else generatedId;
      total := |input|;
      var fifos, labels, statuses := Label(input, numSlots, responseId);
      labeled := labels;
      RoutedOk(|input|, numSlots);
      slots, sentences, status := fifos, input, statuses;
    }

    /** `SentenceFIFO.dequeue` on slot `k`: the head of its queue becomes the
        current sentence and is marked as processing; an empty queue gives
        `None` and changes nothing. */
    method Dequeue(k: nat) returns (r: Option<LabeledSentence>)
      requires Valid() && k < numSlots
      modifies this
      ensures Valid()
      ensures sentences == old(sentences) && completed == old(completed) && total == old(total)
      ensures responseId == old(responseId) && finished == old(finished)
      ensures old(slots[k].queue) == [] ==> r == None && slots == old(slots) && status == old(status)
      ensures old(slots[k].queue) != [] ==>
        var i := old(slots[k].queue[0]);
        r == Some(LabeledSentence(i, sentences[i], Processing, responseId))
        && slots == old(slots)[k := SentenceFifo(k, old(slots[k].queue[1..]), Some(i))]
        && status == old(status)[i := Processing]
    {
      var f := slots[k];
      if f.queue == [] {
        return None;
      }
      var i := f.queue[0];
      status := status[i := Processing];
      slots := slots[k := SentenceFifo(k, f.queue[1..], Some(i))];
      r := Some(LabeledSentence(i, sentences[i], Processing, responseId));
    }

    /** The next sentence of slot `slotId`, or `None` when that slot does not
        exist or its queue is empty. A negative id counts from the last slot,
        as Python list indexing does. */
    method GetNext(slotId: int) returns (r: Option<LabeledSentence>)
      requires Valid() && slotId >= -(numSlots as int)
      modifies this
      ensures Valid()
      ensures sentences == old(sentences) && completed == old(completed) && total == old(total)
      ensures responseId == old(responseId) && finished == old(finished)
      ensures slotId >= numSlots ==> r == None && slots == old(slots) && status == old(status)
      ensures slotId < numSlots ==>
        var k := if slotId < 0 then numSlots + slotId else slotId;
        (old(slots[k].queue) == [] ==> r == None && slots == old(slots) && status == old(status))
        && (old(slots[k].queue) != [] ==>
          var i := old(slots[k].queue[0]);
          r == Some(LabeledSentence(i, sentences[i], Processing, responseId))
          && slots == old(slots)[k := SentenceFifo(k, old(slots[k].queue[1..]), Some(i))]
          && status == old(status)[i := Processing])
    {
      if slotId >= numSlots {
        return None;
      }
      var k := if slotId < 0 then numSlots + slotId else slotId;
      r := Dequeue(k);
    }

    /** Whether every sentence of a non-empty reply is completed. */
    function IsAllCompleted(): (r: bool)
      reads this
      requires forall i | i in completed :: i < total
      ensures r <==> total > 0 && forall i | 0 <= i < total :: i in completed
    {
      IndexSetCard(completed, total);
      total > 0 && |completed| == total
    }

    /** Records sentence `index` as completed. An unknown index, or a sentence
        already completed, gives `false` and changes nothing. Otherwise the
        sentence the slot `index % numSlots` is working on, which need not be
        `index` itself, is marked completed and the slot becomes free. */
    method MarkCompleted(index: int) returns (ok: bool)
      requires Valid()
      modifies this
      ensures Valid()
      ensures sentences == old(sentences) && total == old(total) && responseId == old(responseId)
      ensures ok <==> 0 <= index < total && old(status)[index] != Completed
      ensures !ok ==> (slots == old(slots) && status == old(status) && completed == old(completed)
        && finished == old(finished))
      ensures ok ==> completed == old(completed) + {index as nat}
      ensures ok ==>
        var k := index % numSlots;
        (old(slots[k].current).None? ==> slots == old(slots) && status == old(status))
        && (old(slots[k].current).Some? ==>
          slots == old(slots)[k := old(slots[k]).(current := None)]
          && status == old(status)[old(slots[k].current.value) := Completed])
      ensures finished <==> IsAllCompleted()
    {
      if !(0 <= index < total) {
        return false;
      }
      if status[index] == Completed {
        return false;
      }
      var k := index % numSlots;
      var f := slots[k];
      if f.current.Some? {
        status := status[f.current.value := Completed];
        slots := slots[k := f.(current := None)];
      }
      ghost var c0 := completed;
      completed := completed + {index as nat};
      SubsetCard(c0, completed);
      IndexSetCard(completed, total);
      if IsAllCompleted() {
        finished := true;
      }
      ok := true;
    }

    /** The data of the completed sentences, in index order. */
    function BuildOrderedResponse(): (r: seq<JsonObject>)
      reads this
      requires Valid()
      ensures |r| == |completed| == |SortedIndices(completed, total)|
      ensures forall j | 0 <= j < |r| :: r[j] == sentences[SortedIndices(completed, total)[j]]
    {
      var order := SortedIndices(completed, total);
      var data := sentences;
      SortedIndicesCount(completed, total);
      BelowAll(completed, total);
      seq(|order|, j requires 0 <= j < |order| => data[order[j]])
    }

    /** Once every sentence is completed, the ordered response is the reply's
        sentence data in its original order. */
    lemma AllCompletedOrdered()
      requires Valid() && forall i | 0 <= i < total :: i in completed
      ensures BuildOrderedResponse() == sentences
    {
      SortedIndicesAll(completed, total);
    }

    /** The data of the completed sentences from index 0 up to the first one
        that is not completed. */
    method GetCompletedUpTo() returns (r: seq<JsonObject>)
      requires Valid()
      ensures |r| <= total
      ensures forall i | 0 <= i < |r| :: i in completed && r[i] == sentences[i]
      ensures |r| < total ==> |r| !in completed
    {
      r := [];
      var i := 0;
      while i < total
        invariant 0 <= i <= total && |r| == i
        invariant forall j | 0 <= j < i :: j in completed && r[j] == sentences[j]
      {
        if i !in completed {
          break;
        }
        r := r + [sentences[i]];
        i := i + 1;
      }
    }

    function GetStatus(): (s: RouterStatus)
      reads this
      requires Valid()
      ensures s.completed <= s.totalSentences == total
      ensures s.isAllCompleted <==> total > 0 && forall i | 0 <= i < total :: i in completed
      ensures |s.slots| == numSlots
      ensures forall k | 0 <= k < numSlots ::
        s.slots[k].slotId == k && s.slots[k].pending == |slots[k].queue|
        && (s.slots[k].isIdle <==> slots[k].current.None? && |slots[k].queue| == 0)
    {
      IndexSetCard(completed, total);
      var fifos := slots;
      RouterStatus(responseId, total, |completed|, IsAllCompleted(),
        seq(numSlots, k requires 0 <= k < numSlots =>
          SlotStatus(fifos[k].slotId, fifos[k].PendingCount(), fifos[k].IsIdle())))
    }

    /** One round of `process_all_sequential`'s inner loop on slot `k`: takes the
        next sentence and marks it completed; `stop` when the queue was empty. */
    method ProcessNext(k: nat) returns (stop: bool)
      requires Valid() && k < numSlots
      modifies this
      ensures Valid()
      ensures sentences == old(sentences) && total == old(total) && responseId == old(responseId)
      ensures stop <==> old(slots[k].queue) == []
      ensures stop ==> slots == old(slots) && status == old(status) && completed == old(completed)
      ensures !stop ==>
        var i := old(slots[k].queue[0]);
        slots == old(slots)[k := SentenceFifo(k, old(slots[k].queue[1..]), None)]
        && status == old(status)[i := Completed]
        && completed == old(completed) + {i}
    {
      var s := GetNext(k);
      if s.None? {
        return true;
      }
      var ok := MarkCompleted(s.value.index);
      stop := false;
    }

    /** Works off slot `k` until its queue is empty, completing each sentence. */
    method DrainSlot(k: nat)
      requires Valid() && k < numSlots
      modifies this
      ensures Valid()
      ensures sentences == old(sentences) && total == old(total) && responseId == old(responseId)
      ensures slots == old(slots)[k := SentenceFifo(k, [], if old(slots[k].queue) == [] then old(slots[k].current) else None)]
      ensures completed == old(completed) + Members(old(slots[k].queue))
      ensures status == MarkAll(old(status), old(slots[k].queue))
    {
      ghost var s0, c0, st0 := slots, completed, status;
      ghost var q0 := slots[k].queue;
      ghost var d := 0;
      while true
        invariant Valid() && 0 <= d <= |q0|
        invariant sentences == old(sentences) && total == old(total) && responseId == old(responseId)
        invariant slots == s0[k := SentenceFifo(k, q0[d..], if d == 0 then s0[k].current else None)]
        invariant completed == c0 + Members(q0[..d])
        invariant status == MarkAll(st0, q0[..d])
        decreases |q0| - d
      {
        ghost var sl := slots;
        var stop := ProcessNext(k);
        if stop {
          break;
        }
        DropOne(q0, d);
        UpdateTwice(s0, k, sl[k], slots[k]);
        TakeSnoc(q0, d);
        UnionAssoc(c0, Members(q0[..d]), {q0[d]});
        d := d + 1;
      }
      assert q0[..d] == q0;
    }

    /** The loop of `process_all_sequential`: drains every slot in turn. */
    method DrainAll()
      requires Valid()
      modifies this
      ensures Valid()
      ensures sentences == old(sentences) && total == old(total) && responseId == old(responseId)
      ensures completed == old(completed) + Queued(old(slots))
      ensures forall k | 0 <= k < numSlots ::
        slots[k] == SentenceFifo(k, [], if old(slots[k].queue) == [] then old(slots[k].current) else None)
      ensures status == MarkSlots(old(status), old(slots))
    {
      ghost var s0, st0 := slots, status;
      var slotId := 0;
      while slotId < numSlots
        invariant Valid() && 0 <= slotId <= numSlots
        invariant sentences == old(sentences) && total == old(total) && responseId == old(responseId)
        invariant slots == Drained(s0, slotId)
        invariant completed == old(completed) + Queued(s0[..slotId])
        invariant status == MarkSlots(st0, s0[..slotId])
      {
        DrainSlot(slotId);
        DrainedStep(s0, slotId);
        QueuedSnoc(s0, slotId);
        UnionAssoc(old(completed), Queued(s0[..slotId]), Members(s0[slotId].queue));
        MarkSlotsSnoc(st0, s0, slotId);
        slotId := slotId + 1;
      }
      assert s0[..numSlots] == s0;
    }

    /** Works off every slot in turn, completing each queued sentence, and
        returns the ordered response: right after routing, that is every
        sentence in its original order. */
    method ProcessAllSequential() returns (r: seq<JsonObject>)
      requires Valid()
      modifies this
      ensures Valid()
      ensures sentences == old(sentences) && total == old(total)
      ensures completed == old(completed) + Queued(old(slots))
      ensures forall k | 0 <= k < numSlots ::
        slots[k] == SentenceFifo(k, [], if old(slots[k].queue) == [] then old(slots[k].current) else None)
      ensures forall i | 0 <= i < total :: status[i] == if i in Queued(old(slots)) then Completed else old(status[i])
      ensures r == BuildOrderedResponse()
      ensures old(JustRouted()) ==> r == sentences
    {
      ghost var routed := JustRouted();
      ghost var slots0 := slots;
      ghost var status0 := status;
      DrainAll();
      MarkSlotsSpec(status0, slots0);
      r := BuildOrderedResponse();
      if routed {
        RoutedQueuesAll(slots0, total, numSlots);
        AllCompletedOrdered();
      }
    }
  }

  /** The slots after routing the sentences `0 .. n-1`. */
  function Routed(n: nat, numSlots: nat): (r: seq<SentenceFifo>)
    requires numSlots >= 1
    ensures |r| == numSlots
  {
    seq(numSlots, k requires 0 <= k < numSlots => SentenceFifo(k, RoundRobin(n, numSlots, k), None))
  }

  /** `route_sentences`' loop: labels sentence `i` and queues it on slot
      `i % numSlots`, each pending. */
  method Label(input: seq<JsonObject>, numSlots: nat, responseId: string)
    returns (fifos: seq<SentenceFifo>, labeled: seq<LabeledSentence>, statuses: seq<SentenceStatus>)
    requires numSlots >= 1
    ensures fifos == Routed(|input|, numSlots)
    ensures |statuses| == |input| && forall i | 0 <= i < |input| :: statuses[i] == Pending
    ensures |labeled| == |input|
    ensures forall i | 0 <= i < |input| :: labeled[i] == LabeledSentence(i, input[i], Pending, responseId)
  {
    fifos := EmptySlots(numSlots);
    statuses := [];
    labeled := [];
    var idx := 0;
    RoutedStart(numSlots);
    while idx < |input|
      invariant 0 <= idx <= |input|
      invariant fifos == Routed(idx, numSlots)
      invariant |statuses| == idx && forall i | 0 <= i < idx :: statuses[i] == Pending
      invariant |labeled| == idx
      invariant forall i | 0 <= i < idx :: labeled[i] == LabeledSentence(i, input[i], Pending, responseId)
    {
      statuses := statuses + [Pending];
      labeled := labeled + [LabeledSentence(idx, input[idx], Pending, responseId)];
      var k := idx % numSlots;
      RoutedStep(idx, numSlots);
      fifos := fifos[k := fifos[k].Enqueue(idx)];
      idx := idx + 1;
    }
  }

  /** Every routed sentence sits in the slot its index selects. */
  lemma RoutedOk(n: nat, numSlots: nat)
    requires numSlots >= 1
    ensures forall k | 0 <= k < numSlots :: SlotOk(Routed(n, numSlots)[k], k, n, numSlots)
  {
    forall k | 0 <= k < numSlots ensures SlotOk(Routed(n, numSlots)[k], k, n, numSlots) {
      var q := RoundRobin(n, numSlots, k);
      assert forall j | 0 <= j < |q| :: q[j] < n && q[j] % numSlots == k;
    }
  }

  lemma RoutedStart(numSlots: nat)
    requires numSlots >= 1
    ensures Routed(0, numSlots) == EmptySlots(numSlots)
  {
  }

  /** Routing sentence `n` appends it to the queue of slot `n % numSlots` only. */
  lemma RoutedStep(n: nat, numSlots: nat)
    requires numSlots >= 1
    ensures var k := n % numSlots;
            Routed(n + 1, numSlots) == Routed(n, numSlots)[k := Routed(n, numSlots)[k].Enqueue(n)]
  {
    var k := n % numSlots;
    var a, b := Routed(n + 1, numSlots), Routed(n, numSlots)[k := Routed(n, numSlots)[k].Enqueue(n)];
    forall j | 0 <= j < numSlots ensures a[j] == b[j] {
      assert RoundRobin(n + 1, numSlots, j) == RoundRobin(n, numSlots, j) + (if n % numSlots == j then [n] else []);
    }
  }

  /** `st` with each index of `q` marked completed. */
  function MarkAll(st: seq<SentenceStatus>, q: seq<nat>): (r: seq<SentenceStatus>)
    ensures |r| == |st|
  {
    if q == [] then st
    else
      var r := MarkAll(st, q[..|q| - 1]);
      var i := q[|q| - 1];
      if i < |r| then r[i := Completed] else r
  }

  /** Exactly the queued indices become completed; the rest keep their status. */
  lemma {:induction false} MarkAllSpec(st: seq<SentenceStatus>, q: seq<nat>)
    ensures forall i | 0 <= i < |st| :: MarkAll(st, q)[i] == if i in q then Completed else st[i]
  {
    if q != [] {
      var init := q[..|q| - 1];
      MarkAllSpec(st, init);
      assert forall i :: i in q <==> i in init || i == q[|q| - 1];
    }
  }

  /** `st` with each index queued in `slots` marked completed, slot by slot. */
  function MarkSlots(st: seq<SentenceStatus>, slots: seq<SentenceFifo>): (r: seq<SentenceStatus>)
    ensures |r| == |st|
  {
    if slots == [] then st else MarkAll(MarkSlots(st, slots[..|slots| - 1]), slots[|slots| - 1].queue)
  }

  lemma {:induction false} MarkSlotsSpec(st: seq<SentenceStatus>, slots: seq<SentenceFifo>)
    ensures forall i | 0 <= i < |st| :: MarkSlots(st, slots)[i] == if i in Queued(slots) then Completed else st[i]
  {
    if slots != [] {
      var init := slots[..|slots| - 1];
      MarkSlotsSpec(st, init);
      MarkAllSpec(MarkSlots(st, init), slots[|slots| - 1].queue);
    }
  }

  lemma MarkSlotsSnoc(st: seq<SentenceStatus>, slots: seq<SentenceFifo>, j: nat)
    requires j < |slots|
    ensures MarkSlots(st, slots[..j + 1]) == MarkAll(MarkSlots(st, slots[..j]), slots[j].queue)
  {
    assert slots[..j + 1][..j] == slots[..j];
  }

  /** The slots after draining the first `j` of `slots`. */
  function Drained(slots: seq<SentenceFifo>, j: nat): (r: seq<SentenceFifo>)
    ensures |r| == |slots|
  {
    seq(|slots|, k requires 0 <= k < |slots| =>
      if k < j then SentenceFifo(k, [], if slots[k].queue == [] then slots[k].current else None) else slots[k])
  }

  lemma DrainedStep(slots: seq<SentenceFifo>, j: nat)
    requires j < |slots|
    ensures Drained(slots, j)[j := SentenceFifo(j, [], if slots[j].queue == [] then slots[j].current else None)]
         == Drained(slots, j + 1)
    ensures Drained(slots, j)[j] == slots[j]
  {
  }

  lemma UnionAssoc<T>(a: set<T>, b: set<T>, c: set<T>)
    ensures a + b + c == a + (b + c)
  {
  }

  lemma DropOne(q: seq<nat>, d: nat)
    requires d < |q|
    ensures q[d..][1..] == q[d + 1..] && q[d..][0] == q[d]
  {
  }

  lemma UpdateTwice<T>(s: seq<T>, k: nat, a: T, b: T)
    requires k < |s|
    ensures s[k := a][k := b] == s[k := b]
  {
  }

  lemma TakeSnoc(q: seq<nat>, d: nat)
    requires d < |q|
    ensures q[..d + 1] == q[..d] + [q[d]]
    ensures Members(q[..d + 1]) == Members(q[..d]) + {q[d]}
    ensures forall st: seq<SentenceStatus> ::
      (MarkAll(st, q[..d + 1]) == var r := MarkAll(st, q[..d]); if q[d] < |r| then r[q[d] := Completed] else r)
  {
    assert q[..d + 1] == q[..d] + [q[d]];
    assert q[..d + 1][..d] == q[..d];
  }

  lemma QueuedSnoc(slots: seq<SentenceFifo>, j: nat)
    requires j < |slots|
    ensures Queued(slots[..j + 1]) == Queued(slots[..j]) + Members(slots[j].queue)
  {
    assert slots[..j + 1][..j] == slots[..j];
  }

  /** The slots filled by routing `n` sentences hold every index below `n`. */
  lemma RoutedQueuesAll(slots: seq<SentenceFifo>, n: nat, numSlots: nat)
    requires numSlots >= 1 && |slots| == numSlots
    requires forall k | 0 <= k < numSlots :: slots[k] == SentenceFifo(k, RoundRobin(n, numSlots, k), None)
    ensures forall i | 0 <= i < n :: i in Queued(slots)
  {
    QueuedRoundRobin(slots, n, numSlots, numSlots);
    assert slots[..numSlots] == slots;
  }

  /** The slots filled by routing `n` sentences hold, together, every index
      whose slot number is below `j`. */
  lemma {:induction false} QueuedRoundRobin(slots: seq<SentenceFifo>, n: nat, numSlots: nat, j: nat)
    requires numSlots >= 1 && j <= |slots| == numSlots
    requires forall k | 0 <= k < numSlots :: slots[k] == SentenceFifo(k, RoundRobin(n, numSlots, k), None)
    ensures Queued(slots[..j]) == set i: nat | i < n && i % numSlots < j
  {
    if j > 0 {
      QueuedRoundRobin(slots, n, numSlots, j - 1);
      assert slots[..j][..j - 1] == slots[..j - 1];
    }
  }
}
