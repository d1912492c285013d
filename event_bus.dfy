/** The publish/subscribe bus that connects the assistant's modules: handlers
    subscribe to an event name with a priority, publishing runs every handler of
    the event and of the wildcard "*", and a bounded history records what was
    published. */
module EventBus {
  import opened Wrappers
  import PySeq

  datatype Priority = High | Normal | Low

  /** The integer value of a priority; a lower value runs first. */
  function Rank(p: Priority): nat {
    match p
    case High => 0
    case Normal => 1
    case Low => 2
  }

  /** The identity of a handler function (the bus compares handlers with `is`). */
  type HandlerId = nat

  /** Only `priority` takes part in ordering subscriptions. */
  datatype Subscription = Subscription(priority: Priority, handler: HandlerId, owner: string)

  /** One history record: the event name, the clock reading and the name of the
      payload's type. */
  datatype HistoryEntry = HistoryEntry(event: string, timestamp: real, dataType: string)

  /** What became of one handler call: a handler's exception is caught and logged. */
  datatype Outcome = Completed | Failed

  datatype Invocation = Invocation(sub: Subscription, event: string, outcome: Outcome)

  const Wildcard: string := "*"
  const MaxHistory: nat := 100

  predicate SortedByPriority(s: seq<Subscription>) {
    forall i, j | 0 <= i < j < |s| :: Rank(s[i].priority) <= Rank(s[j].priority)
  }

  lemma SortedCons(x: Subscription, t: seq<Subscription>)
    ensures SortedByPriority([x] + t)
      <==> SortedByPriority(t) && forall j | 0 <= j < |t| :: Rank(x.priority) <= Rank(t[j].priority)
  {
    var s := [x] + t;
    if SortedByPriority(t) && forall j | 0 <= j < |t| :: Rank(x.priority) <= Rank(t[j].priority) {
      forall i, j | 0 <= i < j < |s| ensures Rank(s[i].priority) <= Rank(s[j].priority) {
        if i > 0 {
          assert s[i] == t[i - 1] && s[j] == t[j - 1];
        } else {
          assert s[j] == t[j - 1];
        }
      }
    }
    if SortedByPriority(s) {
      forall i, j | 0 <= i < j < |t| ensures Rank(t[i].priority) <= Rank(t[j].priority) {
        assert t[i] == s[i + 1] && t[j] == s[j + 1];
      }
      forall j | 0 <= j < |t| ensures Rank(x.priority) <= Rank(t[j].priority) {
        assert s[0] == x && t[j] == s[j + 1];
      }
    }
  }

  /** A sorted list whose members all come from a sorted list headed by `x`
      may be extended by `x` at the front. */
  lemma SortedConsMembers(x: Subscription, t: seq<Subscription>, r: seq<Subscription>)
    requires SortedByPriority([x] + t) && SortedByPriority(r)
    requires forall y | y in r :: y in t
    ensures SortedByPriority([x] + r)
  {
    SortedCons(x, t);
    forall j | 0 <= j < |r| ensures Rank(x.priority) <= Rank(r[j].priority) {
      assert r[j] in t;
    }
    SortedCons(x, r);
  }

  /** The subscriptions of priority `p`, in their order in `s`. */
  function Band(s: seq<Subscription>, p: Priority): (r: seq<Subscription>)
    ensures |r| <= |s|
    ensures forall i | 0 <= i < |r| :: r[i].priority == p
  {
    if s == [] then [] else (if s[0].priority == p then [s[0]] else []) + Band(s[1..], p)
  }

  lemma {:induction false} BandMembers(s: seq<Subscription>, p: Priority)
    ensures forall x :: x in Band(s, p) <==> x in s && x.priority == p
  {
    if s != [] {
      BandMembers(s[1..], p);
      assert s == [s[0]] + s[1..];
    }
  }

  /** Python's stable `list.sort()` on subscriptions, which compare by priority only:
      all high-priority entries, then normal, then low, each group in its old order. */
  function SortByPriority(s: seq<Subscription>): seq<Subscription>
  {
    Band(s, High) + Band(s, Normal) + Band(s, Low)
  }

  lemma {:induction false} BandAppend(a: seq<Subscription>, b: seq<Subscription>, p: Priority)
    ensures Band(a + b, p) == Band(a, p) + Band(b, p)
  {
    if a == [] {
      assert a + b == b;
    } else {
      BandAppend(a[1..], b, p);
      PySeq.TailConcat(a, b);
    }
  }

  lemma {:induction false} BandOfBand(s: seq<Subscription>, p: Priority, q: Priority)
    ensures Band(Band(s, q), p) == if p == q then Band(s, q) else []
  {
    if s != [] {
      BandOfBand(s[1..], p, q);
      var head := if s[0].priority == q then [s[0]] else [];
      BandAppend(head, Band(s[1..], q), p);
    }
  }

  /** The sort yields a priority-ordered list. */
  lemma SortByPrioritySorted(s: seq<Subscription>)
    ensures SortedByPriority(SortByPriority(s))
  {
    var r := SortByPriority(s);
    var h := |Band(s, High)|;
    var n := |Band(s, Normal)|;
    forall i | 0 <= i < |r|
      ensures r[i].priority == (if i < h then High else if i < h + n then Normal else Low)
    {
      if i < h {
        assert r[i] == Band(s, High)[i];
      } else if i < h + n {
        assert r[i] == Band(s, Normal)[i - h];
      } else {
        assert r[i] == Band(s, Low)[i - h - n];
      }
    }
  }

  /** The sort neither loses nor adds a subscription. */
  lemma {:induction false} SortByPriorityPermutes(s: seq<Subscription>)
    ensures multiset(SortByPriority(s)) == multiset(s)
    ensures |SortByPriority(s)| == |s|
  {
    BandsPartition(s);
    assert |multiset(SortByPriority(s))| == |SortByPriority(s)|;
  }

  /** Every subscription falls in exactly one of the three bands. */
  lemma {:induction false} BandsPartition(s: seq<Subscription>)
    ensures multiset(Band(s, High)) + multiset(Band(s, Normal)) + multiset(Band(s, Low)) == multiset(s)
  {
    if s != [] {
      var t := s[1..];
      var x := s[0];
      BandsPartition(t);
      assert multiset(s) == multiset{x} + multiset(t) by {
        assert s == [x] + t;
      }
      var mh, mn, ml := multiset(Band(t, High)), multiset(Band(t, Normal)), multiset(Band(t, Low));
      AddToOnePart(multiset{x}, mh, mn, ml, multiset(t));
      match x.priority {
        case High =>
          assert multiset(Band(s, High)) == multiset{x} + mh;
          assert Band(s, Normal) == Band(t, Normal) && Band(s, Low) == Band(t, Low);
        case Normal =>
          assert multiset(Band(s, Normal)) == multiset{x} + mn;
          assert Band(s, High) == Band(t, High) && Band(s, Low) == Band(t, Low);
        case Low =>
          assert multiset(Band(s, Low)) == multiset{x} + ml;
          assert Band(s, High) == Band(t, High) && Band(s, Normal) == Band(t, Normal);
      }
    }
  }

  /** Adding to one part of a three-way split adds to the whole. */
  lemma AddToOnePart<T>(x: multiset<T>, a: multiset<T>, b: multiset<T>, c: multiset<T>, m: multiset<T>)
    requires a + b + c == m
    ensures (x + a) + b + c == x + m
    ensures a + (x + b) + c == x + m
    ensures a + b + (x + c) == x + m
  {
  }

  /** The sort is stable: within one priority the order is unchanged. */
  lemma SortByPriorityStable(s: seq<Subscription>, p: Priority)
    ensures Band(SortByPriority(s), p) == Band(s, p)
  {
    BandAppend(Band(s, High) + Band(s, Normal), Band(s, Low), p);
    BandAppend(Band(s, High), Band(s, Normal), p);
    BandOfBand(s, p, High);
    BandOfBand(s, p, Normal);
    BandOfBand(s, p, Low);
  }

  /** Sorting an already sorted list leaves it unchanged. */
  lemma {:induction false} BandEmpty(s: seq<Subscription>, p: Priority)
    requires forall j | 0 <= j < |s| :: s[j].priority != p
    ensures Band(s, p) == []
  {
    if s != [] {
      BandEmpty(s[1..], p);
    }
  }

  lemma {:induction false} SortedIsFixpoint(s: seq<Subscription>)
    requires SortedByPriority(s)
    ensures SortByPriority(s) == s
  {
    if s != [] {
      var t := s[1..];
      var x := s[0];
      PySeq.HeadTail(s);
      SortedCons(x, t);
      SortedIsFixpoint(t);
      var h, n, l := Band(t, High), Band(t, Normal), Band(t, Low);
      match x.priority {
        case High =>
          assert SortByPriority(s) == ([x] + h) + n + l;
        case Normal =>
          BandEmpty(t, High);
          assert SortByPriority(s) == [] + ([x] + n) + l;
        case Low =>
          BandEmpty(t, High);
          BandEmpty(t, Normal);
          assert SortByPriority(s) == [] + [] + ([x] + l);
      }
      PrependJoin(x, h, n, l);
    }
  }

  /** Putting `x` in front of any one of three joined parts puts it in front of the whole. */
  lemma PrependJoin<T>(x: T, a: seq<T>, b: seq<T>, c: seq<T>)
    ensures ([x] + a) + b + c == [x] + (a + b + c)
    ensures a == [] ==> a + ([x] + b) + c == [x] + (a + b + c)
    ensures a == [] && b == [] ==> a + b + ([x] + c) == [x] + (a + b + c)
  {
  }

  /** The sorted list is determined by its per-priority contents: any sorted list
      with the same priority groups as `s` is `SortByPriority(s)`. */
  lemma SortUnique(r: seq<Subscription>, s: seq<Subscription>)
    requires SortedByPriority(r)
    requires forall p :: Band(r, p) == Band(s, p)
    ensures r == SortByPriority(s)
  {
    SortedIsFixpoint(r);
    assert Band(r, High) == Band(s, High);
    assert Band(r, Normal) == Band(s, Normal);
    assert Band(r, Low) == Band(s, Low);
  }

  /** The list comprehension that drops the subscriptions of handler `h`. */
  function WithoutHandler(s: seq<Subscription>, h: HandlerId): (r: seq<Subscription>)
    ensures |r| <= |s|
  {
    if s == [] then []
    else if s[0].handler == h then WithoutHandler(s[1..], h)
    else [s[0]] + WithoutHandler(s[1..], h)
  }

  /** Filtering by handler keeps exactly the other handlers' subscriptions. */
  lemma {:induction false} WithoutHandlerMembers(s: seq<Subscription>, h: HandlerId)
    ensures forall x :: x in WithoutHandler(s, h) <==> x in s && x.handler != h
  {
    if s != [] {
      WithoutHandlerMembers(s[1..], h);
      assert s == [s[0]] + s[1..];
    }
  }

  /** The list gets shorter exactly when the handler was subscribed. */
  lemma {:induction false} WithoutHandlerShorter(s: seq<Subscription>, h: HandlerId)
    ensures |WithoutHandler(s, h)| < |s| <==> exists i | 0 <= i < |s| :: s[i].handler == h
  {
    if s != [] {
      WithoutHandlerShorter(s[1..], h);
      if exists i | 0 <= i < |s[1..]| :: s[1..][i].handler == h {
        var i :| 0 <= i < |s[1..]| && s[1..][i].handler == h;
        assert s[i + 1].handler == h;
      }
      if exists i | 0 <= i < |s| :: s[i].handler == h {
        var i :| 0 <= i < |s| && s[i].handler == h;
        if i > 0 {
          assert s[1..][i - 1].handler == h;
        }
      }
    }
  }

  /** Filtering a priority-ordered list keeps it ordered. */
  lemma {:induction false} WithoutHandlerSorted(s: seq<Subscription>, h: HandlerId)
    requires SortedByPriority(s)
    ensures SortedByPriority(WithoutHandler(s, h))
  {
    if s != [] {
      assert s == [s[0]] + s[1..];
      SortedCons(s[0], s[1..]);
      WithoutHandlerSorted(s[1..], h);
      if s[0].handler != h {
        WithoutHandlerMembers(s[1..], h);
        SortedConsMembers(s[0], s[1..], WithoutHandler(s[1..], h));
      }
    }
  }

  /** The list comprehension that drops the subscriptions made by `owner`. */
  function WithoutOwner(s: seq<Subscription>, owner: string): (r: seq<Subscription>)
    ensures |r| <= |s|
  {
    if s == [] then []
    else if s[0].owner == owner then WithoutOwner(s[1..], owner)
    else [s[0]] + WithoutOwner(s[1..], owner)
  }

  /** Filtering by owner keeps exactly the other owners' subscriptions. */
  lemma {:induction false} WithoutOwnerMembers(s: seq<Subscription>, owner: string)
    ensures forall x :: x in WithoutOwner(s, owner) <==> x in s && x.owner != owner
  {
    if s != [] {
      WithoutOwnerMembers(s[1..], owner);
      assert s == [s[0]] + s[1..];
    }
  }

  lemma {:induction false} WithoutOwnerSorted(s: seq<Subscription>, owner: string)
    requires SortedByPriority(s)
    ensures SortedByPriority(WithoutOwner(s, owner))
  {
    if s != [] {
      assert s == [s[0]] + s[1..];
      SortedCons(s[0], s[1..]);
      WithoutOwnerSorted(s[1..], owner);
      if s[0].owner != owner {
        WithoutOwnerMembers(s[1..], owner);
        SortedConsMembers(s[0], s[1..], WithoutOwner(s[1..], owner));
      }
    }
  }

  /** The number of subscriptions in a table. */
  ghost function Total(m: map<string, seq<Subscription>>): nat
  {
    TotalOver(m, m.Keys)
  }

  /** The number of subscriptions of the events in `keys`. */
  ghost function TotalOver(m: map<string, seq<Subscription>>, keys: set<string>): nat
    requires keys <= m.Keys
  {
    if keys == {} then 0
    else
      var e :| e in keys;
      |m[e]| + TotalOver(m, keys - {e})
  }

  lemma {:induction false} TotalOverRemove(m: map<string, seq<Subscription>>, keys: set<string>, e: string)
    requires keys <= m.Keys && e in keys
    ensures TotalOver(m, keys) == |m[e]| + TotalOver(m, keys - {e})
    decreases keys
  {
    var e' :| e' in keys && TotalOver(m, keys) == |m[e']| + TotalOver(m, keys - {e'});
    if e' != e {
      TotalOverRemove(m, keys - {e'}, e);
      TotalOverRemove(m, keys - {e}, e');
      assert keys - {e'} - {e} == keys - {e} - {e'};
    }
  }

  /** Only the lists of `keys` count towards `TotalOver`. */
  lemma {:induction false} TotalOverSame(m: map<string, seq<Subscription>>, m': map<string, seq<Subscription>>, keys: set<string>)
    requires keys <= m.Keys && keys <= m'.Keys
    requires forall e | e in keys :: |m[e]| == |m'[e]|
    ensures TotalOver(m, keys) == TotalOver(m', keys)
    decreases keys
  {
    if keys != {} {
      var e :| e in keys && TotalOver(m, keys) == |m[e]| + TotalOver(m, keys - {e});
      TotalOverRemove(m', keys, e);
      TotalOverSame(m, m', keys - {e});
    }
  }

  lemma TotalRemove(m: map<string, seq<Subscription>>, e: string)
    requires e in m
    ensures Total(m) == |m[e]| + Total(m - {e})
  {
    TotalOverRemove(m, m.Keys, e);
    assert (m - {e}).Keys == m.Keys - {e};
    TotalOverSame(m, m - {e}, m.Keys - {e});
  }

  lemma TotalUpdate(m: map<string, seq<Subscription>>, e: string, v: seq<Subscription>)
    requires e in m
    ensures Total(m[e := v]) == Total(m) - |m[e]| + |v|
  {
    TotalRemove(m, e);
    TotalRemove(m[e := v], e);
    assert m[e := v] - {e} == m - {e};
  }

  /** The history after one more record: at most the `MaxHistory` newest. */
  function AppendCapped(h: seq<HistoryEntry>, e: HistoryEntry): (r: seq<HistoryEntry>)
    ensures |r| == Min(|h| + 1, MaxHistory)
    ensures r == PySeq.Last(h + [e], MaxHistory)
    ensures r[|r| - 1] == e
  {
    var h' := h + [e];
    if |h'| > MaxHistory then PySeq.SliceFrom(h', -(MaxHistory as int)) else h'
  }

  /** What the subscription table becomes when the list of `event` is replaced
      by `l`; an event left without subscriptions is deleted. */
  function Store(m: map<string, seq<Subscription>>, event: string, l: seq<Subscription>): map<string, seq<Subscription>>
  {
    if l == [] then m - {event} else m[event := l]
  }

  /** The table after `unsubscribe_all(owner)`: that owner's subscriptions are
      gone and so is every event left with none. */
  ghost function WithoutOwnerTable(m: map<string, seq<Subscription>>, owner: string): map<string, seq<Subscription>>
  {
    map e | e in m && WithoutOwner(m[e], owner) != [] :: WithoutOwner(m[e], owner)
  }

  /** What `unsubscribe_all`'s first loop has established once the events
      outside `todo` are done: their lists are filtered, and `emptyEvents`
      holds exactly those of them left empty. */
  ghost predicate Filtering(m: map<string, seq<Subscription>>, owner: string, todo: set<string>,
                            table: map<string, seq<Subscription>>, emptyEvents: set<string>)
  {
    todo <= m.Keys && table.Keys == m.Keys
    && (forall e | e in emptyEvents :: e in m && e !in todo)
    && (forall e | e in m && e !in todo :: table[e] == WithoutOwner(m[e], owner))
    && (forall e | e in m && e !in todo :: e in emptyEvents <==> |table[e]| == 0)
    && (forall e | e in todo :: table[e] == m[e])
  }

  /** Filtering one more event keeps `Filtering`. */
  lemma FilterStep(m: map<string, seq<Subscription>>, owner: string, todo: set<string>,
                   table: map<string, seq<Subscription>>, emptyEvents: set<string>, e: string)
    requires Filtering(m, owner, todo, table, emptyEvents) && e in todo
    ensures var kept := WithoutOwner(table[e], owner);
      Filtering(m, owner, todo - {e}, table[e := kept], if |kept| == 0 then emptyEvents + {e} else emptyEvents)
  {
  }

  /** The first loop of `unsubscribe_all`: filters every list, counting what
      was removed and collecting the events whose list became empty. */
  method FilterOwner(m: map<string, seq<Subscription>>, owner: string)
    returns (table: map<string, seq<Subscription>>, removed: int, emptyEvents: set<string>)
    ensures table.Keys == m.Keys
    ensures forall e | e in m :: table[e] == WithoutOwner(m[e], owner)
    ensures emptyEvents <= m.Keys
    ensures forall e | e in m :: e in emptyEvents <==> |table[e]| == 0
    ensures removed == Total(m) - Total(table)
  {
    table := m;
    removed := 0;
    emptyEvents := {};
    var todo := m.Keys;
    while todo != {}
      invariant Filtering(m, owner, todo, table, emptyEvents)
      invariant removed == Total(m) - Total(table)
      decreases |todo|
    {
      var e :| e in todo;
      var subs := table[e];
      var kept := WithoutOwner(subs, owner);
      FilterStep(m, owner, todo, table, emptyEvents, e);
      TotalUpdate(table, e, kept);
      table := table[e := kept];
      removed := removed + (|subs| - |kept|);
      if |kept| == 0 {
        emptyEvents := emptyEvents + {e};
      }
      todo := todo - {e};
    }
  }

  /** The second loop of `unsubscribe_all`: deletes the given events. */
  method DeleteEvents(m: map<string, seq<Subscription>>, events: set<string>)
    returns (r: map<string, seq<Subscription>>)
    ensures r.Keys == m.Keys - events
    ensures forall e | e in r :: r[e] == m[e]
  {
    r := m;
    var left := events;
    while left != {}
      invariant left <= events
      invariant r.Keys == m.Keys - (events - left)
      invariant forall e | e in r :: r[e] == m[e]
      decreases |left|
    {
      var e :| e in left;
      r := r - {e};
      left := left - {e};
    }
  }

  /** Deleting events whose lists are empty leaves the total unchanged. */
  lemma {:induction false} TotalDelete(m: map<string, seq<Subscription>>, events: set<string>, r: map<string, seq<Subscription>>)
    requires forall e | e in events && e in m :: m[e] == []
    requires r.Keys == m.Keys - events
    requires forall e | e in r :: r[e] == m[e]
    ensures Total(r) == Total(m)
    decreases |m.Keys|
  {
    var gone := m.Keys * events;
    if gone != {} {
      var e :| e in gone;
      TotalRemove(m, e);
      assert (m - {e}).Keys == m.Keys - {e};
      TotalDelete(m - {e}, events, r);
    } else {
      assert r == m;
    }
  }

  /** `publish`'s loop: calls each handler in turn; a handler that raises is
      logged and the loop goes on with the next one. */
  method RunHandlers(handlers: seq<Subscription>, event: string, raises: (HandlerId, string) -> bool)
    returns (calls: seq<Invocation>)
    ensures |calls| == |handlers|
    ensures forall i | 0 <= i < |calls| ::
      calls[i] == Invocation(handlers[i], event, if raises(handlers[i].handler, event) then Failed else Completed)
  {
    calls := [];
    var i := 0;
    while i < |handlers|
      invariant 0 <= i <= |handlers|
      invariant |calls| == i
      invariant forall j | 0 <= j < i ::
        calls[j] == Invocation(handlers[j], event, if raises(handlers[j].handler, event) then Failed else Completed)
    {
      var sub := handlers[i];
      var outcome := if raises(sub.handler, event) then Failed else Completed;
      calls := calls + [Invocation(sub, event, outcome)];
      i := i + 1;
    }
  }

  /** The two loops of `unsubscribe_all` together compute `WithoutOwnerTable`. */
  lemma PrunedTable(m: map<string, seq<Subscription>>, owner: string, table: map<string, seq<Subscription>>,
                    emptyEvents: set<string>, pruned: map<string, seq<Subscription>>)
    requires table.Keys == m.Keys
    requires forall e | e in m :: table[e] == WithoutOwner(m[e], owner)
    requires forall e | e in m :: e in emptyEvents <==> |table[e]| == 0
    requires pruned.Keys == table.Keys - emptyEvents
    requires forall e | e in pruned :: pruned[e] == table[e]
    ensures pruned == WithoutOwnerTable(m, owner)
  {
    var w := WithoutOwnerTable(m, owner);
    assert pruned.Keys == w.Keys;
    forall e | e in pruned ensures pruned[e] == w[e] {
    }
  }

  /** Filtering a table of ordered lists leaves ordered, non-empty lists
      without any subscription of `owner`. */
  lemma WithoutOwnerTableSorted(m: map<string, seq<Subscription>>, owner: string)
    requires forall e | e in m :: SortedByPriority(m[e])
    ensures forall e | e in WithoutOwnerTable(m, owner) ::
      WithoutOwnerTable(m, owner)[e] != [] && SortedByPriority(WithoutOwnerTable(m, owner)[e])
    ensures forall e | e in WithoutOwnerTable(m, owner) ::
      forall i | 0 <= i < |WithoutOwnerTable(m, owner)[e]| :: WithoutOwnerTable(m, owner)[e][i].owner != owner
  {
    var w := WithoutOwnerTable(m, owner);
    forall e | e in w
      ensures SortedByPriority(w[e])
      ensures forall i | 0 <= i < |w[e]| :: w[e][i].owner != owner
    {
      WithoutOwnerSorted(m[e], owner);
      WithoutOwnerMembers(m[e], owner);
      assert forall i | 0 <= i < |w[e]| :: w[e][i] in WithoutOwner(m[e], owner);
    }
  }

  class EventBus {
    var subscribers: map<string, seq<Subscription>>
    var history: seq<HistoryEntry>

    /** Every listed event has a non-empty, priority-ordered list, and the
        history holds at most `MaxHistory` records. */
    ghost predicate Valid()
      reads this
    {
      (forall e | e in subscribers :: subscribers[e] != [] && SortedByPriority(subscribers[e]))
      && |history| <= MaxHistory
    }

    constructor ()
      ensures Valid()
      ensures subscribers == map[] && history == []
    {
      subscribers := map[];
      history := [];
    }

    /** `self._subscribers.get(event, [])` */
    function Subscribers(event: string): seq<Subscription>
      reads this
    {
      if event in subscribers then subscribers[event] else []
    }

    /** Adds a subscription and re-sorts the event's list by priority, so the new
        entry runs after every earlier one of the same or a higher priority. */
    method Subscribe(event: string, handler: HandlerId, priority: Priority, owner: string)
      requires Valid()
      modifies this
      ensures Valid()
      ensures subscribers ==
        old(subscribers)[event := SortByPriority(old(Subscribers(event)) + [Subscription(priority, handler, owner)])]
      ensures forall p :: (Band(subscribers[event], p)
        == Band(old(Subscribers(event)), p) + Band([Subscription(priority, handler, owner)], p))
      ensures multiset(subscribers[event]) == multiset(old(Subscribers(event))) + multiset{Subscription(priority, handler, owner)}
      ensures history == old(history)
    {
      var sub := Subscription(priority, handler, owner);
      var list := Subscribers(event) + [sub];
      SortByPrioritySorted(list);
      SortByPriorityPermutes(list);
      forall p
        ensures Band(SortByPriority(list), p) == Band(Subscribers(event), p) + Band([sub], p)
      {
        SortByPriorityStable(list, p);
        BandAppend(Subscribers(event), [sub], p);
      }
      subscribers := subscribers[event := SortByPriority(list)];
    }

    /** Removes every subscription of `handler` to `event`; the result says
        whether there was one. */
    method Unsubscribe(event: string, handler: HandlerId) returns (removed: bool)
      requires Valid()
      modifies this
      ensures Valid()
      ensures removed <==> exists i | 0 <= i < |old(Subscribers(event))| :: old(Subscribers(event))[i].handler == handler
      ensures event !in old(subscribers) ==> subscribers == old(subscribers)
      ensures event in old(subscribers) ==>
        subscribers == Store(old(subscribers), event, WithoutHandler(old(subscribers)[event], handler))
      ensures forall i | 0 <= i < |Subscribers(event)| :: Subscribers(event)[i].handler != handler
      ensures history == old(history)
    {
      if event !in subscribers {
        return false;
      }
      var before := |subscribers[event]|;
      ghost var subs := Subscribers(event);
      assert subs == subscribers[event];
      WithoutHandlerShorter(subs, handler);
      WithoutHandlerSorted(subs, handler);
      WithoutHandlerMembers(subs, handler);
      var kept := WithoutHandler(subscribers[event], handler);
      removed := |kept| < before;
      subscribers := Store(subscribers, event, kept);
    }

    /** Removes every subscription made by `owner`, deleting events left with
        none, and returns how many subscriptions were removed. */
    method UnsubscribeAll(owner: string) returns (removed: int)
      requires Valid()
      modifies this
      ensures Valid()
      ensures subscribers == WithoutOwnerTable(old(subscribers), owner)
      ensures removed == Total(old(subscribers)) - Total(subscribers)
      ensures forall e | e in subscribers :: forall i | 0 <= i < |subscribers[e]| :: subscribers[e][i].owner != owner
      ensures history == old(history)
    {
      var table, count, emptyEvents := FilterOwner(subscribers, owner);
      var pruned := DeleteEvents(table, emptyEvents);
      TotalDelete(table, emptyEvents, pruned);
      PrunedTable(subscribers, owner, table, emptyEvents, pruned);
      WithoutOwnerTableSorted(subscribers, owner);
      subscribers := pruned;
      removed := count;
    }

    /** The subscriptions a publication of `event` runs, in order: the event's own
        and the wildcard's, merged by priority (so publishing "*" itself runs each
        wildcard subscription twice). */
    function GetHandlers(event: string): (r: seq<Subscription>)
      reads this
      requires Valid()
      ensures r == SortByPriority(Subscribers(event) + Subscribers(Wildcard))
      ensures SortedByPriority(r)
      ensures forall p :: Band(r, p) == Band(Subscribers(event), p) + Band(Subscribers(Wildcard), p)
    {
      var handlers := Subscribers(event);
      var wildcard := Subscribers(Wildcard);
      SortByPrioritySorted(handlers + wildcard);
      assert forall p :: Band(SortByPriority(handlers + wildcard), p) == Band(handlers, p) + Band(wildcard, p) by {
        forall p ensures Band(SortByPriority(handlers + wildcard), p) == Band(handlers, p) + Band(wildcard, p) {
          SortByPriorityStable(handlers + wildcard, p);
          BandAppend(handlers, wildcard, p);
        }
      }
      if wildcard != [] then SortByPriority(handlers + wildcard)
      else
        assert handlers + wildcard == handlers;
        SortedIsFixpoint(handlers);
        handlers
    }

    /** Appends a history record, keeping the newest `MaxHistory`. */
    method RecordHistory(event: string, now: real, dataType: string)
      requires Valid()
      modifies this
      ensures Valid()
      ensures history == AppendCapped(old(history), HistoryEntry(event, now, dataType))
      ensures subscribers == old(subscribers)
    {
      history := AppendCapped(history, HistoryEntry(event, now, dataType));
    }

    /** Runs every handler of `event` in order and returns how many ran. A handler
        whose call raises (`raises(handler, event)`) is logged and does not stop
        the others. Nothing is recorded when there is no handler. */
    method Publish(event: string, dataType: string, now: real, raises: (HandlerId, string) -> bool)
      returns (count: int, calls: seq<Invocation>)
      requires Valid()
      modifies this
      ensures Valid()
      ensures subscribers == old(subscribers)
      ensures count == |old(GetHandlers(event))| && |calls| == count
      ensures forall i | 0 <= i < |calls| ::
        calls[i] == Invocation(old(GetHandlers(event))[i], event,
                               if raises(old(GetHandlers(event))[i].handler, event) then Failed else Completed)
      ensures count == 0 ==> history == old(history)
      ensures count > 0 ==> history == AppendCapped(old(history), HistoryEntry(event, now, dataType))
    {
      var handlers := GetHandlers(event);
      if handlers == [] {
        return 0, [];
      }
      RecordHistory(event, now, dataType);
      calls := RunHandlers(handlers, event, raises);
      count := |calls|;
    }

    /** `self._history[-limit:]`: the newest `limit` records; because `-0 == 0`,
        a limit of 0 returns the whole history. */
    function GetHistory(limit: int): (r: seq<HistoryEntry>)
      reads this
      ensures limit >= 1 ==> r == PySeq.Last(history, limit)
      ensures limit == 0 ==> r == history
      ensures limit < 0 ==> r == history[Min(-limit, |history|)..]
    {
      PySeq.SliceFromNegated(history, limit);
      PySeq.SliceFrom(history, -limit)
    }

    /** The number of subscriptions to `event`, or to all events when `event` is
        `None` or empty. */
    method GetSubscriberCount(event: Option<string>) returns (n: int)
      ensures Truthy(event) ==> n == |Subscribers(event.value)|
      ensures !Truthy(event) ==> n == Total(subscribers)
    {
      if Truthy(event) {
        return |Subscribers(event.value)|;
      }
      n := 0;
      var rest := subscribers;
      while rest != map[]
        invariant n + Total(rest) == Total(subscribers)
        decreases |rest.Keys|
      {
        var e :| e in rest;
        TotalRemove(rest, e);
        n := n + |rest[e]|;
        assert (rest - {e}).Keys == rest.Keys - {e};
        rest := rest - {e};
      }
    }

    /** Drops every subscription and the history. */
    method Reset()
      modifies this
      ensures Valid()
      ensures subscribers == map[] && history == []
    {
      subscribers := map[];
      history := [];
    }
  }
}
