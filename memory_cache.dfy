/** The in-memory list store behind short-term memory. It keeps one list per key,
    with Redis-style inclusive ranges whose negative indices count from the end. */
module Cache {
  import opened Wrappers
  import opened PySeq

  /** A Redis list index: a negative index counts from the end, without clamping. */
  function Position(len: nat, i: int): (r: int)
    ensures i < 0 ==> r == len + i
    ensures i >= 0 ==> r == i
  {
    if i < 0 then len + i else i
  }

  /** Position `i` of a list of length `len` lies in the inclusive range `start..end`. */
  predicate InRange(len: nat, start: int, end: int, i: int) {
    Position(len, start) <= i <= Position(len, end)
  }

  /** `_resolve_range` as written: the slice bounds `[s, e)` it hands to Python. */
  function ResolveRange(len: nat, start: int, end: int): (r: (int, int))
    ensures r.0 >= 0 && r.0 == Max(Position(len, start), 0)
    ensures r.1 == Position(len, end) + 1
  {
    var s := if start < 0 then Max(len + start, 0) else start;
    var e := if end < 0 then len + end else end;
    (s, e + 1)
  }

  /** `messages[s:e]` with the bounds of `_resolve_range`, as written. The Python
      slice counts a still-negative `e` from the end a second time. */
  function RangeAsWritten<T>(l: seq<T>, start: int, end: int): (r: seq<T>)
    ensures |r| <= |l|
  {
    var (s, e) := ResolveRange(|l|, start, end);
    Slice(l, s, e)
  }

  /** Redis `LRANGE` semantics: the elements whose positions lie in the inclusive
      range, where an end position before the list selects nothing. */
  function RedisRange<T>(l: seq<T>, start: int, end: int): (r: seq<T>)
    ensures |r| <= |l|
  {
    var lo := Max(Position(|l|, start), 0);
    var hi := Min(Position(|l|, end), |l| - 1);
    if lo <= hi then l[lo..hi + 1] else []
  }

  /** The result of `RedisRange` is exactly the contiguous run of elements whose
      positions are in range, in list order. */
  lemma RedisRangeExact<T>(l: seq<T>, start: int, end: int)
    ensures var r := RedisRange(l, start, end);
      var lo := Max(Position(|l|, start), 0);
      (r == [] || (lo + |r| <= |l| && r == l[lo..lo + |r|]))
      && (forall i | 0 <= i < |l| :: InRange(|l|, start, end, i) <==> lo <= i < lo + |r|)
  {
  }

  /** With the default bounds `(0, -1)` the whole list is returned. */
  lemma RedisRangeAll<T>(l: seq<T>)
    ensures RedisRange(l, 0, -1) == l
  {
  }

  /** Non-negative bounds inside the list give the inclusive slice. */
  lemma RedisRangeInside<T>(l: seq<T>, a: nat, b: nat)
    requires a <= b < |l|
    ensures RedisRange(l, a, b) == l[a..b + 1]
  {
  }

  /** `(-n, -1)` returns the last `n` elements for `n >= 1`. Because `-0 == 0`,
      `n == 0` returns the whole list. */
  lemma RedisRangeLast<T>(l: seq<T>, n: int)
    ensures n >= 1 ==> RedisRange(l, -n, -1) == Last(l, n)
    ensures n == 0 ==> RedisRange(l, -n, -1) == l
  {
  }

  /** The bounds pinned down by the store's tests, on a list of five messages. */
  lemma RedisRangeTestCases<T>(l: seq<T>)
    requires |l| == 5
    ensures RedisRange(l, 1, 3) == [l[1], l[2], l[3]]
    ensures RedisRange(l, -3, -1) == [l[2], l[3], l[4]]
    ensures |RedisRange(l, 0, -1)| == 5
  {
    RedisRangeInside(l, 1, 3);
  }

  /** The code as written agrees with Redis whenever `end >= -len - 1`, which
      covers every caller (they all pass `end == -1`). */
  lemma {:induction false} AsWrittenAgrees<T>(l: seq<T>, start: int, end: int)
    requires end >= -|l| - 1
    ensures RangeAsWritten(l, start, end) == RedisRange(l, start, end)
  {
    var (s, e) := ResolveRange(|l|, start, end);
    assert e >= 0;
    assert SliceIndex(|l|, e) == Min(e, |l|);
  }

  /** An `end` further before the list wraps round: on five elements,
      `(0, -7)` gives the first four as written, where Redis gives none. */
  lemma AsWrittenWraps()
    ensures RangeAsWritten([0, 1, 2, 3, 4], 0, -7) == [0, 1, 2, 3]
    ensures RedisRange([0, 1, 2, 3, 4], 0, -7) == []
  {
    var l := [0, 1, 2, 3, 4];
    assert ResolveRange(5, 0, -7) == (0, -1);
    assert SliceIndex(5, -1) == 4;
    assert l[0..4] == [0, 1, 2, 3];
  }

  /** The list under `key` in a store, or `[]` when the key is absent. */
  function ListOf<M>(m: map<string, seq<M>>, key: string): (r: seq<M>)
    ensures key !in m ==> r == []
    ensures key in m ==> r == m[key]
  {
    if key in m then m[key] else []
  }

  /** `MemoryCache`: one list per key. Ranges follow `RedisRange`. */
  class MemoryCache<M> {
    var storage: map<string, seq<M>>

    constructor()
      ensures storage == map[]
    {
      storage := map[];
    }

    /** The list under `key`, or `[]` when the key is absent. */
    function List(key: string): (r: seq<M>)
      reads this
      ensures key !in storage ==> r == []
      ensures key in storage ==> r == storage[key]
    {
      ListOf(storage, key)
    }

    method AddMessage(key: string, message: M)
      modifies this
      ensures storage == old(storage)[key := old(List(key)) + [message]]
      ensures List(key) == old(List(key)) + [message]
      ensures forall k | k != key :: List(k) == old(List(k))
    {
      if key !in storage {
        storage := storage[key := []];
      }
      storage := storage[key := storage[key] + [message]];
    }

    function GetMessages(key: string, start: int, end: int): (r: seq<M>)
      reads this
      ensures key !in storage ==> r == []
      ensures key in storage ==> r == RedisRange(storage[key], start, end)
    {
      if key !in storage then [] else RedisRange(storage[key], start, end)
    }

    /** `trim` keeps exactly what `get_messages` with the same bounds returns;
        a missing key is left missing. */
    method Trim(key: string, start: int, end: int)
      modifies this
      ensures key !in old(storage) ==> storage == old(storage)
      ensures key in old(storage) ==> storage == old(storage)[key := old(GetMessages(key, start, end))]
    {
      if key !in storage {
        return;
      }
      storage := storage[key := RedisRange(storage[key], start, end)];
    }

    method Delete(key: string)
      modifies this
      ensures storage == old(storage) - {key}
      ensures !Exists(key) && GetMessages(key, 0, -1) == []
    {
      storage := storage - {key};
    }

    function Exists(key: string): (r: bool)
      reads this
      ensures r <==> key in storage
    {
      key in storage
    }

    method ClearAll()
      modifies this
      ensures storage == map[]
      ensures forall k :: !Exists(k)
    {
      storage := map[];
    }
  }
}
