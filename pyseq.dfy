/** Python's slice semantics for lists and strings (`s[a:b]`, `s[a:]`), which the
    modelled code uses with negative bounds. */
module PySeq {
  import opened Wrappers

  /** How Python normalises one slice bound `i` for a sequence of length `len`:
      a negative bound counts from the end, and the result is clamped to `[0, len]`. */
  function SliceIndex(len: nat, i: int): (r: nat)
    ensures r <= len
    ensures 0 <= i <= len ==> r == i
    ensures -(len as int) <= i < 0 ==> r == len + i
  {
    if i < 0 then (if len + i < 0 then 0 else len + i)
    else if i > len then len
    else i
  }

  /** `s[start:stop]` */
  function Slice<T>(s: seq<T>, start: int, stop: int): (r: seq<T>)
    ensures |r| <= |s|
  {
    var a := SliceIndex(|s|, start);
    var b := SliceIndex(|s|, stop);
    if a < b then s[a..b] else []
  }

  /** `s[start:]` */
  function SliceFrom<T>(s: seq<T>, start: int): (r: seq<T>)
    ensures |r| <= |s|
  {
    s[SliceIndex(|s|, start)..]
  }

  /** The last `n` elements of `s` (all of `s` when it is shorter). */
  function Last<T>(s: seq<T>, n: nat): (r: seq<T>)
    ensures |r| == Min(n, |s|)
    ensures r == s[|s| - |r|..]
  {
    s[|s| - Min(n, |s|)..]
  }

  /** `s[-k:]` keeps the last `k` elements for `k >= 1`; because `-0 == 0`,
      `s[-0:]` is the whole of `s`; and for `k < 0` it drops the first `-k`. */
  lemma SliceFromNegated<T>(s: seq<T>, k: int)
    ensures k >= 1 ==> SliceFrom(s, -k) == Last(s, k)
    ensures k == 0 ==> SliceFrom(s, -k) == s
    ensures k < 0 ==> SliceFrom(s, -k) == s[Min(-k, |s|)..]
  {
  }

  /** Extending a slice by one element. */
  lemma SliceSnoc<T>(s: seq<T>, a: int, b: int)
    requires 0 <= a <= b < |s|
    ensures s[a..b + 1] == s[a..b] + [s[b]]
  {
  }

  /** A non-empty sequence is its first element followed by the rest. */
  lemma HeadTail<T>(s: seq<T>)
    requires s != []
    ensures s == [s[0]] + s[1..]
  {
  }

  /** Dropping the head of a concatenation whose left part is non-empty. */
  lemma TailConcat<T>(a: seq<T>, b: seq<T>)
    requires a != []
    ensures (a + b)[0] == a[0] && (a + b)[1..] == a[1..] + b
  {
  }
}
