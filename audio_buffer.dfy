/** The capture ring buffer: a preallocated array of samples, a write index
    that wraps around, and a count of the samples ever written. Samples are
    opaque values (`real`); locking is not modelled. */
module AudioRing {
  import opened Wrappers
  import opened PySeq
  import opened Arith

  /** `x % m` for an `x` less than one turn of the ring away from `[0, m)`. */
  function Ring(x: int, m: int): (r: int)
    requires m > 0 && -m <= x < 2 * m
    ensures 0 <= r < m
    ensures r == x || r == x + m || r == x - m
  {
    if x < 0 then x + m else if x >= m then x - m else x
  }

  /** `Ring` is Python's `%` (which agrees with Dafny's for a positive modulus). */
  lemma RingMod(x: int, m: int)
    requires m > 0 && -m <= x < 2 * m
    ensures Ring(x, m) == x % m
  {
    if x < 0 {
      ModUnique(x, m, -1, x + m);
    } else if x >= m {
      ModUnique(x, m, 1, x - m);
    } else {
      ModUnique(x, m, 0, x);
    }
  }

  /** The cells after writing `d` at `w`, wrapping to the start of the array. */
  function WriteAt(b: seq<real>, w: int, d: seq<real>): (r: seq<real>)
    requires 0 <= w < |b| && |d| <= |b|
    ensures |r| == |b|
  {
    seq(|b|, i requires 0 <= i < |b| =>
      var offset := Ring(i - w, |b|);
      if offset < |d| then d[offset] else b[i])
  }

  /** The `j`-th written sample lands `j` cells after `w`, wrapping around, and
      every cell outside the written stretch keeps its value. */
  lemma WriteAtCells(b: seq<real>, w: int, d: seq<real>)
    requires 0 <= w < |b| && |d| <= |b|
    ensures forall j | 0 <= j < |d| :: WriteAt(b, w, d)[Ring(w + j, |b|)] == d[j]
    ensures forall i | 0 <= i < |b| && Ring(i - w, |b|) >= |d| :: WriteAt(b, w, d)[i] == b[i]
  {
    forall j | 0 <= j < |d| ensures WriteAt(b, w, d)[Ring(w + j, |b|)] == d[j] {
      assert Ring(Ring(w + j, |b|) - w, |b|) == j;
    }
  }

  /** The `k` cells that end just before `w`, oldest first. */
  function Recent(b: seq<real>, w: int, k: int): (r: seq<real>)
    requires 0 <= w < |b| && 0 <= k <= |b|
    ensures |r| == k
  {
    seq(k, j requires 0 <= j < k => b[Ring(w - k + j, |b|)])
  }

  /** A shorter read is the tail of a longer one. */
  lemma RecentSuffix(b: seq<real>, w: int, k: int, k': int)
    requires 0 <= w < |b| && 0 <= k' <= k <= |b|
    ensures Recent(b, w, k') == Recent(b, w, k)[k - k'..]
  {
  }

  /** One cell of a read across a fresh write. */
  lemma RecentAfterWriteCell(b: seq<real>, w: int, d: seq<real>, k: int, j: int)
    requires 0 <= w < |b| && |d| <= k <= |b| && 0 <= j < k
    ensures Recent(WriteAt(b, w, d), Ring(w + |d|, |b|), k)[j] == (Recent(b, w, k - |d|) + d)[j]
  {
    var m, n := |b|, |d|;
    var after := WriteAt(b, w, d);
    var p := Ring(Ring(w + n, m) - k + j, m);
    assert Recent(after, Ring(w + n, m), k)[j] == after[p];
    var offset := Ring(p - w, m);
    assert after[p] == if offset < n then d[offset] else b[p];
    if j >= k - n {
      assert offset == j - (k - n);
    } else {
      assert p == Ring(w - (k - n) + j, m);
      assert offset == m - (k - n) + j;
      assert Recent(b, w, k - n)[j] == b[p];
    }
  }

  /** Reading across a fresh write: the written samples come last, preceded by
      the samples that were most recent before the write. */
  lemma RecentAfterWrite(b: seq<real>, w: int, d: seq<real>, k: int)
    requires 0 <= w < |b| && |d| <= k <= |b|
    ensures Recent(WriteAt(b, w, d), Ring(w + |d|, |b|), k) == Recent(b, w, k - |d|) + d
  {
    var r := Recent(WriteAt(b, w, d), Ring(w + |d|, |b|), k);
    var s := Recent(b, w, k - |d|) + d;
    forall j | 0 <= j < k ensures r[j] == s[j] {
      RecentAfterWriteCell(b, w, d, k, j);
    }
  }

  /** Round trip: reading back as many samples as were just written gives them. */
  lemma WriteThenRead(b: seq<real>, w: int, d: seq<real>)
    requires 0 <= w < |b| && |d| <= |b|
    ensures Recent(WriteAt(b, w, d), Ring(w + |d|, |b|), |d|) == d
  {
    RecentAfterWrite(b, w, d, |d|);
  }

  /** The read of `_get_frames` from `start`: one slice when it fits before
      the end of the array, else the tail of the array and then its head. */
  function ReadRing(b: seq<real>, start: int, k: int): (r: seq<real>) {
    if start + k <= |b| then Slice(b, start, start + k)
    else
      var part1 := SliceFrom(b, start);
      part1 + Slice(b, 0, k - |part1|)
  }

  /** Reading `k` cells from `w - k` (mod the length) gives the `k` cells
      before `w`, oldest first. */
  lemma ReadRingRecent(b: seq<real>, w: int, k: int)
    requires 0 <= w < |b| && 1 <= k <= |b|
    ensures ReadRing(b, Ring(w - k, |b|), k) == Recent(b, w, k)
  {
    var m := |b|;
    var start := Ring(w - k, m);
    if start + k <= m {
      ReadRingOneSlice(b, w, k);
    } else {
      ReadRingTwoSlices(b, w, k);
    }
  }

  lemma ReadRingOneSlice(b: seq<real>, w: int, k: int)
    requires 0 <= w < |b| && 1 <= k <= |b| && Ring(w - k, |b|) + k <= |b|
    ensures ReadRing(b, Ring(w - k, |b|), k) == Recent(b, w, k)
  {
    var m := |b|;
    var start := Ring(w - k, m);
    var r := ReadRing(b, start, k);
    assert r == b[start..start + k];
    forall j | 0 <= j < k ensures r[j] == Recent(b, w, k)[j] {
      assert Ring(w - k + j, m) == start + j;
    }
  }

  lemma ReadRingTwoSlices(b: seq<real>, w: int, k: int)
    requires 0 <= w < |b| && 1 <= k <= |b| && Ring(w - k, |b|) + k > |b|
    ensures ReadRing(b, Ring(w - k, |b|), k) == Recent(b, w, k)
  {
    var m := |b|;
    var start := Ring(w - k, m);
    var r := ReadRing(b, start, k);
    assert start == w - k + m;
    assert r == b[start..] + b[..w];
    forall j | 0 <= j < k ensures r[j] == Recent(b, w, k)[j] {
      if j < m - start {
        assert Ring(w - k + j, m) == start + j;
      } else {
        assert Ring(w - k + j, m) == j - (m - start);
      }
    }
  }

  /** The last `max` samples of `data`, as `data[-max:]` keeps them. */
  function Truncated(data: seq<real>, max: int): (r: seq<real>)
    requires max >= 1
    ensures r == Last(data, max)
  {
    if |data| > max then SliceFrom(data, -max) else data
  }

  /** `int(x)`: truncation toward zero. */
  function TruncateToInt(x: real): (r: int)
    ensures x >= 0.0 ==> r == x.Floor
    ensures x < 0.0 ==> r <= 0 && r as real - 1.0 < x <= r as real
  {
    if x >= 0.0 then x.Floor else -((-x).Floor)
  }

  /** The `k` newest samples are the last `k` frames written. */
  lemma FramesWindow(b: seq<real>, w: int, written: seq<real>, numFrames: int)
    requires 0 <= w < |b|
    requires Recent(b, w, Min(|written|, |b|)) == Last(written, |b|)
    requires numFrames >= 0
    ensures Recent(b, w, Min(numFrames, Min(|written|, |b|))) == Last(written, Min(numFrames, |b|))
  {
    RecentSuffix(b, w, Min(|written|, |b|), Min(numFrames, Min(|written|, |b|)));
  }

  /** `_get_frames` starts its read `k` cells behind the write position. */
  lemma FramesRead(b: seq<real>, w: int, k: int)
    requires 0 <= w < |b| && 1 <= k <= |b|
    ensures ReadRing(b, (w - k) % |b|, k) == Recent(b, w, k)
  {
    RingMod(w - k, |b|);
    ReadRingRecent(b, w, k);
  }

  class AudioBuffer {
    const sampleRate: int
    const maxFrames: int
    const buffer: array<real>
    var writeIndex: int
    var totalFramesWritten: int
    /** Every sample stored since the last clear, in write order. */
    ghost var written: seq<real>

    /** The ring holds the most recent samples of `written`, oldest first,
        ending just before the write index. */
    ghost predicate Valid()
      reads this, buffer
    {
      buffer.Length == maxFrames >= 1 && sampleRate != 0
      && 0 <= writeIndex < maxFrames
      && totalFramesWritten == |written|
      && Recent(buffer[..], writeIndex, Min(|written|, maxFrames)) == Last(written, maxFrames)
    }

    /** `AudioBuffer(max_seconds, sample_rate)`; a ring of no frames cannot be
        written (`put` would divide by zero), so at least one frame is required. */
    constructor(maxSeconds: int, sampleRate: int)
      requires maxSeconds * sampleRate >= 1
      ensures Valid() && fresh(buffer)
      ensures this.sampleRate == sampleRate && maxFrames == maxSeconds * sampleRate
      ensures buffer[..] == seq(maxFrames, _ => 0.0)
      ensures writeIndex == 0 && totalFramesWritten == 0 && written == []
    {
      this.sampleRate := sampleRate;
      maxFrames := maxSeconds * sampleRate;
      buffer := new real[maxSeconds * sampleRate](_ => 0.0);
      writeIndex := 0;
      totalFramesWritten := 0;
      written := [];
    }

    /** `put`: keep the last `maxFrames` samples of `data`, write them at the
        write index with wrap-around, and advance the index and the count. */
    method Put(data: seq<real>)
      requires Valid()
      modifies this, buffer
      ensures Valid()
      ensures var d := Last(data, maxFrames);
        buffer[..] == WriteAt(old(buffer[..]), old(writeIndex), d)
        && writeIndex == (old(writeIndex) + |d|) % maxFrames
        && totalFramesWritten == old(totalFramesWritten) + |d|
        && written == old(written) + d
    {
      var d := data;
      var n := |d|;
      if n > maxFrames {
        d := SliceFrom(data, -maxFrames);
        n := maxFrames;
      }
      assert d == Truncated(data, maxFrames);
      ghost var b := buffer[..];
      ghost var w := writeIndex;
      WindowAfterPut(b, w, written, d, maxFrames);
      RingMod(w + n, maxFrames);
      WriteRing(d);
      writeIndex := (writeIndex + n) % maxFrames;
      totalFramesWritten := totalFramesWritten + n;
      written := written + d;
      assert writeIndex == Ring(w + n, maxFrames);
      assert buffer[..] == WriteAt(b, w, d);
    }

    /** The slice assignments of `put`: the samples fill the cells from the
        write index to the end of the array, and the rest go to the start. */
    method WriteRing(d: seq<real>)
      requires buffer.Length == maxFrames && 0 <= writeIndex < maxFrames && |d| <= maxFrames
      modifies buffer
      ensures buffer[..] == WriteAt(old(buffer[..]), writeIndex, d)
    {
      ghost var b := buffer[..];
      var n := |d|;
      var endSpace := maxFrames - writeIndex;
      if n <= endSpace {
        forall i | writeIndex <= i < writeIndex + n {
          buffer[i] := d[i - writeIndex];
        }
        forall i | 0 <= i < maxFrames ensures buffer[i] == WriteAt(b, writeIndex, d)[i] {
          var offset := Ring(i - writeIndex, maxFrames);
          assert WriteAt(b, writeIndex, d)[i] == if offset < n then d[offset] else b[i];
          if i < writeIndex {
            assert offset == i + endSpace;
            assert buffer[i] == b[i];
          } else if i < writeIndex + n {
            assert buffer[i] == d[offset];
          } else {
            assert buffer[i] == b[i];
          }
        }
      } else {
        forall i | writeIndex <= i < maxFrames {
          buffer[i] := d[i - writeIndex];
        }
        ghost var mid := buffer[..];
        forall i | 0 <= i < n - endSpace {
          buffer[i] := d[endSpace + i];
        }
        forall i | 0 <= i < maxFrames ensures buffer[i] == WriteAt(b, writeIndex, d)[i] {
          var offset := Ring(i - writeIndex, maxFrames);
          assert WriteAt(b, writeIndex, d)[i] == if offset < n then d[offset] else b[i];
          if i < writeIndex {
            assert offset == i + endSpace;
            if i >= n - endSpace {
              assert buffer[i] == mid[i] == b[i];
            } else {
              assert buffer[i] == d[offset];
            }
          } else {
            assert buffer[i] == mid[i] == d[offset];
          }
        }
      }
    }

    /** `_get_frames(num_frames)`: the most recent `min(num_frames, total,
        maxFrames)` samples in write order, read from one or two slices. */
    method GetFrames(numFrames: int) returns (r: seq<real>)
      requires Valid()
      ensures numFrames >= 0 ==>
        r == Recent(buffer[..], writeIndex, Min(numFrames, Min(totalFramesWritten, maxFrames)))
      ensures numFrames >= 0 ==> r == Last(written, Min(numFrames, maxFrames))
    {
      var available := Min(totalFramesWritten, maxFrames);
      var framesToGet := Min(numFrames, available);
      if framesToGet == 0 {
        return [];
      }
      if numFrames >= 0 {
        FramesWindow(buffer[..], writeIndex, written, numFrames);
        FramesRead(buffer[..], writeIndex, framesToGet);
      }
      var startIndex := (writeIndex - framesToGet) % maxFrames;
      r := ReadRing(buffer[..], startIndex, framesToGet);
    }

    /** `get_last_n_seconds`: the frames of the last `seconds` at the sample rate. */
    method GetLastNSeconds(seconds: real) returns (r: seq<real>)
      requires Valid()
      ensures seconds * sampleRate as real >= 0.0 ==>
        r == Last(written, Min((seconds * sampleRate as real).Floor, maxFrames))
    {
      r := GetFrames(TruncateToInt(seconds * sampleRate as real));
    }

    /** `clear`: zero every cell and reset the index and the count. */
    method Clear()
      requires Valid()
      modifies this, buffer
      ensures Valid()
      ensures buffer[..] == seq(maxFrames, _ => 0.0)
      ensures writeIndex == 0 && totalFramesWritten == 0 && written == []
    {
      forall i | 0 <= i < buffer.Length {
        buffer[i] := 0.0;
      }
      writeIndex := 0;
      totalFramesWritten := 0;
      written := [];
    }

    /** `get_duration`: the seconds of audio the ring holds. */
    function Duration(): (r: real)
      requires Valid()
      reads this, buffer
      ensures r * sampleRate as real == Min(totalFramesWritten, maxFrames) as real
      ensures sampleRate > 0 ==> 0.0 <= r <= maxFrames as real / sampleRate as real
    {
      Min(totalFramesWritten, maxFrames) as real / sampleRate as real
    }
  }

  /** `Last` of an appended sequence: the appended part comes whole when it fits. */
  lemma LastAppend(s: seq<real>, d: seq<real>, m: int)
    requires 0 <= |d| <= m
    ensures Last(s + d, m) == Last(s, m - |d|) + d
  {
    var k := Min(m - |d|, |s|);
    assert (s + d)[|s + d| - (k + |d|)..] == s[|s| - k..] + d;
  }

  /** Before a put of `n` samples, the window's newest cells are the last
      samples written. */
  lemma WindowShrink(b: seq<real>, w: int, written: seq<real>, m: int, n: int)
    requires |b| == m >= 1 && 0 <= w < m && 0 <= n <= m
    requires Recent(b, w, Min(|written|, m)) == Last(written, m)
    ensures Recent(b, w, Min(|written| + n, m) - n) == Last(written, m - n)
  {
    var h := Min(|written|, m);
    var k := Min(|written| + n, m) - n;
    RecentSuffix(b, w, h, k);
    assert Last(written, m)[h - k..] == Last(written, m - n);
  }

  /** A put keeps the ring's window equal to the last `m` samples written. */
  lemma WindowAfterPut(b: seq<real>, w: int, written: seq<real>, d: seq<real>, m: int)
    requires |b| == m >= 1 && 0 <= w < m && |d| <= m
    requires Recent(b, w, Min(|written|, m)) == Last(written, m)
    ensures Recent(WriteAt(b, w, d), Ring(w + |d|, m), Min(|written + d|, m)) == Last(written + d, m)
  {
    var n := |d|;
    assert |written + d| == |written| + n;
    RecentAfterWrite(b, w, d, Min(|written| + n, m));
    WindowShrink(b, w, written, m, n);
    LastAppend(written, d, m);
  }
}
