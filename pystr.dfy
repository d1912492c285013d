/** The Python `str` operations the modelled code relies on: `strip`, `split`,
    `join`, `startswith`/`endswith`, substring search, `lower` and `str(int)`. */
module PyStr {

  /** The characters for which Python's `str.isspace()` holds; `str.strip()`
      with no argument removes exactly these from both ends. */
  const Whitespace: set<char> := {
    '\t', '\n', '\U{0B}', '\U{0C}', '\r', '\U{1C}', '\U{1D}', '\U{1E}', '\U{1F}', ' ',
    '\U{85}', '\U{A0}', '\U{1680}', '\U{2000}', '\U{2001}', '\U{2002}', '\U{2003}',
    '\U{2004}', '\U{2005}', '\U{2006}', '\U{2007}', '\U{2008}', '\U{2009}', '\U{200A}',
    '\U{2028}', '\U{2029}', '\U{202F}', '\U{205F}', '\U{3000}'
  }

  /** Removes the leading characters that belong to `cs`. */
  function StripLeft(s: string, cs: set<char>): (r: string)
    ensures |r| <= |s| && r == s[|s| - |r|..]
    ensures forall i | 0 <= i < |s| - |r| :: s[i] in cs
    ensures r != [] ==> r[0] !in cs
  {
    if s != [] && s[0] in cs then StripLeft(s[1..], cs) else s
  }

  /** Removes the trailing characters that belong to `cs`. */
  function StripRight(s: string, cs: set<char>): (r: string)
    ensures |r| <= |s| && r == s[..|r|]
    ensures forall i | |r| <= i < |s| :: s[i] in cs
    ensures r != [] ==> r[|r| - 1] !in cs
  {
    if s != [] && s[|s| - 1] in cs then StripRight(s[..|s| - 1], cs) else s
  }

  /** Python's `s.strip(chars)`. */
  function StripChars(s: string, cs: set<char>): (r: string)
  {
    StripRight(StripLeft(s, cs), cs)
  }

  /** Python's `s.strip()`. */
  function Strip(s: string): (r: string)
  {
    StripChars(s, Whitespace)
  }

  /** The result of stripping is a contiguous part of the input that neither
      begins nor ends with a stripped character, and everything cut off was one. */
  lemma {:induction false} StripCharsCharacterised(s: string, cs: set<char>)
    ensures Trimmed(s, StripChars(s, cs), cs)
    ensures var r := StripChars(s, cs); r != [] ==> r[0] !in cs && r[|r| - 1] !in cs
  {
    var l := StripLeft(s, cs);
    var r := StripRight(l, cs);
    var a := |s| - |l|;
    assert r == StripChars(s, cs);
    assert r == s[a..a + |r|];
    assert forall i | 0 <= i < a :: s[i] in cs;
    forall i | a + |r| <= i < |s| ensures s[i] in cs {
      assert s[i] == l[i - a];
      assert |r| <= i - a < |l|;
    }
    assert OccursAt(s, r, a) && (forall i | 0 <= i < a :: s[i] in cs)
      && (forall i | a + |r| <= i < |s| :: s[i] in cs);
  }

  /** `t` is a contiguous part of `s` and everything around it belongs to `cs`. */
  ghost predicate Trimmed(s: string, t: string, cs: set<char>) {
    exists a :: OccursAt(s, t, a)
      && (forall i | 0 <= i < a :: s[i] in cs)
      && (forall i | a + |t| <= i < |s| :: s[i] in cs)
  }

  /** Trimming twice is trimming once with both sets of characters. */
  lemma TrimmedTrans(s: string, m: string, t: string, cs1: set<char>, cs2: set<char>)
    requires Trimmed(s, m, cs1) && Trimmed(m, t, cs2)
    ensures Trimmed(s, t, cs1 + cs2)
  {
    var a1 :| OccursAt(s, m, a1)
      && (forall i | 0 <= i < a1 :: s[i] in cs1)
      && (forall i | a1 + |m| <= i < |s| :: s[i] in cs1);
    var a2 :| OccursAt(m, t, a2)
      && (forall i | 0 <= i < a2 :: m[i] in cs2)
      && (forall i | a2 + |t| <= i < |m| :: m[i] in cs2);
    forall i | 0 <= i < a1 + a2 ensures s[i] in cs1 + cs2 {
      if i >= a1 {
        assert s[i] == m[i - a1];
      }
    }
    forall i | a1 + a2 + |t| <= i < |s| ensures s[i] in cs1 + cs2 {
      if i < a1 + |m| {
        assert s[i] == m[i - a1];
      }
    }
    forall k | 0 <= k < |t| ensures s[a1 + a2 + k] == t[k] {
      assert s[a1 + a2 + k] == m[a2 + k];
    }
    assert s[a1 + a2..a1 + a2 + |t|] == t;
    assert OccursAt(s, t, a1 + a2);
  }

  /** Stripping one set of characters and then another leaves a contiguous
      part of the input, and everything cut off belongs to one of the two sets. */
  lemma StripCharsTwice(s: string, cs1: set<char>, cs2: set<char>)
    ensures Trimmed(s, StripChars(StripChars(s, cs1), cs2), cs1 + cs2)
  {
    var m := StripChars(s, cs1);
    StripCharsCharacterised(s, cs1);
    StripCharsCharacterised(m, cs2);
    TrimmedTrans(s, m, StripChars(m, cs2), cs1, cs2);
  }

  /** Stripping twice is the same as stripping once. */
  lemma StripCharsIdempotent(s: string, cs: set<char>)
    ensures StripChars(StripChars(s, cs), cs) == StripChars(s, cs)
  {
    var r := StripChars(s, cs);
    StripCharsCharacterised(s, cs);
    if r != [] {
      assert StripLeft(r, cs) == r;
    }
  }

  /** Python's `s.split(sep)` for a one-character separator: always at least one part. */
  function Split(s: string, sep: char): (r: seq<string>)
    ensures |r| >= 1
    ensures forall i | 0 <= i < |r| :: sep !in r[i]
  {
    if s == [] then [[]]
    else
      var rest := Split(s[1..], sep);
      if s[0] == sep then [[]] + rest
      else [[s[0]] + rest[0]] + rest[1..]
  }

  /** Python's `sep.join(parts)`. */
  function Join(parts: seq<string>, sep: string): (r: string)
  {
    if |parts| == 0 then ""
    else if |parts| == 1 then parts[0]
    else parts[0] + sep + Join(parts[1..], sep)
  }

  /** Joining the parts of a split gives back the original string. */
  lemma {:induction false} JoinSplit(s: string, sep: char)
    ensures Join(Split(s, sep), [sep]) == s
  {
    if s != [] {
      JoinSplit(s[1..], sep);
      var rest := Split(s[1..], sep);
      if s[0] != sep {
        if |rest| > 1 {
          assert Join(rest, [sep]) == rest[0] + [sep] + Join(rest[1..], [sep]);
          assert ([s[0]] + rest[0]) + [sep] + Join(rest[1..], [sep]) == [s[0]] + Join(rest, [sep]);
        }
      }
    }
  }

  /** Splitting a join of separator-free parts gives back the parts. */
  lemma {:induction false} SplitJoin(parts: seq<string>, sep: char)
    requires |parts| >= 1
    requires forall i | 0 <= i < |parts| :: sep !in parts[i]
    ensures Split(Join(parts, [sep]), sep) == parts
  {
    if |parts| == 1 {
      SplitNoSeparator(parts[0], sep);
    } else {
      SplitJoin(parts[1..], sep);
      SplitConcat(parts[0], Join(parts[1..], [sep]), sep);
      assert Join(parts, [sep]) == parts[0] + ([sep] + Join(parts[1..], [sep]));
      assert [parts[0]] + parts[1..] == parts;
    }
  }

  lemma {:induction false} SplitNoSeparator(s: string, sep: char)
    requires sep !in s
    ensures Split(s, sep) == [s]
  {
    if s != [] {
      SplitNoSeparator(s[1..], sep);
      assert [s[0]] + s[1..] == s;
    }
  }

  /** Splitting `a + sep + b`, with no separator in `a`, puts `a` first. */
  lemma {:induction false} SplitConcat(a: string, b: string, sep: char)
    requires sep !in a
    ensures Split(a + ([sep] + b), sep) == [a] + Split(b, sep)
  {
    if a == [] {
      assert a + ([sep] + b) == [sep] + b;
      assert ([sep] + b)[1..] == b;
    } else {
      SplitConcat(a[1..], b, sep);
      assert (a + ([sep] + b))[1..] == a[1..] + ([sep] + b);
      assert [a[0]] + a[1..] == a;
    }
  }

  predicate StartsWith(s: string, prefix: string) {
    |prefix| <= |s| && s[..|prefix|] == prefix
  }

  predicate EndsWith(s: string, suffix: string) {
    |suffix| <= |s| && s[|s| - |suffix|..] == suffix
  }

  /** `key` occurs in `s` at position `i`. */
  predicate OccursAt(s: string, key: string, i: int) {
    0 <= i <= |s| - |key| && s[i..i + |key|] == key
  }

  /** Python's `key in s` for strings: `key` occurs as a substring of `s`. */
  predicate Contains(s: string, key: string)
    decreases |s|
  {
    StartsWith(s, key) || (s != [] && Contains(s[1..], key))
  }

  /** `Contains` means an occurrence at some position. */
  lemma {:induction false} ContainsIff(s: string, key: string)
    ensures Contains(s, key) <==> exists i :: OccursAt(s, key, i)
  {
    if StartsWith(s, key) {
      assert OccursAt(s, key, 0);
    }
    if s != [] {
      ContainsIff(s[1..], key);
      if Contains(s[1..], key) {
        var i :| OccursAt(s[1..], key, i);
        assert s[i + 1..i + 1 + |key|] == key;
        assert OccursAt(s, key, i + 1);
      }
      if exists i :: OccursAt(s, key, i) {
        var i :| OccursAt(s, key, i);
        if i > 0 {
          assert s[1..][i - 1..i - 1 + |key|] == key;
          assert OccursAt(s[1..], key, i - 1);
        } else {
          assert StartsWith(s, key);
        }
      }
    } else {
      if exists i :: OccursAt(s, key, i) {
        var i :| OccursAt(s, key, i);
        assert StartsWith(s, key);
      }
    }
  }

  /** A string contains every one of its substrings. */
  lemma ContainsSubstring(a: string, key: string, b: string)
    ensures Contains(a + key + b, key)
  {
    ContainsIff(a + key + b, key);
    assert (a + key + b)[|a|..|a| + |key|] == key;
    assert OccursAt(a + key + b, key, |a|);
  }

  /** Python's `str.lower()` restricted to ASCII letters. */
  function Lower(s: string): (r: string)
    ensures |r| == |s|
  {
    if s == [] then []
    else
      var c := s[0];
      [if 'A' <= c <= 'Z' then (c as int + 32) as char else c] + Lower(s[1..])
  }

  function DigitChar(d: nat): char
    requires d < 10
  {
    ('0' as int + d) as char
  }

  /** Python's `str(n)` for a natural number. */
  function NatToString(n: nat): (r: string)
    ensures |r| >= 1
    ensures forall i | 0 <= i < |r| :: '0' <= r[i] <= '9'
    decreases n
  {
    if n < 10 then [DigitChar(n)] else NatToString(n / 10) + [DigitChar(n % 10)]
  }

  /** Python's `str(i)` for an integer. */
  function IntToString(i: int): (r: string)
    ensures |r| >= 1
  {
    if i < 0 then "-" + NatToString(-i) else NatToString(i)
  }

  /** Python's `int(s)` for a string of decimal digits. */
  function ParseNat(s: string): nat
    requires forall i | 0 <= i < |s| :: '0' <= s[i] <= '9'
  {
    if s == [] then 0 else ParseNat(s[..|s| - 1]) * 10 + (s[|s| - 1] as int - '0' as int)
  }

  /** `int(str(n)) == n`: the decimal rendering loses nothing. */
  lemma {:induction false} ParseNatToString(n: nat)
    ensures ParseNat(NatToString(n)) == n
    decreases n
  {
    if n >= 10 {
      ParseNatToString(n / 10);
      var s := NatToString(n);
      assert s[..|s| - 1] == NatToString(n / 10);
    }
  }

  /** Distinct numbers have distinct renderings. */
  lemma NatToStringInjective(m: nat, n: nat)
    ensures NatToString(m) == NatToString(n) ==> m == n
  {
    ParseNatToString(m);
    ParseNatToString(n);
  }

  /** Distinct integers have distinct renderings: a negative number's starts
      with `-`, a non-negative number's with a digit. */
  lemma IntToStringInjective(m: int, n: int)
    ensures IntToString(m) == IntToString(n) ==> m == n
  {
    if IntToString(m) == IntToString(n) {
      if m < 0 && n < 0 {
        assert NatToString(-m) == IntToString(m)[1..];
        NatToStringInjective(-m, -n);
      } else if m >= 0 && n >= 0 {
        NatToStringInjective(m, n);
      } else {
        assert IntToString(m)[0] == IntToString(n)[0];
      }
    }
  }
}
