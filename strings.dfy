/** The string operations of Rust's `str` that the analyzers rely on, over
    Dafny strings (sequences of Unicode scalar values). */
module Strings {

  predicate StartsWith(s: string, prefix: string) {
    |prefix| <= |s| && s[..|prefix|] == prefix
  }

  predicate EndsWith(s: string, suffix: string) {
    |suffix| <= |s| && s[|s| - |suffix|..] == suffix
  }

  /** `needle` occurs in `s` starting at index `i`. */
  predicate MatchesAt(s: string, needle: string, i: nat) {
    i + |needle| <= |s| && s[i..i + |needle|] == needle
  }

  /** `s.contains(needle)`: some window of `s` equals `needle`. */
  predicate Contains(s: string, needle: string) {
    exists i: nat | i <= |s| :: MatchesAt(s, needle, i)
  }

  lemma StartsWithContains(s: string, prefix: string)
    requires StartsWith(s, prefix)
    ensures Contains(s, prefix)
  {
    assert MatchesAt(s, prefix, 0);
  }

  /** A string holds each of the pieces it is built from. */
  lemma ContainsMiddle(a: string, b: string, c: string)
    ensures Contains(a + b + c, b)
  {
    assert (a + b + c)[|a|..|a| + |b|] == b;
    assert MatchesAt(a + b + c, b, |a|);
  }

  /** A string shorter than `needle` cannot contain it. */
  lemma ShorterNotContains(s: string, needle: string)
    requires |s| < |needle|
    ensures !Contains(s, needle)
  {
  }

  function AsciiLower(c: char): char {
    if 'A' <= c <= 'Z' then (c as int + 32) as char else c
  }

  /** `a.eq_ignore_ascii_case(b)`: equal once ASCII letters are folded to lower case. */
  predicate EqIgnoreAsciiCase(a: string, b: string) {
    |a| == |b| && (a == [] || (AsciiLower(a[0]) == AsciiLower(b[0]) && EqIgnoreAsciiCase(a[1..], b[1..])))
  }

  lemma {:induction false} EqIgnoreAsciiCaseAt(a: string, b: string)
    ensures EqIgnoreAsciiCase(a, b) <==> |a| == |b| && forall i :: 0 <= i < |a| ==> AsciiLower(a[i]) == AsciiLower(b[i])
  {
    if a != [] && |a| == |b| {
      EqIgnoreAsciiCaseAt(a[1..], b[1..]);
      if forall i :: 0 <= i < |a| ==> AsciiLower(a[i]) == AsciiLower(b[i]) {
        assert forall i :: 0 <= i < |a| - 1 ==> AsciiLower(a[1..][i]) == AsciiLower(b[1..][i]) by {
          forall i | 0 <= i < |a| - 1 ensures AsciiLower(a[1..][i]) == AsciiLower(b[1..][i]) {
            assert a[1..][i] == a[i + 1] && b[1..][i] == b[i + 1];
          }
        }
      }
    }
  }

  /** Number of bytes the UTF-8 encoding of `c` takes. */
  function Utf8Width(c: char): nat {
    if c as int < 0x80 then 1
    else if c as int < 0x800 then 2
    else if c as int < 0x1_0000 then 3
    else 4
  }

  /** `s.len()` in Rust: the length of the UTF-8 encoding, in bytes. */
  function Utf8Len(s: string): (n: nat)
    ensures |s| <= n <= 4 * |s|
    ensures (forall i :: 0 <= i < |s| ==> s[i] as int < 0x80) ==> n == |s|
  {
    if s == [] then 0 else Utf8Width(s[0]) + Utf8Len(s[1..])
  }

  /** Number of occurrences of `c` in `s`. */
  function Occurrences(s: string, c: char): nat {
    if s == [] then 0 else (if s[0] == c then 1 else 0) + Occurrences(s[1..], c)
  }

  lemma OccurrencesZero(s: string, c: char)
    ensures Occurrences(s, c) == 0 <==> c !in s
  {
    if s != [] {
      OccurrencesZero(s[1..], c);
      assert s == [s[0]] + s[1..];
    }
  }

  /** `s.split(sep).collect()`: the pieces between separators, always at least one. */
  function Split(s: string, sep: char): (parts: seq<string>)
    ensures |parts| == Occurrences(s, sep) + 1
    ensures forall i :: 0 <= i < |parts| ==> sep !in parts[i]
  {
    if s == [] then [""]
    else
      var rest := Split(s[1..], sep);
      if s[0] == sep then [""] + rest
      else [[s[0]] + rest[0]] + rest[1..]
  }

  /** Joins non-empty `parts` with `sep` between neighbours. */
  function JoinOn(parts: seq<string>, sep: char): string
    requires parts != []
  {
    if |parts| == 1 then parts[0] else parts[0] + [sep] + JoinOn(parts[1..], sep)
  }

  /** Splitting loses nothing: joining the pieces back gives the input. */
  lemma {:induction false} JoinSplit(s: string, sep: char)
    ensures JoinOn(Split(s, sep), sep) == s
  {
    if s != [] {
      var rest := Split(s[1..], sep);
      JoinSplit(s[1..], sep);
      if s[0] == sep {
        assert Split(s, sep)[1..] == rest;
      } else if |rest| == 1 {
        assert JoinOn(Split(s, sep), sep) == [s[0]] + rest[0];
      } else {
        var parts := Split(s, sep);
        assert parts[1..] == rest[1..];
        assert JoinOn(rest, sep) == rest[0] + [sep] + JoinOn(rest[1..], sep);
      }
    }
  }

  /** A string without the separator is a single piece. */
  lemma {:induction false} SplitNoSep(s: string, sep: char)
    requires sep !in s
    ensures Split(s, sep) == [s]
  {
    if s != [] {
      assert sep !in s[1..] by {
        forall i | 0 <= i < |s[1..]| ensures s[1..][i] != sep {
          assert s[1..][i] == s[i + 1];
        }
      }
      SplitNoSep(s[1..], sep);
      assert s == [s[0]] + s[1..];
    }
  }

  /** Text without the separator in front of `rest` joins its first piece. */
  lemma {:induction false} SplitPrefix(a: string, rest: string, sep: char)
    requires sep !in a
    ensures Split(a + rest, sep) == [a + Split(rest, sep)[0]] + Split(rest, sep)[1..]
  {
    if a == [] {
      assert a + rest == rest;
      assert a + Split(rest, sep)[0] == Split(rest, sep)[0];
      assert Split(rest, sep) == [Split(rest, sep)[0]] + Split(rest, sep)[1..];
    } else {
      assert (a + rest)[1..] == a[1..] + rest;
      assert sep !in a[1..] by {
        forall i | 0 <= i < |a[1..]| ensures a[1..][i] != sep {
          assert a[1..][i] == a[i + 1];
        }
      }
      SplitPrefix(a[1..], rest, sep);
      var r := Split(a[1..] + rest, sep);
      assert r[0] == a[1..] + Split(rest, sep)[0];
      assert r[1..] == Split(rest, sep)[1..];
      assert Split(a + rest, sep) == [[a[0]] + r[0]] + r[1..];
      assert [a[0]] + (a[1..] + Split(rest, sep)[0]) == a + Split(rest, sep)[0];
    }
  }

  /** Splitting `a`, the separator and `b` gives back `a` and `b` when
      neither holds the separator. */
  lemma SplitAround(a: string, b: string, sep: char)
    requires sep !in a && sep !in b
    ensures Split(a + [sep] + b, sep) == [a, b]
  {
    SplitNoSep(b, sep);
    assert ([sep] + b)[1..] == b;
    assert Split([sep] + b, sep) == [""] + [b];
    SplitPrefix(a, [sep] + b, sep);
    assert a + [sep] + b == a + ([sep] + b);
    assert a + "" == a;
  }

  /** `count` copies of `unit` back to back. */
  function Repeat(unit: string, count: nat): string {
    if count == 0 then [] else Repeat(unit, count - 1) + unit
  }

  /** `s.trim_end_matches(suffix)`: removes every trailing copy of `suffix`. */
  function TrimEndMatches(s: string, suffix: string): (r: string)
    ensures |r| <= |s| && s[..|r|] == r
    ensures suffix != [] ==> !EndsWith(r, suffix)
    decreases |s|
  {
    if suffix != [] && EndsWith(s, suffix) then TrimEndMatches(s[..|s| - |suffix|], suffix) else s
  }

  /** How many trailing copies of `suffix` `TrimEndMatches` removes from `s`. */
  function TrimmedCopies(s: string, suffix: string): nat
    decreases |s|
  {
    if suffix != [] && EndsWith(s, suffix) then 1 + TrimmedCopies(s[..|s| - |suffix|], suffix) else 0
  }

  /** One more copy of `unit` at the end of `r + Repeat(unit, count)`. */
  lemma RepeatStep(s: string, t: string, r: string, unit: string, count: nat)
    requires s == t + unit && t == r + Repeat(unit, count)
    ensures s == r + Repeat(unit, count + 1)
  {
    var copies := Repeat(unit, count);
    assert Repeat(unit, count + 1) == copies + unit;
    assert (r + copies) + unit == r + (copies + unit);
  }

  /** What `TrimEndMatches` removes is a whole number of copies of the suffix. */
  lemma {:induction false} TrimEndMatchesRemovesCopies(s: string, suffix: string)
    ensures s == TrimEndMatches(s, suffix) + Repeat(suffix, TrimmedCopies(s, suffix))
    decreases |s|
  {
    if suffix != [] && EndsWith(s, suffix) {
      var i := |s| - |suffix|;
      var t := s[..i];
      var r, count := TrimEndMatches(t, suffix), TrimmedCopies(t, suffix);
      assert t == r + Repeat(suffix, count) by {
        TrimEndMatchesRemovesCopies(t, suffix);
      }
      assert TrimEndMatches(s, suffix) == r && TrimmedCopies(s, suffix) == count + 1;
      assert s == t + suffix by {
        assert s[i..] == suffix;
        assert s == s[..i] + s[i..];
      }
      RepeatStep(s, t, r, suffix, count);
    }
  }

  /** Trimming twice is the same as trimming once. */
  lemma TrimEndMatchesIdempotent(s: string, suffix: string)
    ensures TrimEndMatches(TrimEndMatches(s, suffix), suffix) == TrimEndMatches(s, suffix)
  {
  }

  function DigitChar(d: nat): char
    requires d < 10
  {
    ('0' as int + d) as char
  }

  /** Decimal rendering of a natural number, as `format!("{}", n)` prints it. */
  function NatToString(n: nat): (r: string)
    ensures |r| >= 1
    ensures forall i :: 0 <= i < |r| ==> '0' <= r[i] <= '9'
  {
    if n < 10 then [DigitChar(n)] else NatToString(n / 10) + [DigitChar(n % 10)]
  }

  /** Decimal rendering of an integer, with a leading '-' when negative. */
  function IntToString(i: int): string {
    if i < 0 then "-" + NatToString(-i) else NatToString(i)
  }

  /** `parts.join(sep)`. */
  function JoinWith(parts: seq<string>, sep: string): string {
    if parts == [] then ""
    else if |parts| == 1 then parts[0]
    else parts[0] + sep + JoinWith(parts[1..], sep)
  }
}
