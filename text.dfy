/** String operations of Python's `str` that the modelled code relies on:
    `lower`, `in`, `startswith`, `split`, `join`, `strip` and `str(int)`. */
module Text {

  /** Python's `str.lower` restricted to ASCII letters. */
  function LowerChar(c: char): char {
    if 'A' <= c <= 'Z' then (c as int + 32) as char else c
  }

  function Lower(s: string): (r: string)
    ensures |r| == |s|
    ensures forall i :: 0 <= i < |s| ==> r[i] == LowerChar(s[i])
  {
    seq(|s|, i requires 0 <= i < |s| => LowerChar(s[i]))
  }

  lemma LowerAppend(a: string, b: string)
    ensures Lower(a + b) == Lower(a) + Lower(b)
  {
  }

  predicate StartsWith(s: string, prefix: string) {
    |prefix| <= |s| && s[..|prefix|] == prefix
  }

  predicate EndsWith(s: string, suffix: string) {
    |suffix| <= |s| && s[|s| - |suffix|..] == suffix
  }

  /** `sub` occurs in `s` starting at index `i`. */
  predicate OccursAt(s: string, sub: string, i: int) {
    0 <= i && i + |sub| <= |s| && s[i..i + |sub|] == sub
  }

  /** Python's `sub in s`. */
  predicate Contains(s: string, sub: string) {
    exists i :: 0 <= i <= |s| && OccursAt(s, sub, i)
  }

  /** Python's case-insensitive `needle.lower() in hay.lower()`. */
  predicate ContainsIgnoreCase(hay: string, needle: string) {
    Contains(Lower(hay), Lower(needle))
  }

  lemma ContainsAt(s: string, sub: string, i: int)
    requires OccursAt(s, sub, i)
    ensures Contains(s, sub)
  {
  }

  lemma ContainsInfix(a: string, sub: string, b: string)
    ensures Contains(a + sub + b, sub)
  {
    assert (a + sub + b)[|a|..|a| + |sub|] == sub;
    ContainsAt(a + sub + b, sub, |a|);
  }

  lemma ContainsLeft(a: string, b: string, sub: string)
    requires Contains(a, sub)
    ensures Contains(a + b, sub)
  {
    var i :| 0 <= i <= |a| && OccursAt(a, sub, i);
    assert (a + b)[i..i + |sub|] == a[i..i + |sub|];
    ContainsAt(a + b, sub, i);
  }

  lemma ContainsRight(a: string, b: string, sub: string)
    requires Contains(b, sub)
    ensures Contains(a + b, sub)
  {
    var i :| 0 <= i <= |b| && OccursAt(b, sub, i);
    assert (a + b)[|a| + i..|a| + i + |sub|] == b[i..i + |sub|];
    ContainsAt(a + b, sub, |a| + i);
  }

  /** An occurrence of `a + b` holds an occurrence of each part. */
  lemma OccursParts(s: string, a: string, b: string, i: int)
    requires OccursAt(s, a + b, i)
    ensures OccursAt(s, a, i) && OccursAt(s, b, i + |a|)
  {
    assert s[i..i + |a|] == (a + b)[..|a|];
    assert s[i + |a|..i + |a| + |b|] == (a + b)[|a|..];
  }

  /** A prefix always occurs at index 0. */
  lemma StartsWithContains(s: string, prefix: string)
    requires StartsWith(s, prefix)
    ensures Contains(s, prefix)
  {
    ContainsAt(s, prefix, 0);
  }

  /** Python's `str.isspace` on one character, the set `str.strip()` removes. */
  predicate IsSpace(c: char) {
    c == ' ' || c == '\t' || c == '\n' || c == '\r' || c == '\U{0B}' || c == '\U{0C}'
    || ('\U{1C}' <= c <= '\U{1F}') || c == '\U{85}' || c == '\U{A0}' || c == '\U{1680}'
    || ('\U{2000}' <= c <= '\U{200A}') || c == '\U{2028}' || c == '\U{2029}'
    || c == '\U{202F}' || c == '\U{205F}' || c == '\U{3000}'
  }

  /** Python's `s.lstrip()`. */
  function StripLeft(s: string): (r: string)
    ensures r == [] || !IsSpace(r[0])
    ensures |r| <= |s| && r == s[|s| - |r|..]
    ensures forall k :: 0 <= k < |s| - |r| ==> IsSpace(s[k])
  {
    if s != [] && IsSpace(s[0]) then StripLeft(s[1..]) else s
  }

  /** Python's `s.rstrip()`. */
  function StripRight(s: string): (r: string)
    ensures r == [] || !IsSpace(r[|r| - 1])
    ensures |r| <= |s| && r == s[..|r|]
    ensures forall k :: |r| <= k < |s| ==> IsSpace(s[k])
  {
    if s != [] && IsSpace(s[|s| - 1]) then StripRight(s[..|s| - 1]) else s
  }

  /** Python's `s.strip()`. */
  function Strip(s: string): (r: string)
    ensures r == [] || (!IsSpace(r[0]) && !IsSpace(r[|r| - 1]))
  {
    StripRight(StripLeft(s))
  }

  /** Stripping keeps every occurrence of a text that neither starts nor ends
      with white space. */
  lemma {:induction false} StripKeepsContains(s: string, sub: string)
    requires Contains(s, sub) && sub != []
    requires !IsSpace(sub[0]) && !IsSpace(sub[|sub| - 1])
    ensures Contains(Strip(s), sub)
  {
    StripLeftKeepsContains(s, sub);
    StripRightKeepsContains(StripLeft(s), sub);
  }

  lemma StripLeftKeepsContains(s: string, sub: string)
    requires Contains(s, sub) && sub != [] && !IsSpace(sub[0])
    ensures Contains(StripLeft(s), sub)
  {
    var i :| 0 <= i <= |s| && OccursAt(s, sub, i);
    var l := StripLeft(s);
    SpacePrefixKeepsOccurrence(s, |s| - |l|, sub, i);
  }

  /** Dropping leading white space keeps an occurrence that does not start
      with white space. */
  lemma SpacePrefixKeepsOccurrence(s: string, d: nat, sub: string, i: nat)
    requires d <= |s| && forall k :: 0 <= k < d ==> IsSpace(s[k])
    requires OccursAt(s, sub, i) && sub != [] && !IsSpace(sub[0])
    ensures Contains(s[d..], sub)
  {
    assert s[i] == sub[0] by {
      assert s[i..i + |sub|][0] == s[i];
    }
    SliceOfSuffix(s, d, i, i + |sub|);
    ContainsAt(s[d..], sub, i - d);
  }

  /** A slice of a suffix is the same slice of the whole, shifted. */
  lemma SliceOfSuffix(s: string, d: nat, i: nat, j: nat)
    requires d <= i <= j <= |s|
    ensures s[d..][i - d..j - d] == s[i..j]
  {
  }

  lemma StripRightKeepsContains(s: string, sub: string)
    requires Contains(s, sub) && sub != [] && !IsSpace(sub[|sub| - 1])
    ensures Contains(StripRight(s), sub)
  {
    var i :| 0 <= i <= |s| && OccursAt(s, sub, i);
    var r := StripRight(s);
    assert s[i + |sub| - 1] == sub[|sub| - 1] by {
      assert s[i..i + |sub|][|sub| - 1] == s[i + |sub| - 1];
    }
    assert i + |sub| <= |r|;
    assert r[i..i + |sub|] == s[i..i + |sub|];
    ContainsAt(r, sub, i);
  }

  /** A text with a character that is not white space does not strip to nothing. */
  lemma StripKeepsNonSpace(s: string, j: nat)
    requires j < |s| && !IsSpace(s[j])
    ensures Strip(s) != []
  {
    var l := StripLeft(s);
    var d := |s| - |l|;
    assert j >= d;
    assert l[j - d] == s[j];
  }

  /** Stripping keeps a prefix that starts with a non-space character. */
  lemma StripKeepsPrefix(p: string, s: string)
    requires p != [] && !IsSpace(p[0])
    ensures Strip(p + s) == StripRight(p + s)
  {
  }

  /** Stripping only removes text, so it brings in no new occurrence. */
  lemma StripContainsOnly(s: string, sub: string)
    ensures Contains(Strip(s), sub) ==> Contains(s, sub)
  {
    var d := StripIsSlice(s);
    if Contains(Strip(s), sub) {
      SliceContainsOnly(s, d, d + |Strip(s)|, sub);
    }
  }

  /** The stripped text is a slice of the text. */
  lemma StripIsSlice(s: string) returns (d: nat)
    ensures d + |Strip(s)| <= |s| && Strip(s) == s[d..d + |Strip(s)|]
  {
    var l := StripLeft(s);
    var r := StripRight(l);
    d := |s| - |l|;
    SliceOfSlice(s, d, |s|, 0, |r|);
  }

  lemma SliceOfSlice(s: string, d: nat, e: nat, i: nat, j: nat)
    requires d <= e <= |s| && i <= j <= e - d
    ensures s[d..e][i..j] == s[d + i..d + j]
  {
    assert forall k :: 0 <= k < j - i ==> s[d..e][i..j][k] == s[d + i + k];
  }

  /** An occurrence in a slice is an occurrence in the whole text. */
  lemma SliceContainsOnly(s: string, d: nat, e: nat, sub: string)
    requires d <= e <= |s| && Contains(s[d..e], sub)
    ensures Contains(s, sub)
  {
    var i :| 0 <= i <= e - d && OccursAt(s[d..e], sub, i);
    SliceOfSlice(s, d, e, i, i + |sub|);
    ContainsAt(s, sub, d + i);
  }

  /** Stripping on the right keeps a prefix that ends with a non-space character. */
  lemma StripRightKeepsPrefix(p: string, s: string)
    requires p != [] && !IsSpace(p[|p| - 1])
    ensures StartsWith(StripRight(p + s), p)
  {
    var r := StripRight(p + s);
    assert (p + s)[|p| - 1] == p[|p| - 1];
    assert |r| >= |p|;
    assert r[..|p|] == (p + s)[..|p|] == p;
  }

  /** Python's `s.split(c)` for a one-character separator. */
  function SplitChar(s: string, c: char): (parts: seq<string>)
    ensures |parts| >= 1
    ensures forall k :: 0 <= k < |parts| ==> c !in parts[k]
  {
    if s == [] then [""]
    else
      var rest := SplitChar(s[1..], c);
      if s[0] == c then [""] + rest
      else [[s[0]] + rest[0]] + rest[1..]
  }

  /** Python's `c.join(parts)` for a one-character separator. */
  function JoinChar(parts: seq<string>, c: char): string {
    if parts == [] then ""
    else if |parts| == 1 then parts[0]
    else parts[0] + [c] + JoinChar(parts[1..], c)
  }

  /** Splitting and joining again gives back the text. */
  lemma {:induction false} JoinSplitChar(s: string, c: char)
    ensures JoinChar(SplitChar(s, c), c) == s
  {
    if s != [] {
      JoinSplitChar(s[1..], c);
      var rest := SplitChar(s[1..], c);
      if s[0] != c {
        if |rest| > 1 {
          assert ([[s[0]] + rest[0]] + rest[1..])[1..] == rest[1..];
          assert JoinChar(rest, c) == rest[0] + [c] + JoinChar(rest[1..], c);
        }
      }
    }
  }

  /** Joining parts free of the separator and splitting again gives back the parts. */
  lemma {:induction false} SplitJoinChar(parts: seq<string>, c: char)
    requires |parts| >= 1
    requires forall k :: 0 <= k < |parts| ==> c !in parts[k]
    ensures SplitChar(JoinChar(parts, c), c) == parts
  {
    if |parts| == 1 {
      SplitNoSeparator(parts[0], c);
    } else {
      SplitJoinChar(parts[1..], c);
      SplitPrefixed(parts[0], JoinChar(parts[1..], c), c);
    }
  }

  lemma {:induction false} SplitNoSeparator(s: string, c: char)
    requires c !in s
    ensures SplitChar(s, c) == [s]
  {
    if s != [] {
      assert s[0] in s;
      SplitNoSeparator(s[1..], c);
      assert [s[0]] + s[1..] == s;
    }
  }

  lemma {:induction false} SplitPrefixed(p: string, rest: string, c: char)
    requires c !in p
    ensures SplitChar(p + [c] + rest, c) == [p] + SplitChar(rest, c)
  {
    if p == [] {
      assert p + [c] + rest == [c] + rest;
      assert ([c] + rest)[1..] == rest;
    } else {
      assert (p + [c] + rest)[1..] == p[1..] + [c] + rest;
      SplitPrefixed(p[1..], rest, c);
      assert [p[0]] + p[1..] == p;
    }
  }

  /** The last part of a split is what follows the last separator. */
  lemma {:induction false} SplitLastPart(s: string, c: char, e: string)
    requires c !in e
    ensures var parts := SplitChar(s + [c] + e, c);
      |parts| >= 2 && parts[|parts| - 1] == e
  {
    if s == [] {
      assert s + [c] + e == [c] + e;
      assert ([c] + e)[1..] == e;
      SplitNoSeparator(e, c);
    } else {
      assert (s + [c] + e)[0] == s[0];
      assert (s + [c] + e)[1..] == s[1..] + [c] + e;
      SplitLastPart(s[1..], c, e);
    }
  }

  /** Python's `s.split(sep)` for a non-empty separator: cut at the leftmost
      occurrence and continue after it. */
  function SplitOn(s: string, sep: string): (parts: seq<string>)
    requires sep != []
    ensures |parts| >= 1
    decreases |s|
  {
    if |s| < |sep| then [s]
    else if s[..|sep|] == sep then [""] + SplitOn(s[|sep|..], sep)
    else
      var rest := SplitOn(s[1..], sep);
      [[s[0]] + rest[0]] + rest[1..]
  }

  /** Python's `sep.join(parts)`. */
  function JoinOn(parts: seq<string>, sep: string): string {
    if parts == [] then ""
    else if |parts| == 1 then parts[0]
    else parts[0] + sep + JoinOn(parts[1..], sep)
  }

  /** Splitting on a separator and joining with it gives back the text. */
  lemma {:induction false} JoinSplitOn(s: string, sep: string)
    requires sep != []
    ensures JoinOn(SplitOn(s, sep), sep) == s
    decreases |s|
  {
    if |s| < |sep| {
    } else if s[..|sep|] == sep {
      JoinSplitOn(s[|sep|..], sep);
      JoinOnEmptyFirst(SplitOn(s[|sep|..], sep), sep);
      assert s == s[..|sep|] + s[|sep|..];
    } else {
      JoinSplitOn(s[1..], sep);
      JoinOnExtendFirst(s[0], SplitOn(s[1..], sep), sep);
      assert s == [s[0]] + s[1..];
    }
  }

  lemma JoinOnEmptyFirst(rest: seq<string>, sep: string)
    requires rest != []
    ensures JoinOn([""] + rest, sep) == sep + JoinOn(rest, sep)
  {
    assert ([""] + rest)[1..] == rest;
  }

  lemma JoinOnExtendFirst(c: char, rest: seq<string>, sep: string)
    requires rest != []
    ensures JoinOn([[c] + rest[0]] + rest[1..], sep) == [c] + JoinOn(rest, sep)
  {
    if |rest| > 1 {
      assert ([[c] + rest[0]] + rest[1..])[1..] == rest[1..];
    }
  }

  /** Python's `str(n)` for a natural number. */
  function NatToString(n: nat): (r: string)
    ensures |r| >= 1
    ensures forall k :: 0 <= k < |r| ==> '0' <= r[k] <= '9'
  {
    var d := ['0', '1', '2', '3', '4', '5', '6', '7', '8', '9'][n % 10];
    if n < 10 then [d] else NatToString(n / 10) + [d]
  }

  /** Python's `str(i)` for an integer. */
  function IntToString(i: int): string {
    if i < 0 then "-" + NatToString(-i) else NatToString(i)
  }

  /** Python's `s[:n]` for `n >= 0`. */
  function Take<T>(s: seq<T>, n: nat): (r: seq<T>)
    ensures |r| <= n && |r| <= |s| && r == s[..|r|]
    ensures |s| >= n ==> |r| == n
  {
    if |s| <= n then s else s[..n]
  }
  /** The position of the first `c` in `s`. */
  function IndexOfChar(s: string, c: char): (i: nat)
    requires c in s
    ensures i < |s| && s[i] == c && c !in s[..i]
  {
    if s[0] == c then 0
    else
      assert c in s[1..] by { assert s == [s[0]] + s[1..]; }
      var j := IndexOfChar(s[1..], c);
      assert s[..j + 1] == [s[0]] + s[1..][..j];
      j + 1
  }

  /** Python's `s.split(c, 1)[1]`: the text after the first `c`. */
  function AfterFirst(s: string, c: char): (r: string)
    requires c in s
    ensures |r| < |s| && r == s[|s| - |r|..] && s[|s| - |r| - 1] == c
    ensures c !in s[..|s| - |r| - 1]
  {
    s[IndexOfChar(s, c) + 1..]
  }

  /** After a head free of `c`, the first `c` ends the head. */
  lemma {:induction false} AfterFirstPrefix(head: string, c: char, rest: string)
    requires c !in head
    ensures c in head + [c] + rest
    ensures AfterFirst(head + [c] + rest, c) == rest
  {
    var s := head + [c] + rest;
    assert s[|head|] == c;
    if head != [] {
      assert s[1..] == head[1..] + [c] + rest;
      AfterFirstPrefix(head[1..], c, rest);
    }
  }
}
