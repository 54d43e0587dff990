/** The fragment of Python's `re` that the classifier tables use, searched
    with `re.IGNORECASE`, case folded on ASCII letters only: literal characters, `.*` (any run of characters
    other than a newline), `\d+` (one or more decimal digits) and a group of
    literal alternatives such as `(y|ies)`. */
module Patterns {
  import opened Text

  datatype Token =
    | Lit(c: char)              // one literal character, compared ignoring case
    | AnyRun                    // `.*`
    | Digits                    // `\d+`
    | Alt(options: seq<string>) // `(a|b|...)` with literal alternatives

  type Pattern = seq<Token>

  /** A literal text as a pattern. */
  function Lits(w: string): (p: Pattern)
    ensures |p| == |w|
    ensures forall i :: 0 <= i < |w| ==> p[i] == Lit(w[i])
  {
    seq(|w|, i requires 0 <= i < |w| => Lit(w[i]))
  }

  /** `\d`, on ASCII digits only. */
  predicate IsDigit(c: char) {
    '0' <= c <= '9'
  }

  predicate SameIgnoringCase(a: char, b: char) {
    LowerChar(a) == LowerChar(b)
  }

  /** `s` starts with `w`, ignoring case. */
  predicate PrefixIgnoringCase(w: string, s: string) {
    |w| <= |s| && Lower(s[..|w|]) == Lower(w)
  }

  /** `re.match`: the pattern matches some prefix of `s`. */
  function Match(p: Pattern, s: string): bool
    decreases |p|, |s|, 1, 0
  {
    if p == [] then true
    else match p[0]
      case Lit(c) => s != [] && SameIgnoringCase(s[0], c) && Match(p[1..], s[1..])
      case AnyRun => Match(p[1..], s) || (s != [] && s[0] != '\n' && Match(p, s[1..]))
      case Digits =>
        s != [] && IsDigit(s[0]) && (Match(p[1..], s[1..]) || Match(p, s[1..]))
      case Alt(options) => MatchAlt(options, p, s)
  }

  /** Some alternative of the group at the head of `p` matches, followed by the rest of `p`. */
  function MatchAlt(options: seq<string>, p: Pattern, s: string): bool
    requires p != []
    decreases |p|, |s|, 0, |options|
  {
    if options == [] then false
    else
      (PrefixIgnoringCase(options[0], s) && Match(p[1..], s[|options[0]|..]))
      || MatchAlt(options[1..], p, s)
  }

  /** `re.search`: the pattern matches at some offset of `s`. */
  function Search(p: Pattern, s: string): bool
    decreases |s|
  {
    Match(p, s) || (s != [] && Search(p, s[1..]))
  }

  /** Searching means matching at some offset. */
  lemma {:induction false} SearchAt(p: Pattern, s: string)
    ensures Search(p, s) <==> exists i :: 0 <= i <= |s| && Match(p, s[i..])
    decreases |s|
  {
    assert s[0..] == s;
    if s != [] {
      SearchAt(p, s[1..]);
      if Search(p, s[1..]) {
        var i :| 0 <= i <= |s[1..]| && Match(p, s[1..][i..]);
        assert s[1..][i..] == s[i + 1..];
      }
      if exists i :: 0 <= i <= |s| && Match(p, s[i..]) {
        var i :| 0 <= i <= |s| && Match(p, s[i..]);
        if i > 0 {
          assert s[1..][i - 1..] == s[i..];
          assert 0 <= i - 1 <= |s[1..]| && Match(p, s[1..][i - 1..]);
        }
      }
    }
  }

  /** A literal head matches exactly the text that starts with it, ignoring case. */
  lemma {:induction false} MatchLits(w: string, rest: Pattern, s: string)
    ensures Match(Lits(w) + rest, s) <==> PrefixIgnoringCase(w, s) && Match(rest, s[|w|..])
    decreases |w|
  {
    if w == [] {
      assert Lits(w) + rest == rest;
    } else {
      var p := Lits(w) + rest;
      assert p[0] == Lit(w[0]);
      assert p[1..] == Lits(w[1..]) + rest;
      if s != [] {
        MatchLits(w[1..], rest, s[1..]);
        if |w| <= |s| {
          assert s[1..][|w| - 1..] == s[|w|..];
          assert Lower(s[..|w|]) == [LowerChar(s[0])] + Lower(s[1..][..|w| - 1]);
          assert Lower(w) == [LowerChar(w[0])] + Lower(w[1..]);
        }
      }
    }
  }

  /** A purely literal pattern is found exactly when its text occurs in the
      message, both lowered. */
  lemma SearchLiteral(w: string, s: string)
    ensures Search(Lits(w), s) <==> ContainsIgnoreCase(s, w)
  {
    SearchAt(Lits(w), s);
    assert Lits(w) + [] == Lits(w);
    forall i | 0 <= i <= |s|
      ensures Match(Lits(w), s[i..]) <==> OccursAt(Lower(s), Lower(w), i)
    {
      MatchLits(w, [], s[i..]);
      if i + |w| <= |s| {
        assert s[i..][..|w|] == s[i..i + |w|];
        assert Lower(s)[i..i + |w|] == Lower(s[i..i + |w|]);
      }
    }
  }

  /** A pattern that starts with a literal text is only found in messages
      containing that text. */
  lemma SearchNeedsLiteral(w: string, rest: Pattern, s: string)
    requires Search(Lits(w) + rest, s)
    ensures ContainsIgnoreCase(s, w)
  {
    SearchAt(Lits(w) + rest, s);
    var i :| 0 <= i <= |s| && Match(Lits(w) + rest, s[i..]);
    MatchLits(w, rest, s[i..]);
    assert s[i..][..|w|] == s[i..i + |w|];
    assert Lower(s)[i..i + |w|] == Lower(s[i..i + |w|]);
    assert OccursAt(Lower(s), Lower(w), i);
  }

  /** `s` has a character equal to `c` ignoring case. */
  predicate HasCharLike(s: string, c: char) {
    exists k :: 0 <= k < |s| && SameIgnoringCase(s[k], c)
  }

  predicate HasDigit(s: string) {
    exists k :: 0 <= k < |s| && IsDigit(s[k])
  }

  /** Every literal character of a matching pattern occurs in the text. */
  lemma {:induction false} MatchNeedsLit(p: Pattern, s: string, j: nat)
    requires Match(p, s) && j < |p| && p[j].Lit?
    ensures HasCharLike(s, p[j].c)
    decreases |p|, |s|
  {
    match p[0]
    case Lit(c) =>
      if j > 0 {
        MatchNeedsLit(p[1..], s[1..], j - 1);
        var k :| 0 <= k < |s[1..]| && SameIgnoringCase(s[1..][k], p[j].c);
        assert SameIgnoringCase(s[k + 1], p[j].c);
      } else {
        assert SameIgnoringCase(s[0], p[j].c);
      }
    case AnyRun =>
      if Match(p[1..], s) {
        MatchNeedsLit(p[1..], s, j - 1);
      } else {
        MatchNeedsLit(p, s[1..], j);
        var k :| 0 <= k < |s[1..]| && SameIgnoringCase(s[1..][k], p[j].c);
        assert SameIgnoringCase(s[k + 1], p[j].c);
      }
    case Digits =>
      if Match(p[1..], s[1..]) {
        MatchNeedsLit(p[1..], s[1..], j - 1);
      } else {
        MatchNeedsLit(p, s[1..], j);
      }
      var k :| 0 <= k < |s[1..]| && SameIgnoringCase(s[1..][k], p[j].c);
      assert SameIgnoringCase(s[k + 1], p[j].c);
    case Alt(options) =>
      var n := MatchAltLength(options, p, s);
      MatchNeedsLit(p[1..], s[n..], j - 1);
      var k :| 0 <= k < |s[n..]| && SameIgnoringCase(s[n..][k], p[j].c);
      assert SameIgnoringCase(s[k + n], p[j].c);
  }

  /** A matching group consumes an alternative's worth of text and leaves the rest of the pattern matching. */
  lemma {:induction false} MatchAltLength(options: seq<string>, p: Pattern, s: string) returns (n: nat)
    requires p != [] && MatchAlt(options, p, s)
    ensures n <= |s| && Match(p[1..], s[n..])
    decreases |options|
  {
    if PrefixIgnoringCase(options[0], s) && Match(p[1..], s[|options[0]|..]) {
      n := |options[0]|;
    } else {
      n := MatchAltLength(options[1..], p, s);
    }
  }

  /** A pattern found in a text needs each of its literal characters in that text. */
  lemma SearchNeedsLit(p: Pattern, s: string, j: nat)
    requires Search(p, s) && j < |p| && p[j].Lit?
    ensures HasCharLike(s, p[j].c)
  {
    SearchAt(p, s);
    var i :| 0 <= i <= |s| && Match(p, s[i..]);
    MatchNeedsLit(p, s[i..], j);
    var k :| 0 <= k < |s[i..]| && SameIgnoringCase(s[i..][k], p[j].c);
    assert SameIgnoringCase(s[i + k], p[j].c);
  }

  /** A matching pattern with a `\d+` needs a digit in the text. */
  lemma {:induction false} MatchNeedsDigit(p: Pattern, s: string, j: nat)
    requires Match(p, s) && j < |p| && p[j].Digits?
    ensures HasDigit(s)
    decreases |p|, |s|
  {
    match p[0]
    case Lit(c) =>
      MatchNeedsDigit(p[1..], s[1..], j - 1);
      var k :| 0 <= k < |s[1..]| && IsDigit(s[1..][k]);
      assert IsDigit(s[k + 1]);
    case AnyRun =>
      if Match(p[1..], s) {
        MatchNeedsDigit(p[1..], s, j - 1);
      } else {
        MatchNeedsDigit(p, s[1..], j);
        var k :| 0 <= k < |s[1..]| && IsDigit(s[1..][k]);
        assert IsDigit(s[k + 1]);
      }
    case Digits =>
      assert IsDigit(s[0]);
    case Alt(options) =>
      var n := MatchAltLength(options, p, s);
      MatchNeedsDigit(p[1..], s[n..], j - 1);
      var k :| 0 <= k < |s[n..]| && IsDigit(s[n..][k]);
      assert IsDigit(s[k + n]);
  }

  lemma SearchNeedsDigit(p: Pattern, s: string, j: nat)
    requires Search(p, s) && j < |p| && p[j].Digits?
    ensures HasDigit(s)
  {
    SearchAt(p, s);
    var i :| 0 <= i <= |s| && Match(p, s[i..]);
    MatchNeedsDigit(p, s[i..], j);
    var k :| 0 <= k < |s[i..]| && IsDigit(s[i..][k]);
    assert IsDigit(s[i + k]);
  }

  /** A pattern with a literal character the text lacks is not found in it. */
  lemma NotFoundWithoutChar(p: Pattern, s: string, j: nat)
    requires j < |p| && p[j].Lit? && !HasCharLike(s, p[j].c)
    ensures !Search(p, s)
  {
    if Search(p, s) {
      SearchNeedsLit(p, s, j);
    }
  }

  /** A pattern with a `\d+` is not found in a text without digits. */
  lemma NotFoundWithoutDigit(p: Pattern, s: string, j: nat)
    requires j < |p| && p[j].Digits? && !HasDigit(s)
    ensures !Search(p, s)
  {
    if Search(p, s) {
      SearchNeedsDigit(p, s, j);
    }
  }
}
