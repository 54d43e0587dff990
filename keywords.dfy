/** The keyword score both response validators use: how many entries of a
    keyword list occur, as substrings, in the lowercased response. */
module Keywords {
  import opened Text

  /** `sum(1 for keyword in keywords if keyword in lowered)`. */
  function Found(lowered: string, keywords: seq<string>): (n: nat)
    ensures n <= |keywords|
  {
    if keywords == [] then 0
    else (if Contains(lowered, keywords[0]) then 1 else 0) + Found(lowered, keywords[1..])
  }

  /** The keywords of the list that occur in `lowered`. */
  function Matched(lowered: string, keywords: seq<string>): (m: set<string>)
    ensures forall k :: k in m <==> k in keywords && Contains(lowered, k)
  {
    set k | k in keywords && Contains(lowered, k)
  }

  predicate Distinct(keywords: seq<string>) {
    forall i, j :: 0 <= i < j < |keywords| ==> keywords[i] != keywords[j]
  }

  /** Each keyword of a list without repeats counts once, however often it
      occurs: the score is the number of distinct keywords present. */
  lemma {:induction false} FoundCountsDistinct(lowered: string, keywords: seq<string>)
    requires Distinct(keywords)
    ensures Found(lowered, keywords) == |Matched(lowered, keywords)|
  {
    if keywords != [] {
      var k := keywords[0];
      var rest := keywords[1..];
      assert Distinct(rest) by {
        forall i, j | 0 <= i < j < |rest| ensures rest[i] != rest[j] {
          assert rest[i] == keywords[i + 1] && rest[j] == keywords[j + 1];
        }
      }
      FoundCountsDistinct(lowered, rest);
      assert k !in rest by {
        forall i | 0 <= i < |rest| ensures rest[i] != k {
          assert rest[i] == keywords[i + 1];
        }
      }
      assert keywords == [k] + rest;
      if Contains(lowered, k) {
        assert Matched(lowered, keywords) == {k} + Matched(lowered, rest);
      } else {
        assert Matched(lowered, keywords) == Matched(lowered, rest);
      }
    }
  }

  /** A text that contains every keyword another one contains scores at least as high. */
  lemma {:induction false} FoundMonotone(x: string, y: string, keywords: seq<string>)
    requires forall k :: k in keywords && Contains(x, k) ==> Contains(y, k)
    ensures Found(x, keywords) <= Found(y, keywords)
  {
    if keywords != [] {
      assert keywords[0] in keywords;
      assert forall k :: k in keywords[1..] ==> k in keywords;
      FoundMonotone(x, y, keywords[1..]);
    }
  }

  /** Appending text to a response never lowers its score. */
  lemma ExtendedScore(a: string, b: string, keywords: seq<string>)
    ensures Found(Lower(a), keywords) <= Found(Lower(a + b), keywords)
  {
    LowerAppend(a, b);
    forall k | k in keywords && Contains(Lower(a), k)
      ensures Contains(Lower(a + b), k)
    {
      ContainsLeft(Lower(a), Lower(b), k);
    }
    FoundMonotone(Lower(a), Lower(a + b), keywords);
  }
}
