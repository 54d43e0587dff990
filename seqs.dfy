/** Sequence operations shared by the batch submitter and the windowed
    execution strategy: Python's `for i in range(0, len(xs), n): xs[i:i + n]`. */
module Seqs {

  /** `a` divided by `b`, rounded up: the number of groups of at most `b` items
      that `a` items fill. */
  function CeilDiv(a: nat, b: nat): (q: nat)
    requires b > 0
    ensures a > 0 ==> (q - 1) * b < a <= q * b
    ensures a == 0 ==> q == 0
    decreases a
  {
    if a == 0 then 0 else if a <= b then 1 else 1 + CeilDiv(a - b, b)
  }

  /** The consecutive slices `xs[i:i + n]` for `i` in `range(0, len(xs), n)`. */
  function Chunks<T>(xs: seq<T>, n: nat): seq<seq<T>>
    requires n > 0
    decreases |xs|
  {
    if xs == [] then []
    else if |xs| <= n then [xs]
    else [xs[..n]] + Chunks(xs[n..], n)
  }

  function Flatten<T>(xss: seq<seq<T>>): seq<T> {
    if xss == [] then [] else xss[0] + Flatten(xss[1..])
  }

  lemma FlattenAppend<T>(a: seq<seq<T>>, b: seq<seq<T>>)
    ensures Flatten(a + b) == Flatten(a) + Flatten(b)
  {
    if a != [] {
      assert (a + b)[0] == a[0];
      assert (a + b)[1..] == a[1..] + b;
      FlattenAppend(a[1..], b);
    } else {
      assert a + b == b;
    }
  }

  /** The chunks, in order, are the whole input: nothing lost, duplicated or moved. */
  lemma {:induction false} FlattenChunks<T>(xs: seq<T>, n: nat)
    requires n > 0
    ensures Flatten(Chunks(xs, n)) == xs
    decreases |xs|
  {
    if |xs| > n {
      FlattenChunks(xs[n..], n);
      assert Chunks(xs, n)[1..] == Chunks(xs[n..], n);
      assert xs == xs[..n] + xs[n..];
    }
  }

  /** There are ceil(|xs| / n) chunks. */
  lemma {:induction false} ChunkCount<T>(xs: seq<T>, n: nat)
    requires n > 0
    ensures |Chunks(xs, n)| == CeilDiv(|xs|, n)
    decreases |xs|
  {
    if |xs| > n {
      ChunkCount(xs[n..], n);
    }
  }

  /** Every chunk holds between 1 and n items, and every chunk but the last
      holds exactly n. */
  lemma {:induction false} ChunkSizes<T>(xs: seq<T>, n: nat)
    requires n > 0
    ensures forall k :: 0 <= k < |Chunks(xs, n)| ==> 1 <= |Chunks(xs, n)[k]| <= n
    ensures forall k :: 0 <= k < |Chunks(xs, n)| - 1 ==> |Chunks(xs, n)[k]| == n
    decreases |xs|
  {
    if |xs| > n {
      ChunkSizes(xs[n..], n);
      var rest := Chunks(xs[n..], n);
      assert Chunks(xs, n) == [xs[..n]] + rest;
    }
  }

  /** Chunk `k` is the slice starting at `k * n`. */
  lemma {:induction false} ChunkAt<T>(xs: seq<T>, n: nat, k: nat)
    requires n > 0 && k < |Chunks(xs, n)|
    ensures k * n < |xs|
    ensures Chunks(xs, n)[k] == xs[k * n..if (k + 1) * n <= |xs| then (k + 1) * n else |xs|]
    decreases |xs|
  {
    if |xs| > n && k > 0 {
      ChunkAt(xs[n..], n, k - 1);
      assert Chunks(xs, n)[k] == Chunks(xs[n..], n)[k - 1];
      assert (k - 1) * n + n == k * n;
    }
  }

  /** Number of elements satisfying `p`, Python's `len([x for x in xs if p(x)])`. */
  function CountWhere<T>(xs: seq<T>, p: T -> bool): (c: nat)
    ensures c <= |xs|
  {
    if xs == [] then 0 else (if p(xs[0]) then 1 else 0) + CountWhere(xs[1..], p)
  }

  function Filter<T>(xs: seq<T>, p: T -> bool): (r: seq<T>)
    ensures |r| == CountWhere(xs, p)
    ensures forall k :: 0 <= k < |r| ==> p(r[k])
  {
    if xs == [] then []
    else if p(xs[0]) then [xs[0]] + Filter(xs[1..], p)
    else Filter(xs[1..], p)
  }

  lemma PrefixSnoc<T>(s: seq<T>, k: nat)
    requires k < |s|
    ensures s[..k + 1] == s[..k] + [s[k]]
  {
  }

  lemma CountAppend<T>(a: seq<T>, b: seq<T>, p: T -> bool)
    ensures CountWhere(a + b, p) == CountWhere(a, p) + CountWhere(b, p)
  {
    if a != [] {
      assert (a + b)[0] == a[0];
      assert (a + b)[1..] == a[1..] + b;
      CountAppend(a[1..], b, p);
    } else {
      assert a + b == b;
    }
  }

  lemma FilterAppend<T>(a: seq<T>, b: seq<T>, p: T -> bool)
    ensures Filter(a + b, p) == Filter(a, p) + Filter(b, p)
  {
    if a != [] {
      assert (a + b)[0] == a[0];
      assert (a + b)[1..] == a[1..] + b;
      FilterAppend(a[1..], b, p);
    } else {
      assert a + b == b;
    }
  }

  /** Elements satisfying `p` plus elements failing it are all the elements. */
  lemma {:induction false} CountSplit<T>(xs: seq<T>, p: T -> bool)
    ensures CountWhere(xs, p) + CountWhere(xs, x => !p(x)) == |xs|
  {
    if xs != [] {
      CountSplit(xs[1..], p);
    }
  }

  /** Counting depends only on the multiset of elements, not their order. */
  lemma {:induction false} CountMultiset<T>(a: seq<T>, b: seq<T>, p: T -> bool)
    requires multiset(a) == multiset(b)
    ensures CountWhere(a, p) == CountWhere(b, p)
    decreases |a|
  {
    if a != [] {
      var x := a[0];
      assert x in multiset(b);
      var j :| 0 <= j < |b| && b[j] == x;
      MultisetRemoveAt(b, j);
      assert a == [x] + a[1..];
      assert multiset(a[1..]) == multiset(a) - multiset{x};
      CountMultiset(a[1..], b[..j] + b[j + 1..], p);
      CountRemoveAt(b, j, p);
    } else {
      assert |multiset(b)| == |b| == 0;
    }
  }

  lemma MultisetRemoveAt<T>(b: seq<T>, j: nat)
    requires j < |b|
    ensures multiset(b[..j] + b[j + 1..]) == multiset(b) - multiset{b[j]}
  {
    assert b == b[..j] + ([b[j]] + b[j + 1..]);
  }

  /** Removing one element lowers the count by one exactly when it satisfies `p`. */
  lemma CountRemoveAt<T>(b: seq<T>, j: nat, p: T -> bool)
    requires j < |b|
    ensures CountWhere(b, p) == CountWhere(b[..j] + b[j + 1..], p) + if p(b[j]) then 1 else 0
  {
    var t := b[j..];
    assert b == b[..j] + t;
    CountAppend(b[..j], t, p);
    assert t[0] == b[j] && t[1..] == b[j + 1..];
    assert CountWhere(t, p) == (if p(b[j]) then 1 else 0) + CountWhere(b[j + 1..], p);
    CountAppend(b[..j], b[j + 1..], p);
  }

  /** `p` is `part` out of `whole` in percent. */
  predicate IsShare(p: real, part: nat, whole: nat) {
    p * (whole as real) == (part as real) * 100.0
  }

  /** `a` is `total` spread evenly over `n` items. */
  predicate IsMean(a: real, total: real, n: nat) {
    a * (n as real) == total
  }

  /** A total spread over `n` items. */
  function Mean(total: real, n: nat): (a: real)
    requires n > 0
    ensures IsMean(a, total, n)
  {
    total / (n as real)
  }

  /** `part / whole * 100`, or 0 when `whole` is 0. */
  function Percentage(part: nat, whole: nat): (p: real)
    requires part <= whole
    ensures 0.0 <= p <= 100.0
    ensures whole == 0 ==> p == 0.0
    ensures whole > 0 ==> p * whole as real == part as real * 100.0
    ensures whole > 0 ==> (p == 100.0 <==> part == whole)
  {
    if whole == 0 then 0.0
    else
      var q := part as real / whole as real;
      assert q * whole as real == part as real;
      assert part == whole ==> q == 1.0;
      assert q == 1.0 ==> part as real == whole as real;
      assert q <= 1.0 by { QuotientAtMostOne(part, whole); }
      q * 100.0
  }

  lemma PercentageShare(part: nat, whole: nat)
    requires part <= whole
    ensures whole > 0 ==> IsShare(Percentage(part, whole), part, whole)
  {
  }

  lemma QuotientAtMostOne(part: nat, whole: nat)
    requires part <= whole && whole > 0
    ensures part as real / whole as real <= 1.0
  {
    var q := part as real / whole as real;
    var w := whole as real;
    assert q * w == part as real;
    assert (1.0 - q) * w == w - part as real;
  }
}
