/** The two array methods the storefront builds on: `filter` and a summing
    `reduce`, with the facts the cart, checkout and catalog proofs use. */
module Lists {
  /** `s.filter(keep)`. */
  function Filter<T>(s: seq<T>, keep: T -> bool): (r: seq<T>)
    ensures |r| <= |s|
    ensures forall i :: 0 <= i < |r| ==> keep(r[i])
  {
    if s == [] then [] else (if keep(s[0]) then [s[0]] else []) + Filter(s[1..], keep)
  }

  /** `a` can be obtained from `b` by deleting elements (greedy matching). */
  ghost predicate IsSubsequence<T>(a: seq<T>, b: seq<T>)
    decreases |b|
  {
    if a == [] then true
    else if b == [] then false
    else if a[0] == b[0] then IsSubsequence(a[1..], b[1..])
    else IsSubsequence(a, b[1..])
  }

  /** A filter keeps the order of its input and keeps every copy of each
      element it accepts. */
  lemma {:induction false} FilterSpec<T>(s: seq<T>, keep: T -> bool)
    ensures IsSubsequence(Filter(s, keep), s)
    ensures forall x :: multiset(Filter(s, keep))[x] == if keep(x) then multiset(s)[x] else 0
  {
    if s != [] {
      FilterSpec(s[1..], keep);
      var rest := Filter(s[1..], keep);
      assert s == [s[0]] + s[1..];
      if keep(s[0]) {
        assert ([s[0]] + rest)[1..] == rest;
      } else {
        assert Filter(s, keep) == rest;
        if rest != [] {
          assert keep(rest[0]);
        }
      }
    }
  }

  /** A filter that accepts every element returns its input. */
  lemma {:induction false} FilterKeepsAll<T>(s: seq<T>, keep: T -> bool)
    requires forall j :: 0 <= j < |s| ==> keep(s[j])
    ensures Filter(s, keep) == s
  {
    if s != [] {
      FilterKeepsAll(s[1..], keep);
      assert [s[0]] + s[1..] == s;
    }
  }

  /** Filtering distributes over concatenation. */
  lemma {:induction false} FilterAppend<T>(a: seq<T>, b: seq<T>, keep: T -> bool)
    ensures Filter(a + b, keep) == Filter(a, keep) + Filter(b, keep)
  {
    if a == [] {
      assert a + b == b;
    } else {
      assert (a + b)[1..] == a[1..] + b;
      FilterAppend(a[1..], b, keep);
    }
  }

  /** A prefix of a subsequence is a subsequence. */
  lemma {:induction false} PrefixSubsequence<T>(a: seq<T>, b: seq<T>, n: nat)
    requires IsSubsequence(a, b) && n <= |a|
    ensures IsSubsequence(a[..n], b)
    decreases |b|
  {
    if n > 0 && b != [] {
      if a[0] == b[0] {
        PrefixSubsequence(a[1..], b[1..], n - 1);
        assert a[..n][1..] == a[1..][..n - 1];
      } else {
        PrefixSubsequence(a, b[1..], n);
      }
    }
  }

  lemma {:induction false} SubsequenceReflexive<T>(s: seq<T>)
    ensures IsSubsequence(s, s)
  {
    if s != [] {
      SubsequenceReflexive(s[1..]);
    }
  }

  /** `s.reduce((sum, x) => sum + weight(x), 0)`, folded from the left. */
  function SumBy<T>(s: seq<T>, weight: T -> int): int {
    if s == [] then 0 else SumBy(s[..|s| - 1], weight) + weight(s[|s| - 1])
  }

  lemma {:induction false} SumByAppend<T>(a: seq<T>, b: seq<T>, weight: T -> int)
    ensures SumBy(a + b, weight) == SumBy(a, weight) + SumBy(b, weight)
    decreases |b|
  {
    if b != [] {
      assert (a + b)[..|a + b| - 1] == a + b[..|b| - 1];
      SumByAppend(a, b[..|b| - 1], weight);
    } else {
      assert a + b == a;
    }
  }

  /** When every element weighs at least `low`, the fold is at least `low` per
      element. */
  lemma {:induction false} SumByAtLeast<T>(s: seq<T>, weight: T -> int, low: nat)
    ensures (forall j :: 0 <= j < |s| ==> weight(s[j]) >= low) ==> SumBy(s, weight) >= low * |s|
  {
    if s != [] && forall j :: 0 <= j < |s| ==> weight(s[j]) >= low {
      SumByAtLeast(s[..|s| - 1], weight, low);
      assert low * |s| == low * (|s| - 1) + low;
    }
  }

  /** Replacing one element changes a fold by exactly the difference of that
      element's weights. */
  lemma {:induction false} SumByReplace<T>(s: seq<T>, i: nat, x: T, weight: T -> int)
    requires i < |s|
    ensures SumBy(s[i := x], weight) == SumBy(s, weight) - weight(s[i]) + weight(x)
  {
    assert s == s[..i] + [s[i]] + s[i + 1..];
    assert s[i := x] == s[..i] + [x] + s[i + 1..];
    SumByAppend(s[..i] + [s[i]], s[i + 1..], weight);
    SumByAppend(s[..i] + [x], s[i + 1..], weight);
    SumByAppend(s[..i], [s[i]], weight);
    SumByAppend(s[..i], [x], weight);
  }

  /** Deleting one element lowers a fold by exactly that element's weight. */
  lemma {:induction false} SumByDelete<T>(s: seq<T>, i: nat, weight: T -> int)
    requires i < |s|
    ensures SumBy(s[..i] + s[i + 1..], weight) == SumBy(s, weight) - weight(s[i])
  {
    assert s == s[..i] + [s[i]] + s[i + 1..];
    SumByAppend(s[..i] + [s[i]], s[i + 1..], weight);
    SumByAppend(s[..i], [s[i]], weight);
    SumByAppend(s[..i], s[i + 1..], weight);
  }
}
