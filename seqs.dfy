/**
 * Sequence helpers shared by the data pipeline: filtering a column by a
 * predicate, counting occurrences, the first-occurrence order of distinct
 * values (pandas `unique`), Python's ordering of strings and the choice of a
 * best-scoring key with a deterministic tie-break.
 */
module Seqs {

  /** The elements of `xs` that satisfy `p`, in their original order (a boolean mask). */
  function Filter<T(==,!new)>(xs: seq<T>, p: T -> bool): (r: seq<T>)
    ensures |r| <= |xs|
    ensures forall x :: x in r <==> x in xs && p(x)
  {
    if xs == [] then []
    else (if p(xs[0]) then [xs[0]] else []) + Filter(xs[1..], p)
  }

  /** Filtering distributes over concatenation, so it never reorders rows. */
  lemma {:induction false} FilterAppend<T(!new)>(a: seq<T>, b: seq<T>, p: T -> bool)
    ensures Filter(a + b, p) == Filter(a, p) + Filter(b, p)
  {
    if a == [] {
      assert a + b == b;
    } else {
      assert (a + b)[1..] == a[1..] + b;
      FilterAppend(a[1..], b, p);
    }
  }

  /** Two filters in a row keep exactly the elements that pass both. */
  lemma {:induction false} FilterFilter<T(!new)>(xs: seq<T>, p: T -> bool, q: T -> bool, pq: T -> bool)
    requires forall x :: pq(x) == (p(x) && q(x))
    ensures Filter(Filter(xs, p), q) == Filter(xs, pq)
  {
    if xs != [] {
      FilterFilter(xs[1..], p, q, pq);
      var head := if p(xs[0]) then [xs[0]] else [];
      FilterAppend(head, Filter(xs[1..], p), q);
    }
  }

  /** A filter that every element passes is the identity. */
  lemma {:induction false} FilterAll<T(!new)>(xs: seq<T>, p: T -> bool)
    requires forall x :: x in xs ==> p(x)
    ensures Filter(xs, p) == xs
  {
    if xs != [] {
      assert forall x :: x in xs[1..] ==> x in xs;
      FilterAll(xs[1..], p);
    }
  }

  /** A filter that no element passes gives the empty sequence. */
  lemma {:induction false} FilterNone<T(!new)>(xs: seq<T>, p: T -> bool)
    requires forall x :: x in xs ==> !p(x)
    ensures Filter(xs, p) == []
  {
    if xs != [] {
      assert forall x :: x in xs[1..] ==> x in xs;
      FilterNone(xs[1..], p);
    }
  }

  /** Filters that agree on every element of `xs` give the same result. */
  lemma {:induction false} FilterSame<T(!new)>(xs: seq<T>, p: T -> bool, q: T -> bool)
    requires forall x :: x in xs ==> p(x) == q(x)
    ensures Filter(xs, p) == Filter(xs, q)
  {
    if xs != [] {
      assert forall x :: x in xs[1..] ==> x in xs;
      FilterSame(xs[1..], p, q);
    }
  }

  /** Number of occurrences of `x` in `xs` (pandas `value_counts` for one value). */
  function Count<T(==)>(xs: seq<T>, x: T): (n: nat)
    ensures n <= |xs|
    ensures n > 0 <==> x in xs
  {
    if xs == [] then 0
    else (if xs[0] == x then 1 else 0) + Count(xs[1..], x)
  }

  predicate NoDuplicates<T(==)>(xs: seq<T>) {
    forall i, j :: 0 <= i < j < |xs| ==> xs[i] != xs[j]
  }

  /**
   * The distinct values of `xs` in order of first occurrence (pandas
   * `Series.unique`).
   */
  function Unique<T(==,!new)>(xs: seq<T>): (u: seq<T>)
    ensures NoDuplicates(u)
    ensures forall x :: x in u <==> x in xs
    ensures |u| <= |xs|
  {
    if xs == [] then []
    else
      var rest := Unique(xs[..|xs| - 1]);
      assert forall x :: x in xs[..|xs| - 1] ==> x in xs;
      assert forall x :: x in xs ==> x in xs[..|xs| - 1] || x == xs[|xs| - 1];
      if xs[|xs| - 1] in rest then rest else rest + [xs[|xs| - 1]]
  }

  /** A sequence without duplicates has as many elements as its set. */
  lemma {:induction false} NoDuplicatesCard<T(!new)>(xs: seq<T>)
    requires NoDuplicates(xs)
    ensures |set x | x in xs| == |xs|
  {
    if xs != [] {
      var rest := xs[1..];
      assert NoDuplicates(rest) by {
        forall i, j | 0 <= i < j < |rest| ensures rest[i] != rest[j] {
          assert rest[i] == xs[i + 1] && rest[j] == xs[j + 1];
        }
      }
      NoDuplicatesCard(rest);
      assert xs[0] !in rest by {
        forall i | 0 <= i < |rest| ensures rest[i] != xs[0] {
          assert rest[i] == xs[i + 1];
        }
      }
      assert (set x | x in xs) == (set x | x in rest) + {xs[0]} by {
        assert xs == [xs[0]] + rest;
      }
    }
  }

  /**
   * pandas `nunique`: the number of distinct values, computed as the length
   * of the first-occurrence list.
   */
  function DistinctCount<T(==,!new)>(xs: seq<T>): (n: nat)
    ensures n == |set x | x in xs|
    ensures n <= |xs|
    ensures n == 0 <==> xs == []
  {
    var u := Unique(xs);
    NoDuplicatesCard(u);
    assert (set x | x in u) == (set x | x in xs);
    assert xs != [] ==> xs[0] in u;
    |u|
  }

  /**
   * Python's `<=` on `str`: lexicographic by code point, a proper prefix
   * ordering before the longer string.
   */
  predicate LexLe(a: string, b: string) {
    |a| == 0 || (|b| > 0 && (a[0] < b[0] || (a[0] == b[0] && LexLe(a[1..], b[1..]))))
  }

  lemma LexLeReflexive(a: string)
    ensures LexLe(a, a)
  {
  }

  lemma LexLeTotal(a: string, b: string)
    ensures LexLe(a, b) || LexLe(b, a)
  {
  }

  lemma LexLeAntisymmetric(a: string, b: string)
    requires LexLe(a, b) && LexLe(b, a)
    ensures a == b
  {
    if |a| > 0 && |b| > 0 {
      LexLeAntisymmetric(a[1..], b[1..]);
      assert a == [a[0]] + a[1..] && b == [b[0]] + b[1..];
    }
  }

  lemma LexLeTransitive(a: string, b: string, c: string)
    requires LexLe(a, b) && LexLe(b, c)
    ensures LexLe(a, c)
  {
  }

  /**
   * The key of `keys` with the largest score; among keys tied for the largest
   * score, the smallest in string order.
   */
  function PickMax(keys: seq<string>, score: string -> real): (r: string)
    requires |keys| > 0
    ensures r in keys
    ensures forall k :: k in keys ==> score(k) <= score(r)
    ensures forall k :: k in keys && score(k) == score(r) ==> LexLe(r, k)
  {
    LexLeReflexive(keys[0]);
    if |keys| == 1 then keys[0]
    else
      var rest := PickMax(keys[1..], score);
      assert forall k :: k in keys ==> k == keys[0] || k in keys[1..];
      LexLeTotal(keys[0], rest);
      if score(keys[0]) > score(rest) || (score(keys[0]) == score(rest) && LexLe(keys[0], rest)) then
        assert forall k :: k in keys[1..] && score(k) == score(keys[0]) ==> LexLe(keys[0], k) by {
          forall k | k in keys[1..] && score(k) == score(keys[0]) ensures LexLe(keys[0], k) {
            LexLeTransitive(keys[0], rest, k);
          }
        }
        keys[0]
      else
        rest
  }

  /**
   * The key of `keys` with the smallest score; among keys tied for the
   * smallest score, the largest in string order.
   */
  function PickMin(keys: seq<string>, score: string -> real): (r: string)
    requires |keys| > 0
    ensures r in keys
    ensures forall k :: k in keys ==> score(r) <= score(k)
    ensures forall k :: k in keys && score(k) == score(r) ==> LexLe(k, r)
  {
    LexLeReflexive(keys[0]);
    if |keys| == 1 then keys[0]
    else
      var rest := PickMin(keys[1..], score);
      assert forall k :: k in keys ==> k == keys[0] || k in keys[1..];
      LexLeTotal(keys[0], rest);
      if score(keys[0]) < score(rest) || (score(keys[0]) == score(rest) && LexLe(rest, keys[0])) then
        assert forall k :: k in keys[1..] && score(k) == score(keys[0]) ==> LexLe(k, keys[0]) by {
          forall k | k in keys[1..] && score(k) == score(keys[0]) ensures LexLe(k, keys[0]) {
            LexLeTransitive(k, rest, keys[0]);
          }
        }
        keys[0]
      else
        rest
  }
}
