/**
 * Sequence operations that the source performs with JavaScript's built-ins:
 * `Array.prototype.filter`, and `Array.from(new Set(xs))`, which keeps the
 * first occurrence of every element in the order the elements were added.
 */
module Collections {

  predicate NoDuplicates<T(==)>(s: seq<T>) {
    forall i, j | 0 <= i < j < |s| :: s[i] != s[j]
  }

  /** `Array.prototype.filter`: exactly the elements satisfying `p`, each as often as in `s`. */
  function Filter<T(!new)>(s: seq<T>, p: T -> bool): (r: seq<T>)
    ensures |r| <= |s|
    ensures forall x :: multiset(r)[x] == if p(x) then multiset(s)[x] else 0
  {
    if s == [] then []
    else
      assert s == [s[0]] + s[1..];
      (if p(s[0]) then [s[0]] else []) + Filter(s[1..], p)
  }

  lemma FilterMembership<T(!new)>(s: seq<T>, p: T -> bool, x: T)
    ensures x in Filter(s, p) <==> x in s && p(x)
  {
  }

  /** The indices from `lo` on whose element satisfies `p`. */
  ghost function IndicesFrom<T>(s: seq<T>, p: T -> bool, lo: nat): set<nat> {
    set i: nat | lo <= i < |s| && p(s[i])
  }

  /** Dropping index `lo` removes it from the index set exactly when its element satisfies `p`. */
  lemma IndicesStep<T>(s: seq<T>, p: T -> bool, lo: nat)
    requires lo < |s|
    ensures |IndicesFrom(s, p, lo)| == (if p(s[lo]) then 1 else 0) + |IndicesFrom(s, p, lo + 1)|
  {
    if p(s[lo]) {
      assert IndicesFrom(s, p, lo) == {lo} + IndicesFrom(s, p, lo + 1);
    } else {
      assert IndicesFrom(s, p, lo) == IndicesFrom(s, p, lo + 1);
    }
  }

  /**
   * `Filter(s[lo..], p)` has one element per index from `lo` on whose element
   * satisfies `p`.
   */
  lemma {:induction false} FilterCountFrom<T(!new)>(s: seq<T>, p: T -> bool, lo: nat)
    requires lo <= |s|
    ensures |Filter(s[lo..], p)| == |IndicesFrom(s, p, lo)|
    decreases |s| - lo
  {
    if lo == |s| {
      assert IndicesFrom(s, p, lo) == {};
    } else {
      FilterCountFrom(s, p, lo + 1);
      IndicesStep(s, p, lo);
      assert s[lo..][1..] == s[lo + 1..];
    }
  }

  /** `s.filter(p).length` is the number of indices whose element satisfies `p`. */
  lemma FilterCount<T(!new)>(s: seq<T>, p: T -> bool)
    ensures |Filter(s, p)| == |IndicesFrom(s, p, 0)|
  {
    FilterCountFrom(s, p, 0);
    assert s[0..] == s;
  }

  /** `set.add(x)` on an insertion-ordered set held as the sequence of its elements. */
  function Insert<T(==)>(acc: seq<T>, x: T): seq<T> {
    if x in acc then acc else acc + [x]
  }

  /** Adds the elements of `xs`, in order, to the insertion-ordered set `acc`. */
  function AddAll<T(==,!new)>(acc: seq<T>, xs: seq<T>): (r: seq<T>)
    requires NoDuplicates(acc)
    ensures NoDuplicates(r)
    ensures |acc| <= |r| && r[..|acc|] == acc
    ensures forall x :: x in r <==> x in acc || x in xs
    decreases |xs|
  {
    if xs == [] then acc
    else
      var next := Insert(acc, xs[0]);
      var r := AddAll(next, xs[1..]);
      assert r[..|acc|] == next[..|next|][..|acc|];
      assert forall x :: x in xs <==> x == xs[0] || x in xs[1..];
      r
  }

  /** `Array.from(new Set(xs))`. */
  function Distinct<T(==,!new)>(xs: seq<T>): (r: seq<T>)
    ensures NoDuplicates(r)
    ensures forall x :: x in r <==> x in xs
  {
    AddAll([], xs)
  }

  /**
   * Reference definition of first-occurrence deduplication: element `k` of
   * `xs` is kept exactly when no equal element comes before it.
   */
  function FirstOccurrences<T(==)>(xs: seq<T>): seq<T>
    decreases |xs|
  {
    if xs == [] then []
    else
      var init := xs[..|xs| - 1];
      var last := xs[|xs| - 1];
      FirstOccurrences(init) + (if last in init then [] else [last])
  }

  lemma {:induction false} AddAllAppend<T(!new)>(acc: seq<T>, p: seq<T>, q: seq<T>)
    requires NoDuplicates(acc)
    ensures AddAll(acc, p + q) == AddAll(AddAll(acc, p), q)
    decreases |p|
  {
    if p == [] {
      assert p + q == q;
    } else {
      assert (p + q)[0] == p[0] && (p + q)[1..] == p[1..] + q;
      AddAllAppend(Insert(acc, p[0]), p[1..], q);
    }
  }

  /** Adding elements that are all new and pairwise distinct appends them unchanged. */
  lemma {:induction false} AddAllFresh<T(!new)>(acc: seq<T>, xs: seq<T>)
    requires NoDuplicates(acc) && NoDuplicates(acc + xs)
    ensures AddAll(acc, xs) == acc + xs
    decreases |xs|
  {
    if xs != [] {
      assert xs[0] !in acc by {
        forall i | 0 <= i < |acc| ensures acc[i] != xs[0] {
          assert (acc + xs)[i] == acc[i] && (acc + xs)[|acc|] == xs[0];
        }
      }
      assert Insert(acc, xs[0]) + xs[1..] == acc + xs;
      assert NoDuplicates(Insert(acc, xs[0]));
      AddAllFresh(Insert(acc, xs[0]), xs[1..]);
    }
  }

  /** Adding elements the set already holds changes nothing. */
  lemma {:induction false} AddAllKnown<T(!new)>(acc: seq<T>, xs: seq<T>)
    requires NoDuplicates(acc)
    requires forall k | 0 <= k < |xs| :: xs[k] in acc
    ensures AddAll(acc, xs) == acc
    decreases |xs|
  {
    if xs != [] {
      assert xs[0] in acc;
      AddAllKnown(acc, xs[1..]);
    }
  }

  /** Deduplicating a duplicate-free prefix followed by more elements keeps that prefix in front. */
  lemma PrefixedDistinct<T(!new)>(d: seq<T>, e: seq<T>)
    requires NoDuplicates(d)
    ensures Distinct(d + e) == AddAll(d, e)
    ensures |Distinct(d + e)| >= |d| && Distinct(d + e)[..|d|] == d
  {
    assert [] + d == d;
    AddAllFresh([], d);
    AddAllAppend([], d, e);
  }

  /** Deduplicating the prefix followed by such a result gives the result back. */
  lemma PrefixedDistinctIdempotent<T(!new)>(d: seq<T>, e: seq<T>)
    requires NoDuplicates(d)
    ensures Distinct(d + Distinct(d + e)) == Distinct(d + e)
  {
    var r := Distinct(d + e);
    PrefixedDistinct(d, e);
    var rest := r[|d|..];
    assert r == d + rest;
    PrefixedDistinct(d, r);
    assert AddAll(d, r) == AddAll(AddAll(d, d), rest) by {
      AddAllAppend(d, d, rest);
    }
    AddAllKnown(d, d);
    AddAllFresh(d, rest);
  }

  /** The Set round trip keeps first occurrences in their original order. */
  lemma {:induction false} DistinctIsFirstOccurrences<T(!new)>(xs: seq<T>)
    ensures Distinct(xs) == FirstOccurrences(xs)
    decreases |xs|
  {
    if xs != [] {
      var init, last := xs[..|xs| - 1], xs[|xs| - 1];
      assert xs == init + [last];
      DistinctIsFirstOccurrences(init);
      AddAllAppend([], init, [last]);
      var d := Distinct(init);
      assert AddAll([], xs) == AddAll(d, [last]);
      assert AddAll(d, [last]) == Insert(d, last) by {
        assert [last][1..] == [];
      }
      assert FirstOccurrences(xs) == d + (if last in init then [] else [last]);
    }
  }

  /** Deduplicating twice is deduplicating once. */
  lemma DistinctIdempotent<T(!new)>(xs: seq<T>)
    ensures Distinct(Distinct(xs)) == Distinct(xs)
  {
    assert [] + Distinct(xs) == Distinct(xs);
    AddAllFresh([], Distinct(xs));
  }

  /** A duplicate-free sequence has as many elements as the set of its elements. */
  lemma {:induction false} NoDuplicatesCardinality<T>(s: seq<T>)
    requires NoDuplicates(s)
    ensures |s| == |set x | x in s|
    decreases |s|
  {
    if s != [] {
      var rest := s[1..];
      assert NoDuplicates(rest) by {
        forall i, j | 0 <= i < j < |rest| ensures rest[i] != rest[j] {
          assert s[i + 1] != s[j + 1];
        }
      }
      NoDuplicatesCardinality(rest);
      assert s[0] !in rest by {
        forall i | 0 <= i < |rest| ensures rest[i] != s[0] {
          assert s[i + 1] != s[0];
        }
      }
      assert (set x | x in s) == (set x | x in rest) + {s[0]};
    }
  }

  /** `Array.from(new Set(xs)).length` is the number of distinct elements of `xs`. */
  lemma DistinctCount<T(!new)>(xs: seq<T>)
    ensures |Distinct(xs)| == |set x | x in xs|
  {
    NoDuplicatesCardinality(Distinct(xs));
    assert (set x | x in Distinct(xs)) == (set x | x in xs);
  }
}
