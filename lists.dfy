/**
 * Sequence operations shared by the view components: JavaScript's
 * `Array.prototype.filter` (order-preserving selection), removal of every copy
 * of a value, and the first-occurrence de-duplication that
 * `Array.from(new Set(xs))` performs.
 */
module Lists {

  /** `a` can be obtained from `b` by deleting elements, without reordering. */
  ghost predicate IsSubsequence<T>(a: seq<T>, b: seq<T>)
    decreases |b|
  {
    if a == [] then true
    else if b == [] then false
    else if a[0] == b[0] then IsSubsequence(a[1..], b[1..])
    else IsSubsequence(a, b[1..])
  }

  /** No value occurs twice. */
  ghost predicate Distinct<T>(s: seq<T>) {
    forall i, j :: 0 <= i < j < |s| ==> s[i] != s[j]
  }

  /** `xs.filter(p)`: the elements satisfying `p`, in their original order. */
  function Filter<T>(s: seq<T>, p: T -> bool): (r: seq<T>)
    ensures |r| <= |s|
    ensures forall x :: x in r ==> x in s && p(x)
    ensures forall x :: x in s && p(x) ==> x in r
    ensures IsSubsequence(r, s)
  {
    if s == [] then []
    else if p(s[0]) then [s[0]] + Filter(s[1..], p)
    else Filter(s[1..], p)
  }

  /** Filtering with a predicate every element satisfies returns the input unchanged. */
  lemma {:induction false} FilterKeepsAll<T>(s: seq<T>, p: T -> bool)
    requires forall x :: x in s ==> p(x)
    ensures Filter(s, p) == s
  {
    if s != [] {
      FilterKeepsAll(s[1..], p);
    }
  }

  /** Filtering with a predicate no element satisfies returns the empty list. */
  lemma {:induction false} FilterDropsAll<T>(s: seq<T>, p: T -> bool)
    requires forall x :: x in s ==> !p(x)
    ensures Filter(s, p) == []
  {
    if s != [] {
      FilterDropsAll(s[1..], p);
    }
  }

  /** Two successive filters are one filter by the conjunction. */
  lemma {:induction false} FilterFilter<T>(s: seq<T>, p: T -> bool, q: T -> bool, pq: T -> bool)
    requires forall x :: pq(x) == (p(x) && q(x))
    ensures Filter(Filter(s, p), q) == Filter(s, pq)
  {
    if s != [] {
      FilterFilter(s[1..], p, q, pq);
    }
  }

  /** Filtering distributes over concatenation. */
  lemma {:induction false} FilterAppend<T>(a: seq<T>, b: seq<T>, p: T -> bool)
    ensures Filter(a + b, p) == Filter(a, p) + Filter(b, p)
  {
    if a == [] {
      assert a + b == b;
    } else {
      assert (a + b)[1..] == a[1..] + b;
      FilterAppend(a[1..], b, p);
    }
  }

  /** Predicates that agree on the elements of `s` select the same elements. */
  lemma {:induction false} FilterAgree<T>(s: seq<T>, p: T -> bool, q: T -> bool)
    requires forall x :: x in s ==> p(x) == q(x)
    ensures Filter(s, p) == Filter(s, q)
  {
    if s != [] {
      FilterAgree(s[1..], p, q);
    }
  }

  /**
   * `xs.filter(p).length + xs.filter(q).length` counts the elements matching
   * `p` or `q` when no element matches both.
   */
  lemma {:induction false} FilterCountDisjoint<T>(s: seq<T>, p: T -> bool, q: T -> bool, pq: T -> bool)
    requires forall x :: x in s ==> !(p(x) && q(x))
    requires forall x :: pq(x) == (p(x) || q(x))
    ensures |Filter(s, p)| + |Filter(s, q)| == |Filter(s, pq)|
  {
    if s != [] {
      FilterCountDisjoint(s[1..], p, q, pq);
    }
  }

  /** The positions of `s` whose element satisfies `p`. */
  ghost function Positions<T>(s: seq<T>, p: T -> bool): set<int> {
    set i | 0 <= i < |s| && p(s[i])
  }

  /** `xs.filter(p).length` is the number of positions whose element satisfies `p`. */
  lemma {:induction false} FilterCountsPositions<T>(s: seq<T>, p: T -> bool)
    ensures |Filter(s, p)| == |Positions(s, p)|
    decreases |s|
  {
    if s != [] {
      var n := |s| - 1;
      var init := s[..n];
      FilterCountsPositions(init, p);
      FilterAppend(init, [s[n]], p);
      assert s == init + [s[n]];
      assert Filter([s[n]], p) == if p(s[n]) then [s[n]] else [];
      PositionsLast(s, p);
    }
  }

  /** The positions of a non-empty list: those of all but its last element, and the last one if it qualifies. */
  lemma PositionsLast<T>(s: seq<T>, p: T -> bool)
    requires s != []
    ensures var n := |s| - 1;
      |Positions(s, p)| == |Positions(s[..n], p)| + if p(s[n]) then 1 else 0
  {
    var n := |s| - 1;
    var before := Positions(s[..n], p);
    assert forall i :: 0 <= i < n ==> s[..n][i] == s[i];
    if p(s[n]) {
      assert Positions(s, p) == before + {n};
    } else {
      assert Positions(s, p) == before;
    }
  }

  /** Filtering a list without repeats gives a list without repeats. */
  lemma {:induction false} FilterDistinct<T>(s: seq<T>, p: T -> bool)
    requires Distinct(s)
    ensures Distinct(Filter(s, p))
  {
    if s != [] {
      assert Distinct(s[1..]) by {
        forall i, j | 0 <= i < j < |s[1..]| ensures s[1..][i] != s[1..][j] {
          assert s[1..][i] == s[i + 1] && s[1..][j] == s[j + 1];
        }
      }
      FilterDistinct(s[1..], p);
      assert s[0] !in s[1..] by {
        forall k | 0 <= k < |s[1..]| ensures s[1..][k] != s[0] {
          assert s[1..][k] == s[k + 1];
        }
      }
    }
  }

  /** `xs.filter(x => x !== v)`: every copy of `v` removed, the rest in order. */
  function RemoveAll<T(==)>(s: seq<T>, v: T): (r: seq<T>)
    ensures v !in r
    ensures forall x :: x in r ==> x in s
    ensures forall x :: x in s && x != v ==> x in r
    ensures IsSubsequence(r, s)
    ensures |r| + Occurrences(s, v) == |s|
  {
    RemoveAllCount(s, v);
    Filter(s, Except(v))
  }

  /** `x => x !== v`. */
  function Except<T(==)>(v: T): T -> bool {
    x => x != v
  }

  /** `x => x === v`. */
  function Only<T(==)>(v: T): T -> bool {
    x => x == v
  }

  /** Number of copies of `v` in `s`. */
  function Occurrences<T(==)>(s: seq<T>, v: T): nat {
    |Filter(s, Only(v))|
  }

  lemma {:induction false} RemoveAllCount<T>(s: seq<T>, v: T)
    ensures |Filter(s, Except(v))| + |Filter(s, Only(v))| == |s|
  {
    if s != [] {
      RemoveAllCount(s[1..], v);
    }
  }

  /** Removing a value just appended to a list without it gives the list back. */
  lemma RemoveAppended<T>(s: seq<T>, v: T)
    requires v !in s
    ensures RemoveAll(s + [v], v) == s
  {
    FilterAppend(s, [v], Except(v));
    RemoveAbsent(s, v);
  }

  /** Removing a value that does not occur changes nothing. */
  lemma RemoveAbsent<T>(s: seq<T>, v: T)
    requires v !in s
    ensures RemoveAll(s, v) == s
  {
    FilterKeepsAll(s, Except(v));
  }

  /**
   * `Array.from(new Set(xs))`: each value once, at the position where it first
   * occurs in `xs` (a JavaScript `Set` iterates in insertion order).
   */
  function Dedup<T(==)>(s: seq<T>): (r: seq<T>)
    ensures Distinct(r)
    ensures forall x :: x in r ==> x in s
    ensures forall x :: x in s ==> x in r
    ensures IsSubsequence(r, s)
    decreases |s|
  {
    if s == [] then []
    else
      var rest := Dedup(s[..|s| - 1]);
      var last := s[|s| - 1];
      SubsequenceExtend(rest, s[..|s| - 1], last);
      assert s == s[..|s| - 1] + [last];
      if last in rest then rest else rest + [last]
  }

  /** Extending the longer sequence keeps a subsequence; extending both by one also does. */
  lemma {:induction false} SubsequenceExtend<T>(a: seq<T>, b: seq<T>, x: T)
    requires IsSubsequence(a, b)
    ensures IsSubsequence(a, b + [x])
    ensures IsSubsequence(a + [x], b + [x])
    decreases |b|
  {
    if a == [] {
      assert a + [x] == [x];
      SubsequenceSingle(b, x);
    } else {
      assert b != [];
      assert (b + [x])[1..] == b[1..] + [x];
      assert (a + [x])[1..] == a[1..] + [x];
      if a[0] == b[0] {
        SubsequenceExtend(a[1..], b[1..], x);
      } else {
        SubsequenceExtend(a, b[1..], x);
      }
    }
  }

  lemma {:induction false} SubsequenceSingle<T>(b: seq<T>, x: T)
    ensures IsSubsequence([x], b + [x])
    ensures IsSubsequence([], b)
    decreases |b|
  {
    if b != [] {
      assert (b + [x])[1..] == b[1..] + [x];
      SubsequenceSingle(b[1..], x);
    } else {
      assert [x][1..] == [];
    }
  }

  /** Index of the first occurrence of `x` in `s`. */
  function FirstIndex<T(==)>(s: seq<T>, x: T): (k: nat)
    requires x in s
    ensures k < |s| && s[k] == x
    ensures forall j :: 0 <= j < k ==> s[j] != x
  {
    if s[0] == x then 0 else 1 + FirstIndex(s[1..], x)
  }

  /** The de-duplicated list is ordered by first occurrence in the input. */
  lemma {:induction false} DedupFirstOccurrenceOrder<T>(s: seq<T>, i: nat, j: nat)
    requires i < j < |Dedup(s)|
    ensures FirstIndex(s, Dedup(s)[i]) < FirstIndex(s, Dedup(s)[j])
    decreases |s|
  {
    var init := s[..|s| - 1];
    var last := s[|s| - 1];
    var rest := Dedup(init);
    assert s == init + [last];
    var a, b := Dedup(s)[i], Dedup(s)[j];
    if j < |rest| {
      assert a == rest[i] && b == rest[j];
      DedupFirstOccurrenceOrder(init, i, j);
      FirstIndexPrefix(init, last, a);
      FirstIndexPrefix(init, last, b);
    } else {
      assert b == last && last !in rest;
      assert a == rest[i] && a in init;
      FirstIndexPrefix(init, last, a);
      assert last !in init;
      FirstIndexLast(init, last);
    }
  }

  lemma {:induction false} FirstIndexPrefix<T>(init: seq<T>, last: T, x: T)
    requires x in init
    ensures FirstIndex(init + [last], x) == FirstIndex(init, x)
  {
    if init[0] != x {
      assert (init + [last])[1..] == init[1..] + [last];
      FirstIndexPrefix(init[1..], last, x);
    }
  }

  lemma {:induction false} FirstIndexLast<T>(init: seq<T>, last: T)
    requires last !in init
    ensures FirstIndex(init + [last], last) == |init|
  {
    if init != [] {
      assert (init + [last])[1..] == init[1..] + [last];
      FirstIndexLast(init[1..], last);
    }
  }

  /** A duplicate-free list is exactly as long as the set of its elements is large. */
  lemma {:induction false} DistinctCardinality<T>(s: seq<T>)
    requires Distinct(s)
    ensures |set x | x in s| == |s|
  {
    if s != [] {
      var tail := s[1..];
      assert Distinct(tail) by {
        forall i, j | 0 <= i < j < |tail| ensures tail[i] != tail[j] {
          assert tail[i] == s[i + 1] && tail[j] == s[j + 1];
        }
      }
      DistinctCardinality(tail);
      assert s[0] !in tail by {
        forall i | 0 <= i < |tail| ensures tail[i] != s[0] {
          assert tail[i] == s[i + 1];
        }
      }
      assert (set x | x in s) == (set x | x in tail) + {s[0]} by {
        assert s == [s[0]] + tail;
      }
    }
  }

  /** A sequence has at most as many distinct elements as positions. */
  lemma {:induction false} ElementCountBound<T>(s: seq<T>)
    ensures |set x | x in s| <= |s|
  {
    if s != [] {
      var tail := s[1..];
      ElementCountBound(tail);
      assert (set x | x in s) == (set x | x in tail) + {s[0]} by {
        assert s == [s[0]] + tail;
      }
    }
  }

  /** The converse of `DistinctCardinality`: as many distinct elements as positions means no repeats. */
  lemma {:induction false} CardinalityDistinct<T>(s: seq<T>)
    requires |set x | x in s| == |s|
    ensures Distinct(s)
  {
    if s != [] {
      var tail := s[1..];
      assert (set x | x in s) == (set x | x in tail) + {s[0]} by {
        assert s == [s[0]] + tail;
      }
      ElementCountBound(tail);
      assert s[0] !in tail;
      CardinalityDistinct(tail);
      forall i, j | 0 <= i < j < |s| ensures s[i] != s[j] {
        assert s[j] == tail[j - 1];
        if i > 0 {
          assert s[i] == tail[i - 1];
        }
      }
    }
  }
}
