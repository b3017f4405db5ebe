/** `Array.prototype.filter` and `Array.prototype.find` of the source, as
    functions over sequences, with the facts about them that the catalog, the
    discover view, the hired-team view and the knowledge base rely on. */
module Seqs {
  import opened Options

  /** `s.filter(p)`: the elements of `s` that satisfy `p`, in their original order. */
  function Filter<T(!new)>(p: T -> bool, s: seq<T>): (r: seq<T>)
    ensures |r| <= |s|
    ensures forall x :: x in r <==> x in s && p(x)
  {
    if s == [] then []
    else if p(s[0]) then [s[0]] + Filter(p, s[1..])
    else Filter(p, s[1..])
  }

  /** `s.find(p)`: the first element of `s` that satisfies `p`, if any. */
  function Find<T(!new)>(p: T -> bool, s: seq<T>): (r: Option<T>)
    ensures r.None? <==> Filter(p, s) == []
    ensures r.Some? ==> r.value == Filter(p, s)[0]
  {
    if s == [] then None
    else if p(s[0]) then Some(s[0])
    else Find(p, s[1..])
  }

  /** `a` is what is left of `b` after deleting some of its elements. */
  predicate IsSubsequence<T(==)>(a: seq<T>, b: seq<T>)
    decreases |b|
  {
    if a == [] then true
    else if b == [] then false
    else if a[0] == b[0] then IsSubsequence(a[1..], b[1..])
    else IsSubsequence(a, b[1..])
  }

  /** Every element satisfying `p` comes before every element that does not. */
  predicate PartitionedBy<T(!new)>(p: T -> bool, s: seq<T>)
  {
    forall i, j | 0 <= i < j < |s| :: p(s[j]) ==> p(s[i])
  }

  /** A filter keeps the order of what it keeps: its result is a subsequence. */
  lemma {:induction false} FilterIsSubsequence<T(!new)>(p: T -> bool, s: seq<T>)
    ensures IsSubsequence(Filter(p, s), s)
  {
    if s != [] {
      FilterIsSubsequence(p, s[1..]);
      var r := Filter(p, s[1..]);
      if !p(s[0]) && r != [] {
        assert r[0] in r;
        assert r[0] != s[0];
      }
    }
  }

  lemma {:induction false} FilterConcat<T(!new)>(p: T -> bool, a: seq<T>, b: seq<T>)
    ensures Filter(p, a + b) == Filter(p, a) + Filter(p, b)
  {
    if a == [] {
      assert a + b == b;
    } else {
      assert (a + b)[1..] == a[1..] + b;
      FilterConcat(p, a[1..], b);
    }
  }

  lemma {:induction false} FilterKeepsAll<T(!new)>(p: T -> bool, s: seq<T>)
    requires forall x | x in s :: p(x)
    ensures Filter(p, s) == s
  {
    if s != [] {
      assert s[0] in s;
      FilterKeepsAll(p, s[1..]);
    }
  }

  lemma {:induction false} FilterDropsAll<T(!new)>(p: T -> bool, s: seq<T>)
    requires forall x | x in s :: !p(x)
    ensures Filter(p, s) == []
  {
    if s != [] {
      assert s[0] in s;
      FilterDropsAll(p, s[1..]);
    }
  }

  /** Two filters in a row are one filter by the conjunction (the source's
      filter chains). */
  lemma {:induction false} FilterFilter<T(!new)>(p: T -> bool, q: T -> bool, pq: T -> bool, s: seq<T>)
    requires forall x :: pq(x) == (p(x) && q(x))
    ensures Filter(q, Filter(p, s)) == Filter(pq, s)
  {
    if s != [] {
      FilterFilter(p, q, pq, s[1..]);
    }
  }

  /** Filters by two tests that agree everywhere are equal. */
  lemma {:induction false} FilterSame<T(!new)>(p: T -> bool, q: T -> bool, s: seq<T>)
    requires forall x :: p(x) == q(x)
    ensures Filter(p, s) == Filter(q, s)
  {
    if s != [] {
      FilterSame(p, q, s[1..]);
    }
  }

  /** A filter and its complement split a sequence: together they hold every
      element exactly as often as it occurs. */
  lemma {:induction false} FilterComplement<T(!new)>(p: T -> bool, notP: T -> bool, s: seq<T>)
    requires forall x :: notP(x) == !p(x)
    ensures multiset(Filter(p, s)) + multiset(Filter(notP, s)) == multiset(s)
    ensures |Filter(p, s)| + |Filter(notP, s)| == |s|
  {
    if s != [] {
      FilterComplement(p, notP, s[1..]);
      assert s == [s[0]] + s[1..];
    }
  }

  /** The elements that pass, followed by those that fail, are partitioned. */
  lemma FilterThenComplementIsPartitioned<T(!new)>(p: T -> bool, notP: T -> bool, s: seq<T>)
    requires forall x :: notP(x) == !p(x)
    ensures PartitionedBy(p, Filter(p, s) + Filter(notP, s))
  {
    var a, b := Filter(p, s), Filter(notP, s);
    var r := a + b;
    forall i, j | 0 <= i < j < |r| && p(r[j]) ensures p(r[i]) {
      if j < |a| {
        assert r[i] in a;
      }
    }
  }

  /** A partitioned sequence is its passing elements followed by its failing ones. */
  lemma {:induction false} PartitionedSplits<T(!new)>(p: T -> bool, notP: T -> bool, s: seq<T>)
    requires forall x :: notP(x) == !p(x)
    requires PartitionedBy(p, s)
    ensures s == Filter(p, s) + Filter(notP, s)
  {
    if s != [] {
      assert PartitionedBy(p, s[1..]) by {
        forall i, j | 0 <= i < j < |s[1..]| && p(s[1..][j]) ensures p(s[1..][i]) {
          assert s[1..][j] == s[j + 1] && s[1..][i] == s[i + 1];
        }
      }
      PartitionedSplits(p, notP, s[1..]);
      if !p(s[0]) {
        forall x | x in s[1..] ensures !p(x) {
          var j :| 0 <= j < |s[1..]| && s[1..][j] == x;
          assert s[j + 1] == x;
        }
        FilterDropsAll(p, s[1..]);
      }
    }
  }
}
