/**
 * Sequence operations the core borrows from the JavaScript runtime:
 * `Array.prototype.filter`, `Array.from(new Set(xs))` (duplicates dropped,
 * first-occurrence order kept) and `Array.prototype.sort` with a comparator
 * (stable since ECMAScript 2019), the latter over an abstract total preorder
 * standing for `String.prototype.localeCompare`.
 */
module Collections {
  import opened Common

  // ---------------------------------------------------------------- filter

  /** `s.filter(p)`. */
  function Filter<T>(s: seq<T>, p: T -> bool): (r: seq<T>)
    ensures |r| <= |s|
    ensures forall i :: 0 <= i < |r| ==> r[i] in s && p(r[i])
    ensures forall i :: 0 <= i < |s| && p(s[i]) ==> s[i] in r
  {
    if s == [] then []
    else (if p(s[0]) then [s[0]] else []) + Filter(s[1..], p)
  }

  /** `r` is `s` with some elements dropped and the rest kept in order. */
  predicate IsSubsequence<T(==)>(r: seq<T>, s: seq<T>)
    decreases |s|
  {
    if s == [] then r == []
    else (r != [] && r[0] == s[0] && IsSubsequence(r[1..], s[1..])) || IsSubsequence(r, s[1..])
  }

  lemma {:induction false} FilterIsSubsequence<T>(s: seq<T>, p: T -> bool)
    ensures IsSubsequence(Filter(s, p), s)
  {
    if s != [] {
      FilterIsSubsequence(s[1..], p);
      if p(s[0]) {
        assert Filter(s, p) == [s[0]] + Filter(s[1..], p);
        assert Filter(s, p)[1..] == Filter(s[1..], p);
      } else {
        assert Filter(s, p) == Filter(s[1..], p);
      }
    }
  }

  /** A filter keeps every copy of an element that satisfies the predicate, and no copy of any other. */
  lemma {:induction false} FilterMultiset<T>(s: seq<T>, p: T -> bool)
    ensures forall x :: multiset(Filter(s, p))[x] == if p(x) then multiset(s)[x] else 0
  {
    if s != [] {
      FilterMultiset(s[1..], p);
      assert s == [s[0]] + s[1..];
    }
  }

  /** Filtering a sequence grown by one element, as a loop that pushes the kept elements sees it. */
  lemma {:induction false} FilterSnoc<T>(s: seq<T>, x: T, p: T -> bool)
    ensures Filter(s + [x], p) == Filter(s, p) + (if p(x) then [x] else [])
  {
    if s == [] {
      assert s + [x] == [x];
    } else {
      assert (s + [x])[1..] == s[1..] + [x];
      FilterSnoc(s[1..], x, p);
    }
  }

  /** Filtering by predicates that agree on the elements gives the same result. */
  lemma {:induction false} FilterCongruent<T>(s: seq<T>, p: T -> bool, q: T -> bool)
    requires forall i :: 0 <= i < |s| ==> p(s[i]) == q(s[i])
    ensures Filter(s, p) == Filter(s, q)
  {
    if s != [] {
      FilterCongruent(s[1..], p, q);
    }
  }

  /** A filter that keeps everything is the identity. */
  lemma {:induction false} FilterAll<T>(s: seq<T>, p: T -> bool)
    requires forall i :: 0 <= i < |s| ==> p(s[i])
    ensures Filter(s, p) == s
  {
    if s != [] {
      FilterAll(s[1..], p);
    }
  }

  /** Filtering by a predicate and by its negation splits the sequence into two parts. */
  lemma {:induction false} FilterPartition<T>(s: seq<T>, p: T -> bool, q: T -> bool)
    requires forall x :: q(x) == !p(x)
    ensures multiset(Filter(s, p)) + multiset(Filter(s, q)) == multiset(s)
  {
    if s != [] {
      var t := s[1..];
      FilterPartition(t, p, q);
      assert s == [s[0]] + t;
      if p(s[0]) {
        assert Filter(s, p) == [s[0]] + Filter(t, p);
        assert Filter(s, q) == Filter(t, q);
      } else {
        assert Filter(s, p) == Filter(t, p);
        assert Filter(s, q) == [s[0]] + Filter(t, q);
      }
    }
  }

  /** `s.findIndex(p)`, or None where it gives -1. */
  function FindFirst<T>(s: seq<T>, p: T -> bool): (k: Option<nat>)
    ensures k.Some? ==> k.value < |s| && p(s[k.value]) && forall j :: 0 <= j < k.value ==> !p(s[j])
    ensures k.None? ==> forall j :: 0 <= j < |s| ==> !p(s[j])
  {
    if s == [] then None
    else if p(s[0]) then Some(0)
    else match FindFirst(s[1..], p)
      case None => None
      case Some(k) => Some(k + 1)
  }

  /** The first element a filter keeps is the first element that satisfies the predicate. */
  lemma {:induction false} FilterHeadIsFirst<T>(s: seq<T>, p: T -> bool)
    ensures Filter(s, p) != [] <==> FindFirst(s, p).Some?
    ensures Filter(s, p) != [] ==> Filter(s, p)[0] == s[FindFirst(s, p).value]
  {
    if s != [] && !p(s[0]) {
      FilterHeadIsFirst(s[1..], p);
    }
  }

  // ---------------------------------------------------------------- dedup

  predicate NoDuplicates<T(==)>(s: seq<T>) {
    forall i, j :: 0 <= i < j < |s| ==> s[i] != s[j]
  }

  /** Index of the first occurrence of `x` in `s`. */
  function FirstIndex<T(==)>(s: seq<T>, x: T): (k: nat)
    requires x in s
    ensures k < |s| && s[k] == x
    ensures forall j :: 0 <= j < k ==> s[j] != x
  {
    if s[0] == x then 0 else 1 + FirstIndex(s[1..], x)
  }

  lemma {:induction false} FirstIndexInPrefix<T>(s: seq<T>, n: nat, x: T)
    requires n <= |s| && x in s[..n]
    ensures FirstIndex(s, x) == FirstIndex(s[..n], x)
  {
    var k := FirstIndex(s[..n], x);
    var m := FirstIndex(s, x);
    assert s[k] == x;
    assert s[..n][m] == x by {
      assert m <= k;
    }
  }

  /** `r` holds the distinct elements of `s` once each, in first-occurrence order. */
  ghost predicate DistinctInFirstOrder<T>(r: seq<T>, s: seq<T>) {
    && (forall i :: 0 <= i < |r| ==> r[i] in s)
    && (forall i :: 0 <= i < |s| ==> s[i] in r)
    && NoDuplicates(r)
    && (forall i, j :: 0 <= i < j < |r| ==> FirstIndex(s, r[i]) < FirstIndex(s, r[j]))
  }

  /** Appending one element to the input keeps the first-occurrence order. */
  lemma DistinctInFirstOrderSnoc<T>(init: seq<T>, last: T, r: seq<T>)
    requires DistinctInFirstOrder(r, init)
    ensures last in r ==> DistinctInFirstOrder(r, init + [last])
    ensures last !in r ==> DistinctInFirstOrder(r + [last], init + [last])
  {
    var s := init + [last];
    assert s[..|init|] == init;
    forall x | x in init ensures FirstIndex(s, x) == FirstIndex(init, x) {
      FirstIndexInPrefix(s, |init|, x);
    }
    if last !in r {
      assert last !in init;
      assert FirstIndex(s, last) == |init|;
    }
  }

  /**
   * `Array.from(new Set(s))`: every distinct element of `s` once, in the order
   * of its first occurrence.
   */
  function Dedup<T(==)>(s: seq<T>): (r: seq<T>)
    ensures forall i :: 0 <= i < |r| ==> r[i] in s
    ensures forall i :: 0 <= i < |s| ==> s[i] in r
    ensures NoDuplicates(r)
    ensures forall i, j :: 0 <= i < j < |r| ==> FirstIndex(s, r[i]) < FirstIndex(s, r[j])
  {
    if s == [] then []
    else
      var init := s[..|s| - 1];
      var last := s[|s| - 1];
      var r := Dedup(init);
      assert s == init + [last];
      DistinctInFirstOrderSnoc(init, last, r);
      if last in r then r else r + [last]
  }

  /** A sequence without duplicates is left as it is. */
  lemma {:induction false} DedupOfDistinct<T>(s: seq<T>)
    requires NoDuplicates(s)
    ensures Dedup(s) == s
  {
    if s != [] {
      var init := s[..|s| - 1];
      var last := s[|s| - 1];
      DedupOfDistinct(init);
      assert last !in Dedup(init);
      assert Dedup(s) == Dedup(init) + [last];
      assert s == init + [last];
    }
  }

  // ---------------------------------------------------------------- sort

  /** What `localeCompare` is assumed to induce: a total preorder on strings. */
  ghost predicate TotalPreorder(le: (string, string) -> bool) {
    && (forall a, b :: le(a, b) || le(b, a))
    && (forall a, b, c :: le(a, b) && le(b, c) ==> le(a, c))
  }

  predicate SortedBy<T>(s: seq<T>, key: T -> string, le: (string, string) -> bool) {
    forall i, j :: 0 <= i < j < |s| ==> le(key(s[i]), key(s[j]))
  }

  /**
   * Insert `x` into sorted `s` after every element that does not sort
   * strictly after it (which keeps the sort stable).
   */
  function Insert<T>(x: T, s: seq<T>, key: T -> string, le: (string, string) -> bool): (r: seq<T>)
    requires TotalPreorder(le) && SortedBy(s, key, le)
    ensures SortedBy(r, key, le)
    ensures multiset(r) == multiset(s) + multiset{x}
    decreases |s|, 0
  {
    if s == [] then [x]
    else if !le(key(s[0]), key(x)) then
      assert le(key(x), key(s[0]));
      [x] + s
    else
      var t := Insert(x, s[1..], key, le);
      assert s == [s[0]] + s[1..];
      InsertedAbove(x, s[1..], key, le, key(s[0]));
      [s[0]] + t
  }

  /** Every element of `Insert(x, s, ...)` is `x` or an element of `s`, so a common lower bound carries over. */
  lemma InsertedAbove<T>(x: T, s: seq<T>, key: T -> string, le: (string, string) -> bool, low: string)
    requires TotalPreorder(le) && SortedBy(s, key, le)
    requires le(low, key(x)) && forall k :: 0 <= k < |s| ==> le(low, key(s[k]))
    ensures forall k :: 0 <= k < |Insert(x, s, key, le)| ==> le(low, key(Insert(x, s, key, le)[k]))
    decreases |s|, 1
  {
    var t := Insert(x, s, key, le);
    forall k | 0 <= k < |t| ensures le(low, key(t[k])) {
      assert t[k] in multiset(t);
      if t[k] != x {
        assert t[k] in multiset(s);
        var m :| 0 <= m < |s| && s[m] == t[k];
      }
    }
  }

  /** `s.sort((a, b) => compare(key(a), key(b)))`: a sorted permutation of `s`. */
  function SortBy<T>(s: seq<T>, key: T -> string, le: (string, string) -> bool): (r: seq<T>)
    requires TotalPreorder(le)
    ensures SortedBy(r, key, le)
    ensures multiset(r) == multiset(s)
    ensures |r| == |s|
  {
    if s == [] then []
    else
      var r := Insert(s[|s| - 1], SortBy(s[..|s| - 1], key, le), key, le);
      assert s == s[..|s| - 1] + [s[|s| - 1]];
      assert |r| == |multiset(r)| == |multiset(s)| == |s|;
      r
  }
}
