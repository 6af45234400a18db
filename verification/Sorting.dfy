/** Python's sort: stable, by any total order of keys. `reverse=True` is the same sort by the opposite order. */
module Sorting {

  ghost predicate TotalPreorder<T(!new)>(leq: (T, T) -> bool) {
    && (forall a, b :: leq(a, b) || leq(b, a))
    && (forall a, b, c :: leq(a, b) && leq(b, c) ==> leq(a, c))
  }

  function Insert<T>(x: T, s: seq<T>, leq: (T, T) -> bool): seq<T> {
    if s == [] || leq(x, s[0]) then [x] + s else [s[0]] + Insert(x, s[1..], leq)
  }

  function SortBy<T>(s: seq<T>, leq: (T, T) -> bool): seq<T> {
    if s == [] then [] else Insert(s[0], SortBy(s[1..], leq), leq)
  }

  ghost predicate Sorted<T>(s: seq<T>, leq: (T, T) -> bool) {
    forall i, j :: 0 <= i < j < |s| ==> leq(s[i], s[j])
  }

  // The members of s that tie with `e`, in their order.
  function Ties<T>(s: seq<T>, leq: (T, T) -> bool, e: T): seq<T> {
    if s == [] then [] else (if leq(s[0], e) && leq(e, s[0]) then [s[0]] else []) + Ties(s[1..], leq, e)
  }

  lemma {:induction false} InsertMultiset<T>(x: T, s: seq<T>, leq: (T, T) -> bool)
    ensures multiset(Insert(x, s, leq)) == multiset(s) + multiset{x}
  {
    if s != [] && !leq(x, s[0]) {
      InsertMultiset(x, s[1..], leq);
      assert s == [s[0]] + s[1..];
    }
  }

  lemma {:induction false} InsertSorted<T(!new)>(x: T, s: seq<T>, leq: (T, T) -> bool)
    requires TotalPreorder(leq) && Sorted(s, leq)
    ensures Sorted(Insert(x, s, leq), leq)
    ensures |Insert(x, s, leq)| > 0 && (Insert(x, s, leq)[0] == x || (s != [] && Insert(x, s, leq)[0] == s[0]))
  {
    if s != [] && !leq(x, s[0]) {
      InsertSorted(x, s[1..], leq);
      var t := Insert(x, s[1..], leq);
      assert leq(s[0], t[0]);
      forall i | 0 <= i < |t| ensures leq(s[0], t[i]) {
        assert i == 0 || leq(t[0], t[i]);
      }
    } else if s != [] {
      forall i | 0 <= i < |s| ensures leq(x, s[i]) {
        assert i == 0 || leq(s[0], s[i]);
      }
    }
  }

  /** The result has the same elements, each as often. */
  lemma {:induction false} SortByMultiset<T>(s: seq<T>, leq: (T, T) -> bool)
    ensures multiset(SortBy(s, leq)) == multiset(s)
    ensures |SortBy(s, leq)| == |s|
  {
    if s != [] {
      SortByMultiset(s[1..], leq);
      InsertMultiset(s[0], SortBy(s[1..], leq), leq);
      assert s == [s[0]] + s[1..];
    }
    assert |multiset(SortBy(s, leq))| == |multiset(s)|;
  }

  lemma SortByMember<T>(s: seq<T>, leq: (T, T) -> bool, x: T)
    ensures x in SortBy(s, leq) <==> x in s
  {
    SortByMultiset(s, leq);
    assert x in SortBy(s, leq) <==> x in multiset(SortBy(s, leq));
    assert x in s <==> x in multiset(s);
  }

  /** ... in order ... */
  lemma {:induction false} SortBySorted<T(!new)>(s: seq<T>, leq: (T, T) -> bool)
    requires TotalPreorder(leq)
    ensures Sorted(SortBy(s, leq), leq)
  {
    if s != [] {
      SortBySorted(s[1..], leq);
      InsertSorted(s[0], SortBy(s[1..], leq), leq);
    }
  }

  lemma TiesCons<T>(x: T, s: seq<T>, leq: (T, T) -> bool, e: T)
    ensures Ties([x] + s, leq, e) == (if leq(x, e) && leq(e, x) then [x] else []) + Ties(s, leq, e)
  {
    assert ([x] + s)[1..] == s;
  }

  lemma NotBothTie<T(!new)>(x: T, y: T, leq: (T, T) -> bool, e: T)
    requires TotalPreorder(leq) && !leq(x, y)
    ensures leq(x, e) ==> !leq(e, y)
  {
  }

  lemma {:induction false} InsertStable<T(!new)>(x: T, s: seq<T>, leq: (T, T) -> bool, e: T)
    requires TotalPreorder(leq)
    ensures Ties(Insert(x, s, leq), leq, e) == (if leq(x, e) && leq(e, x) then [x] else []) + Ties(s, leq, e)
  {
    if s == [] || leq(x, s[0]) {
      TiesCons(x, s, leq, e);
    } else {
      var t := Insert(x, s[1..], leq);
      InsertStable(x, s[1..], leq, e);
      TiesCons(s[0], t, leq, e);
      NotBothTie(x, s[0], leq, e);
    }
  }

  /** ... and elements that tie keep their order. */
  lemma {:induction false} SortByStable<T(!new)>(s: seq<T>, leq: (T, T) -> bool, e: T)
    requires TotalPreorder(leq)
    ensures Ties(SortBy(s, leq), leq, e) == Ties(s, leq, e)
  {
    if s != [] {
      SortByStable(s[1..], leq, e);
      InsertStable(s[0], SortBy(s[1..], leq), leq, e);
    }
  }

  // ----- integers ------------------------------------------------------------------

  function IntLeq(a: int, b: int): bool { a <= b }

  function SortInts(s: seq<int>): (r: seq<int>)
    ensures |r| == |s|
    ensures forall i, j :: 0 <= i <= j < |r| ==> r[i] <= r[j]
    ensures forall x :: x in r <==> x in s
  {
    SortByMultiset(s, IntLeq);
    SortBySorted(s, IntLeq);
    var r := SortBy(s, IntLeq);
    assert forall i, j :: 0 <= i < j < |r| ==> IntLeq(r[i], r[j]);
    assert forall x :: x in r <==> x in multiset(r);
    r
  }

  // ----- medians ---------------------------------------------------------------------

  // Twice statistics.median: the middle element doubled, or the sum of the two middle ones.
  function DoubledMedian(s: seq<int>): int
    requires s != []
  {
    var t := SortInts(s);
    t[(|t| - 1) / 2] + t[|t| / 2]
  }

  // How many elements are at most / at least a bound.
  function AtMost(s: seq<int>, bound: int): nat {
    if s == [] then 0 else (if s[0] <= bound then 1 else 0) + AtMost(s[1..], bound)
  }

  function AtLeast(s: seq<int>, bound: int): nat {
    if s == [] then 0 else (if s[0] >= bound then 1 else 0) + AtLeast(s[1..], bound)
  }

  lemma {:induction false} InsertCounts(x: int, s: seq<int>, bound: int)
    ensures AtMost(Insert(x, s, IntLeq), bound) == AtMost(s, bound) + (if x <= bound then 1 else 0)
    ensures AtLeast(Insert(x, s, IntLeq), bound) == AtLeast(s, bound) + (if x >= bound then 1 else 0)
  {
    if s == [] || x <= s[0] {
      assert ([x] + s)[1..] == s;
    } else {
      InsertCounts(x, s[1..], bound);
      var t := Insert(x, s[1..], IntLeq);
      assert ([s[0]] + t)[1..] == t;
    }
  }

  lemma {:induction false} SortCounts(s: seq<int>, bound: int)
    ensures AtMost(SortBy(s, IntLeq), bound) == AtMost(s, bound)
    ensures AtLeast(SortBy(s, IntLeq), bound) == AtLeast(s, bound)
  {
    if s != [] {
      SortCounts(s[1..], bound);
      InsertCounts(s[0], SortBy(s[1..], IntLeq), bound);
    }
  }

  lemma {:induction false} LowPart(s: seq<int>, k: nat, bound: int)
    requires k <= |s| && forall i :: 0 <= i < k ==> s[i] <= bound
    ensures AtMost(s, bound) >= k
  {
    if k > 0 { LowPart(s[1..], k - 1, bound); }
  }

  lemma {:induction false} HighPart(s: seq<int>, k: nat, bound: int)
    requires k <= |s| && forall i :: k <= i < |s| ==> s[i] >= bound
    ensures AtLeast(s, bound) >= |s| - k
  {
    if k > 0 { HighPart(s[1..], k - 1, bound); } else if s != [] { HighPart(s[1..], 0, bound); }
  }

  // `a` stands at place k among the elements in order: at most k are smaller, and more than k are at most `a`.
  predicate RankIs(s: seq<int>, k: int, a: int) {
    |s| - AtLeast(s, a) <= k < AtMost(s, a)
  }

  lemma {:induction false} Complement(s: seq<int>, a: int)
    ensures AtMost(s, a - 1) + AtLeast(s, a) == |s|
  {
    if s != [] { Complement(s[1..], a); }
  }

  lemma {:induction false} AtMostMonotone(s: seq<int>, a: int, b: int)
    requires a <= b
    ensures AtMost(s, a) <= AtMost(s, b)
  {
    if s != [] { AtMostMonotone(s[1..], a, b); }
  }

  lemma RankIsUnique(s: seq<int>, k: int, a: int, b: int)
    requires RankIs(s, k, a) && RankIs(s, k, b)
    ensures a == b
  {
    Complement(s, a);
    Complement(s, b);
    if a < b { AtMostMonotone(s, a, b - 1); }
    if b < a { AtMostMonotone(s, b, a - 1); }
  }

  lemma SortedRank(s: seq<int>, k: nat)
    requires k < |s|
    ensures RankIs(s, k, SortInts(s)[k])
  {
    var t := SortBy(s, IntLeq);
    assert t == SortInts(s);
    LowPart(t, k + 1, t[k]);
    HighPart(t, k, t[k]);
    SortCounts(s, t[k]);
    SortByMultiset(s, IntLeq);
  }

  /** The median, from the ranks alone: the sum of the element below and the element above the middle, which
      are the same when the number of elements is odd. */
  lemma DoubledMedianIs(s: seq<int>, a: int, b: int)
    requires s != [] && RankIs(s, (|s| - 1) / 2, a) && RankIs(s, |s| / 2, b)
    ensures DoubledMedian(s) == a + b
  {
    Middle(|s|);
    SortedRank(s, (|s| - 1) / 2);
    SortedRank(s, |s| / 2);
    RankIsUnique(s, (|s| - 1) / 2, a, SortInts(s)[(|s| - 1) / 2]);
    RankIsUnique(s, |s| / 2, b, SortInts(s)[|s| / 2]);
  }

  lemma Middle(n: nat)
    requires n > 0
    ensures (n - 1) / 2 <= n / 2 < n
    ensures 2 * ((n - 1) / 2 + 1) >= n && 2 * (n - n / 2) >= n
  {
  }

  lemma MedianBounds(s: seq<int>)
    requires s != []
    ensures SortInts(s)[(|s| - 1) / 2] <= DoubledMedian(s) / 2
    ensures (DoubledMedian(s) + 1) / 2 <= SortInts(s)[|s| / 2]
  {
    var t := SortInts(s);
    Middle(|s|);
    var x, y := t[(|s| - 1) / 2], t[|s| / 2];
    assert x <= y;
    assert DoubledMedian(s) == x + y;
  }

  lemma MiddleSplits(s: seq<int>, k: nat, bound: int)
    requires k < |s|
    ensures SortInts(s)[k] <= bound ==> AtMost(s, bound) >= k + 1
    ensures SortInts(s)[k] >= bound ==> AtLeast(s, bound) >= |s| - k
  {
    var t := SortInts(s);
    SortCounts(s, bound);
    if t[k] <= bound { LowPart(t, k + 1, bound); }
    if t[k] >= bound { HighPart(t, k, bound); }
  }

  /** At least half of the elements are not above the median, and at least half are not below it. */
  lemma DoubledMedianSplits(s: seq<int>)
    requires s != []
    ensures 2 * AtMost(s, DoubledMedian(s) / 2) >= |s|
    ensures 2 * AtLeast(s, (DoubledMedian(s) + 1) / 2) >= |s|
  {
    MedianBounds(s);
    Middle(|s|);
    MiddleSplits(s, (|s| - 1) / 2, DoubledMedian(s) / 2);
    MiddleSplits(s, |s| / 2, (DoubledMedian(s) + 1) / 2);
  }
}
