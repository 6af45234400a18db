/** Which windows the peak walk finds, and which of them are kept. */
module PeakTheorems {
  import opened Sorting
  import opened Peaks

  // A stretch of qualifying adjacent buckets that cannot be made longer on either side.
  predicate Maximal(bs: seq<Bucket>, threshold: int, r: Run) {
    && r.first <= r.last < |bs|
    && Qualifies(bs, threshold, r.first)
    && (forall k :: r.first <= k < r.last ==> Joined(bs, threshold, k))
    && !Joined(bs, threshold, r.first - 1) && !Joined(bs, threshold, r.last)
  }

  predicate InOrder(runs: seq<Run>) {
    forall i, j :: 0 <= i < j < |runs| ==> runs[i].last < runs[j].first
  }

  predicate AllMaximal(bs: seq<Bucket>, threshold: int, runs: seq<Run>) {
    forall i :: 0 <= i < |runs| ==> Maximal(bs, threshold, runs[i])
  }

  predicate Within(r: Run, k: int) {
    r.first <= k <= r.last
  }

  predicate Covered(runs: seq<Run>, k: int) {
    exists i :: 0 <= i < |runs| && Within(runs[i], k)
  }

  ghost predicate AllCovered(bs: seq<Bucket>, threshold: int, runs: seq<Run>) {
    forall k :: Qualifies(bs, threshold, k) ==> Covered(runs, k)
  }

  lemma FrontAgrees(bs: seq<Bucket>, threshold: int, k: int)
    requires bs != []
    ensures k < |bs| - 1 ==> (Qualifies(bs[..|bs| - 1], threshold, k) <==> Qualifies(bs, threshold, k))
    ensures k < |bs| - 2 ==> (Joined(bs[..|bs| - 1], threshold, k) <==> Joined(bs, threshold, k))
  {
  }

  // A maximal run stays one when a bucket is added, unless the bucket continues it.
  lemma StaysMaximal(bs: seq<Bucket>, threshold: int, r: Run)
    requires bs != [] && Maximal(bs[..|bs| - 1], threshold, r)
    ensures r.last < |bs| - 2 || !Joined(bs, threshold, r.last) ==> Maximal(bs, threshold, r)
  {
    FrontAgrees(bs, threshold, r.first);
    FrontAgrees(bs, threshold, r.first - 1);
    FrontAgrees(bs, threshold, r.last);
    forall k | r.first <= k < r.last ensures Joined(bs, threshold, k) {
      FrontAgrees(bs, threshold, k);
      assert Joined(bs[..|bs| - 1], threshold, k);
    }
  }

  lemma Continues(bs: seq<Bucket>, threshold: int, r: Run)
    requires |bs| >= 2 && Maximal(bs[..|bs| - 1], threshold, r)
    requires r.last == |bs| - 2 && Joined(bs, threshold, r.last)
    ensures Maximal(bs, threshold, Run(r.first, |bs| - 1))
  {
    FrontAgrees(bs, threshold, r.first);
    FrontAgrees(bs, threshold, r.first - 1);
    forall k | r.first <= k < |bs| - 1 ensures Joined(bs, threshold, k) {
      FrontAgrees(bs, threshold, k);
      assert k < r.last ==> Joined(bs[..|bs| - 1], threshold, k);
    }
  }

  lemma NextInOrder(bs: seq<Bucket>, threshold: int, runs: seq<Run>)
    requires bs != [] && Valid(runs, |bs| - 1) && InOrder(runs)
    ensures InOrder(NextRuns(bs, runs, threshold))
  {
  }

  lemma NextMaximal(bs: seq<Bucket>, threshold: int, runs: seq<Run>)
    requires bs != [] && Valid(runs, |bs| - 1) && InOrder(runs) && AllMaximal(bs[..|bs| - 1], threshold, runs)
    requires Qualifies(bs[..|bs| - 1], threshold, |bs| - 2) <==> EndsAt(runs, |bs| - 2)
    ensures AllMaximal(bs, threshold, NextRuns(bs, runs, threshold))
  {
    var n, next := |bs| - 1, NextRuns(bs, runs, threshold);
    FrontAgrees(bs, threshold, n - 1);
    forall i | 0 <= i < |next| ensures Maximal(bs, threshold, next[i]) {
      if i < |runs| && next[i] == runs[i] {
        StaysMaximal(bs, threshold, runs[i]);
        if runs[i].last == n - 1 { assert i == |runs| - 1; }
      } else if i < |runs| {
        Continues(bs, threshold, runs[i]);
      } else {
        assert next[i] == Run(n, n);
      }
    }
  }

  lemma NextCovered(bs: seq<Bucket>, threshold: int, runs: seq<Run>)
    requires bs != [] && Valid(runs, |bs| - 1) && AllCovered(bs[..|bs| - 1], threshold, runs)
    ensures AllCovered(bs, threshold, NextRuns(bs, runs, threshold))
  {
    var n, next := |bs| - 1, NextRuns(bs, runs, threshold);
    forall k | Qualifies(bs, threshold, k) ensures Covered(next, k) {
      if k < n {
        FrontAgrees(bs, threshold, k);
        var i :| 0 <= i < |runs| && Within(runs[i], k);
        assert Within(next[i], k);
      } else {
        assert Within(next[|next| - 1], k);
      }
    }
  }

  lemma {:induction false} RunsOk(bs: seq<Bucket>, threshold: int)
    ensures var runs := Runs(bs, threshold);
            InOrder(runs) && AllMaximal(bs, threshold, runs) && AllCovered(bs, threshold, runs)
  {
    if bs != [] {
      var front := bs[..|bs| - 1];
      RunsOk(front, threshold);
      NextInOrder(bs, threshold, Runs(front, threshold));
      NextMaximal(bs, threshold, Runs(front, threshold));
      NextCovered(bs, threshold, Runs(front, threshold));
    }
  }

  // Two maximal runs that share a bucket are the same run.
  lemma MaximalIsUnique(bs: seq<Bucket>, threshold: int, q: Run, r: Run, k: int)
    requires Maximal(bs, threshold, q) && Maximal(bs, threshold, r) && Within(q, k) && Within(r, k)
    ensures q == r
  {
    assert q.first < r.first ==> Joined(bs, threshold, r.first - 1);
    assert r.first < q.first ==> Joined(bs, threshold, q.first - 1);
    assert q.last < r.last ==> Joined(bs, threshold, q.last);
    assert r.last < q.last ==> Joined(bs, threshold, r.last);
  }

  // ----- the theorems ---------------------------------------------------------------------

  /** The runs behind the windows are exactly the maximal runs. */
  lemma RunsAreTheMaximalRuns(bs: seq<Bucket>, threshold: int, r: Run)
    ensures r in Runs(bs, threshold) <==> Maximal(bs, threshold, r)
  {
    var runs := Runs(bs, threshold);
    RunsOk(bs, threshold);
    if Maximal(bs, threshold, r) {
      assert Covered(runs, r.first);
      var i :| 0 <= i < |runs| && Within(runs[i], r.first);
      MaximalIsUnique(bs, threshold, runs[i], r, r.first);
    }
  }

  lemma MaximalQualifies(bs: seq<Bucket>, threshold: int, r: Run, k: int)
    requires Maximal(bs, threshold, r) && Within(r, k)
    ensures Qualifies(bs, threshold, k)
  {
    if r.first < k { assert Joined(bs, threshold, k - 1); }
  }

  // In order, two runs never share a bucket.
  lemma InOrderIsDisjoint(runs: seq<Run>, i: nat, j: nat, k: int)
    requires InOrder(runs) && i < |runs| && j < |runs| && Within(runs[i], k) && Within(runs[j], k)
    ensures i == j
  {
  }

  predicate InOneAtMost(runs: seq<Run>, k: int) {
    forall i, j :: 0 <= i < |runs| && 0 <= j < |runs| && Within(runs[i], k) && Within(runs[j], k) ==> i == j
  }

  lemma CoverageIs(bs: seq<Bucket>, threshold: int, runs: seq<Run>, k: int)
    requires InOrder(runs) && AllMaximal(bs, threshold, runs) && AllCovered(bs, threshold, runs)
    ensures Qualifies(bs, threshold, k) <==> Covered(runs, k)
    ensures InOneAtMost(runs, k)
  {
    forall i, j | 0 <= i < |runs| && 0 <= j < |runs| && Within(runs[i], k) && Within(runs[j], k) ensures i == j {
      InOrderIsDisjoint(runs, i, j, k);
    }
    if i :| 0 <= i < |runs| && Within(runs[i], k) {
      MaximalQualifies(bs, threshold, runs[i], k);
    }
  }

  /** Every qualifying bucket is in exactly one window, and no other bucket is in any. */
  lemma EachBucketOnce(bs: seq<Bucket>, threshold: int, k: int)
    ensures Qualifies(bs, threshold, k) <==> Covered(Runs(bs, threshold), k)
    ensures InOneAtMost(Runs(bs, threshold), k)
  {
    RunsOk(bs, threshold);
    CoverageIs(bs, threshold, Runs(bs, threshold), k);
  }

  // Sixty-second buckets in time order.
  predicate Apart(bs: seq<Bucket>) {
    forall i, j :: 0 <= i < j < |bs| ==> bs[i].start + 60 <= bs[j].start
  }

  /** On ordered sixty-second buckets the windows follow each other in time and never overlap. */
  lemma WindowsAreDisjoint(bs: seq<Bucket>, threshold: int, i: nat, j: nat)
    requires Apart(bs) && i < j < |Walked(bs, threshold)|
    ensures var ws := Walked(bs, threshold); ws[i].start < ws[i].end <= ws[j].start < ws[j].end
  {
    WalkedAreRuns(bs, threshold);
    RunsInOrder(bs, threshold);
    WindowsInOrder(bs, Runs(bs, threshold), i, j);
  }

  lemma RunsInOrder(bs: seq<Bucket>, threshold: int)
    ensures InOrder(Runs(bs, threshold))
  {
    RunsOk(bs, threshold);
  }

  lemma WindowsInOrder(bs: seq<Bucket>, runs: seq<Run>, i: nat, j: nat)
    requires Apart(bs) && Valid(runs, |bs|) && InOrder(runs) && i < j < |runs|
    ensures var ws := Windows(bs, runs); ws[i].start < ws[i].end <= ws[j].start < ws[j].end
  {
    var q, r := runs[i], runs[j];
    assert q.first <= q.last < r.first <= r.last;
    assert Windows(bs, runs)[i] == WindowOf(bs, q) && Windows(bs, runs)[j] == WindowOf(bs, r);
    assert bs[q.first].start <= bs[q.last].start && bs[r.first].start <= bs[r.last].start;
  }

  /** A window's highest count is the highest of its buckets. */
  lemma {:induction false} TopIsHighest(bs: seq<Bucket>, r: Run)
    requires r.first <= r.last < |bs|
    ensures forall k :: r.first <= k <= r.last ==> bs[k].count <= Top(bs, r)
    ensures exists k :: r.first <= k <= r.last && bs[k].count == Top(bs, r)
    decreases r.last
  {
    if r.first == r.last {
      assert bs[r.last].count == Top(bs, r);
    } else {
      var shorter := Run(r.first, r.last - 1);
      TopIsHighest(bs, shorter);
      var k :| shorter.first <= k <= shorter.last && bs[k].count == Top(bs, shorter);
      assert bs[k].count == Top(bs, r) || bs[r.last].count == Top(bs, r);
    }
  }

  lemma HigherFirstIsAnOrder()
    ensures TotalPreorder(HigherFirst)
  {
  }

  /** Each window's score is its highest count over the baseline and at least 2, from at least ten messages. */
  lemma ScoresAreAtLeastTwo(bs: seq<Bucket>, i: nat)
    requires bs != []
    requires i < |Walked(bs, Threshold(DoubledBaseline(bs)))|
    ensures Score(Walked(bs, Threshold(DoubledBaseline(bs)))[i], DoubledBaseline(bs)) >= 2.0
    ensures Walked(bs, Threshold(DoubledBaseline(bs)))[i].top >= 10
  {
    var base := DoubledBaseline(bs);
    var threshold := Threshold(base);
    WalkedAreRuns(bs, threshold);
    RunsOk(bs, threshold);
    var r := Runs(bs, threshold)[i];
    assert Maximal(bs, threshold, r);
    TopIsHighest(bs, r);
    assert Top(bs, r) >= base;
    RatioAtLeastTwo(2 * Top(bs, r), base);
  }

  lemma RatioAtLeastTwo(a: int, b: int)
    requires b > 0 && a >= 2 * b
    ensures a as real / b as real >= 2.0
  {
    var x, y := a as real, b as real;
    assert x >= 2.0 * y;
    assert x / y >= (2.0 * y) / y;
  }

  /** The result is the windows in descending score, cut to the first topN: what is left out scores no more
      than anything kept, and equal scores stay in the order of time. */
  lemma PeaksAreTheTop(bs: seq<Bucket>, topN: nat, e: PeakWindow)
    requires bs != []
    ensures var ws := Walked(bs, Threshold(DoubledBaseline(bs)));
            var kept := TopPeaks(bs, topN);
            var sorted := SortBy(ws, HigherFirst);
            && kept <= sorted && |kept| == (if topN <= |ws| then topN else |ws|)
            && multiset(sorted) == multiset(ws)
            && (forall i, j :: 0 <= i < j < |sorted| ==> sorted[i].top >= sorted[j].top)
            && Ties(sorted, HigherFirst, e) == Ties(ws, HigherFirst, e)
  {
    var ws := Walked(bs, Threshold(DoubledBaseline(bs)));
    var sorted := SortBy(ws, HigherFirst);
    HigherFirstIsAnOrder();
    SortByMultiset(ws, HigherFirst);
    SortBySorted(ws, HigherFirst);
    SortByStable(ws, HigherFirst, e);
    assert forall i, j :: 0 <= i < j < |sorted| ==> HigherFirst(sorted[i], sorted[j]);
  }

  // The order of scores is the order of counts.
  lemma ScoreOrder(v: PeakWindow, w: PeakWindow, base: int)
    requires base > 0
    ensures HigherFirst(v, w) <==> Score(v, base) >= Score(w, base)
  {
    var x, y, b := (2 * v.top) as real, (2 * w.top) as real, base as real;
    if v.top >= w.top {
      assert x >= y;
      assert x / b >= y / b;
    } else {
      assert x < y;
      assert x / b < y / b;
    }
  }
}
