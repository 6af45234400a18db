/**
 Chat-rate peaks (workers/analyze/peaks.py). Times are seconds and a bucket lasts sixty. A score is a
 count over the baseline; all windows of a call share the baseline, so a window keeps its highest count
 and the score is read from it. The baseline is a median, an integer or a half: it is kept doubled.
 */
module Peaks {
  import opened Numbers
  import opened Sorting

  datatype Bucket = Bucket(start: int, count: int)

  datatype PeakWindow = PeakWindow(start: int, end: int, top: int)

  function Counts(buckets: seq<Bucket>): (c: seq<int>)
    ensures |c| == |buckets|
    ensures forall i :: 0 <= i < |c| ==> c[i] == buckets[i].count
  {
    if buckets == [] then [] else Counts(buckets[..|buckets| - 1]) + [buckets[|buckets| - 1].count]
  }

  // Twice max(median, 1.0).
  function DoubledBaseline(buckets: seq<Bucket>): int
    requires buckets != []
  {
    Max(DoubledMedian(Counts(buckets)), 2)
  }

  // max(baseline * MIN_LIFT, MIN_MESSAGES_PER_BUCKET)
  function Threshold(doubledBaseline: int): int {
    Max(doubledBaseline, 10)
  }

  function Score(w: PeakWindow, doubledBaseline: int): real
    requires doubledBaseline > 0
  {
    (2 * w.top) as real / doubledBaseline as real
  }

  // sorted(key=score, reverse=True): the baseline is positive, so the order is that of the counts.
  function HigherFirst(v: PeakWindow, w: PeakWindow): bool {
    v.top >= w.top
  }

  /** A bucket qualifies when it has ten messages and twice the baseline, which is the median, but at least
      one; `a` and `b` are the counts below and above the middle. */
  lemma ThresholdIs(buckets: seq<Bucket>, count: int, a: int, b: int)
    requires buckets != []
    requires RankIs(Counts(buckets), (|buckets| - 1) / 2, a) && RankIs(Counts(buckets), |buckets| / 2, b)
    ensures count >= Threshold(DoubledBaseline(buckets)) <==> count >= 10 && count >= a + b && count >= 2
    ensures var median := (a + b) as real / 2.0;
            DoubledBaseline(buckets) as real == 2.0 * (if median >= 1.0 then median else 1.0)
  {
    DoubledMedianIs(Counts(buckets), a, b);
  }

  /** The score is the highest count over that baseline. */
  lemma ScoreIs(w: PeakWindow, doubledBaseline: int)
    requires doubledBaseline > 0
    ensures Score(w, doubledBaseline) == w.top as real / (doubledBaseline as real / 2.0)
  {
    var x, y := w.top as real, doubledBaseline as real;
    assert (2 * w.top) as real == 2.0 * x;
    assert (2.0 * x) / y == x / (y / 2.0);
  }

  // ----- the runs ------------------------------------------------------------------------

  // The buckets first..last, as one window.
  datatype Run = Run(first: nat, last: nat)

  predicate Qualifies(buckets: seq<Bucket>, threshold: int, k: int) {
    0 <= k < |buckets| && buckets[k].count >= threshold
  }

  // Buckets k and k + 1 both qualify and are adjacent in time.
  predicate Joined(buckets: seq<Bucket>, threshold: int, k: int) {
    && Qualifies(buckets, threshold, k) && Qualifies(buckets, threshold, k + 1)
    && buckets[k + 1].start == buckets[k].start + 60
  }

  predicate Valid(runs: seq<Run>, n: nat) {
    forall i :: 0 <= i < |runs| ==> runs[i].first <= runs[i].last < n
  }

  predicate EndsAt(runs: seq<Run>, k: int) {
    runs != [] && runs[|runs| - 1].last == k
  }

  // The last run reaches one bucket further.
  function Extended(runs: seq<Run>, n: nat): seq<Run>
    requires runs != []
  {
    runs[..|runs| - 1] + [Run(runs[|runs| - 1].first, n)]
  }

  // The runs once the last bucket is seen.
  function NextRuns(buckets: seq<Bucket>, runs: seq<Run>, threshold: int): (next: seq<Run>)
    requires buckets != [] && Valid(runs, |buckets| - 1)
    ensures Valid(next, |buckets|)
  {
    var n := |buckets| - 1;
    if buckets[n].count < threshold then runs
    else if EndsAt(runs, n - 1) && buckets[n].start == buckets[n - 1].start + 60 then Extended(runs, n)
    else runs + [Run(n, n)]
  }

  function Runs(buckets: seq<Bucket>, threshold: int): (runs: seq<Run>)
    ensures Valid(runs, |buckets|)
    ensures Qualifies(buckets, threshold, |buckets| - 1) <==> EndsAt(runs, |buckets| - 1)
  {
    if buckets == [] then [] else NextRuns(buckets, Runs(buckets[..|buckets| - 1], threshold), threshold)
  }

  function Top(buckets: seq<Bucket>, r: Run): int
    requires r.first <= r.last < |buckets|
    decreases r.last
  {
    if r.first == r.last then buckets[r.last].count
    else Max(Top(buckets, Run(r.first, r.last - 1)), buckets[r.last].count)
  }

  function WindowOf(buckets: seq<Bucket>, r: Run): PeakWindow
    requires r.first <= r.last < |buckets|
  {
    PeakWindow(buckets[r.first].start, buckets[r.last].start + 60, Top(buckets, r))
  }

  function Windows(buckets: seq<Bucket>, runs: seq<Run>): (ws: seq<PeakWindow>)
    requires Valid(runs, |buckets|)
    ensures |ws| == |runs|
    ensures forall i :: 0 <= i < |ws| ==> ws[i] == WindowOf(buckets, runs[i])
  {
    if runs == [] then [] else Windows(buckets, runs[..|runs| - 1]) + [WindowOf(buckets, runs[|runs| - 1])]
  }

  // What one bucket does to the list of windows; `open` says the last window is still current.
  function Step(ws: seq<PeakWindow>, open: bool, b: Bucket, threshold: int): seq<PeakWindow> {
    if b.count < threshold then ws
    else if open && ws != [] && b.start == ws[|ws| - 1].end then
      ws[..|ws| - 1] + [PeakWindow(ws[|ws| - 1].start, b.start + 60, Max(ws[|ws| - 1].top, b.count))]
    else ws + [PeakWindow(b.start, b.start + 60, b.count)]
  }

  function Walked(buckets: seq<Bucket>, threshold: int): seq<PeakWindow> {
    if buckets == [] then []
    else
      var n := |buckets| - 1;
      Step(Walked(buckets[..n], threshold), Qualifies(buckets[..n], threshold, n - 1), buckets[n], threshold)
  }

  // While the last bucket qualifies there is a window it belongs to.
  lemma OpenHasAWindow(buckets: seq<Bucket>, threshold: int)
    ensures Qualifies(buckets, threshold, |buckets| - 1) ==> Walked(buckets, threshold) != []
  {
  }

  function Take<T>(s: seq<T>, n: nat): seq<T> {
    if n <= |s| then s[..n] else s
  }

  function TopPeaks(buckets: seq<Bucket>, topN: nat): seq<PeakWindow> {
    if buckets == [] then []
    else Take(SortBy(Walked(buckets, Threshold(DoubledBaseline(buckets))), HigherFirst), topN)
  }

  method DetectPeaks(buckets: seq<Bucket>, topN: nat) returns (peaks: seq<PeakWindow>)
    ensures peaks == TopPeaks(buckets, topN)
  {
    if buckets == [] { return []; }
    var threshold := Threshold(DoubledBaseline(buckets));
    var windows := WalkBuckets(buckets, threshold);
    peaks := Take(SortBy(windows, HigherFirst), topN);
  }

  // `open` is whether the source's `current` is set; it then is the last window of the list.
  method WalkBuckets(buckets: seq<Bucket>, threshold: int) returns (windows: seq<PeakWindow>)
    ensures windows == Walked(buckets, threshold)
  {
    windows := [];
    var open := false;
    for i := 0 to |buckets|
      invariant windows == Walked(buckets[..i], threshold)
      invariant open <==> Qualifies(buckets[..i], threshold, i - 1)
    {
      assert buckets[..i + 1][..i] == buckets[..i];
      OpenHasAWindow(buckets[..i], threshold);
      var start, count := buckets[i].start, buckets[i].count;
      if count < threshold {
        open := false;
        continue;
      }
      if open && start == windows[|windows| - 1].end {
        var current := windows[|windows| - 1];
        windows := windows[..|windows| - 1] + [PeakWindow(current.start, start + 60, Max(current.top, count))];
        continue;
      }
      open := true;
      windows := windows + [PeakWindow(start, start + 60, count)];
    }
    assert buckets[..|buckets|] == buckets;
  }

  // ----- the list holds the windows of the runs ---------------------------------------------

  lemma {:induction false} SameTop(buckets: seq<Bucket>, r: Run)
    requires r.first <= r.last < |buckets| - 1
    ensures Top(buckets[..|buckets| - 1], r) == Top(buckets, r)
    decreases r.last
  {
    if r.first < r.last { SameTop(buckets, Run(r.first, r.last - 1)); }
  }

  lemma SameWindows(buckets: seq<Bucket>, runs: seq<Run>)
    requires buckets != [] && Valid(runs, |buckets| - 1)
    ensures Windows(buckets[..|buckets| - 1], runs) == Windows(buckets, runs)
  {
    forall i | 0 <= i < |runs| ensures WindowOf(buckets[..|buckets| - 1], runs[i]) == WindowOf(buckets, runs[i]) {
      SameTop(buckets, runs[i]);
    }
  }

  lemma SplitWindows(buckets: seq<Bucket>, runs: seq<Run>, r: Run)
    requires r.first <= r.last < |buckets| && Valid(runs, |buckets|)
    ensures Valid(runs + [r], |buckets|)
    ensures Windows(buckets, runs + [r]) == Windows(buckets, runs) + [WindowOf(buckets, r)]
  {
  }

  lemma LastExtends(buckets: seq<Bucket>, runs: seq<Run>)
    requires |buckets| >= 2 && Valid(runs, |buckets| - 1) && EndsAt(runs, |buckets| - 2)
    ensures var m, n := |runs| - 1, |buckets| - 1;
            var ws := Windows(buckets, runs);
            && Valid(Extended(runs, n), |buckets|)
            && Windows(buckets, Extended(runs, n))
               == ws[..m] + [PeakWindow(ws[m].start, buckets[n].start + 60, Max(ws[m].top, buckets[n].count))]
  {
    var m, n := |runs| - 1, |buckets| - 1;
    SplitWindows(buckets, runs[..m], Run(runs[m].first, n));
    assert Windows(buckets, runs)[..m] == Windows(buckets, runs[..m]);
  }

  lemma WindowsStep(buckets: seq<Bucket>, runs: seq<Run>, threshold: int)
    requires buckets != [] && Valid(runs, |buckets| - 1)
    ensures Windows(buckets, NextRuns(buckets, runs, threshold))
      == Step(Windows(buckets, runs), EndsAt(runs, |buckets| - 2), buckets[|buckets| - 1], threshold)
  {
    var n := |buckets| - 1;
    if buckets[n].count < threshold {
    } else if EndsAt(runs, n - 1) && buckets[n].start == buckets[n - 1].start + 60 {
      LastEndsAt(buckets, runs);
      LastExtends(buckets, runs);
    } else {
      if EndsAt(runs, n - 1) { LastEndsAt(buckets, runs); }
      OwnWindow(buckets, runs);
    }
  }

  lemma LastEndsAt(buckets: seq<Bucket>, runs: seq<Run>)
    requires |buckets| >= 2 && Valid(runs, |buckets| - 1) && EndsAt(runs, |buckets| - 2)
    ensures var ws := Windows(buckets, runs); ws != [] && ws[|ws| - 1].end == buckets[|buckets| - 2].start + 60
  {
  }

  lemma OwnWindow(buckets: seq<Bucket>, runs: seq<Run>)
    requires buckets != [] && Valid(runs, |buckets| - 1)
    ensures var n := |buckets| - 1;
            && Valid(runs + [Run(n, n)], |buckets|)
            && Windows(buckets, runs + [Run(n, n)])
               == Windows(buckets, runs) + [PeakWindow(buckets[n].start, buckets[n].start + 60, buckets[n].count)]
  {
    SplitWindows(buckets, runs, Run(|buckets| - 1, |buckets| - 1));
  }

  /** The one-pass walk builds the windows of the runs, in order. */
  lemma {:induction false} WalkedAreRuns(buckets: seq<Bucket>, threshold: int)
    ensures Walked(buckets, threshold) == Windows(buckets, Runs(buckets, threshold))
  {
    if buckets != [] {
      var front := buckets[..|buckets| - 1];
      WalkedAreRuns(front, threshold);
      SameWindows(buckets, Runs(front, threshold));
      WindowsStep(buckets, Runs(front, threshold), threshold);
    }
  }
}
