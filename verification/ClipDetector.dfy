/**
 The online best-moment detector (workers/capture/clip_detector.py) with the constants the capture uses:
 a window of 30 s, a baseline of 300 s, a lift of 3, at least 15 messages, a cooldown of 120 s and at
 most 10 clips. Times are milliseconds of a monotonic clock.
 */
module ClipDetector {
  import opened Wrappers

  // ----- what it means -------------------------------------------------------------------

  predicate Ordered(s: seq<int>) {
    forall i, j :: 0 <= i < j < |s| ==> s[i] <= s[j]
  }

  // The messages since a time.
  function Since(s: seq<int>, t: int): seq<int> {
    if s == [] then [] else Since(s[..|s| - 1], t) + if s[|s| - 1] >= t then [s[|s| - 1]] else []
  }

  predicate NotBefore(s: seq<int>, now: int) {
    s == [] || s[|s| - 1] <= now
  }

  // The baseline: the last 300 s of chat, up to the last message.
  function Baseline(history: seq<int>): seq<int> {
    if history == [] then [] else Since(history, history[|history| - 1] - 300_000)
  }

  // All of the chat ever observed decides; the baseline holds ten windows.
  predicate Clips(history: seq<int>, marks: seq<int>, now: int) {
    && |marks| < 10
    && (marks == [] || now - marks[|marks| - 1] >= 120_000)
    && |Since(history, now - 30_000)| >= 15
    && 10 * |Since(history, now - 30_000)| >= 3 * |Baseline(history)|
  }

  class Detector {
    var times: seq<int>
    var lastClipAt: Option<int>
    var clips: nat

    // Every message ever observed, and every clip ever marked.
    ghost var history: seq<int>
    ghost var marks: seq<int>

    ghost predicate Valid()
      reads this
    {
      && Ordered(history)
      && times == Baseline(history)
      && clips == |marks|
      && lastClipAt == if marks == [] then None else Some(marks[|marks| - 1])
    }

    constructor ()
      ensures Valid() && history == [] && marks == []
    {
      times, lastClipAt, clips := [], None, 0;
      history, marks := [], [];
    }

    method Observe(now: int)
      requires Valid() && NotBefore(history, now)
      modifies this
      ensures Valid() && history == old(history) + [now] && marks == old(marks)
    {
      var cutoff := now - 300_000;
      ghost var kept := Baseline(history + [now]);
      BaselineIsEnough(history, now);
      times := times + [now];
      history := history + [now];
      while times != [] && times[0] < cutoff
        invariant PrunesTo(times, cutoff, kept)
        invariant history == old(history) + [now] && marks == old(marks)
        invariant clips == old(clips) && lastClipAt == old(lastClipAt)
        decreases |times|
      {
        PruneOne(times, cutoff, kept);
        times := times[1..];
      }
      PruneDone(times, cutoff, kept);
    }

    method WindowRate(now: int) returns (rate: nat)
      requires Valid() && NotBefore(history, now)
      ensures rate == |Since(history, now - 30_000)|
    {
      rate := 0;
      for i := 0 to |times|
        invariant rate == |Since(times[..i], now - 30_000)|
      {
        assert times[..i + 1][..i] == times[..i];
        if times[i] >= now - 30_000 { rate := rate + 1; }
      }
      assert times[..|times|] == times;
      WindowInBaseline(history, now);
    }

    method ShouldClip(now: int) returns (yes: bool)
      requires Valid() && NotBefore(history, now)
      ensures yes == Clips(history, marks, now)
    {
      if clips >= 10 { return false; }
      if lastClipAt.Some? && now - lastClipAt.value < 120_000 { return false; }
      var windowCount := WindowRate(now);
      if windowCount < 15 { return false; }
      return 10 * windowCount >= 3 * |times|;
    }

    method MarkClipped(now: int)
      requires Valid()
      modifies this
      ensures Valid() && history == old(history) && marks == old(marks) + [now]
    {
      lastClipAt := Some(now);
      clips := clips + 1;
      marks := marks + [now];
    }

    /** The collector's `_maybe_clip`: the three calls share one reading of the clock. */
    method MaybeClip(now: int) returns (rate: Option<nat>)
      requires Valid() && NotBefore(history, now)
      modifies this
      ensures Valid() && history == old(history)
      ensures marks == if Clips(history, old(marks), now) then old(marks) + [now] else old(marks)
      ensures rate == if Clips(history, old(marks), now) then Some(|Since(history, now - 30_000)|) else None
    {
      var yes := ShouldClip(now);
      if !yes { return None; }
      var n := WindowRate(now);
      MarkClipped(now);
      rate := Some(n);
    }
  }

  // ----- pruning loses nothing ---------------------------------------------------------------

  lemma AppendOrdered(s: seq<int>, x: int)
    requires Ordered(s) && NotBefore(s, x)
    ensures Ordered(s + [x])
  {
  }

  lemma {:induction false} SinceIsOrdered(s: seq<int>, t: int)
    requires Ordered(s)
    ensures Ordered(Since(s, t))
    ensures s != [] ==> NotBefore(Since(s, t), s[|s| - 1])
  {
    if s != [] {
      var front, last := s[..|s| - 1], s[|s| - 1];
      SinceIsOrdered(front, t);
      if front != [] { assert front[|front| - 1] <= last; }
      if last >= t { AppendOrdered(Since(front, t), last); }
    }
  }

  lemma SinceSnoc(s: seq<int>, x: int, t: int)
    ensures Since(s + [x], t) == Since(s, t) + if x >= t then [x] else []
  {
    assert (s + [x])[..|s|] == s;
  }

  // What is left to prune: the messages before a time.
  predicate PrunesTo(s: seq<int>, t: int, kept: seq<int>) {
    Ordered(s) && Since(s, t) == kept
  }

  lemma PruneOne(s: seq<int>, t: int, kept: seq<int>)
    requires PrunesTo(s, t, kept) && s != [] && s[0] < t
    ensures PrunesTo(s[1..], t, kept)
  {
    SinceWithoutFirst(s, t);
  }

  lemma PruneDone(s: seq<int>, t: int, kept: seq<int>)
    requires PrunesTo(s, t, kept) && (s == [] || s[0] >= t)
    ensures s == kept
  {
    SinceIsAll(s, t);
  }

  lemma {:induction false} SinceWithoutFirst(s: seq<int>, t: int)
    requires s != [] && s[0] < t
    ensures Since(s[1..], t) == Since(s, t)
  {
    if |s| > 1 {
      var n := |s| - 1;
      SinceWithoutFirst(s[..n], t);
      assert s[1..][..n - 1] == s[..n][1..];
    }
  }

  lemma {:induction false} SinceIsAll(s: seq<int>, t: int)
    requires Ordered(s) && (s == [] || s[0] >= t)
    ensures Since(s, t) == s
  {
    if s != [] {
      var front, last := s[..|s| - 1], s[|s| - 1];
      SinceIsAll(front, t);
      assert s == front + [last];
      assert last >= s[0];
    }
  }

  /** Filtering by an earlier time first does not change what a later time leaves. */
  lemma {:induction false} SinceTwice(s: seq<int>, earlier: int, later: int)
    requires earlier <= later
    ensures Since(Since(s, earlier), later) == Since(s, later)
  {
    if s != [] {
      SinceTwice(s[..|s| - 1], earlier, later);
      var last, front := s[|s| - 1], Since(s[..|s| - 1], earlier);
      if last >= earlier {
        assert (front + [last])[..|front|] == front;
      } else {
        assert front + [] == front;
      }
    }
  }

  lemma PruneAgain(s: seq<int>, x: int, earlier: int, later: int)
    requires earlier <= later
    ensures Since(Since(s, earlier) + [x], later) == Since(s + [x], later)
  {
    SinceSnoc(s, x, later);
    SinceSnoc(Since(s, earlier), x, later);
    SinceTwice(s, earlier, later);
  }

  lemma BaselineOrdered(history: seq<int>, now: int)
    requires Ordered(history) && NotBefore(history, now)
    ensures Ordered(Baseline(history)) && NotBefore(Baseline(history), now)
  {
    if history != [] { SinceIsOrdered(history, history[|history| - 1] - 300_000); }
  }

  lemma BaselineIsEnough(history: seq<int>, now: int)
    requires Ordered(history) && NotBefore(history, now)
    ensures Ordered(history + [now]) && Ordered(Baseline(history) + [now])
    ensures PrunesTo(Baseline(history) + [now], now - 300_000, Baseline(history + [now]))
  {
    AppendOrdered(history, now);
    BaselineOrdered(history, now);
    AppendOrdered(Baseline(history), now);
    if history != [] {
      PruneAgain(history, now, history[|history| - 1] - 300_000, now - 300_000);
    }
  }

  // The first k messages are before the time, the others are not.
  predicate CutAt(s: seq<int>, k: nat, t: int) {
    && k <= |s|
    && (forall i :: 0 <= i < k ==> s[i] < t) && (forall i :: k <= i < |s| ==> s[i] >= t)
  }

  lemma CutLater(s: seq<int>, k: nat, t: int)
    requires s != [] && s[0] < t && CutAt(s[1..], k, t)
    ensures CutAt(s, k + 1, t) && s[1..][k..] == s[k + 1..]
  {
    assert forall i :: 0 < i < |s| ==> s[i] == s[1..][i - 1];
  }

  /** What is counted since a time is the end of the chat, from the first message that is not before it. */
  lemma {:induction false} SinceIsTheEnd(s: seq<int>, t: int) returns (k: nat)
    requires Ordered(s)
    ensures CutAt(s, k, t) && Since(s, t) == s[k..]
  {
    if s == [] || s[0] >= t {
      k := 0;
      SinceIsAll(s, t);
    } else {
      k := SinceIsTheEnd(s[1..], t);
      SinceWithoutFirst(s, t);
      CutLater(s, k, t);
      k := k + 1;
    }
  }

  /** When a clip is made, in rates: below the limit, out of the cooldown, enough messages in the window, and
      three times the average window of the baseline. */
  lemma ClipsIs(history: seq<int>, marks: seq<int>, now: int)
    ensures var window, baseline := |Since(history, now - 30_000)|, |Baseline(history)|;
            Clips(history, marks, now) <==>
              && |marks| < 10 && (marks == [] || now >= marks[|marks| - 1] + 120_000)
              && window >= 15 && window as real >= baseline as real / (300.0 / 30.0) * 3.0
  {
    var window, baseline := |Since(history, now - 30_000)| as real, |Baseline(history)| as real;
    assert 300.0 / 30.0 == 10.0;
    assert window >= baseline / 10.0 * 3.0 <==> 10.0 * window >= 3.0 * baseline;
  }

  /** The baseline is the chat of the last 300 seconds before its last message. */
  lemma BaselineIs(history: seq<int>) returns (k: nat)
    requires Ordered(history) && history != []
    ensures k < |history| && Baseline(history) == history[k..]
    ensures forall i :: 0 <= i < |history| ==> (i >= k <==> history[|history| - 1] - history[i] <= 300_000)
  {
    k := SinceIsTheEnd(history, history[|history| - 1] - 300_000);
  }

  /** The 30 s count taken over the pruned deque is the count over every message ever observed. */
  lemma WindowInBaseline(history: seq<int>, now: int)
    requires NotBefore(history, now)
    ensures Since(Baseline(history), now - 30_000) == Since(history, now - 30_000)
  {
    if history != [] { SinceTwice(history, history[|history| - 1] - 300_000, now - 30_000); }
  }

  // ----- runs ----------------------------------------------------------------------------------

  // A message is observed, or the collector checks for a clip, at a reading of the clock.
  datatype Event = Message(now: int) | Check(now: int)

  datatype State = State(history: seq<int>, marks: seq<int>)

  function Apply(s: State, e: Event): State {
    if e.Message? then s.(history := s.history + [e.now])
    else if Clips(s.history, s.marks, e.now) then s.(marks := s.marks + [e.now])
    else s
  }

  function After(events: seq<Event>): State {
    if events == [] then State([], []) else Apply(After(events[..|events| - 1]), events[|events| - 1])
  }

  // The clock never goes back.
  predicate Clocked(events: seq<Event>) {
    forall i, j :: 0 <= i < j < |events| ==> events[i].now <= events[j].now
  }

  predicate MarksApart(marks: seq<int>) {
    && |marks| <= 10
    && forall i, j :: 0 <= i < j < |marks| ==> marks[j] - marks[i] >= 120_000
  }

  /** In every run, clips are at least 120 s apart and at most ten. */
  lemma {:induction false} ClipsAreRare(events: seq<Event>)
    ensures MarksApart(After(events).marks)
  {
    if events != [] {
      var front, e := events[..|events| - 1], events[|events| - 1];
      ClipsAreRare(front);
      if e.Check? { MarkKeepsApart(After(front), e.now); }
    }
  }

  lemma MarkKeepsApart(s: State, now: int)
    requires MarksApart(s.marks)
    ensures MarksApart(Apply(s, Check(now)).marks)
  {
    if Clips(s.history, s.marks, now) { AddMark(s.marks, now); }
  }

  lemma AddMark(marks: seq<int>, now: int)
    requires MarksApart(marks) && |marks| < 10 && (marks == [] || now - marks[|marks| - 1] >= 120_000)
    ensures MarksApart(marks + [now])
  {
    forall i | 0 <= i < |marks| ensures now - marks[i] >= 120_000 {
      assert i == |marks| - 1 || marks[|marks| - 1] - marks[i] >= 120_000;
    }
  }

  function UpTo(s: seq<int>, t: int): nat {
    if s == [] then 0 else UpTo(s[..|s| - 1], t) + if s[|s| - 1] <= t then 1 else 0
  }

  lemma {:induction false} DisjointCounts(s: seq<int>, t: int, u: int)
    requires t < u
    ensures UpTo(s, t) + |Since(s, u)| <= |s|
  {
    if s != [] { DisjointCounts(s[..|s| - 1], t, u); }
  }

  lemma {:induction false} AllUpTo(s: seq<int>, t: int)
    requires forall i :: 0 <= i < |s| ==> s[i] <= t
    ensures UpTo(s, t) == |s|
  {
    if s != [] { AllUpTo(s[..|s| - 1], t); }
  }

  lemma {:induction false} HistoryBefore(events: seq<Event>, now: int)
    requires forall i :: 0 <= i < |events| ==> events[i].now <= now
    ensures forall i :: 0 <= i < |After(events).history| ==> After(events).history[i] <= now
  {
    if events != [] { HistoryBefore(events[..|events| - 1], now); }
  }

  /** Every clip is paid for by fifteen messages of its own, so a run of n messages has at most n / 15
      clips. */
  lemma {:induction false} ClipsArePaidFor(events: seq<Event>)
    requires Clocked(events)
    ensures var s := After(events);
            && 15 * |s.marks| <= |s.history|
            && (s.marks != [] ==> 15 * |s.marks| <= UpTo(s.history, s.marks[|s.marks| - 1]))
  {
    if events != [] {
      var front, e := events[..|events| - 1], events[|events| - 1];
      var s := After(front);
      ClipsArePaidFor(front);
      if e.Message? {
        assert (s.history + [e.now])[..|s.history|] == s.history;
      } else if Clips(s.history, s.marks, e.now) {
        HistoryBefore(front, e.now);
        AllUpTo(s.history, e.now);
        NewClipIsPaid(s, e.now);
      }
    }
  }

  lemma NewClipIsPaid(s: State, now: int)
    requires Clips(s.history, s.marks, now)
    requires s.marks != [] ==> 15 * |s.marks| <= UpTo(s.history, s.marks[|s.marks| - 1])
    ensures 15 * (|s.marks| + 1) <= |s.history|
  {
    if s.marks != [] {
      DisjointCounts(s.history, s.marks[|s.marks| - 1], now - 30_000);
    } else {
      DisjointCounts(s.history, now - 30_001, now - 30_000);
    }
  }
}
