/** What the record table means, over every sequence of analyses. */
module RecordTheorems {
  import opened Records

  // ----- one analysis --------------------------------------------------------------------

  predicate NoRepeats<T(==)>(s: seq<T>) {
    forall i, j :: 0 <= i < j < |s| ==> s[i] != s[j]
  }

  predicate Beats(rows: seq<Row>, l: Live, m: Metric) {
    Value(l, m) > 0.0 && forall r :: r in rows && About(r, l.channel, m) ==> r.value < Value(l, m)
  }

  lemma {:induction false} WithRowsMember(rows: seq<Row>, l: Live, ms: seq<Metric>, r: Row)
    ensures r in WithRows(rows, l, ms) <==> r in rows || (r.metric in ms && r == RowOf(l, r.metric))
  {
    if ms != [] { WithRowsMember(rows, l, ms[..|ms| - 1], r); }
  }

  lemma BreaksIsBeats(rows: seq<Row>, l: Live, m: Metric)
    ensures Breaks(rows, l, m) <==> Beats(rows, l, m)
  {
  }

  // Rows written for other metrics do not change whether a metric is beaten.
  lemma {:induction false} BrokenMember(rows: seq<Row>, l: Live, ms: seq<Metric>, m: Metric)
    requires NoRepeats(ms)
    ensures m in Broken(rows, l, ms) <==> m in ms && Beats(rows, l, m)
    ensures NoRepeats(Broken(rows, l, ms)) && forall x :: x in Broken(rows, l, ms) ==> x in ms
    decreases |ms|
  {
    if ms != [] {
      var front, last := ms[..|ms| - 1], ms[|ms| - 1];
      BrokenMember(rows, l, front, m);
      assert last !in front;
      var now := WithRows(rows, l, Broken(rows, l, front));
      BreaksIsBeats(now, l, last);
      forall r | About(r, l.channel, last) ensures r in now <==> r in rows {
        WithRowsMember(rows, l, Broken(rows, l, front), r);
      }
    }
  }

  lemma MetricsAreAll(m: Metric)
    ensures m in METRICS && NoRepeats(METRICS)
  {
    assert METRICS[0] == Messages && METRICS[1] == Chatters && METRICS[2] == Events && METRICS[3] == Follows;
    assert METRICS[4] == PeakViewers && METRICS[5] == AvgViewers && METRICS[6] == DurationMinutes;
    assert METRICS[7] == Subs && METRICS[8] == Gifts && METRICS[9] == Bits && METRICS[10] == Raids;
    assert METRICS[11] == RevenueUsd && METRICS[12] == MessagesPerMin && METRICS[13] == Resubs;
  }

  /** The rows after one analysis: those of the other lives, and one row for each metric on which the live
      strictly beats all of them. */
  lemma UpdateMember(rows: seq<Row>, l: Live, r: Row)
    ensures r in Update(rows, l) <==>
      || (r in rows && r.stream != l.id)
      || (r == RowOf(l, r.metric) && Beats(Drop(rows, l.id), l, r.metric))
  {
    MetricsAreAll(r.metric);
    BrokenMember(Drop(rows, l.id), l, METRICS, r.metric);
    WithRowsMember(Drop(rows, l.id), l, Broken(Drop(rows, l.id), l, METRICS), r);
  }

  // ----- histories -------------------------------------------------------------------------

  // A live's metrics do not change between its analyses.
  predicate Stable(h: seq<Live>) {
    forall i, j :: 0 <= i < |h| && 0 <= j < |h| && h[i].id == h[j].id ==> h[i] == h[j]
  }

  predicate DistinctLives(h: seq<Live>) {
    forall i, j :: 0 <= i < j < |h| ==> h[i].id != h[j].id
  }

  // The i-th analysis is the first of a live that has the channel's best positive value.
  predicate IsBest(h: seq<Live>, c: ChannelId, m: Metric, i: nat) {
    && i < |h| && h[i].channel == c && Value(h[i], m) > 0.0
    && (forall j :: 0 <= j < |h| && h[j].channel == c ==> Value(h[j], m) <= Value(h[i], m))
    && (forall j :: 0 <= j < i && h[j].channel == c ==> Value(h[j], m) < Value(h[i], m))
  }

  ghost predicate FromHistory(h: seq<Live>, r: Row) {
    r.value > 0.0 && exists i :: 0 <= i < |h| && RowOf(h[i], r.metric) == r
  }

  ghost predicate Sound(rows: seq<Row>, h: seq<Live>) {
    forall r :: r in rows ==> FromHistory(h, r)
  }

  // Two rows of one channel and metric never tie.
  predicate Untied(rows: seq<Row>) {
    forall q, r :: q in rows && r in rows && About(q, r.channel, r.metric) && q.value == r.value ==> q == r
  }

  lemma UpdateSound(rows: seq<Row>, h: seq<Live>, l: Live)
    requires Sound(rows, h)
    ensures Sound(Update(rows, l), h + [l])
  {
    var g := h + [l];
    forall r | r in Update(rows, l) ensures FromHistory(g, r) {
      UpdateMember(rows, l, r);
      if r in rows {
        var i :| 0 <= i < |h| && RowOf(h[i], r.metric) == r;
        assert RowOf(g[i], r.metric) == r;
      } else {
        assert RowOf(g[|h|], r.metric) == r;
      }
    }
  }

  lemma UpdateUntied(rows: seq<Row>, l: Live)
    requires Untied(rows)
    ensures Untied(Update(rows, l))
  {
    var after := Update(rows, l);
    forall q, r | q in after && r in after && About(q, r.channel, r.metric) && q.value == r.value ensures q == r {
      UpdateMember(rows, l, q);
      UpdateMember(rows, l, r);
    }
  }

  lemma {:induction false} AnalysedOk(h: seq<Live>)
    ensures Sound(Analysed(h), h) && Untied(Analysed(h))
    decreases |h|
  {
    if h != [] {
      var front, last := h[..|h| - 1], h[|h| - 1];
      AnalysedOk(front);
      UpdateSound(Analysed(front), front, last);
      UpdateUntied(Analysed(front), last);
      assert front + [last] == h;
    }
  }

  // A row of the table is never above the best of the history.
  lemma RowsBelowBest(h: seq<Live>, g: seq<Live>, m: Metric, i: nat, r: Row)
    requires i < |h| && IsBest(h, h[i].channel, m, i) && g <= h
    requires FromHistory(g, r) && About(r, h[i].channel, m)
    ensures r.value <= Value(h[i], m)
    ensures |g| <= i ==> r.value < Value(h[i], m)
  {
    var j :| 0 <= j < |g| && RowOf(g[j], r.metric) == r;
    assert h[j] == g[j];
  }

  // The live that holds the best beats all the others again when it is analysed again.
  lemma BestBeatsTheRest(h: seq<Live>, m: Metric, i: nat, rows: seq<Row>)
    requires i < |h| && IsBest(h, h[i].channel, m, i) && h[|h| - 1].id == h[i].id && h[|h| - 1] == h[i]
    requires Sound(rows, h[..|h| - 1]) && Untied(rows)
    requires i < |h| - 1 ==> RowOf(h[i], m) in rows
    ensures Beats(Drop(rows, h[i].id), h[i], m)
  {
    forall r | r in Drop(rows, h[i].id) && About(r, h[i].channel, m) ensures r.value < Value(h[i], m) {
      RowsBelowBest(h, h[..|h| - 1], m, i, r);
    }
  }

  // One analysis does not take the best row away, and adds it when its live is the one analysed.
  lemma BestStaysHeld(h: seq<Live>, m: Metric, i: nat, rows: seq<Row>)
    requires i < |h| && IsBest(h, h[i].channel, m, i)
    requires h[|h| - 1].id == h[i].id ==> h[|h| - 1] == h[i]
    requires Sound(rows, h[..|h| - 1]) && Untied(rows)
    requires i < |h| - 1 ==> RowOf(h[i], m) in rows
    ensures RowOf(h[i], m) in Update(rows, h[|h| - 1])
  {
    if h[|h| - 1].id == h[i].id {
      BestBeatsTheRest(h, m, i, rows);
    }
    UpdateMember(rows, h[|h| - 1], RowOf(h[i], m));
  }

  lemma {:induction false} BestIsHeld(h: seq<Live>, c: ChannelId, m: Metric, i: nat)
    requires Stable(h) && IsBest(h, c, m, i)
    ensures RowOf(h[i], m) in Analysed(h)
    decreases |h|
  {
    var front := h[..|h| - 1];
    AnalysedOk(front);
    if i < |front| {
      BestIsHeld(front, c, m, i);
    }
    BestStaysHeld(h, m, i, Analysed(front));
  }

  lemma {:induction false} BestExists(h: seq<Live>, c: ChannelId, m: Metric, j: nat) returns (i: nat)
    requires j < |h| && h[j].channel == c && Value(h[j], m) > 0.0
    ensures IsBest(h, c, m, i)
    decreases |h|
  {
    var front, n := h[..|h| - 1], |h| - 1;
    if k :| 0 <= k < n && front[k].channel == c && Value(front[k], m) > 0.0 {
      i := BestExists(front, c, m, k);
      if h[n].channel == c && Value(h[n], m) > Value(h[i], m) { i := n; }
    } else {
      i := j;
      forall k | 0 <= k < n && h[k].channel == c ensures Value(h[k], m) <= 0.0 {
        assert front[k] == h[k];
      }
    }
  }

  // ----- the theorems -------------------------------------------------------------------------

  /** After any analyses, in any order and with repeats, the channel's best positive value of a metric has
      a row, it belongs to the first live analysed with it, and every other row of the metric is lower. */
  lemma BestRecord(h: seq<Live>, c: ChannelId, m: Metric, i: nat, r: Row)
    requires Stable(h) && IsBest(h, c, m, i)
    requires r in Analysed(h) && About(r, c, m)
    ensures RowOf(h[i], m) in Analysed(h)
    ensures r == RowOf(h[i], m) || r.value < Value(h[i], m)
  {
    BestIsHeld(h, c, m, i);
    AnalysedOk(h);
    RowsBelowBest(h, h, m, i, r);
  }

  lemma {:induction false} BestOfIs(rows: seq<Row>, c: ChannelId, m: Metric)
    ensures m !in BestOf(rows, c) ==> forall r :: r in rows ==> !About(r, c, m)
    ensures m in BestOf(rows, c) ==>
      && Row(c, BestOf(rows, c)[m].0, m, BestOf(rows, c)[m].1) in rows
      && forall r :: r in rows && About(r, c, m) ==> r.value <= BestOf(rows, c)[m].1
  {
    if rows != [] { BestOfIs(rows[..|rows| - 1], c, m); }
  }

  // The i-th row is the first of the highest of its channel and metric.
  predicate FirstHighest(rows: seq<Row>, c: ChannelId, m: Metric, i: nat) {
    && i < |rows| && About(rows[i], c, m)
    && (forall j :: 0 <= j < |rows| && About(rows[j], c, m) ==> rows[j].value <= rows[i].value)
    && (forall j :: 0 <= j < i && About(rows[j], c, m) ==> rows[j].value < rows[i].value)
  }

  /** Of any rows, in the order they come, the current best is the first of the highest. */
  lemma {:induction false} BestIsFirstHighest(rows: seq<Row>, c: ChannelId, m: Metric, i: nat)
    requires FirstHighest(rows, c, m, i)
    ensures m in BestOf(rows, c) && BestOf(rows, c)[m] == (rows[i].stream, rows[i].value)
  {
    var front, n := rows[..|rows| - 1], |rows| - 1;
    if i < n {
      BestIsFirstHighest(front, c, m, i);
    } else {
      BestOfIs(front, c, m);
    }
  }

  /** The current best does not depend on the order in which the database returns the rows: it is the best
      positive value of the history and the first live analysed with it, and absent when there is none. */
  lemma CurrentBestIsTheRecord(h: seq<Live>, rows: seq<Row>, c: ChannelId, m: Metric)
    requires Stable(h) && multiset(rows) == multiset(Analysed(h))
    ensures forall i: nat :: IsBest(h, c, m, i) ==>
      m in BestOf(rows, c) && BestOf(rows, c)[m] == (h[i].id, Value(h[i], m))
    ensures m in BestOf(rows, c) ==> exists i: nat :: IsBest(h, c, m, i)
  {
    BestOfIs(rows, c, m);
    AnalysedOk(h);
    forall r ensures r in rows <==> r in Analysed(h) {
      assert r in rows <==> r in multiset(rows);
      assert r in Analysed(h) <==> r in multiset(Analysed(h));
    }
    forall i: nat | IsBest(h, c, m, i)
      ensures m in BestOf(rows, c) && BestOf(rows, c)[m] == (h[i].id, Value(h[i], m))
    {
      BestIsHeld(h, c, m, i);
      var row := RowOf(h[i], m);
      assert row in rows && About(row, c, m);
      var top := Row(c, BestOf(rows, c)[m].0, m, BestOf(rows, c)[m].1);
      BestRecord(h, c, m, i, top);
    }
    if m in BestOf(rows, c) {
      var top := Row(c, BestOf(rows, c)[m].0, m, BestOf(rows, c)[m].1);
      assert FromHistory(h, top);
      var j :| 0 <= j < |h| && RowOf(h[j], m) == top;
      var i := BestExists(h, c, m, j);
    }
  }

  /** Each metric of a channel is listed under exactly the live that holds it, in the enum's order. */
  lemma {:induction false} HeldByHolder(best: map<Metric, (StreamId, real)>, ms: seq<Metric>, s: StreamId, m: Metric)
    ensures m in HeldBy(best, ms, s) <==> m in ms && m in best && best[m].0 == s
  {
    if ms != [] { HeldByHolder(best, ms[..|ms| - 1], s, m); }
  }

  // The metrics stand in the order of `ms`.
  ghost predicate InOrderOf(held: seq<Metric>, ms: seq<Metric>) {
    exists at: seq<int> ::
      && |at| == |held|
      && (forall k :: 0 <= k < |at| ==> 0 <= at[k] < |ms| && held[k] == ms[at[k]])
      && (forall k, l :: 0 <= k < l < |at| ==> at[k] < at[l])
  }

  lemma NextInOrder(held: seq<Metric>, ms: seq<Metric>)
    requires ms != [] && InOrderOf(held, ms[..|ms| - 1])
    ensures InOrderOf(held, ms) && InOrderOf(held + [ms[|ms| - 1]], ms)
  {
    var n := |ms| - 1;
    var at: seq<int> :|
      && |at| == |held|
      && (forall k :: 0 <= k < |at| ==> 0 <= at[k] < n && held[k] == ms[..n][at[k]])
      && (forall k, l :: 0 <= k < l < |at| ==> at[k] < at[l]);
    assert forall k :: 0 <= k < |at| ==> held[k] == ms[at[k]];
    var more := at + [n];
    assert forall k :: 0 <= k < |more| ==> 0 <= more[k] < |ms| && (held + [ms[n]])[k] == ms[more[k]];
  }

  /** The badges of a live come in the order of the enum, each once. */
  lemma {:induction false} HeldInOrder(best: map<Metric, (StreamId, real)>, ms: seq<Metric>, s: StreamId)
    ensures InOrderOf(HeldBy(best, ms, s), ms)
  {
    if ms == [] {
      var at: seq<int> := [];
      assert |at| == |HeldBy(best, ms, s)|;
    } else {
      HeldInOrder(best, ms[..|ms| - 1], s);
      NextInOrder(HeldBy(best, ms[..|ms| - 1], s), ms);
    }
  }

  /** So do the metrics an analysis reports as broken. */
  lemma {:induction false} BrokenInOrder(rows: seq<Row>, l: Live, ms: seq<Metric>)
    ensures InOrderOf(Broken(rows, l, ms), ms)
    decreases |ms|
  {
    if ms == [] {
      var at: seq<int> := [];
      assert |at| == |Broken(rows, l, ms)|;
    } else {
      BrokenInOrder(rows, l, ms[..|ms| - 1]);
      NextInOrder(Broken(rows, l, ms[..|ms| - 1]), ms);
    }
  }

  /** What a row and the current best carry is the metric computed for the live, which is positive. */
  lemma BestIsTheMetric(h: seq<Live>, c: ChannelId, m: Metric, i: nat)
    requires Stable(h) && IsBest(h, c, m, i)
    ensures m in h[i].metrics && h[i].metrics[m] > 0.0
    ensures Row(c, h[i].id, m, h[i].metrics[m]) in Analysed(h)
    ensures forall j :: 0 <= j < |h| && h[j].channel == c && m in h[j].metrics ==> h[j].metrics[m] <= h[i].metrics[m]
    ensures m in BestOf(Analysed(h), c) && BestOf(Analysed(h), c)[m] == (h[i].id, h[i].metrics[m])
  {
    BestIsHeld(h, c, m, i);
    CurrentBestIsTheRecord(h, Analysed(h), c, m);
    assert forall j :: 0 <= j < |h| && h[j].channel == c && m in h[j].metrics ==> Value(h[j], m) == h[j].metrics[m];
  }

  // The i-th live beats every live of its channel before it.
  predicate IsNewMaximum(h: seq<Live>, m: Metric, i: nat) {
    && i < |h| && Value(h[i], m) > 0.0
    && forall j :: 0 <= j < i && h[j].channel == h[i].channel ==> Value(h[j], m) < Value(h[i], m)
  }

  ghost predicate MaximumRow(h: seq<Live>, r: Row) {
    exists i: nat :: IsNewMaximum(h, r.metric, i) && r == RowOf(h[i], r.metric)
  }

  lemma NewMaximumInFront(h: seq<Live>, m: Metric, i: nat)
    requires i < |h| - 1
    ensures IsNewMaximum(h, m, i) <==> IsNewMaximum(h[..|h| - 1], m, i)
  {
  }

  lemma MaximumRowStep(h: seq<Live>, r: Row)
    requires h != []
    ensures MaximumRow(h, r) <==>
      MaximumRow(h[..|h| - 1], r) || (IsNewMaximum(h, r.metric, |h| - 1) && r == RowOf(h[|h| - 1], r.metric))
  {
    var front := h[..|h| - 1];
    if i: nat :| IsNewMaximum(front, r.metric, i) && r == RowOf(front[i], r.metric) {
      NewMaximumInFront(h, r.metric, i);
      assert IsNewMaximum(h, r.metric, i) && r == RowOf(h[i], r.metric);
    }
    if i: nat :| IsNewMaximum(h, r.metric, i) && r == RowOf(h[i], r.metric) {
      if i < |front| {
        NewMaximumInFront(h, r.metric, i);
        assert IsNewMaximum(front, r.metric, i) && r == RowOf(front[i], r.metric);
      }
    }
  }

  /** From an empty table, the backfill writes exactly the strict left-to-right maxima of each metric. */
  lemma {:induction false} BackfillWritesTheMaxima(h: seq<Live>, r: Row)
    requires DistinctLives(h)
    ensures r in Analysed(h) <==> MaximumRow(h, r)
    decreases |h|
  {
    if h != [] {
      var front, l := h[..|h| - 1], h[|h| - 1];
      BackfillWritesTheMaxima(front, r);
      MaximumRowStep(h, r);
      NothingToDrop(front, l);
      UpdateMember(Analysed(front), l, r);
      BeatsIsNewMaximum(h, r.metric);
    }
  }

  lemma BeatsIsNewMaximum(h: seq<Live>, m: Metric)
    requires h != [] && Stable(h[..|h| - 1])
    ensures Beats(Analysed(h[..|h| - 1]), h[|h| - 1], m) <==> IsNewMaximum(h, m, |h| - 1)
  {
    FreshLiveRecord(h[..|h| - 1], h[|h| - 1], m);
  }

  // A live not seen before owns no row.
  lemma NothingToDrop(h: seq<Live>, l: Live)
    requires forall i :: 0 <= i < |h| ==> h[i].id != l.id
    ensures forall r :: r in Analysed(h) ==> r.stream != l.id
    ensures forall m :: Beats(Drop(Analysed(h), l.id), l, m) <==> Beats(Analysed(h), l, m)
  {
    AnalysedOk(h);
    forall r | r in Analysed(h) ensures r.stream != l.id {
      assert FromHistory(h, r);
    }
  }

  // Beating every row is beating every live.
  lemma FreshLiveRecord(h: seq<Live>, l: Live, m: Metric)
    requires Stable(h)
    ensures Beats(Analysed(h), l, m) <==>
      Value(l, m) > 0.0 && forall j :: 0 <= j < |h| && h[j].channel == l.channel ==> Value(h[j], m) < Value(l, m)
  {
    AnalysedOk(h);
    if Beats(Analysed(h), l, m) {
      forall j | 0 <= j < |h| && h[j].channel == l.channel ensures Value(h[j], m) < Value(l, m) {
        if Value(h[j], m) > 0.0 {
          var i := BestExists(h, l.channel, m, j);
          BestIsHeld(h, l.channel, m, i);
        }
      }
    }
    if Value(l, m) > 0.0 && forall j :: 0 <= j < |h| && h[j].channel == l.channel ==> Value(h[j], m) < Value(l, m) {
      forall r | r in Analysed(h) && About(r, l.channel, m) ensures r.value < Value(l, m) {
        assert FromHistory(h, r);
      }
    }
  }

  lemma {:induction false} DropNothing(rows: seq<Row>, id: StreamId)
    requires forall r :: r in rows ==> r.stream != id
    ensures Drop(rows, id) == rows
  {
    if rows != [] { DropNothing(rows[..|rows| - 1], id); }
  }

  lemma {:induction false} WithRowsLength(rows: seq<Row>, l: Live, ms: seq<Metric>)
    ensures |WithRows(rows, l, ms)| == |rows| + |ms|
  {
    if ms != [] { WithRowsLength(rows, l, ms[..|ms| - 1]); }
  }

  /** The count a first backfill returns is the number of rows it leaves. */
  lemma {:induction false} FirstBackfillCounts(h: seq<Live>)
    requires DistinctLives(h)
    ensures Written([], h) == |Analysed(h)|
    decreases |h|
  {
    if h != [] {
      var front, l := h[..|h| - 1], h[|h| - 1];
      FirstBackfillCounts(front);
      NothingToDrop(front, l);
      DropNothing(Analysed(front), l.id);
      WithRowsLength(Analysed(front), l, Broken(Analysed(front), l, METRICS));
    }
  }

  // ----- running the backfill again ----------------------------------------------------------

  ghost predicate BestRow(h: seq<Live>, r: Row) {
    exists i: nat :: IsBest(h, r.channel, r.metric, i) && r == RowOf(h[i], r.metric)
  }

  predicate OneRowEach(rows: seq<Row>) {
    forall q, r :: q in rows && r in rows && About(q, r.channel, r.metric) ==> q == r
  }

  lemma {:induction false} ReplayJoins(a: seq<Live>, b: seq<Live>)
    ensures Replay(Analysed(a), b) == Analysed(a + b)
    decreases |b|
  {
    if b == [] {
      assert a + b == a;
    } else {
      ReplayJoins(a, b[..|b| - 1]);
      assert (a + b)[..|a + b| - 1] == a + b[..|b| - 1];
    }
  }

  lemma BestAgain(h: seq<Live>, n: nat, c: ChannelId, m: Metric, i: nat)
    requires DistinctLives(h) && n <= |h| && IsBest(h, c, m, i)
    ensures RowOf(h[i], m) in Analysed(h + h[..n])
  {
    var g := h + h[..n];
    assert forall j :: 0 <= j < n ==> g[|h| + j] == h[j];
    assert IsBest(g, c, m, i);
    BestIsHeld(g, c, m, i);
  }

  lemma SecondPassStep(h: seq<Live>, n: nat)
    requires 0 < n <= |h|
    ensures Analysed(h + h[..n]) == Update(Analysed(h + h[..n - 1]), h[n - 1])
  {
    var g := h + h[..n];
    assert g[..|g| - 1] == h + h[..n - 1];
  }

  lemma BestRowStays(h: seq<Live>, n: nat, r: Row)
    requires DistinctLives(h) && n <= |h| && BestRow(h, r)
    ensures r in Analysed(h + h[..n])
  {
    var i: nat :| IsBest(h, r.channel, r.metric, i) && r == RowOf(h[i], r.metric);
    BestAgain(h, n, r.channel, r.metric, i);
  }

  predicate NotYetVisited(h: seq<Live>, n: nat, r: Row)
    requires n <= |h|
  {
    forall i :: 0 <= i < n ==> h[i].id != r.stream
  }

  // Each live of the second pass loses its old row, and only the holder of the best gets one back.
  lemma {:induction false} SecondPass(h: seq<Live>, n: nat, r: Row)
    requires DistinctLives(h) && n <= |h|
    ensures r in Analysed(h + h[..n]) <==> BestRow(h, r) || (r in Analysed(h) && NotYetVisited(h, n, r))
    decreases n
  {
    if BestRow(h, r) {
      BestRowStays(h, n, r);
    } else if n == 0 {
      assert h + h[..0] == h;
    } else {
      var l := h[n - 1];
      SecondPass(h, n - 1, r);
      SecondPassStep(h, n);
      UpdateMember(Analysed(h + h[..n - 1]), l, r);
      assert NotYetVisited(h, n, r) <==> NotYetVisited(h, n - 1, r) && l.id != r.stream;
      if r == RowOf(l, r.metric) && Beats(Drop(Analysed(h + h[..n - 1]), l.id), l, r.metric) {
        OnlyTheBestReturns(h, n - 1, r.metric);
      }
    }
  }

  lemma OnlyTheBestReturns(h: seq<Live>, n: nat, m: Metric)
    requires DistinctLives(h) && n < |h|
    requires Beats(Drop(Analysed(h + h[..n]), h[n].id), h[n], m)
    ensures BestRow(h, RowOf(h[n], m))
  {
    var i := BestExists(h, h[n].channel, m, n);
    BestAgain(h, n, h[n].channel, m, i);
    assert i == n;
  }

  /** Running the backfill a second time keeps exactly the current best of each metric: every intermediate
      record of the history is lost. */
  lemma BackfillAgainKeepsTheBest(h: seq<Live>, r: Row)
    requires DistinctLives(h)
    ensures r in Replay(Analysed(h), h) <==> BestRow(h, r)
  {
    ReplayJoins(h, h);
    assert h[..|h|] == h;
    SecondPass(h, |h|, r);
    if r in Analysed(h) {
      AnalysedOk(h);
      assert FromHistory(h, r);
    }
  }

  /** So the backfill is idempotent, as its documentation says, exactly when no metric has more than one
      row: when no record was ever broken. */
  lemma BackfillIsIdempotentIff(h: seq<Live>)
    requires DistinctLives(h)
    ensures (forall r :: r in Replay(Analysed(h), h) <==> r in Analysed(h)) <==> OneRowEach(Analysed(h))
  {
    var rows := Analysed(h);
    forall r ensures r in Replay(rows, h) <==> BestRow(h, r) {
      BackfillAgainKeepsTheBest(h, r);
    }
    forall r | BestRow(h, r) ensures r in rows {
      var i: nat :| IsBest(h, r.channel, r.metric, i) && r == RowOf(h[i], r.metric);
      BestIsHeld(h, r.channel, r.metric, i);
    }
    if forall r :: r in Replay(rows, h) <==> r in rows {
      forall q, r | q in rows && r in rows && About(q, r.channel, r.metric) ensures q == r {
        assert BestRow(h, q) && BestRow(h, r);
      }
    }
    if OneRowEach(rows) {
      forall r | r in rows ensures BestRow(h, r) {
        RowHasABest(h, r);
      }
    }
  }

  lemma RowHasABest(h: seq<Live>, r: Row)
    requires DistinctLives(h) && r in Analysed(h) && OneRowEach(Analysed(h))
    ensures BestRow(h, r)
  {
    AnalysedOk(h);
    assert FromHistory(h, r);
    var j :| 0 <= j < |h| && RowOf(h[j], r.metric) == r;
    var i := BestExists(h, r.channel, r.metric, j);
    BestIsHeld(h, r.channel, r.metric, i);
  }

  /** An input on which it is not: a second live with more messages than the first. */
  lemma BackfillIsNotIdempotent()
    ensures var h := [Live(1, 1, map[Messages := 1.0]), Live(2, 1, map[Messages := 2.0])];
            && Row(1, 1, Messages, 1.0) in Analysed(h)
            && Row(1, 1, Messages, 1.0) !in Replay(Analysed(h), h)
  {
    var h := [Live(1, 1, map[Messages := 1.0]), Live(2, 1, map[Messages := 2.0])];
    var r := Row(1, 1, Messages, 1.0);
    BackfillWritesTheMaxima(h, r);
    assert IsNewMaximum(h, Messages, 0) && r == RowOf(h[0], Messages);
    BackfillAgainKeepsTheBest(h, r);
    assert Value(h[1], Messages) == 2.0;
  }
}
