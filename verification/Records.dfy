/**
 All-time records (core/records.py): a table that is a history of record-breaking lives, updated by
 every analysis of a live, in any order and with repeats. Metric values are exact numbers.
 */
module Records {
  import opened Wrappers

  datatype Metric =
    | Messages | Chatters | Events | Follows | PeakViewers | AvgViewers | DurationMinutes | Subs
    | Gifts | Bits | Raids | RevenueUsd | MessagesPerMin | Resubs

  type StreamId = nat
  type ChannelId = nat

  // A live and the metrics computed from what was captured of it.
  datatype Live = Live(id: StreamId, channel: ChannelId, metrics: map<Metric, real>)

  datatype Row = Row(channel: ChannelId, stream: StreamId, metric: Metric, value: real)

  // The enum's own order.
  const METRICS: seq<Metric> :=
    [Messages, Chatters, Events, Follows, PeakViewers, AvgViewers, DurationMinutes, Subs,
     Gifts, Bits, Raids, RevenueUsd, MessagesPerMin, Resubs]

  function Value(l: Live, m: Metric): real {
    if m in l.metrics then l.metrics[m] else 0.0
  }

  function RowOf(l: Live, m: Metric): Row {
    Row(l.channel, l.id, m, Value(l, m))
  }

  predicate About(r: Row, c: ChannelId, m: Metric) {
    r.channel == c && r.metric == m
  }

  // ----- one analysis ------------------------------------------------------------------

  // delete(StreamRecord).where(stream_id == id)
  function Drop(rows: seq<Row>, id: StreamId): (kept: seq<Row>)
    ensures forall r :: r in kept <==> r in rows && r.stream != id
  {
    if rows == [] then []
    else if rows[|rows| - 1].stream == id then Drop(rows[..|rows| - 1], id)
    else Drop(rows[..|rows| - 1], id) + [rows[|rows| - 1]]
  }

  // select(func.max(value)) over one channel and metric.
  function Prior(rows: seq<Row>, c: ChannelId, m: Metric): (best: Option<real>)
    ensures best.None? <==> forall r :: r in rows ==> !About(r, c, m)
    ensures best.Some? ==>
      && (forall r :: r in rows && About(r, c, m) ==> r.value <= best.value)
      && (exists r :: r in rows && About(r, c, m) && r.value == best.value)
  {
    if rows == [] then None
    else
      var last := rows[|rows| - 1];
      var before := Prior(rows[..|rows| - 1], c, m);
      if !About(last, c, m) then before
      else if before.Some? && before.value >= last.value then before
      else Some(last.value)
  }

  predicate Breaks(rows: seq<Row>, l: Live, m: Metric) {
    Value(l, m) > 0.0 &&
    (Prior(rows, l.channel, m).None? || Value(l, m) > Prior(rows, l.channel, m).value)
  }

  function Broken(rows: seq<Row>, l: Live, ms: seq<Metric>): seq<Metric>
    decreases |ms|
  {
    if ms == [] then []
    else
      var before := Broken(rows, l, ms[..|ms| - 1]);
      if Breaks(WithRows(rows, l, before), l, ms[|ms| - 1]) then before + [ms[|ms| - 1]] else before
  }

  function WithRows(rows: seq<Row>, l: Live, ms: seq<Metric>): seq<Row> {
    if ms == [] then rows else WithRows(rows, l, ms[..|ms| - 1]) + [RowOf(l, ms[|ms| - 1])]
  }

  function Update(rows: seq<Row>, l: Live): seq<Row> {
    WithRows(Drop(rows, l.id), l, Broken(Drop(rows, l.id), l, METRICS))
  }

  // The table after more analyses, in order, and how many rows they wrote.
  function Replay(rows: seq<Row>, h: seq<Live>): seq<Row>
    decreases |h|
  {
    if h == [] then rows else Update(Replay(rows, h[..|h| - 1]), h[|h| - 1])
  }

  function Written(rows: seq<Row>, h: seq<Live>): nat
    decreases |h|
  {
    if h == [] then 0
    else
      var l := h[|h| - 1];
      Written(rows, h[..|h| - 1]) + |Broken(Drop(Replay(rows, h[..|h| - 1]), l.id), l, METRICS)|
  }

  function Analysed(h: seq<Live>): seq<Row> {
    Replay([], h)
  }

  function BestOf(rows: seq<Row>, c: ChannelId): map<Metric, (StreamId, real)> {
    if rows == [] then map[]
    else
      var best, r := BestOf(rows[..|rows| - 1], c), rows[|rows| - 1];
      if r.channel != c then best
      else if r.metric !in best || r.value > best[r.metric].1 then best[r.metric := (r.stream, r.value)]
      else best
  }

  // The metrics of `ms` that a live holds, in the order of `ms`.
  function HeldBy(best: map<Metric, (StreamId, real)>, ms: seq<Metric>, s: StreamId): seq<Metric> {
    if ms == [] then []
    else
      var before, m := HeldBy(best, ms[..|ms| - 1], s), ms[|ms| - 1];
      if m in best && best[m].0 == s then before + [m] else before
  }

  lemma OneMoreMetric(rows: seq<Row>, l: Live, ms: seq<Metric>, i: nat)
    requires i < |ms|
    ensures var before := Broken(rows, l, ms[..i]);
            Broken(rows, l, ms[..i + 1]) ==
            if Breaks(WithRows(rows, l, before), l, ms[i]) then before + [ms[i]] else before
  {
    assert ms[..i + 1][..i] == ms[..i];
  }

  lemma OneMoreRow(rows: seq<Row>, l: Live, ms: seq<Metric>, m: Metric)
    ensures WithRows(rows, l, ms + [m]) == WithRows(rows, l, ms) + [RowOf(l, m)]
  {
    assert (ms + [m])[..|ms|] == ms;
  }

  class RecordTable {
    var rows: seq<Row>

    constructor ()
      ensures rows == []
    {
      rows := [];
    }

    method UpdateStreamRecords(l: Live) returns (broke: seq<Metric>)
      modifies this
      ensures rows == Update(old(rows), l)
      ensures broke == Broken(Drop(old(rows), l.id), l, METRICS)
    {
      rows := Drop(rows, l.id);
      ghost var kept := rows;
      broke := [];
      var order := METRICS;
      for i := 0 to |order|
        invariant broke == Broken(kept, l, order[..i])
        invariant rows == WithRows(kept, l, broke)
      {
        var m := order[i];
        OneMoreMetric(kept, l, order, i);
        OneMoreRow(kept, l, broke, m);
        var value := Value(l, m);
        if value <= 0.0 { continue; }
        var prior := Prior(rows, l.channel, m);
        if prior.None? || value > prior.value {
          rows := rows + [RowOf(l, m)];
          broke := broke + [m];
        }
      }
      assert order[..|order|] == order;
    }

    // `streams` are the channel's ready lives, oldest first.
    method BackfillRecords(streams: seq<Live>) returns (written: nat)
      modifies this
      ensures rows == Replay(old(rows), streams)
      ensures written == Written(old(rows), streams)
    {
      written := 0;
      for i := 0 to |streams|
        invariant rows == Replay(old(rows), streams[..i])
        invariant written == Written(old(rows), streams[..i])
      {
        assert streams[..i + 1][..i] == streams[..i];
        var broke := UpdateStreamRecords(streams[i]);
        written := written + |broke|;
      }
      assert streams[..|streams|] == streams;
    }

    method CurrentBest(c: ChannelId) returns (best: map<Metric, (StreamId, real)>)
      ensures best == BestOf(rows, c)
    {
      best := map[];
      for i := 0 to |rows|
        invariant best == BestOf(rows[..i], c)
      {
        assert rows[..i + 1][..i] == rows[..i];
        var r := rows[i];
        if r.channel == c && (r.metric !in best || r.value > best[r.metric].1) {
          best := best[r.metric := (r.stream, r.value)];
        }
      }
      assert rows[..|rows|] == rows;
    }

    method RecordsHeldByStream(c: ChannelId) returns (held: map<StreamId, seq<Metric>>)
      ensures forall s :: s in held <==> HeldBy(BestOf(rows, c), METRICS, s) != []
      ensures forall s :: s in held ==> held[s] == HeldBy(BestOf(rows, c), METRICS, s)
    {
      var best := CurrentBest(c);
      held := map[];
      for i := 0 to |METRICS|
        invariant forall s :: s in held <==> HeldBy(best, METRICS[..i], s) != []
        invariant forall s :: s in held ==> held[s] == HeldBy(best, METRICS[..i], s)
      {
        assert METRICS[..i + 1][..i] == METRICS[..i];
        var m := METRICS[i];
        if m in best {
          var s := best[m].0;
          held := held[s := (if s in held then held[s] else []) + [m]];
        }
      }
      assert METRICS[..|METRICS|] == METRICS;
    }
  }
}
