/** Who goes first: pick_next_job of the worker loop and the place the dashboard shows. */
module QueueOrder {
  import opened Wrappers
  import opened Numbers
  import opened Sequences
  import opened Schedule

  // A queued or running job with the channel it belongs to.
  datatype Ticket = Ticket(job: int, stream: int, transcribe: bool, queued: bool, channel: int)

  datatype QueueItem = QueueItem(
    stream: int, transcribe: bool, queued: bool, position: Option<nat>, jobsAhead: Option<nat>, eta: Option<int>)

  // The average duration of the finished jobs of a kind, in seconds, if there are any.
  type Averages = bool -> Option<real>

  // The start times the database holds of a channel, at most HISTORY_LIMIT of them.
  type History = int -> seq<Moment>

  // The estimated next live of each channel: what both queues are ordered by.
  type Due = int -> Moment

  function DueAt(now: Moment, history: History): Due {
    channel => NextLive(now, history(channel))
  }

  predicate EstimatedFor(due: Due, now: Moment, history: History, channel: int) {
    due(channel) == NextLive(now, history(channel))
  }

  ghost predicate Estimated(due: Due, now: Moment, history: History) {
    forall channel :: EstimatedFor(due, now, history, channel)
  }

  lemma DueAtIsEstimated(now: Moment, history: History)
    ensures Estimated(DueAt(now, history), now, history)
  {
  }

  method Estimate(channel: int, now: Moment, history: History, ghost due: Due) returns (m: Moment)
    requires Estimated(due, now, history)
    ensures m == due(channel)
  {
    assert EstimatedFor(due, now, history, channel);
    m := EstimateNextLive(now, history(channel));
  }

  predicate Competes(r: Ticket, transcribe: bool) {
    r.queued && r.transcribe == transcribe
  }

  predicate GoesBefore(r: Ticket, t: Ticket, due: Due) {
    Competes(r, t.transcribe) && Before(due(r.channel), due(t.channel))
  }

  // Queued tickets of the same kind whose deadline comes strictly before `t`'s.
  function Ahead(rows: seq<Ticket>, t: Ticket, due: Due): nat {
    if rows == [] then 0
    else Ahead(rows[..|rows| - 1], t, due) + if GoesBefore(rows[|rows| - 1], t, due) then 1 else 0
  }

  predicate MostUrgent(rows: seq<Ticket>, t: Ticket, due: Due) {
    forall i :: 0 <= i < |rows| ==> !GoesBefore(rows[i], t, due)
  }

  predicate GoesBeforeAll(rows: seq<Ticket>, n: nat, t: Ticket, due: Due)
    requires n <= |rows|
  {
    forall k :: 0 <= k < n && Competes(rows[k], t.transcribe) ==> Before(due(t.channel), due(rows[k].channel))
  }

  // Among the first n rows there is one for `t` that every competitor listed before it is less urgent than.
  ghost predicate FirstOfEquals(rows: seq<Ticket>, n: nat, t: Ticket, due: Due)
    requires n <= |rows|
  {
    exists i :: 0 <= i < n && rows[i] == t && GoesBeforeAll(rows, i, t, due)
  }

  /** min() by estimated next live over the queued jobs of one type; of equals, the first. */
  method PickNextJob(rows: seq<Ticket>, transcribe: bool, now: Moment, history: History, ghost due: Due)
    returns (picked: Option<Ticket>)
    requires Estimated(due, now, history)
    ensures picked.None? <==> forall i :: 0 <= i < |rows| ==> !(rows[i].queued && rows[i].transcribe == transcribe)
    ensures picked.Some? ==> picked.value.queued && picked.value.transcribe == transcribe
    ensures picked.Some? ==>
      forall i :: 0 <= i < |rows| && rows[i].queued && rows[i].transcribe == transcribe ==>
        !Before(due(rows[i].channel), due(picked.value.channel))
    ensures picked.Some? ==> MostUrgent(rows, picked.value, due) && FirstOfEquals(rows, |rows|, picked.value, due)
  {
    picked := None;
    var least := now;
    var i := 0;
    while i < |rows|
      invariant 0 <= i <= |rows|
      invariant picked.Some? ==> least == due(picked.value.channel)
      invariant picked.None? <==> forall k :: 0 <= k < i ==> !Competes(rows[k], transcribe)
      invariant picked.Some? ==> Competes(picked.value, transcribe) && FirstOfEquals(rows, i, picked.value, due)
      invariant picked.Some? ==> forall k :: 0 <= k < i ==> !GoesBefore(rows[k], picked.value, due)
    {
      var row := rows[i];
      if row.queued && row.transcribe == transcribe {
        var urgency := Estimate(row.channel, now, history, due);
        if picked.None? || Before(urgency, least) {
          picked, least := Some(row), urgency;
          assert GoesBeforeAll(rows, i, row, due);
        }
      }
      i := i + 1;
    }
  }

  // The jobs ahead and the job itself, each taking the average time.
  function Wait(ahead: nat, average: real): real {
    (ahead + 1) as real * average
  }

  function Eta(ahead: nat, average: Option<real>): Option<int> {
    if average.None? then None else Some(Rounded(Wait(ahead, average.value)))
  }

  function ItemOf(rows: seq<Ticket>, t: Ticket, due: Due, averages: Averages): QueueItem {
    if t.queued then
      var ahead := Ahead(rows, t, due);
      QueueItem(t.stream, t.transcribe, true, Some(ahead + 1), Some(ahead), Eta(ahead, averages(t.transcribe)))
    else QueueItem(t.stream, t.transcribe, false, None, None, None)
  }

  ghost predicate Knows(deadlines: map<int, Moment>, due: Due) {
    forall c :: c in deadlines ==> deadlines[c] == due(c)
  }

  predicate Covers(deadlines: map<int, Moment>, rows: seq<Ticket>, n: int) {
    forall i :: 0 <= i < n && i < |rows| ==> rows[i].channel in deadlines
  }

  /** The first loop of queue_status: one estimate per channel. */
  method CollectDeadlines(rows: seq<Ticket>, now: Moment, history: History, ghost due: Due)
    returns (deadlines: map<int, Moment>)
    requires Estimated(due, now, history)
    ensures Knows(deadlines, due) && Covers(deadlines, rows, |rows|)
  {
    deadlines := map[];
    var i := 0;
    while i < |rows|
      invariant 0 <= i <= |rows|
      invariant Knows(deadlines, due) && Covers(deadlines, rows, i)
    {
      if rows[i].channel !in deadlines {
        var estimate := Estimate(rows[i].channel, now, history, due);
        deadlines := deadlines[rows[i].channel := estimate];
      }
      i := i + 1;
    }
  }

  // The items of one channel's tickets, in row order.
  function Items(rows: seq<Ticket>, all: seq<Ticket>, me: int, due: Due, averages: Averages): seq<QueueItem> {
    if rows == [] then []
    else
      var n := |rows| - 1;
      var front := Items(rows[..n], all, me, due, averages);
      if rows[n].channel == me then front + [ItemOf(all, rows[n], due, averages)] else front
  }

  method CountAhead(rows: seq<Ticket>, t: Ticket, deadlines: map<int, Moment>, ghost due: Due) returns (n: nat)
    requires t.channel in deadlines && Knows(deadlines, due) && Covers(deadlines, rows, |rows|)
    ensures n == Ahead(rows, t, due)
  {
    n := 0;
    var i := 0;
    while i < |rows|
      invariant 0 <= i <= |rows|
      invariant n == Ahead(rows[..i], t, due)
    {
      assert rows[..i + 1][..i] == rows[..i];
      var row := rows[i];
      if row.queued && row.transcribe == t.transcribe && Before(deadlines[row.channel], deadlines[t.channel]) {
        n := n + 1;
      }
      i := i + 1;
    }
    assert rows[..|rows|] == rows;
  }

  method BuildItem(rows: seq<Ticket>, row: Ticket, deadlines: map<int, Moment>, averages: Averages, ghost due: Due)
    returns (item: QueueItem)
    requires row.channel in deadlines && Knows(deadlines, due) && Covers(deadlines, rows, |rows|)
    ensures item == ItemOf(rows, row, due, averages)
  {
    item := QueueItem(row.stream, row.transcribe, row.queued, None, None, None);
    if row.queued {
      var ahead := CountAhead(rows, row, deadlines, due);
      var eta := Eta(ahead, averages(row.transcribe));
      item := item.(position := Some(ahead + 1), jobsAhead := Some(ahead), eta := eta);
    }
  }

  /** Its second loop: one item per job of the caller, with its place among the queued ones. */
  method QueueStatus(
    rows: seq<Ticket>, me: int, now: Moment, history: History, averages: Averages, ghost due: Due)
    returns (items: seq<QueueItem>)
    requires Estimated(due, now, history)
    ensures items == Items(rows, rows, me, due, averages)
  {
    var deadlines := CollectDeadlines(rows, now, history, due);
    items := [];
    var i := 0;
    while i < |rows|
      invariant 0 <= i <= |rows|
      invariant items == Items(rows[..i], rows, me, due, averages)
    {
      assert rows[..i + 1][..i] == rows[..i];
      if rows[i].channel == me {
        var item := BuildItem(rows, rows[i], deadlines, averages, due);
        items := items + [item];
      }
      i := i + 1;
    }
    assert rows[..|rows|] == rows;
  }

  // ----- what the caller is shown -----------------------------------------------------------

  // The rows of one channel, and the rows ahead of one: queued jobs of its kind due strictly earlier.
  function RowsOf(rows: seq<Ticket>, me: int): int -> bool {
    i => 0 <= i < |rows| && rows[i].channel == me
  }

  predicate IsAhead(r: Ticket, t: Ticket, due: Due) {
    r.queued && r.transcribe == t.transcribe && Before(due(r.channel), due(t.channel))
  }

  function RowsAhead(rows: seq<Ticket>, t: Ticket, due: Due): int -> bool {
    i => 0 <= i < |rows| && IsAhead(rows[i], t, due)
  }

  lemma AheadNext(rows: seq<Ticket>, t: Ticket, due: Due, n: nat)
    requires n < |rows|
    ensures Ahead(rows[..n + 1], t, due) == Ahead(rows[..n], t, due) + if IsAhead(rows[n], t, due) then 1 else 0
  {
    assert rows[..n + 1][..n] == rows[..n];
  }

  lemma {:induction false} AheadCounts(rows: seq<Ticket>, t: Ticket, due: Due, n: nat)
    requires n <= |rows|
    ensures |Picked(n, RowsAhead(rows, t, due))| == Ahead(rows[..n], t, due)
  {
    if n > 0 {
      AheadCounts(rows, t, due, n - 1);
      AheadNext(rows, t, due, n - 1);
    }
  }

  // A running job has no place; a queued one comes after the rows ahead of it, each and itself taking the
  // average time of its kind.
  ghost predicate Shows(item: QueueItem, rows: seq<Ticket>, t: Ticket, due: Due, averages: Averages) {
    && item.stream == t.stream && item.transcribe == t.transcribe && item.queued == t.queued
    && (!t.queued ==> item.position.None? && item.jobsAhead.None? && item.eta.None?)
    && (t.queued ==>
          exists ahead: seq<int> ::
            Selects(ahead, |rows|, RowsAhead(rows, t, due)) && PlacedAfter(item, |ahead|, averages(t.transcribe)))
  }

  predicate PlacedAfter(item: QueueItem, ahead: nat, average: Option<real>) {
    && item.jobsAhead == Some(ahead) && item.position == Some(ahead + 1)
    && item.eta == if average.None? then None else Some(Rounded((ahead + 1) as real * average.value))
  }

  lemma EtaIs(ahead: nat, average: Option<real>)
    ensures Eta(ahead, average) == if average.None? then None else Some(Rounded((ahead + 1) as real * average.value))
  {
  }

  lemma ItemShows(rows: seq<Ticket>, t: Ticket, due: Due, averages: Averages)
    ensures Shows(ItemOf(rows, t, due, averages), rows, t, due, averages)
  {
    if t.queued {
      var ahead := Picked(|rows|, RowsAhead(rows, t, due));
      AheadCounts(rows, t, due, |rows|);
      PickedSelects(|rows|, RowsAhead(rows, t, due));
      assert rows[..|rows|] == rows;
      EtaIs(|ahead|, averages(t.transcribe));
      assert PlacedAfter(ItemOf(rows, t, due, averages), |ahead|, averages(t.transcribe));
    }
  }

  lemma ItemsNext(rows: seq<Ticket>, me: int, due: Due, averages: Averages, n: nat)
    requires n < |rows|
    ensures Items(rows[..n + 1], rows, me, due, averages) ==
      Items(rows[..n], rows, me, due, averages)
      + if rows[n].channel == me then [ItemOf(rows, rows[n], due, averages)] else []
  {
    assert rows[..n + 1][..n] == rows[..n];
  }

  // The items are those of the rows picked out, in order.
  predicate ItemsOf(items: seq<QueueItem>, rows: seq<Ticket>, mine: seq<int>, due: Due, averages: Averages) {
    && |items| == |mine|
    && forall k :: 0 <= k < |mine| ==>
         0 <= mine[k] < |rows| && items[k] == ItemOf(rows, rows[mine[k]], due, averages)
  }

  lemma ItemsOfNext(
    items: seq<QueueItem>, rows: seq<Ticket>, mine: seq<int>, due: Due, averages: Averages, n: nat)
    requires n < |rows| && ItemsOf(items, rows, mine, due, averages)
    ensures ItemsOf(items + [ItemOf(rows, rows[n], due, averages)], rows, mine + [n], due, averages)
  {
  }

  lemma {:induction false} ItemsAre(rows: seq<Ticket>, me: int, due: Due, averages: Averages, n: nat)
    requires n <= |rows|
    ensures ItemsOf(Items(rows[..n], rows, me, due, averages), rows, Picked(n, RowsOf(rows, me)), due, averages)
  {
    if n > 0 {
      ItemsAre(rows, me, due, averages, n - 1);
      ItemsNext(rows, me, due, averages, n - 1);
      if rows[n - 1].channel == me {
        ItemsOfNext(Items(rows[..n - 1], rows, me, due, averages), rows, Picked(n - 1, RowsOf(rows, me)),
                    due, averages, n - 1);
      }
    }
  }

  /** The caller is shown exactly the caller's own jobs, one item each, in row order, and each says its place. */
  lemma CallerSeesOwnJobs(rows: seq<Ticket>, me: int, due: Due, averages: Averages) returns (mine: seq<int>)
    ensures Selects(mine, |rows|, RowsOf(rows, me))
    ensures |Items(rows, rows, me, due, averages)| == |mine|
    ensures forall k :: 0 <= k < |mine| ==>
              Shows(Items(rows, rows, me, due, averages)[k], rows, rows[mine[k]], due, averages)
  {
    mine := Picked(|rows|, RowsOf(rows, me));
    PickedSelects(|rows|, RowsOf(rows, me));
    ItemsAre(rows, me, due, averages, |rows|);
    assert rows[..|rows|] == rows;
    var items := Items(rows, rows, me, due, averages);
    forall k | 0 <= k < |mine| ensures Shows(items[k], rows, rows[mine[k]], due, averages) {
      ItemShows(rows, rows[mine[k]], due, averages);
    }
  }

  /** Nobody is ahead of a ticket exactly when no queued ticket of its kind is more urgent. */
  lemma {:induction false} NobodyAhead(rows: seq<Ticket>, t: Ticket, due: Due)
    ensures Ahead(rows, t, due) == 0 <==> MostUrgent(rows, t, due)
  {
    if rows != [] {
      var n := |rows| - 1;
      NobodyAhead(rows[..n], t, due);
      assert MostUrgent(rows, t, due) <==> MostUrgent(rows[..n], t, due) && !GoesBefore(rows[n], t, due);
    }
  }

  // What the place shown means: it counts every more urgent ticket once, so a ticket that goes before
  // another is never shown behind it.
  lemma {:induction false} PlacesFollowUrgency(rows: seq<Ticket>, s: Ticket, t: Ticket, due: Due)
    requires s.transcribe == t.transcribe && !Before(due(t.channel), due(s.channel))
    ensures Ahead(rows, s, due) <= Ahead(rows, t, due)
  {
    if rows != [] { PlacesFollowUrgency(rows[..|rows| - 1], s, t, due); }
  }

  /** Nor is its ETA later. */
  lemma EtasFollowUrgency(rows: seq<Ticket>, s: Ticket, t: Ticket, due: Due, averages: Averages)
    requires s.queued && t.queued && s.transcribe == t.transcribe && !Before(due(t.channel), due(s.channel))
    requires averages(t.transcribe).Some? ==> averages(t.transcribe).value >= 0.0
    ensures var first, second := ItemOf(rows, s, due, averages), ItemOf(rows, t, due, averages);
            && first.position.value <= second.position.value
            && (averages(t.transcribe).Some? ==> first.eta.value <= second.eta.value)
  {
    PlacesFollowUrgency(rows, s, t, due);
    EtaMonotone(Ahead(rows, s, due), Ahead(rows, t, due), averages(t.transcribe));
  }

  lemma EtaMonotone(m: nat, n: nat, average: Option<real>)
    requires m <= n && (average.Some? ==> average.value >= 0.0)
    ensures average.Some? ==> Eta(m, average).value <= Eta(n, average).value
  {
    if average.Some? {
      WaitMonotone(m, n, average.value);
      RoundedMonotone(Wait(m, average.value), Wait(n, average.value));
    }
  }

  lemma WaitMonotone(m: nat, n: nat, average: real)
    requires m <= n && average >= 0.0
    ensures Wait(m, average) <= Wait(n, average)
  {
    var few, more := (m + 1) as real, (n + 1) as real;
    assert more * average - few * average == (more - few) * average;
  }

  // The worker's query and the dashboard's agree on the queued jobs of one kind.
  ghost predicate SameQueue(rows: seq<Ticket>, shown: seq<Ticket>, transcribe: bool) {
    forall t :: Competes(t, transcribe) ==> (t in rows <==> t in shown)
  }

  /** The job the worker takes is always shown with no job ahead of it, in position 1, at the same now,
      whatever else the dashboard's rows hold and in whatever order the two queries return them. */
  method PickedIsShownFirst(
    rows: seq<Ticket>, shown: seq<Ticket>, transcribe: bool, now: Moment, history: History, averages: Averages)
    returns (picked: Option<Ticket>)
    requires SameQueue(rows, shown, transcribe)
    ensures picked.Some? ==> picked.value in rows && picked.value in shown
    ensures picked.Some? ==>
      ItemOf(shown, picked.value, DueAt(now, history), averages) ==
      QueueItem(picked.value.stream, transcribe, true, Some(1), Some(0), Eta(0, averages(transcribe)))
  {
    DueAtIsEstimated(now, history);
    ghost var due := DueAt(now, history);
    picked := PickNextJob(rows, transcribe, now, history, due);
    if picked.Some? {
      MostUrgentEverywhere(rows, shown, picked.value, due);
      NobodyAhead(shown, picked.value, due);
    }
  }

  lemma MostUrgentEverywhere(rows: seq<Ticket>, shown: seq<Ticket>, t: Ticket, due: Due)
    requires MostUrgent(rows, t, due) && SameQueue(rows, shown, t.transcribe)
    ensures MostUrgent(shown, t, due)
  {
    forall i | 0 <= i < |shown| ensures !GoesBefore(shown[i], t, due) {
      if Competes(shown[i], t.transcribe) { assert shown[i] in rows; }
    }
  }
}
