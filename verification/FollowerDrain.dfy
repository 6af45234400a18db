/**
 People who left the list drain away: over a list that does not move, every completed pass removes up to
 200 of them and nobody else, however often passes are cut, resumed and failed in between. First for the
 runs of the machine, then for sequences of calls of sync_channel.
 */
module FollowerDrain {
  import opened Wrappers
  import opened Numbers
  import opened FollowerTables
  import opened FollowerRuns
  import opened FollowerSpec
  import opened FollowerWalk

  function Departed(rows: Rows, f: Frozen): set<UserId> {
    set u | u in rows && u !in Listed(f.pages)
  }

  // Nobody who left carries a stamp or a follow date that a pass from `from` on would spare.
  ghost predicate LeftBefore(rows: Rows, f: Frozen, from: Time) {
    forall u :: u in Departed(rows, f) ==>
      rows[u].followedAt < from && (rows[u].lastSeen.None? || rows[u].lastSeen.value < from)
  }

  // Everyone on the first k pages is stored and stamped with t.
  ghost predicate StampedTo(rows: Rows, f: Frozen, k: nat, t: Time)
    requires k <= |f.pages|
  {
    forall u :: u in Listed(f.pages[..k]) ==> u in rows && rows[u].lastSeen == Some(t)
  }

  // A pass that was left under way can go on from its cursor.
  ghost predicate Resumable(db: Db, f: Frozen, from: Time) {
    db.channel.cursor.Some? ==>
      && db.channel.startedAt.Some? && from <= db.channel.startedAt.value
      && 0 < db.channel.cursor.value < |f.pages|
      && StampedTo(db.rows, f, db.channel.cursor.value, db.channel.startedAt.value)
  }

  ghost predicate Ready(db: Db, f: Frozen, from: Time) {
    LeftBefore(db.rows, f, from) && Resumable(db, f, from)
  }

  ghost predicate Complete(rows: Rows, f: Frozen) {
    forall u :: u in Listed(f.pages) ==> u in rows
  }

  // ----- what the statements do to those who left -----------------------------------------

  // The same people are gone, with the same dates, and nobody on the list was lost.
  ghost predicate SameDeparted(a: Rows, b: Rows, f: Frozen) {
    && Departed(a, f) == Departed(b, f)
    && (forall u :: u in Departed(a, f) ==> b[u].followedAt == a[u].followedAt && b[u].lastSeen == a[u].lastSeen)
    && (forall u :: u in Listed(f.pages) && u in a ==> u in b)
  }

  // Some of them, the others with the same dates.
  ghost predicate FewerDeparted(a: Rows, b: Rows, f: Frozen) {
    && (forall u :: u in Departed(b, f) ==>
          u in Departed(a, f) && b[u].followedAt == a[u].followedAt && b[u].lastSeen == a[u].lastSeen)
    && (forall u :: u in Listed(f.pages) && u in a ==> u in b && b[u] == a[u])
  }

  lemma {:induction false} ListedSplits(pages: seq<seq<Record>>, k: nat)
    requires k < |pages|
    ensures Listed(pages[..k + 1]) == Listed(pages[..k]) + Ids(pages[k])
    ensures Listed(pages[..k + 1]) <= Listed(pages)
    decreases |pages| - k
  {
    assert pages[..k + 1][..k] == pages[..k];
    if k + 1 < |pages| {
      ListedSplits(pages, k + 1);
    } else {
      assert pages[..k + 1] == pages;
    }
  }

  lemma PageStored(rows: Rows, f: Frozen, k: nat, t: Time)
    requires k < |f.pages| && StampedTo(rows, f, k, t)
    ensures var r := StorePage(rows, f.pages[k], t); StampedTo(r, f, k + 1, t) && SameDeparted(rows, r, f)
  {
    StorePageEffect(rows, f.pages[k], t);
    ListedSplits(f.pages, k);
    var r := StorePage(rows, f.pages[k], t);
    forall u ensures u in Departed(r, f) <==> u in Departed(rows, f) {
      assert u in r <==> u in rows || u in Ids(f.pages[k]);
    }
  }

  lemma AllStamped(rows: Rows, f: Frozen, t: Time)
    requires StampedTo(rows, f, |f.pages|, t)
    ensures forall u :: u in Listed(f.pages) ==> u in rows && rows[u].lastSeen == Some(t)
  {
    assert f.pages[..|f.pages|] == f.pages;
  }

  lemma EnrichedKeeps(a: Rows, b: Rows, f: Frozen)
    requires SameFollowers(a, b)
    ensures SameDeparted(a, b, f)
    ensures forall k: nat, t :: k <= |f.pages| && StampedTo(a, f, k, t) ==> StampedTo(b, f, k, t)
  {
    forall u ensures u in Departed(a, f) <==> u in Departed(b, f) {
      assert u in a <==> u in b;
    }
    forall k: nat, t | k <= |f.pages| && StampedTo(a, f, k, t) ensures StampedTo(b, f, k, t) {
      forall u | u in Listed(f.pages[..k]) ensures u in b && b[u].lastSeen == Some(t) {
        assert u in a && a[u].lastSeen == Some(t);
      }
    }
  }

  // After a full walk the candidates are exactly those who left.
  lemma CandidatesAreDeparted(rows: Rows, f: Frozen, t: Time, from: Time)
    requires StampedTo(rows, f, |f.pages|, t) && LeftBefore(rows, f, from) && from <= t
    ensures Candidates(rows, t) == Departed(rows, f)
  {
    AllStamped(rows, f, t);
    forall u ensures u in Candidates(rows, t) <==> u in Departed(rows, f) {
    }
  }

  // The first `n` members of a batch without repeats are n different people.
  lemma {:induction false} DistinctSize(batch: seq<UserId>)
    requires forall i, j :: 0 <= i < j < |batch| ==> batch[i] != batch[j]
    ensures |set u | u in batch| == |batch|
  {
    if batch != [] {
      var n := |batch| - 1;
      DistinctSize(batch[..n]);
      assert batch == batch[..n] + [batch[n]];
      assert (set u | u in batch) == (set u | u in batch[..n]) + {batch[n]};
    }
  }

  lemma DifferenceSize<T(!new)>(a: set<T>, b: set<T>, c: set<T>)
    requires b <= a
    requires forall u :: u in c <==> u in a && u !in b
    ensures |c| == |a| - |b|
  {
    assert a == c + b;
  }

  // A batch of people who are all off the list, asked about against the list, is removed whole.
  ghost predicate GoneBatch(rows: Rows, f: Frozen, batch: seq<UserId>) {
    && (forall u :: u in batch ==> u in Departed(rows, f))
    && (forall i, j :: 0 <= i < j < |batch| ==> batch[i] != batch[j])
  }

  lemma SettledBatch(db: Db, f: Frozen, batch: seq<UserId>, v: Verdicts, t: Time, at: Time)
    requires v.follows == Listed(f.pages) && GoneBatch(db.rows, f, batch)
    ensures var r := Confirm(db, batch, v, t, at);
            && r.channel == db.channel && FewerDeparted(db.rows, r.rows, f)
            && |Departed(r.rows, f)| == |Departed(db.rows, f)| - |batch|
  {
    ConfirmRows(db, batch, v, t, at);
    var r := Confirm(db, batch, v, t, at).rows;
    assert forall u :: u in batch ==> Departs(u, v) && u in db.rows;
    DistinctSize(batch);
    var asked := set u | u in batch;
    forall u ensures u in Departed(r, f) <==> u in Departed(db.rows, f) && u !in asked {
      assert u in asked <==> u in batch;
      assert u in r <==> u in db.rows && u !in batch;
    }
    DifferenceSize(Departed(db.rows, f), asked, Departed(r, f));
  }

  lemma FewerKeeps(a: Rows, b: Rows, f: Frozen, from: Time)
    requires FewerDeparted(a, b, f) && LeftBefore(a, f, from)
    ensures LeftBefore(b, f, from)
    ensures forall k: nat, t :: k <= |f.pages| && StampedTo(a, f, k, t) ==> StampedTo(b, f, k, t)
  {
    forall k: nat, t | k <= |f.pages| && StampedTo(a, f, k, t) ensures StampedTo(b, f, k, t) {
      forall u | u in Listed(f.pages[..k]) ensures u in b && b[u].lastSeen == Some(t) {
        if k > 0 { ListedSplits(f.pages, k - 1); }
      }
    }
  }

  lemma BatchOf(rows: Rows, f: Frozen, order: seq<UserId>, n: nat)
    requires Enumerates(order, Departed(rows, f)) && n <= |order|
    ensures GoneBatch(rows, f, order[..n]) && |order| == |Departed(rows, f)|
  {
    assert forall u :: u in order[..n] ==> u in order;
  }

  // ----- runs ----------------------------------------------------------------------------

  // Twitch tells the truth about a list nobody joins or leaves, or fails; enrichment and account lookups
  // may answer anything. Whatever else can happen may happen.
  ghost predicate Truthful(s: Sys, e: Event, f: Frozen, from: Time) {
    match e
    case LiveFollow(_, _, _) => false
    case Begin(now) => from <= now
    case StoreAnswer(answer) =>
      answer.Raise? || (s.worker.Walking? && s.worker.at.GetOr(0) < |f.pages| && answer == Serve(f, s.worker.at))
    case Settle(v, _) => v.follows == Listed(f.pages)
    case _ => true
  }

  ghost predicate TruthfulRun(s: Sys, events: seq<Event>, f: Frozen, from: Time)
    requires Runs(s, events)
  {
    events == [] ||
    var n := |events| - 1;
    TruthfulRun(s, events[..n], f, from) && Truthful(After(s, events[..n]), events[n], f, from)
  }

  // Batches confirmed and committed, and passes completed.
  function Settled(events: seq<Event>): nat {
    if events == [] then 0 else Settled(events[..|events| - 1]) + if events[|events| - 1].Settle? then 1 else 0
  }

  function Finished(events: seq<Event>): nat {
    if events == [] then 0 else Finished(events[..|events| - 1]) + if events[|events| - 1].Finish? then 1 else 0
  }

  // What the worker knows while it is at work.
  ghost predicate AtWork(s: Sys, f: Frozen, from: Time) {
    match s.worker
    case Idle => true
    case Walking(t, at, first) =>
      from <= t && if first then at.None?
                   else at.Some? && 0 < at.value < |f.pages| && StampedTo(s.db.rows, f, at.value, t)
    case Enriching(t, _) =>
      from <= t && StampedTo(s.db.rows, f, |f.pages|, t) && s.db.channel.total == Some(f.total)
    case Confirming(t, batch, _, _) =>
      && from <= t && StampedTo(s.db.rows, f, |f.pages|, t) && GoneBatch(s.db.rows, f, batch)
      && |batch| == Min(200, |Departed(s.db.rows, f)|) && !TooManyToBelieve(|Departed(s.db.rows, f)|, f.total)
    case Finishing(_, _) => Complete(s.db.rows, f)
  }

  ghost predicate Draining(s: Sys, f: Frozen, from: Time) {
    Ready(s.db, f, from) && AtWork(s, f, from)
  }

  // What one event does to those who left.
  ghost predicate Drains(s: Sys, e: Event, s': Sys, f: Frozen) {
    var c, c' := |Departed(s.db.rows, f)|, |Departed(s'.db.rows, f)|;
    && c' == (if e.Settle? then c - Min(200, c) else c)
    && (e.Settle? ==> !TooManyToBelieve(c, f.total))
    && (forall u :: u in Listed(f.pages) && u in s.db.rows ==> u in s'.db.rows)
    && (e.Finish? ==> s.worker.Finishing?)
    && (s'.worker.Finishing? && !s.worker.Finishing? ==> e.Settle? || c == 0 || TooManyToBelieve(c, f.total))
  }

  lemma RowsUntouched(s: Sys, e: Event, f: Frozen, from: Time)
    requires WellPaged(f) && Draining(s, f, from) && Enabled(s, e) && Truthful(s, e, f, from)
    requires e.RequestSync? || e.Die? || e.TokenRefused? || e.Begin? || e.EnrichFailed? || e.Finish?
             || (e.StoreAnswer? && e.answer.Raise?)
    ensures Draining(Step(s, e), f, from) && Drains(s, e, Step(s, e), f)
  {
  }

  lemma PageDrains(s: Sys, answer: Answer, f: Frozen, from: Time)
    requires WellPaged(f) && Draining(s, f, from) && s.worker.Walking? && answer.Page?
    requires Truthful(s, StoreAnswer(answer), f, from)
    ensures var e := StoreAnswer(answer); Draining(Step(s, e), f, from) && Drains(s, e, Step(s, e), f)
  {
    var k, t := s.worker.at.GetOr(0), s.worker.passStart;
    assert NoRepeats(f.pages[k]);
    assert !Conflicts(s.db.rows, f.pages[k]);
    assert StampedTo(s.db.rows, f, k, t);
    PageStored(s.db.rows, f, k, t);
  }

  lemma RoundDrains(s: Sys, e: Event, f: Frozen, from: Time)
    requires Draining(s, f, from) && Enabled(s, e) && (e.EnrichRound? || e.StreamerRound?)
    ensures Draining(Step(s, e), f, from) && Drains(s, e, Step(s, e), f)
  {
    if e.EnrichRound? {
      EnrichBatchEffect(s.db.rows, e.batch, e.profiles, e.at);
    } else {
      EnrichStreamersBatchEffect(s.db.rows, e.batch, e.infos, e.at);
    }
    EnrichedKeeps(s.db.rows, Step(s, e).db.rows, f);
  }

  lemma SelectDrains(s: Sys, order: seq<UserId>, f: Frozen, from: Time)
    requires Draining(s, f, from) && Enabled(s, Select(order))
    ensures var e := Select(order); Draining(Step(s, e), f, from) && Drains(s, e, Step(s, e), f)
  {
    var t := s.worker.passStart;
    CandidatesAreDeparted(s.db.rows, f, t, from);
    BatchOf(s.db.rows, f, order, Min(UNFOLLOW_CONFIRM_LIMIT, |order|));
    AllStamped(s.db.rows, f, t);
  }

  lemma SettleDrains(s: Sys, v: Verdicts, at: Time, f: Frozen, from: Time)
    requires Draining(s, f, from) && s.worker.Confirming? && v.follows == Listed(f.pages)
    ensures var e := Settle(v, at); Draining(Step(s, e), f, from) && Drains(s, e, Step(s, e), f)
  {
    var w := s.worker;
    var after := Confirm(s.db, w.batch, v, w.passStart, at);
    SettledBatch(s.db, f, w.batch, v, w.passStart, at);
    FewerKeeps(s.db.rows, after.rows, f, from);
    AllStamped(s.db.rows, f, w.passStart);
  }

  lemma StepDrains(s: Sys, e: Event, f: Frozen, from: Time)
    requires WellPaged(f) && Draining(s, f, from) && Enabled(s, e) && Truthful(s, e, f, from)
    ensures Draining(Step(s, e), f, from) && Drains(s, e, Step(s, e), f)
  {
    match e
    case StoreAnswer(answer) =>
      if answer.Page? { PageDrains(s, answer, f, from); } else { RowsUntouched(s, e, f, from); }
    case EnrichRound(_, _, _) => RoundDrains(s, e, f, from);
    case StreamerRound(_, _, _) => RoundDrains(s, e, f, from);
    case Select(order) => SelectDrains(s, order, f, from);
    case Settle(v, at) => SettleDrains(s, v, at, f, from);
    case _ => RowsUntouched(s, e, f, from);
  }

  // `c` of `d` departures are left after `settled` batches and `finished` passes.
  predicate Left(d: nat, c: nat, settled: nat, finished: nat, total: int) {
    && c == d - Min(d, 200 * settled)
    && (TooManyToBelieve(d, total) ==> settled == 0)
    && (finished <= settled || c == 0 || TooManyToBelieve(d, total))
  }

  lemma {:induction false} RunDrains(start: Sys, events: seq<Event>, f: Frozen, from: Time)
    requires WellPaged(f) && start.worker.Idle? && Ready(start.db, f, from)
    requires Runs(start, events) && TruthfulRun(start, events, f, from)
    ensures var s := After(start, events);
            && Draining(s, f, from)
            && Left(|Departed(start.db.rows, f)|, |Departed(s.db.rows, f)|, Settled(events),
                    Finished(events) + (if s.worker.Finishing? then 1 else 0), f.total)
            && (forall u :: u in Listed(f.pages) && u in start.db.rows ==> u in s.db.rows)
            && (Finished(events) > 0 ==> Complete(s.db.rows, f))
    decreases |events|
  {
    if events != [] {
      var n := |events| - 1;
      RunDrains(start, events[..n], f, from);
      StepDrains(After(start, events[..n]), events[n], f, from);
    }
  }

  /** In every run over a list that does not move, with passes cut, resumed, failed and killed at any step:
      nobody on the list is lost; of D people who left, D believable, max(0, D - 200 n) are left after n
      confirmed batches, and no more than that after n completed passes; when D is not believable, all are. */
  lemma DeparturesDrain(start: Sys, events: seq<Event>, f: Frozen, from: Time)
    requires WellPaged(f) && start.worker.Idle? && Ready(start.db, f, from)
    requires Runs(start, events) && TruthfulRun(start, events, f, from)
    ensures var d, c := |Departed(start.db.rows, f)|, |Departed(After(start, events).db.rows, f)|;
            && c == (if TooManyToBelieve(d, f.total) then d else d - Min(d, 200 * Settled(events)))
            && (!TooManyToBelieve(d, f.total) ==> c <= d - Min(d, 200 * Finished(events)))
    ensures forall u :: u in Listed(f.pages) && u in start.db.rows ==> u in After(start, events).db.rows
    ensures Finished(events) > 0 ==> Complete(After(start, events).db.rows, f)
  {
    RunDrains(start, events, f, from);
  }

  /** Within the guard, ceil(D / 200) completed passes leave exactly the list, for good. */
  lemma FullyDrained(start: Sys, events: seq<Event>, f: Frozen, from: Time)
    requires WellPaged(f) && start.worker.Idle? && Ready(start.db, f, from)
    requires Runs(start, events) && TruthfulRun(start, events, f, from)
    requires !TooManyToBelieve(|Departed(start.db.rows, f)|, f.total)
    requires Finished(events) > 0 && Finished(events) >= (|Departed(start.db.rows, f)| + 199) / 200
    ensures After(start, events).db.rows.Keys == Listed(f.pages)
  {
    DeparturesDrain(start, events, f, from);
    OnlyTheList(After(start, events).db.rows, f);
  }

  lemma OnlyTheList(rows: Rows, f: Frozen)
    requires Complete(rows, f) && |Departed(rows, f)| == 0
    ensures rows.Keys == Listed(f.pages)
  {
    assert Departed(rows, f) == {};
    forall u ensures u in rows.Keys <==> u in Listed(f.pages) {
      assert u in Departed(rows, f) <==> u in rows && u !in Listed(f.pages);
    }
  }

  // ----- calls -----------------------------------------------------------------------------

  // Pages as the list has them from a cursor on, until the process stops or anything raises.
  ghost predicate TruthfulTape(tape: seq<Answer>, f: Frozen, at: Option<Cursor>)
    decreases |tape|
  {
    || tape == [] || tape[0].Raise?
    || (at.GetOr(0) < |f.pages| && tape[0] == Serve(f, at)
        && (tape[0].next.None? || TruthfulTape(tape[1..], f, tape[0].next)))
  }

  // One call: the token may be refused, the walk may stop anywhere, the confirmation may fail.
  ghost predicate TruthfulCall(db: Db, w: World, f: Frozen, from: Time) {
    && IsPlanner(w.plan) && from <= w.now
    && TruthfulTape(w.tape, f, if StartsFresh(db.channel) then None else db.channel.cursor)
    && (w.confirm.Heard? ==> w.confirm.verdicts.follows == Listed(f.pages))
  }

  lemma {:induction false} WalkDrains(db: Db, tape: seq<Answer>, f: Frozen, at: Option<Cursor>, t: Time, from: Time)
    requires WellPaged(f) && Ready(db, f, from) && from <= t && TruthfulTape(tape, f, at)
    requires at.GetOr(0) < |f.pages| && StampedTo(db.rows, f, at.GetOr(0), t)
    ensures var r := Walk(db, tape, t);
            && Ready(r.db, f, from) && SameDeparted(db.rows, r.db.rows, f)
            && (r.end.Completed? ==>
                  && StampedTo(r.db.rows, f, |f.pages|, t)
                  && r.db.channel.total == Some(f.total) && r.db.channel.cursor.None?)
    decreases |tape|
  {
    if tape != [] && tape[0].Page? {
      var k := at.GetOr(0);
      assert NoRepeats(f.pages[k]);
      assert !Conflicts(db.rows, f.pages[k]);
      PageStored(db.rows, f, k, t);
      var stored := CommitPage(db, tape[0], t);
      if tape[0].next.Some? { WalkDrains(stored, tape[1..], f, tape[0].next, t, from); }
    }
  }

  lemma ReconcileDrains(db: Db, f: Frozen, w: World, t: Time, from: Time)
    requires IsPlanner(w.plan) && (w.confirm.Heard? ==> w.confirm.verdicts.follows == Listed(f.pages))
    requires LeftBefore(db.rows, f, from) && from <= t && StampedTo(db.rows, f, |f.pages|, t)
    requires db.channel.total == Some(f.total)
    ensures var c, r := |Departed(db.rows, f)|, Reconcile(db, t, w);
            && r.db.channel == db.channel && FewerDeparted(db.rows, r.db.rows, f)
            && |Departed(r.db.rows, f)| == (if r.raised || TooManyToBelieve(c, f.total) then c else c - Min(200, c))
  {
    CandidatesAreDeparted(db.rows, f, t, from);
    var order := w.plan(Candidates(db.rows, t));
    assert Enumerates(order, Departed(db.rows, f));
    var n := Min(UNFOLLOW_CONFIRM_LIMIT, |order|);
    BatchOf(db.rows, f, order, n);
    if order != [] && !TooManyToBelieve(|order|, f.total) && w.confirm.Heard? {
      SettledBatch(db, f, order[..n], w.confirm.verdicts, t, w.confirm.at);
    }
  }

  lemma AfterWalkDrains(db: Db, f: Frozen, w: World, t: Time, from: Time)
    requires IsPlanner(w.plan) && (w.confirm.Heard? ==> w.confirm.verdicts.follows == Listed(f.pages))
    requires Ready(db, f, from) && from <= t && StampedTo(db.rows, f, |f.pages|, t)
    requires db.channel.total == Some(f.total)
    ensures var c, after := |Departed(db.rows, f)|, AfterWalk(db, t, w);
            var raised := Reconcile(db.(rows := Enrich(db.rows, w).rows), t, w).raised;
            && Ready(after, f, from) && Complete(after.rows, f)
            && |Departed(after.rows, f)| == (if raised || TooManyToBelieve(c, f.total) then c else c - Min(200, c))
  {
    var enriched := Enrich(db.rows, w).rows;
    EnrichedKeeps(db.rows, enriched, f);
    assert LeftBefore(enriched, f, from);
    ReconcileDrains(db.(rows := enriched), f, w, t, from);
    AllStamped(enriched, f, t);
    FewerKeeps(enriched, Reconcile(db.(rows := enriched), t, w).db.rows, f, from);
  }

  /** A walk cut and resumed any number of times, followed by what sync_channel does after a completed one:
      no current follower is lost, and of c believable departures min(200, c) go unless a check raises. */
  lemma ResumedPassDrains(start: Sys, events: seq<Event>, w: World, f: Frozen, from: Time)
    requires WellPaged(f) && start.worker.Idle? && Ready(start.db, f, from)
    requires Runs(start, events) && TruthfulRun(start, events, f, from) && After(start, events).worker.Enriching?
    requires IsPlanner(w.plan) && (w.confirm.Heard? ==> w.confirm.verdicts.follows == Listed(f.pages))
    ensures var s := After(start, events);
            var t, c := s.worker.passStart, |Departed(s.db.rows, f)|;
            var after := AfterWalk(s.db, t, w);
            && Ready(after, f, from) && Complete(after.rows, f)
            && |Departed(after.rows, f)| ==
               (if Reconcile(s.db.(rows := Enrich(s.db.rows, w).rows), t, w).raised || TooManyToBelieve(c, f.total)
                then c
                else c - Min(200, c))
  {
    RunDrains(start, events, f, from);
    AfterWalkDrains(After(start, events).db, f, w, After(start, events).worker.passStart, from);
  }

  /** One call, whether it begins a pass, resumes one, fails or completes: nobody on the list is lost, and
      exactly a call that completes with D believable departures removes min(200, D) of them. */
  lemma OneCallDrains(db: Db, f: Frozen, w: World, from: Time)
    requires WellPaged(f) && Ready(db, f, from) && TruthfulCall(db, w, f, from)
    ensures var c, after := |Departed(db.rows, f)|, Sync(db, w);
            && Ready(after, f, from)
            && |Departed(after.rows, f)|
               == (if Completes(db, w) && !TooManyToBelieve(c, f.total) then c - Min(200, c) else c)
            && (forall u :: u in Listed(f.pages) && u in db.rows ==> u in after.rows)
            && (Completes(db, w) ==> Complete(after.rows, f))
  {
    if w.tokenError.None? {
      var t := PassStart(db.channel, w.now);
      var at := if StartsFresh(db.channel) then None else db.channel.cursor;
      WalkDrains(db, w.tape, f, at, t, from);
      var walk := Walk(db, w.tape, t);
      if walk.end.Completed? { AfterWalkDrains(walk.db, f, w, t, from); }
    }
  }

  ghost predicate TruthfulCalls(db: Db, ws: seq<World>, f: Frozen, from: Time)
    ensures TruthfulCalls(db, ws, f, from) ==> forall w :: w in ws ==> IsPlanner(w.plan)
    decreases |ws|, 0
  {
    ws == [] ||
    var n := |ws| - 1;
    assert ws == ws[..n] + [ws[n]];
    TruthfulCalls(db, ws[..n], f, from) && TruthfulCall(Calls(db, ws[..n]), ws[n], f, from)
  }

  ghost function Calls(db: Db, ws: seq<World>): Db
    requires forall w :: w in ws ==> IsPlanner(w.plan)
    decreases |ws|, 1
  {
    if ws == [] then db else Sync(Calls(db, ws[..|ws| - 1]), ws[|ws| - 1])
  }

  ghost function CompletedCalls(db: Db, ws: seq<World>): nat
    requires forall w :: w in ws ==> IsPlanner(w.plan)
  {
    if ws == [] then 0
    else
      var n := |ws| - 1;
      CompletedCalls(db, ws[..n]) + if Completes(Calls(db, ws[..n]), ws[n]) then 1 else 0
  }

  /** Over any sequence of calls of which n completed, D believable departures have become
      max(0, D - 200 n); unbelievable ones are all still there. Nobody on the list is ever lost. */
  lemma {:induction false} CallsDrain(db: Db, f: Frozen, ws: seq<World>, from: Time)
    requires WellPaged(f) && Ready(db, f, from) && TruthfulCalls(db, ws, f, from)
    ensures var d, after := |Departed(db.rows, f)|, Calls(db, ws);
            && Ready(after, f, from)
            && |Departed(after.rows, f)| ==
               (if TooManyToBelieve(d, f.total) then d else d - Min(d, 200 * CompletedCalls(db, ws)))
            && (forall u :: u in Listed(f.pages) && u in db.rows ==> u in after.rows)
            && (CompletedCalls(db, ws) > 0 ==> Complete(after.rows, f))
    decreases |ws|
  {
    if ws != [] {
      var n := |ws| - 1;
      CallsDrain(db, f, ws[..n], from);
      OneCallDrains(Calls(db, ws[..n]), f, ws[n], from);
    }
  }

  /** Within the guard, ceil(D / 200) completed calls among any others leave exactly the list. */
  lemma CallsFullyDrain(db: Db, f: Frozen, ws: seq<World>, from: Time)
    requires WellPaged(f) && Ready(db, f, from) && TruthfulCalls(db, ws, f, from)
    requires !TooManyToBelieve(|Departed(db.rows, f)|, f.total)
    requires CompletedCalls(db, ws) > 0 && CompletedCalls(db, ws) >= (|Departed(db.rows, f)| + 199) / 200
    ensures Calls(db, ws).rows.Keys == Listed(f.pages)
  {
    CallsDrain(db, f, ws, from);
    OnlyTheList(Calls(db, ws).rows, f);
  }
}
