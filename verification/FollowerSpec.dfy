/**
 What one call of sync_channel leaves in the database, as a function of the database it found
 and of everything it was told while it ran; and the proof that such a call is one of the runs
 of FollowerRuns, so every law of those runs holds of it.
 */
module FollowerSpec {
  import opened Wrappers
  import opened Numbers
  import opened FollowerTables
  import opened FollowerRuns

  // The order in which the database returns the members of a set of rows.
  type Planner = set<UserId> -> seq<UserId>

  ghost predicate IsPlanner(plan: Planner) {
    forall s :: Enumerates(plan(s), s)
  }

  datatype Reply<T> = Told(items: seq<T>, at: Time) | Failed(msg: string)

  datatype ConfirmReply = Heard(verdicts: Verdicts, at: Time) | Unreachable

  // The outside world during one call: the token refresh, the clock, the pages answered (a tape
  // that ends early is a process death), the profile and stream lookups, the confirmations.
  datatype World = World(
    tokenError: Option<string>, now: Time, tape: seq<Answer>, plan: Planner,
    users: seq<UserId> -> Reply<Profile>, infos: seq<UserId> -> Reply<StreamerInfo>,
    confirm: ConfirmReply, finishedAt: Time)

  // ----- the walk ----------------------------------------------------------

  datatype WalkEnd = Completed | Interrupted | Died

  datatype Walked = Walked(db: Db, end: WalkEnd)

  function Walk(db: Db, tape: seq<Answer>, passStart: Time): Walked
    decreases |tape|
  {
    if tape == [] then Walked(db, Died)
    else if tape[0].Raise? then Walked(WithError(db, Some(WalkError(tape[0].msg))), Interrupted)
    else if Conflicts(db.rows, tape[0].records) then
      Walked(WithError(db, Some(WalkError("IntegrityError"))), Interrupted)
    else
      var stored := CommitPage(db, tape[0], passStart);
      if tape[0].next.None? then Walked(stored, Completed) else Walk(stored, tape[1..], passStart)
  }

  function PassStart(c: Channel, now: Time): Time {
    if StartsFresh(c) then now else c.startedAt.value
  }

  // ----- enrichment --------------------------------------------------------

  // `count` is how many of the answers were about people asked for.
  datatype Enriched = Enriched(rows: Rows, error: Option<SyncError>, count: nat)

  function Plus(e: Enriched, n: nat): Enriched {
    e.(count := e.count + n)
  }

  function Batch(plan: Planner, s: set<UserId>): seq<UserId> {
    plan(s)[..Min(ENRICH_BATCH_SIZE, |plan(s)|)]
  }

  lemma BatchShrinks(plan: Planner, s: set<UserId>)
    requires IsPlanner(plan) && s != {}
    ensures Batch(plan, s) != []
    ensures forall u :: u in Batch(plan, s) ==> u in s
    ensures |s - (set u | u in Batch(plan, s))| < |s|
  {
    assert Enumerates(plan(s), s);
    var b := Batch(plan, s);
    assert plan(s)[0] == b[0];
    assert s - (set u | u in b) <= s - {b[0]};
    assert |s - {b[0]}| == |s| - 1;
    SubsetSize(s - (set u | u in b), s - {b[0]});
  }

  lemma {:induction false} SubsetSize(a: set<UserId>, b: set<UserId>)
    requires a <= b
    ensures |a| <= |b|
  {
    assert b == a + (b - a);
  }

  ghost function EnrichFollowers(rows: Rows, w: World): (r: Enriched)
    requires IsPlanner(w.plan)
    ensures SameFollowers(rows, r.rows)
    ensures r.error.None? ==> Pending(r.rows) == {}
    decreases |Pending(rows)|
  {
    if Pending(rows) == {} then Enriched(rows, None, 0)
    else
      var batch := Batch(w.plan, Pending(rows));
      BatchShrinks(w.plan, Pending(rows));
      match w.users(batch)
      case Failed(msg) => Enriched(rows, Some(EnrichmentError(msg)), 0)
      case Told(profiles, at) =>
        EnrichBatchEffect(rows, batch, profiles, at);
        Plus(EnrichFollowers(EnrichBatch(rows, batch, profiles, at), w), ProfilesUsed(batch, profiles))
  }

  ghost function EnrichStreamers(rows: Rows, w: World): (r: Enriched)
    requires IsPlanner(w.plan)
    ensures SameFollowers(rows, r.rows)
    ensures r.error.None? ==> PendingStreamers(r.rows) == {}
    decreases |PendingStreamers(rows)|
  {
    if PendingStreamers(rows) == {} then Enriched(rows, None, 0)
    else
      var batch := Batch(w.plan, PendingStreamers(rows));
      BatchShrinks(w.plan, PendingStreamers(rows));
      match w.infos(batch)
      case Failed(msg) => Enriched(rows, Some(EnrichmentError(msg)), 0)
      case Told(infos, at) =>
        EnrichStreamersBatchEffect(rows, batch, infos, at);
        Plus(EnrichStreamers(EnrichStreamersBatch(rows, batch, infos, at), w), InfosUsed(batch, infos))
  }

  ghost function Enrich(rows: Rows, w: World): (r: Enriched)
    requires IsPlanner(w.plan)
    ensures SameFollowers(rows, r.rows)
  {
    var followers := EnrichFollowers(rows, w);
    if followers.error.Some? then followers.(count := 0)
    else
      var streamers := EnrichStreamers(followers.rows, w);
      streamers.(count := if streamers.error.Some? then 0 else followers.count + streamers.count)
  }

  // ----- reconciliation ----------------------------------------------------

  // `error` is the refusal, `raised` an exception that leaves sync_channel.
  datatype Reconciled = Reconciled(db: Db, error: Option<SyncError>, raised: bool, gone: GoneCount)

  datatype GoneCount = GoneCount(unfollowed: nat, accountsGone: nat, deferred: nat)

  ghost function Reconcile(db: Db, passStart: Time, w: World): Reconciled {
    var order := w.plan(Candidates(db.rows, passStart));
    var total := db.channel.total.GetOr(0);
    if order == [] then Reconciled(db, None, false, GoneCount(0, 0, 0))
    else if TooManyToBelieve(|order|, total) then
      Reconciled(db, Some(TooMany(|order|, total)), false, GoneCount(0, 0, |order|))
    else
      var batch := order[..Min(UNFOLLOW_CONFIRM_LIMIT, |order|)];
      match w.confirm
      case Unreachable => Reconciled(db, None, true, GoneCount(0, 0, 0))
      case Heard(v, at) =>
        Reconciled(Confirm(db, batch, v, passStart, at), None, false,
                   GoneCount(UnfollowedOf(batch, v), AccountsGone(batch, v), |order| - |batch|))
  }

  // ----- the whole call ----------------------------------------------------

  ghost function AfterWalk(db: Db, passStart: Time, w: World): Db
    requires IsPlanner(w.plan)
  {
    var e := Enrich(db.rows, w);
    var r := Reconcile(db.(rows := e.rows), passStart, w);
    if r.raised then r.db
    else FinishPass(r.db, if r.error.Some? then r.error else e.error, w.finishedAt)
  }

  ghost function Sync(db: Db, w: World): Db
    requires IsPlanner(w.plan)
  {
    if w.tokenError.Some? then WithError(db, Some(TokenError(w.tokenError.value)))
    else
      var t := PassStart(db.channel, w.now);
      var walk := Walk(db, w.tape, t);
      if walk.end.Completed? then AfterWalk(walk.db, t, w) else walk.db
  }

  // The pass went all the way: told every page, and nothing raised in reconciliation.
  ghost predicate Completes(db: Db, w: World)
    requires IsPlanner(w.plan)
  {
    var t := PassStart(db.channel, w.now);
    var walk := Walk(db, w.tape, t);
    && w.tokenError.None? && walk.end.Completed?
    && !Reconcile(walk.db.(rows := Enrich(walk.db.rows, w).rows), t, w).raised
  }

  // ----- what the call reports ---------------------------------------------

  datatype SyncResult = SyncResult(total: int, pages: nat, added: nat, enriched: nat, gone: GoneCount, completed: bool)

  // The counters of the walk: `added` counts the inserts of every page taken, also of one that its commit
  // refuses.
  datatype Tally = Tally(total: int, pages: nat, added: nat)

  function Counted(c: Tally, rows: Rows, answer: Answer): Tally
    requires answer.Page?
  {
    Tally(answer.total, c.pages + 1, c.added + Inserts(rows, answer.records))
  }

  function Tallied(db: Db, tape: seq<Answer>, passStart: Time, c: Tally): Tally
    decreases |tape|
  {
    if tape == [] || tape[0].Raise? then c
    else
      var now := Counted(c, db.rows, tape[0]);
      if Conflicts(db.rows, tape[0].records) || tape[0].next.None? then now
      else Tallied(CommitPage(db, tape[0], passStart), tape[1..], passStart, now)
  }

  function Unfinished(c: Tally): SyncResult {
    SyncResult(c.total, c.pages, c.added, 0, GoneCount(0, 0, 0), false)
  }

  // None when the process died or an exception left the call.
  ghost function ResultOf(db: Db, w: World): Option<SyncResult>
    requires IsPlanner(w.plan)
  {
    var start := Tally(db.channel.total.GetOr(0), 0, 0);
    if w.tokenError.Some? then Some(Unfinished(start))
    else
      var t := PassStart(db.channel, w.now);
      var walk, c := Walk(db, w.tape, t), Tallied(db, w.tape, t, start);
      if walk.end.Died? then None
      else if walk.end.Interrupted? then Some(Unfinished(c))
      else
        var e := Enrich(walk.db.rows, w);
        var r := Reconcile(walk.db.(rows := e.rows), t, w);
        if r.raised then None else Some(SyncResult(c.total, c.pages, c.added, e.count, r.gone, true))
  }

  lemma LastIsNew(rows: Rows, records: seq<Record>)
    requires records != [] && !Conflicts(rows, records)
    ensures var front, last := records[..|records| - 1], records[|records| - 1];
            !Conflicts(rows, front) && (last.user in Ids(front) ==> last.user in rows)
  {
    var n := |records| - 1;
    forall i, j | 0 <= i < j < n && records[..n][i].user == records[..n][j].user ensures records[..n][i].user in rows {
      assert records[i].user == records[j].user;
    }
    forall k | 0 <= k < n && records[..n][k].user == records[n].user ensures records[n].user in rows {
      assert records[k].user == records[n].user;
    }
  }

  lemma GrownBy(rows: Rows, u: UserId, row: Row)
    ensures |rows[u := row]| == |rows| + if u in rows then 0 else 1
  {
    assert rows[u := row].Keys == rows.Keys + {u};
  }

  lemma {:induction false} InsertsAreNew(rows: Rows, records: seq<Record>, passStart: Time)
    requires !Conflicts(rows, records)
    ensures |StorePage(rows, records, passStart)| == |rows| + Inserts(rows, records)
  {
    if records != [] {
      var front, last := records[..|records| - 1], records[|records| - 1];
      var before := StorePage(rows, front, passStart);
      LastIsNew(rows, records);
      InsertsAreNew(rows, front, passStart);
      assert last.user in before <==> last.user in rows by { StorePageStamps(rows, front, passStart); }
      GrownBy(before, last.user, Stored(before, last, passStart));
    }
  }

  lemma {:induction false} TallyIsGrowth(db: Db, tape: seq<Answer>, passStart: Time, c: Tally)
    requires Walk(db, tape, passStart).end.Completed?
    ensures Tallied(db, tape, passStart, c).added == c.added + |Walk(db, tape, passStart).db.rows| - |db.rows|
    ensures Walk(db, tape, passStart).db.unfollows == db.unfollows
    decreases |tape|
  {
    InsertsAreNew(db.rows, tape[0].records, passStart);
    if tape[0].next.Some? {
      TallyIsGrowth(CommitPage(db, tape[0], passStart), tape[1..], passStart, Counted(c, db.rows, tape[0]));
    }
  }

  lemma ShrunkBy(rows: Rows, u: UserId)
    requires u in rows
    ensures |rows - {u}| + 1 == |rows|
  {
    assert rows.Keys == (rows - {u}).Keys + {u};
  }

  // What the last member of a batch changes.
  lemma ConfirmLast(db: Db, batch: seq<UserId>, v: Verdicts, passStart: Time, now: Time)
    requires batch != [] && batch[|batch| - 1] in Confirm(db, batch[..|batch| - 1], v, passStart, now).rows
    ensures var before := Confirm(db, batch[..|batch| - 1], v, passStart, now);
            var r := Confirm(db, batch, v, passStart, now);
            var gone := if Departs(batch[|batch| - 1], v) then 1 else 0;
            |r.unfollows| == |before.unfollows| + gone && |r.rows| + gone == |before.rows|
  {
    var before, u := Confirm(db, batch[..|batch| - 1], v, passStart, now), batch[|batch| - 1];
    if Departs(u, v) {
      ShrunkBy(before.rows, u);
    } else {
      GrownBy(before.rows, u, before.rows[u].(lastSeen := Some(passStart)));
    }
  }

  lemma {:induction false} ConfirmCounts(db: Db, batch: seq<UserId>, v: Verdicts, passStart: Time, now: Time)
    requires forall u :: u in batch ==> u in db.rows
    requires forall i, j :: 0 <= i < j < |batch| ==> batch[i] != batch[j]
    ensures var r, gone := Confirm(db, batch, v, passStart, now), UnfollowedOf(batch, v) + AccountsGone(batch, v);
            |r.unfollows| == |db.unfollows| + gone && |r.rows| + gone == |db.rows|
  {
    if batch != [] {
      var front, u := batch[..|batch| - 1], batch[|batch| - 1];
      assert u in db.rows && u !in front;
      ConfirmCounts(db, front, v, passStart, now);
      assert u in Confirm(db, front, v, passStart, now).rows by { ConfirmRows(db, front, v, passStart, now); }
      ConfirmLast(db, batch, v, passStart, now);
    }
  }

  lemma ReconcileCounts(db: Db, passStart: Time, w: World)
    requires IsPlanner(w.plan)
    ensures var r := Reconcile(db, passStart, w);
            && |r.db.unfollows| == |db.unfollows| + r.gone.unfollowed + r.gone.accountsGone
            && |r.db.rows| + r.gone.unfollowed + r.gone.accountsGone == |db.rows|
  {
    var s := Candidates(db.rows, passStart);
    var order := w.plan(s);
    assert Enumerates(order, s);
    if order != [] && !TooManyToBelieve(|order|, db.channel.total.GetOr(0)) && w.confirm.Heard? {
      var batch := order[..Min(UNFOLLOW_CONFIRM_LIMIT, |order|)];
      assert forall u :: u in batch ==> u in order;
      ConfirmCounts(db, batch, w.confirm.verdicts, passStart, w.confirm.at);
    }
  }

  /** The counters of a completed pass add up: rows before plus rows added are rows after plus people reported
      as unfollowed or gone, and exactly those were recorded. */
  lemma CountersAddUp(db: Db, w: World)
    requires IsPlanner(w.plan) && Completes(db, w)
    ensures ResultOf(db, w).Some? && ResultOf(db, w).value.completed
    ensures var r, after := ResultOf(db, w).value, Sync(db, w);
            && |db.rows| + r.added == |after.rows| + r.gone.unfollowed + r.gone.accountsGone
            && |after.unfollows| == |db.unfollows| + r.gone.unfollowed + r.gone.accountsGone
  {
    var t := PassStart(db.channel, w.now);
    var walk := Walk(db, w.tape, t);
    TallyIsGrowth(db, w.tape, t, Tally(db.channel.total.GetOr(0), 0, 0));
    var e := Enrich(walk.db.rows, w);
    assert walk.db.rows.Keys == e.rows.Keys;
    ReconcileCounts(walk.db.(rows := e.rows), t, w);
  }

  // ----- a call is a run ----------------------------------------------------

  lemma ExtendRun(s: Sys, es: seq<Event>, e: Event)
    requires Runs(s, es) && Enabled(After(s, es), e)
    ensures Runs(s, es + [e]) && After(s, es + [e]) == Step(After(s, es), e)
  {
    assert (es + [e])[..|es|] == es;
  }

  lemma {:induction false} RunsConcat(s: Sys, a: seq<Event>, b: seq<Event>)
    requires Runs(s, a) && Runs(After(s, a), b)
    ensures Runs(s, a + b) && After(s, a + b) == After(After(s, a), b)
  {
    if b == [] {
      assert a + b == a;
    } else {
      var front, last := b[..|b| - 1], b[|b| - 1];
      RunsConcat(s, a, front);
      SnocAssoc(a, b);
      ExtendRun(s, a + front, last);
    }
  }

  lemma OneStep(s: Sys, e: Event)
    requires Enabled(s, e)
    ensures Runs(s, [e]) && After(s, [e]) == Step(s, e)
  {
    assert [e][..0] == [];
    assert Runs(s, []) && After(s, []) == s;
  }

  lemma {:induction false} WalkIsARun(s: Sys, tape: seq<Answer>) returns (events: seq<Event>)
    requires s.worker.Walking?
    ensures Runs(s, events)
    ensures var r := Walk(s.db, tape, s.worker.passStart);
            && After(s, events).db == r.db
            && After(s, events).worker == if r.end.Completed? then Enriching(s.worker.passStart, None) else Idle
    decreases |tape|
  {
    if tape == [] {
      OneStep(s, Die);
      events := [Die];
    } else {
      var e := StoreAnswer(tape[0]);
      OneStep(s, e);
      var s' := Step(s, e);
      if s'.worker.Walking? {
        var rest := WalkIsARun(s', tape[1..]);
        RunsConcat(s, [e], rest);
        events := [e] + rest;
      } else {
        events := [e];
      }
    }
  }

  function Later(error: Option<SyncError>, before: Option<SyncError>): Option<SyncError> {
    if error.Some? then error else before
  }

  lemma {:induction false} EnrichFollowersIsARun(s: Sys, w: World) returns (events: seq<Event>)
    requires IsPlanner(w.plan) && s.worker.Enriching?
    ensures Runs(s, events)
    ensures var r := EnrichFollowers(s.db.rows, w);
            After(s, events) == s.(db := s.db.(rows := r.rows),
                                   worker := Enriching(s.worker.passStart, Later(r.error, s.worker.pendingError)))
    decreases |Pending(s.db.rows)|
  {
    events := [];
    if Pending(s.db.rows) != {} {
      var batch := Batch(w.plan, Pending(s.db.rows));
      BatchShrinks(w.plan, Pending(s.db.rows));
      match w.users(batch)
      case Failed(msg) =>
        OneStep(s, EnrichFailed(msg));
        events := [EnrichFailed(msg)];
      case Told(profiles, at) =>
        var e := EnrichRound(batch, profiles, at);
        OneStep(s, e);
        EnrichBatchEffect(s.db.rows, batch, profiles, at);
        var rest := EnrichFollowersIsARun(Step(s, e), w);
        RunsConcat(s, [e], rest);
        events := [e] + rest;
    }
  }

  lemma {:induction false} EnrichStreamersIsARun(s: Sys, w: World) returns (events: seq<Event>)
    requires IsPlanner(w.plan) && s.worker.Enriching?
    ensures Runs(s, events)
    ensures var r := EnrichStreamers(s.db.rows, w);
            After(s, events) == s.(db := s.db.(rows := r.rows),
                                   worker := Enriching(s.worker.passStart, Later(r.error, s.worker.pendingError)))
    decreases |PendingStreamers(s.db.rows)|
  {
    events := [];
    if PendingStreamers(s.db.rows) != {} {
      var batch := Batch(w.plan, PendingStreamers(s.db.rows));
      BatchShrinks(w.plan, PendingStreamers(s.db.rows));
      match w.infos(batch)
      case Failed(msg) =>
        OneStep(s, EnrichFailed(msg));
        events := [EnrichFailed(msg)];
      case Told(infos, at) =>
        var e := StreamerRound(batch, infos, at);
        OneStep(s, e);
        EnrichStreamersBatchEffect(s.db.rows, batch, infos, at);
        var rest := EnrichStreamersIsARun(Step(s, e), w);
        RunsConcat(s, [e], rest);
        events := [e] + rest;
    }
  }

  lemma EnrichIsARun(s: Sys, w: World) returns (events: seq<Event>)
    requires IsPlanner(w.plan) && s.worker.Enriching? && s.worker.pendingError.None?
    ensures Runs(s, events)
    ensures var r := Enrich(s.db.rows, w);
            After(s, events) == s.(db := s.db.(rows := r.rows), worker := Enriching(s.worker.passStart, r.error))
  {
    var a := EnrichFollowersIsARun(s, w);
    if EnrichFollowers(s.db.rows, w).error.Some? {
      events := a;
    } else {
      var b := EnrichStreamersIsARun(After(s, a), w);
      RunsConcat(s, a, b);
      events := a + b;
    }
  }

  lemma ReconcileIsARun(s: Sys, w: World) returns (events: seq<Event>)
    requires IsPlanner(w.plan) && s.worker.Enriching?
    ensures Runs(s, events)
    ensures var r := Reconcile(s.db, s.worker.passStart, w);
            After(s, events).worker.Idle? && After(s, events).db ==
              if r.raised then r.db
              else FinishPass(r.db, if r.error.Some? then r.error else s.worker.pendingError, w.finishedAt)
  {
    var order := w.plan(Candidates(s.db.rows, s.worker.passStart));
    assert Enumerates(order, Candidates(s.db.rows, s.worker.passStart));
    OneStep(s, Select(order));
    var s1 := Step(s, Select(order));
    var e := if s1.worker.Finishing? then Finish(w.finishedAt)
             else if w.confirm.Unreachable? then Die
             else Settle(w.confirm.verdicts, w.confirm.at);
    OneStep(s1, e);
    RunsConcat(s, [Select(order)], [e]);
    events := [Select(order)] + [e];
    var s2 := Step(s1, e);
    if e.Settle? {
      var f := Finish(w.finishedAt);
      OneStep(s2, f);
      RunsConcat(s, events, [f]);
      events := events + [f];
    }
  }

  /** One call of sync_channel is a run of the state machine, whatever the world does: the safety
      and conservation laws proved for all runs hold for the method. */
  lemma SyncIsARun(s: Sys, w: World) returns (events: seq<Event>)
    requires IsPlanner(w.plan) && s.worker.Idle?
    ensures Runs(s, events)
    ensures After(s, events).worker.Idle? && After(s, events).db == Sync(s.db, w)
  {
    var first := if w.tokenError.Some? then TokenRefused(w.tokenError.value) else Begin(w.now);
    OneStep(s, first);
    var s1 := Step(s, first);
    events := [first];
    if w.tokenError.None? {
      var walk := WalkIsARun(s1, w.tape);
      RunsConcat(s, events, walk);
      events := events + walk;
      var s2 := After(s, events);
      if s2.worker.Enriching? {
        var enrich := EnrichIsARun(s2, w);
        RunsConcat(s, events, enrich);
        events := events + enrich;
        var s3 := After(s, events);
        var reconcile := ReconcileIsARun(s3, w);
        RunsConcat(s, events, reconcile);
        events := events + reconcile;
      }
    }
  }
}
