/**
 Every run of the follower sync worker against one channel: attempts, pages, failures, process
 deaths, enrichment rounds, reconciliation and the live follow events of the API process, in any
 interleaving of committed steps and with any answers from Twitch.
 */
module FollowerRuns {
  import opened Wrappers
  import opened Numbers
  import opened FollowerTables

  // What the worker holds in memory; a process death turns any of it into Idle.
  datatype Worker =
    | Idle
    | Walking(passStart: Time, at: Option<Cursor>, first: bool)
    | Enriching(passStart: Time, pendingError: Option<SyncError>)
    | Confirming(passStart: Time, batch: seq<UserId>, candidates: nat, pendingError: Option<SyncError>)
    | Finishing(passStart: Time, pendingError: Option<SyncError>)

  // `seen` and `inserted` are history: who the stored pages of the current pass listed (across
  // restarts), and every row ever inserted.
  datatype Sys = Sys(db: Db, worker: Worker, seen: set<UserId>, inserted: multiset<UserId>)

  datatype Event =
    | LiveFollow(user: UserId, login: string, followedAt: Time)
    | RequestSync
    | TokenRefused(msg: string)
    | Begin(now: Time)
    | StoreAnswer(answer: Answer)
    | Die
    | EnrichRound(batch: seq<UserId>, profiles: seq<Profile>, at: Time)
    | StreamerRound(batch: seq<UserId>, infos: seq<StreamerInfo>, at: Time)
    | EnrichFailed(msg: string)
    | Select(order: seq<UserId>)
    | Settle(verdicts: Verdicts, at: Time)
    | Finish(now: Time)

  function FreshRow(login: string, followedAt: Time): Row {
    Row(login, followedAt, None, None, None, None, None)
  }

  function CommitPage(db: Db, answer: Answer, passStart: Time): Db
    requires answer.Page?
  {
    db.(rows := StorePage(db.rows, answer.records, passStart),
        channel := db.channel.(cursor := answer.next, startedAt := Some(passStart),
                               total := Some(answer.total), error := None))
  }

  function WithError(db: Db, e: Option<SyncError>): Db {
    if e.None? then db else db.(channel := db.channel.(error := e))
  }

  function FinishPass(db: Db, e: Option<SyncError>, now: Time): Db {
    var kept := WithError(db, e);
    kept.(channel := kept.channel.(cursor := None, startedAt := None, syncedAt := Some(now)))
  }

  predicate StartsFresh(c: Channel) {
    c.cursor.None? || c.startedAt.None?
  }

  ghost predicate Enabled(s: Sys, e: Event) {
    match e
    case LiveFollow(_, _, _) => true
    case RequestSync => true
    case Die => true
    case TokenRefused(_) => s.worker.Idle?
    case Begin(_) => s.worker.Idle?
    case StoreAnswer(_) => s.worker.Walking?
    case EnrichRound(batch, _, _) =>
      s.worker.Enriching? && (forall u :: u in batch ==> u in Pending(s.db.rows))
    case StreamerRound(batch, _, _) =>
      s.worker.Enriching? && (forall u :: u in batch ==> u in PendingStreamers(s.db.rows))
    case EnrichFailed(_) => s.worker.Enriching?
    case Select(order) =>
      s.worker.Enriching? && Enumerates(order, Candidates(s.db.rows, s.worker.passStart))
    case Settle(_, _) => s.worker.Confirming?
    case Finish(_) => s.worker.Finishing?
  }

  ghost function Step(s: Sys, e: Event): Sys
    requires Enabled(s, e)
  {
    match e
    case LiveFollow(user, login, followedAt) =>
      if user in s.db.rows then s
      else s.(db := s.db.(rows := s.db.rows[user := FreshRow(login, followedAt)]),
              inserted := s.inserted + multiset{user})
    case RequestSync =>
      var c := s.db.channel;
      s.(db := s.db.(channel := c.(syncedAt := None,
                                   error := if c.error.Some? && c.error.value.TokenError? then None else c.error)))
    case Die => s.(worker := Idle)
    case TokenRefused(msg) =>
      s.(db := WithError(s.db, Some(TokenError(msg))))
    case Begin(now) =>
      var c := s.db.channel;
      s.(worker := if StartsFresh(c) then Walking(now, None, true) else Walking(c.startedAt.value, c.cursor, false))
    case StoreAnswer(answer) =>
      var w := s.worker;
      if answer.Raise? then s.(db := WithError(s.db, Some(WalkError(answer.msg))), worker := Idle)
      else if Conflicts(s.db.rows, answer.records) then
        s.(db := WithError(s.db, Some(WalkError("IntegrityError"))), worker := Idle)
      else
        Sys(CommitPage(s.db, answer, w.passStart),
            if answer.next.None? then Enriching(w.passStart, None) else Walking(w.passStart, answer.next, false),
            (if w.first then {} else s.seen) + Ids(answer.records),
            s.inserted + multiset(Ids(answer.records) - s.db.rows.Keys))
    case EnrichRound(batch, profiles, at) =>
      s.(db := s.db.(rows := EnrichBatch(s.db.rows, batch, profiles, at)))
    case StreamerRound(batch, infos, at) =>
      s.(db := s.db.(rows := EnrichStreamersBatch(s.db.rows, batch, infos, at)))
    case EnrichFailed(msg) =>
      s.(worker := Enriching(s.worker.passStart, Some(EnrichmentError(msg))))
    case Select(order) =>
      var w := s.worker;
      var total := s.db.channel.total.GetOr(0);
      s.(worker :=
        if order == [] then Finishing(w.passStart, w.pendingError)
        else if TooManyToBelieve(|order|, total) then Finishing(w.passStart, Some(TooMany(|order|, total)))
        else Confirming(w.passStart, order[..Min(UNFOLLOW_CONFIRM_LIMIT, |order|)], |order|, w.pendingError))
    case Settle(verdicts, at) =>
      var w := s.worker;
      s.(db := WithError(Confirm(s.db, w.batch, verdicts, w.passStart, at), w.pendingError),
         worker := Finishing(w.passStart, None))
    case Finish(now) =>
      s.(db := FinishPass(s.db, s.worker.pendingError, now), worker := Idle, seen := {})
  }

  // A channel as this worker first meets it: whatever rows it has, no pass under way.
  ghost predicate Init(s: Sys) {
    && s.worker.Idle?
    && s.db.channel.cursor.None? && s.db.channel.startedAt.None?
    && s.seen == {}
    && Conserved(s)
  }

  // Rows ever inserted = rows present + unfollows, person by person.
  ghost predicate Conserved(s: Sys) {
    forall u :: s.inserted[u] == Accounted(s.db, u)
  }

  // `events` can happen one after the other from `s`, and `After` is where they lead.
  ghost predicate Runs(s: Sys, events: seq<Event>)
    decreases |events|, 0
  {
    events == [] ||
    var n := |events| - 1;
    Runs(s, events[..n]) && Enabled(After(s, events[..n]), events[n])
  }

  ghost function After(s: Sys, events: seq<Event>): Sys
    requires Runs(s, events)
    decreases |events|, 1
  {
    if events == [] then s
    else
      var n := |events| - 1;
      Step(After(s, events[..n]), events[n])
  }

  // ----- the invariant -----------------------------------------------------

  // Everyone a stored page of the pass listed has a row carrying the pass stamp.
  ghost predicate SeenAreStamped(s: Sys) {
    forall u :: u in s.seen ==>
      u in s.db.rows && s.db.channel.startedAt.Some? && s.db.rows[u].lastSeen == s.db.channel.startedAt
  }

  ghost predicate WorkerAgrees(s: Sys) {
    var c := s.db.channel;
    match s.worker
    case Idle => true
    case Walking(t, at, first) =>
      if first then at.None? && StartsFresh(c) else at == c.cursor && at.Some? && c.startedAt == Some(t)
    case Enriching(t, _) => c.cursor.None? && c.startedAt == Some(t)
    case Confirming(t, batch, n, _) =>
      && c.cursor.None? && c.startedAt == Some(t)
      && |batch| == Min(UNFOLLOW_CONFIRM_LIMIT, n)
      && !TooManyToBelieve(n, c.total.GetOr(0))
      && (forall i, j :: 0 <= i < j < |batch| ==> batch[i] != batch[j])
      && (forall u :: u in batch ==> u in Candidates(s.db.rows, t))
    case Finishing(t, _) => c.cursor.None? && c.startedAt == Some(t)
  }

  ghost predicate Inv(s: Sys) {
    && (s.db.channel.cursor.Some? ==> s.db.channel.startedAt.Some?)
    && SeenAreStamped(s)
    && WorkerAgrees(s)
    && Conserved(s)
  }

  lemma StoreAnswerKeepsInv(s: Sys, answer: Answer)
    requires Inv(s) && s.worker.Walking?
    ensures Inv(Step(s, StoreAnswer(answer)))
  {
    if answer.Page? && !Conflicts(s.db.rows, answer.records) {
      var s' := Step(s, StoreAnswer(answer));
      StorePageEffect(s.db.rows, answer.records, s.worker.passStart);
      assert SeenAreStamped(s') && WorkerAgrees(s');
      assert s'.db.unfollows == s.db.unfollows;
    }
  }

  lemma SettleKeepsInv(s: Sys, v: Verdicts, at: Time)
    requires Inv(s) && s.worker.Confirming?
    ensures Inv(Step(s, Settle(v, at)))
  {
    var w := s.worker;
    ConfirmRows(s.db, w.batch, v, w.passStart, at);
    forall u ensures Accounted(Confirm(s.db, w.batch, v, w.passStart, at), u) == Accounted(s.db, u) {
      ConfirmConserves(s.db, w.batch, v, w.passStart, at, u);
    }
  }

  lemma SelectKeepsInv(s: Sys, order: seq<UserId>)
    requires Inv(s) && Enabled(s, Select(order))
    ensures Inv(Step(s, Select(order)))
  {
    var s' := Step(s, Select(order));
    if s'.worker.Confirming? {
      forall u | u in s'.worker.batch ensures u in order {
      }
    }
  }

  lemma StepKeepsInv(s: Sys, e: Event)
    requires Inv(s) && Enabled(s, e)
    ensures Inv(Step(s, e))
  {
    match e
    case StoreAnswer(answer) => StoreAnswerKeepsInv(s, answer);
    case EnrichRound(batch, profiles, at) => EnrichBatchEffect(s.db.rows, batch, profiles, at);
    case StreamerRound(batch, infos, at) => EnrichStreamersBatchEffect(s.db.rows, batch, infos, at);
    case Select(order) => SelectKeepsInv(s, order);
    case Settle(v, at) => SettleKeepsInv(s, v, at);
    case _ =>
  }

  lemma {:induction false} RunKeepsInv(s: Sys, events: seq<Event>)
    requires Inv(s) && Runs(s, events)
    ensures Inv(After(s, events))
  {
    if events != [] {
      var n := |events| - 1;
      RunKeepsInv(s, events[..n]);
      StepKeepsInv(After(s, events[..n]), events[n]);
    }
  }

  // ----- safety of deletion -------------------------------------------------

  // Everything the source promises before it deletes the row of `u`.
  ghost predicate DeletionJustified(s: Sys, e: Event, u: UserId) {
    && e.Settle? && s.worker.Confirming?
    // the pass walked to the end of the list
    && s.db.channel.cursor.None? && s.db.channel.startedAt == Some(s.worker.passStart)
    // no stored page of it, before or after a restart, listed this person
    && u in s.db.rows && u !in s.seen
    // who followed before the pass began
    && s.db.rows[u].followedAt < s.worker.passStart
    // the candidates were at most ten, or at most a quarter of the total Twitch reports, and at most 200
    // of them are asked about
    && (s.worker.candidates <= 10 || 4 * s.worker.candidates <= s.db.channel.total.GetOr(0))
    && u in s.worker.batch && |s.worker.batch| <= 200
    // and Twitch knows no such account, or denied this very follow
    && (u !in e.verdicts.alive || u !in e.verdicts.follows)
  }

  // The unfollows one step wrote are exactly the rows it deleted, once each.
  ghost predicate RecordedOnce(s: Sys, e: Event, s': Sys) {
    && |s.db.unfollows| <= |s'.db.unfollows| && s'.db.unfollows[..|s.db.unfollows|] == s.db.unfollows
    && (forall u :: u in s.db.rows && u !in s'.db.rows ==>
          UnfollowedIds(s'.db.unfollows)[u] == UnfollowedIds(s.db.unfollows)[u] + 1)
    && (forall k :: |s.db.unfollows| <= k < |s'.db.unfollows| ==>
          var f := s'.db.unfollows[k];
          && f.user in s.db.rows && f.user !in s'.db.rows
          && e.Settle?
          && f == GoneRecord(f.user, s.db.rows[f.user], e.at, ReasonFor(f.user, e.verdicts)))
  }

  lemma StoreAnswerOnlyAdds(s: Sys, answer: Answer)
    requires s.worker.Walking?
    ensures var s' := Step(s, StoreAnswer(answer));
            s'.db.unfollows == s.db.unfollows && forall u :: u in s.db.rows ==> u in s'.db.rows
  {
    if answer.Page? { StorePageEffect(s.db.rows, answer.records, s.worker.passStart); }
  }

  lemma OnlySettleDeletes(s: Sys, e: Event)
    requires Enabled(s, e) && !e.Settle?
    ensures var s' := Step(s, e);
            s'.db.unfollows == s.db.unfollows && forall u :: u in s.db.rows ==> u in s'.db.rows
  {
    match e
    case StoreAnswer(answer) => StoreAnswerOnlyAdds(s, answer);
    case EnrichRound(batch, profiles, at) => EnrichBatchEffect(s.db.rows, batch, profiles, at);
    case StreamerRound(batch, infos, at) => EnrichStreamersBatchEffect(s.db.rows, batch, infos, at);
    case _ =>
  }

  lemma SettleRecordsOnce(s: Sys, v: Verdicts, at: Time)
    requires Inv(s) && s.worker.Confirming?
    ensures RecordedOnce(s, Settle(v, at), Step(s, Settle(v, at)))
  {
    var w := s.worker;
    var s' := Step(s, Settle(v, at));
    forall u | u in s.db.rows && u !in s'.db.rows
      ensures UnfollowedIds(s'.db.unfollows)[u] == UnfollowedIds(s.db.unfollows)[u] + 1
    {
      ConfirmConserves(s.db, w.batch, v, w.passStart, at, u);
    }
    ConfirmRows(s.db, w.batch, v, w.passStart, at);
    ConfirmUnfollows(s.db, w.batch, v, w.passStart, at);
  }

  /** After any run, at any next step: a follower row disappears only with every safeguard met,
      and commits together with exactly one unfollow of the same user. */
  lemma DeletionIsSafe(start: Sys, events: seq<Event>, e: Event)
    requires Init(start) && Runs(start, events) && Enabled(After(start, events), e)
    ensures var s, s' := After(start, events), Step(After(start, events), e);
            && (forall u :: u in s.db.rows && u !in s'.db.rows ==> DeletionJustified(s, e, u))
            && RecordedOnce(s, e, s')
  {
    var s := After(start, events);
    RunKeepsInv(start, events);
    if e.Settle? {
      ConfirmRows(s.db, s.worker.batch, e.verdicts, s.worker.passStart, e.at);
      SettleRecordsOnce(s, e.verdicts, e.at);
    } else {
      OnlySettleDeletes(s, e);
    }
  }

  lemma {:induction false} UnfollowedIdsSize(us: seq<Unfollow>)
    ensures |UnfollowedIds(us)| == |us|
  {
    if us != [] { UnfollowedIdsSize(us[..|us| - 1]); }
  }

  /** At every point of every run, rows ever inserted = rows present + unfollows, person by
      person and in all. */
  lemma RowsAreConserved(start: Sys, events: seq<Event>)
    requires Init(start) && Runs(start, events)
    ensures var s := After(start, events);
            Conserved(s) && |s.inserted| == |s.db.unfollows| + |s.db.rows|
  {
    var s := After(start, events);
    RunKeepsInv(start, events);
    UnfollowedIdsSize(s.db.unfollows);
    var rows := multiset(s.db.rows.Keys);
    assert s.inserted == UnfollowedIds(s.db.unfollows) + rows by {
      forall u ensures s.inserted[u] == (UnfollowedIds(s.db.unfollows) + rows)[u] {
        assert s.inserted[u] == Accounted(s.db, u);
      }
    }
  }

  /** At every commit of every run the stored cursor is never ahead of the stamped rows: everyone
      listed by the pages it has moved past holds a row stamped with the stored pass start. */
  lemma CursorNeverAhead(start: Sys, events: seq<Event>)
    requires Init(start) && Runs(start, events)
    requires After(start, events).db.channel.cursor.Some?
    ensures var s := After(start, events);
            && s.db.channel.startedAt.Some?
            && forall u :: u in s.seen ==> u in s.db.rows && s.db.rows[u].lastSeen == s.db.channel.startedAt
  {
    RunKeepsInv(start, events);
  }
}
