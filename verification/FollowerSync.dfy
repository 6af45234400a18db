/**
 core/follower_sync.py in its own form: a session over the database whose loops update rows and
 columns in place, commit or roll back. Every method is tied to the functions of FollowerTables
 and FollowerSpec.
 */
module FollowerSync {
  import opened Wrappers
  import opened Numbers
  import opened FollowerTables
  import opened FollowerRuns
  import opened FollowerSpec

  // `committed` is what a crash leaves behind; the other fields are the session's own view.
  class Session {
    var committed: Db
    var rows: Rows
    var unfollows: seq<Unfollow>
    var channel: Channel

    constructor (db: Db)
      ensures committed == db && View() == db
    {
      committed, rows, unfollows, channel := db, db.rows, db.unfollows, db.channel;
    }

    function View(): Db
      reads this
    {
      Db(rows, unfollows, channel)
    }

    method Commit()
      modifies this
      ensures committed == old(View()) && View() == old(View())
    {
      committed := View();
    }

    method Rollback()
      modifies this
      ensures committed == old(committed) && View() == committed
    {
      rows, unfollows, channel := committed.rows, committed.unfollows, committed.channel;
    }

    /** A login puts the channel at the front of the queue and lifts a token refusal only. */
    method RequestSync()
      modifies `channel
      ensures channel.syncedAt.None?
      ensures channel.cursor == old(channel.cursor) && channel.startedAt == old(channel.startedAt)
      ensures channel.total == old(channel.total)
      ensures !(channel.error.Some? && channel.error.value.TokenError?)
      ensures !(old(channel.error).Some? && old(channel.error).value.TokenError?) ==>
        channel.error == old(channel.error)
    {
      channel := channel.(syncedAt := None);
      if channel.error.Some? && channel.error.value.TokenError? {
        channel := channel.(error := None);
      }
    }

    /** Inserts the new rows of one page and stamps every row on it; `conflict` says that two inserts
        of one id await the commit. */
    method StorePage(records: seq<Record>, passStart: Time) returns (added: nat, conflict: bool)
      modifies `rows
      ensures conflict <==> Conflicts(old(rows), records)
      ensures !conflict ==> rows == FollowerTables.StorePage(old(rows), records, passStart)
      ensures added == Inserts(old(rows), records)
    {
      var existing := rows.Keys;
      added, conflict := 0, false;
      for i := 0 to |records|
        invariant conflict <==> Conflicts(old(rows), records[..i])
        invariant !conflict ==> rows == FollowerTables.StorePage(old(rows), records[..i], passStart)
        invariant added == Inserts(old(rows), records[..i])
        invariant forall u :: u in existing ==> u in rows
      {
        var r := records[i];
        StoreOneMore(old(rows), records, i, passStart);
        if r.user in existing {
          rows := rows[r.user := rows[r.user].(login := r.login, lastSeen := Some(passStart))];
        } else {
          conflict := conflict || r.user in rows;
          rows := rows[r.user := Row(r.login, r.followedAt, Some(passStart), None, None, None, None)];
          added := added + 1;
        }
      }
      assert records[..|records|] == records;
    }

    /** Fills profiles a batch at a time, committing each, until nobody is pending: it ends whatever
        subset of a batch Twitch answers. */
    method EnrichFollowers(w: World) returns (enriched: nat, error: Option<SyncError>)
      requires IsPlanner(w.plan) && View() == committed
      modifies this
      ensures View() == committed && unfollows == old(unfollows) && channel == old(channel)
      ensures Enriched(rows, error, enriched) == FollowerSpec.EnrichFollowers(old(rows), w)
    {
      enriched := 0;
      while Pending(rows) != {}
        invariant View() == committed && unfollows == old(unfollows) && channel == old(channel)
        invariant FollowerSpec.EnrichFollowers(old(rows), w) == Plus(FollowerSpec.EnrichFollowers(rows, w), enriched)
        decreases |Pending(rows)|
      {
        var batch := Batch(w.plan, Pending(rows));
        BatchShrinks(w.plan, Pending(rows));
        var reply := w.users(batch);
        if reply.Failed? {
          Rollback();
          return enriched, Some(EnrichmentError(reply.msg));
        }
        EnrichBatchEffect(rows, batch, reply.items, reply.at);
        var n := ApplyProfilesLoop(batch, reply.items, reply.at);
        Commit();
        enriched := enriched + n;
      }
      error := None;
    }

    method ApplyProfilesLoop(batch: seq<UserId>, profiles: seq<Profile>, at: Time) returns (enriched: nat)
      requires forall u :: u in batch ==> u in rows
      modifies `rows
      ensures rows == EnrichBatch(old(rows), batch, profiles, at)
      ensures enriched == ProfilesUsed(batch, profiles)
    {
      enriched := 0;
      for i := 0 to |profiles|
        invariant rows == ApplyProfiles(old(rows), batch, profiles[..i], at)
        invariant enriched == ProfilesUsed(batch, profiles[..i])
        invariant forall u :: u in batch ==> u in rows
      {
        var p := profiles[i];
        assert profiles[..i + 1][..i] == profiles[..i];
        if p.user in batch {
          rows := rows[p.user := WithProfile(rows[p.user], p, at)];
          enriched := enriched + 1;
        }
      }
      assert profiles[..|profiles|] == profiles;
      rows := StampEnriched(rows, batch, at);
    }

    method EnrichStreamers(w: World) returns (enriched: nat, error: Option<SyncError>)
      requires IsPlanner(w.plan) && View() == committed
      modifies this
      ensures View() == committed && unfollows == old(unfollows) && channel == old(channel)
      ensures Enriched(rows, error, enriched) == FollowerSpec.EnrichStreamers(old(rows), w)
    {
      enriched := 0;
      while PendingStreamers(rows) != {}
        invariant View() == committed && unfollows == old(unfollows) && channel == old(channel)
        invariant FollowerSpec.EnrichStreamers(old(rows), w) == Plus(FollowerSpec.EnrichStreamers(rows, w), enriched)
        decreases |PendingStreamers(rows)|
      {
        var batch := Batch(w.plan, PendingStreamers(rows));
        BatchShrinks(w.plan, PendingStreamers(rows));
        var reply := w.infos(batch);
        if reply.Failed? {
          Rollback();
          return enriched, Some(EnrichmentError(reply.msg));
        }
        EnrichStreamersBatchEffect(rows, batch, reply.items, reply.at);
        var n := ApplyInfosLoop(batch, reply.items, reply.at);
        Commit();
        enriched := enriched + n;
      }
      error := None;
    }

    method ApplyInfosLoop(batch: seq<UserId>, infos: seq<StreamerInfo>, at: Time) returns (enriched: nat)
      requires forall u :: u in batch ==> u in rows
      modifies `rows
      ensures rows == EnrichStreamersBatch(old(rows), batch, infos, at)
      ensures enriched == InfosUsed(batch, infos)
    {
      enriched := 0;
      for i := 0 to |infos|
        invariant rows == ApplyInfos(old(rows), batch, infos[..i], at)
        invariant enriched == InfosUsed(batch, infos[..i])
        invariant forall u :: u in batch ==> u in rows
      {
        var info := infos[i];
        assert infos[..i + 1][..i] == infos[..i];
        if info.user in batch {
          rows := rows[info.user := rows[info.user].(info := Some(info), streamerEnrichedAt := Some(at))];
          enriched := enriched + 1;
        }
      }
      assert infos[..|infos|] == infos;
      rows := StampStreamers(rows, batch, at);
    }

    /** Enriches what it can: a failure keeps the committed batches and reports nothing enriched. */
    method EnrichBestEffort(w: World) returns (enriched: nat)
      requires IsPlanner(w.plan) && View() == committed
      modifies this
      ensures var r := Enrich(old(rows), w);
              && enriched == r.count
              && committed == old(committed).(rows := r.rows)
              && View() == WithError(committed, r.error)
    {
      var error;
      enriched, error := EnrichFollowers(w);
      if error.None? {
        var more;
        more, error := EnrichStreamers(w);
        enriched := enriched + more;
      }
      if error.Some? {
        channel := channel.(error := error);
        enriched := 0;
      }
    }

    /** Deletes and records, or stamps, each member of a batch as Twitch's answers decide. */
    method SettleBatch(batch: seq<UserId>, v: Verdicts, passStart: Time, now: Time)
      returns (unfollowed: nat, accountsGone: nat)
      requires forall u :: u in batch ==> u in rows
      requires forall i, j :: 0 <= i < j < |batch| ==> batch[i] != batch[j]
      modifies `rows, `unfollows
      ensures View() == Confirm(old(View()), batch, v, passStart, now)
      ensures unfollowed == UnfollowedOf(batch, v) && accountsGone == AccountsGone(batch, v)
    {
      assert forall k :: 0 <= k < |batch| ==> batch[k] in batch;
      unfollowed, accountsGone := 0, 0;
      for i := 0 to |batch|
        invariant View() == Confirm(old(View()), batch[..i], v, passStart, now)
        invariant unfollowed == UnfollowedOf(batch[..i], v) && accountsGone == AccountsGone(batch[..i], v)
        invariant forall k :: i <= k < |batch| ==> batch[k] in rows
      {
        var u := batch[i];
        assert batch[..i + 1][..i] == batch[..i];
        if u !in v.alive {
          unfollows := unfollows + [GoneRecord(u, rows[u], now, AccountGone)];
          rows := rows - {u};
          accountsGone := accountsGone + 1;
        } else if u in v.follows {
          rows := rows[u := rows[u].(lastSeen := Some(passStart))];
        } else {
          unfollows := unfollows + [GoneRecord(u, rows[u], now, Unfollowed)];
          rows := rows - {u};
          unfollowed := unfollowed + 1;
        }
      }
      assert batch[..|batch|] == batch;
    }

    /** Turns rows a completed pass never saw into unfollows, all in one commit, or refuses. */
    method ReconcileUnfollows(passStart: Time, w: World) returns (raised: bool, gone: GoneCount)
      requires IsPlanner(w.plan)
      modifies this
      ensures var r := Reconcile(old(View()), passStart, w);
              && raised == r.raised && gone == r.gone
              && View() == WithError(r.db, r.error)
              && (committed == old(committed) || committed == View())
              && (raised ==> committed == old(committed))
    {
      var candidates := w.plan(Candidates(rows, passStart));
      assert Enumerates(candidates, Candidates(rows, passStart));
      raised, gone := false, GoneCount(0, 0, 0);
      if candidates == [] { return; }
      var total := channel.total.GetOr(0);
      if TooManyToBelieve(|candidates|, total) {
        channel := channel.(error := Some(TooMany(|candidates|, total)));
        return false, GoneCount(0, 0, |candidates|);
      }
      var deferred := if |candidates| > UNFOLLOW_CONFIRM_LIMIT then |candidates| - UNFOLLOW_CONFIRM_LIMIT else 0;
      var batch := candidates[..Min(UNFOLLOW_CONFIRM_LIMIT, |candidates|)];
      assert forall u :: u in batch ==> u in candidates;
      if w.confirm.Unreachable? {
        return true, gone;
      }
      var unfollowed, accountsGone := SettleBatch(batch, w.confirm.verdicts, passStart, w.confirm.at);
      Commit();
      gone := GoneCount(unfollowed, accountsGone, deferred);
    }

    /** One page: what the loop body of the walk does with an answer. */
    method TakePage(answer: Answer, passStart: Time) returns (stored: bool, added: nat)
      requires answer.Page? && committed.rows == rows && committed.unfollows == unfollows
      modifies this
      ensures stored <==> !Conflicts(old(rows), answer.records)
      ensures stored ==>
        committed == CommitPage(old(committed).(channel := old(channel)), answer, passStart) && View() == committed
      ensures !stored ==>
        committed == WithError(old(committed), Some(WalkError("IntegrityError"))) && View() == committed
      ensures added == Inserts(old(rows), answer.records)
    {
      var conflict;
      added, conflict := StorePage(answer.records, passStart);
      channel := channel.(
        cursor := answer.next, startedAt := Some(passStart), total := Some(answer.total), error := None);
      if conflict {
        Rollback();
        channel := channel.(error := Some(WalkError("IntegrityError")));
        Commit();
        return false, added;
      }
      Commit();
      stored := true;
    }

    // What the session holds of the channel while the walk is under way: a fresh pass start is not committed yet.
    predicate SameButPass()
      reads this
    {
      && committed.rows == rows && committed.unfollows == unfollows
      && committed.channel.(cursor := None, startedAt := None) == channel.(cursor := None, startedAt := None)
    }

    /** Walks the list a committed page at a time, from the stored cursor, until it ends, something
        raises, or the tape (the process) stops. */
    method WalkPages(tape: seq<Answer>, passStart: Time) returns (end: WalkEnd, c: Tally)
      requires SameButPass()
      modifies this
      ensures Walk(old(committed), tape, passStart) == Walked(committed, end)
      ensures end.Completed? ==> View() == committed
      ensures c == Tallied(old(committed), tape, passStart, Tally(old(channel.total).GetOr(0), 0, 0))
    {
      c := Tally(channel.total.GetOr(0), 0, 0);
      ghost var start := c;
      for i := 0 to |tape|
        invariant SameButPass()
        invariant Walk(committed, tape[i..], passStart) == Walk(old(committed), tape, passStart)
        invariant Tallied(committed, tape[i..], passStart, c) == Tallied(old(committed), tape, passStart, start)
      {
        assert tape[i..][1..] == tape[i + 1..];
        var answer := tape[i];
        if answer.Raise? {
          Rollback();
          channel := channel.(error := Some(WalkError(answer.msg)));
          Commit();
          return Interrupted, c;
        }
        var stored, added := TakePage(answer, passStart);
        c := Tally(answer.total, c.pages + 1, c.added + added);
        if !stored {
          return Interrupted, c;
        }
        if answer.next.None? {
          return Completed, c;
        }
      }
      end := Died;
    }

    /** What follows a completed walk: enrichment, reconciliation and the stamp. `completed` is false when
        reconciliation raises, which leaves the call. */
    method AfterCompletedWalk(passStart: Time, w: World) returns (completed: bool, enriched: nat, gone: GoneCount)
      requires IsPlanner(w.plan) && View() == committed
      modifies this
      ensures committed == AfterWalk(old(committed), passStart, w)
      ensures var e := Enrich(old(rows), w);
              var r := Reconcile(old(committed).(rows := e.rows), passStart, w);
              completed == !r.raised && enriched == e.count && gone == r.gone
      ensures completed ==> committed.channel.syncedAt == Some(w.finishedAt)
    {
      enriched := EnrichBestEffort(w);
      ReconcileIgnoresError(committed, Enrich(old(rows), w).error, passStart, w);
      var raised;
      raised, gone := ReconcileUnfollows(passStart, w);
      if raised {
        Rollback();
        return false, enriched, gone;
      }
      channel := channel.(cursor := None, startedAt := None, syncedAt := Some(w.finishedAt));
      Commit();
      completed := true;
    }

    /** The whole pass: token, walk, enrichment, reconciliation, stamp. Completed or cut anywhere, the
        database is what Sync says, and so is the report, if there is one. */
    method SyncChannel(w: World) returns (result: Option<SyncResult>)
      requires IsPlanner(w.plan) && View() == committed
      modifies this
      ensures committed == Sync(old(committed), w)
      ensures result == ResultOf(old(committed), w)
      ensures result.Some? && result.value.completed <==> Completes(old(committed), w)
      ensures result.Some? && result.value.completed ==> committed.channel.syncedAt == Some(w.finishedAt)
    {
      if w.tokenError.Some? {
        Rollback();
        channel := channel.(error := Some(TokenError(w.tokenError.value)));
        Commit();
        return Some(SyncResult(channel.total.GetOr(0), 0, 0, 0, GoneCount(0, 0, 0), false));
      }
      if channel.cursor.None? || channel.startedAt.None? {
        channel := channel.(startedAt := Some(w.now), cursor := None);
      }
      var passStart := channel.startedAt.value;
      var end, c := WalkPages(w.tape, passStart);
      if end.Died? {
        return None;
      }
      if end.Interrupted? {
        return Some(SyncResult(c.total, c.pages, c.added, 0, GoneCount(0, 0, 0), false));
      }
      var completed, enriched, gone := AfterCompletedWalk(passStart, w);
      if !completed {
        return None;
      }
      result := Some(SyncResult(c.total, c.pages, c.added, enriched, gone, true));
    }
  }

  lemma ConflictStays(rows: Rows, records: seq<Record>, i: nat)
    requires i < |records|
    requires Conflicts(rows, records[..i]) || (records[i].user !in rows && records[i].user in Ids(records[..i]))
    ensures Conflicts(rows, records[..i + 1])
  {
    var longer, shorter := records[..i + 1], records[..i];
    if Conflicts(rows, shorter) {
      var a, b :| 0 <= a < b < i && shorter[a].user == shorter[b].user && shorter[a].user !in rows;
      assert longer[a].user == longer[b].user;
    } else {
      var r :| r in shorter && r.user == records[i].user;
      var k :| 0 <= k < i && shorter[k] == r;
      assert longer[k].user == longer[i].user;
    }
  }

  lemma ConflictIsOldOrLast(rows: Rows, records: seq<Record>, i: nat)
    requires i < |records| && Conflicts(rows, records[..i + 1])
    ensures Conflicts(rows, records[..i]) || (records[i].user !in rows && records[i].user in Ids(records[..i]))
  {
    var longer, shorter := records[..i + 1], records[..i];
    var a, b :| 0 <= a < b < i + 1 && longer[a].user == longer[b].user && longer[a].user !in rows;
    assert shorter[a] in shorter;
    if b < i { assert shorter[a].user == shorter[b].user; }
  }

  lemma ConflictsExtend(rows: Rows, records: seq<Record>, i: nat)
    requires i < |records|
    ensures Conflicts(rows, records[..i + 1])
            <==> Conflicts(rows, records[..i]) || (records[i].user !in rows && records[i].user in Ids(records[..i]))
  {
    if Conflicts(rows, records[..i + 1]) {
      ConflictIsOldOrLast(rows, records, i);
    } else if Conflicts(rows, records[..i]) || (records[i].user !in rows && records[i].user in Ids(records[..i])) {
      ConflictStays(rows, records, i);
    }
  }

  // What one more record of a page does to the rows, the inserts and the unique index.
  lemma StoreOneMore(rows: Rows, records: seq<Record>, i: nat, passStart: Time)
    requires i < |records|
    ensures var before, r := StorePage(rows, records[..i], passStart), records[i];
            && StorePage(rows, records[..i + 1], passStart) == before[r.user := Stored(before, r, passStart)]
            && Inserts(rows, records[..i + 1]) == Inserts(rows, records[..i]) + (if r.user in rows then 0 else 1)
            && (r.user in rows ==> r.user in before)
            && (Conflicts(rows, records[..i + 1]) <==>
                  Conflicts(rows, records[..i]) || (r.user !in rows && r.user in before))
  {
    assert records[..i + 1][..i] == records[..i];
    StorePageEffect(rows, records[..i], passStart);
    ConflictsExtend(rows, records, i);
  }

  // A pending enrichment error changes nothing reconciliation looks at.
  lemma ReconcileIgnoresError(db: Db, error: Option<SyncError>, passStart: Time, w: World)
    ensures Reconcile(WithError(db, error), passStart, w) ==
      Reconcile(db, passStart, w).(db := WithError(Reconcile(db, passStart, w).db, error))
  {
    var order := w.plan(Candidates(db.rows, passStart));
    if w.confirm.Heard? {
      var batch := order[..Min(UNFOLLOW_CONFIRM_LIMIT, |order|)];
      ConfirmIgnoresError(db, error, batch, w.confirm.verdicts, passStart, w.confirm.at);
    }
  }

  lemma {:induction false} ConfirmIgnoresError(
    db: Db, error: Option<SyncError>, batch: seq<UserId>, v: Verdicts, passStart: Time, now: Time)
    ensures Confirm(WithError(db, error), batch, v, passStart, now) ==
      WithError(Confirm(db, batch, v, passStart, now), error)
  {
    if batch != [] {
      ConfirmIgnoresError(db, error, batch[..|batch| - 1], v, passStart, now);
    }
  }
}
