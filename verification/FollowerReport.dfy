/** What a call leaves on the channel and reports, in terms of what it was told. */
module FollowerReport {
  import opened Wrappers
  import opened Numbers
  import opened FollowerTables
  import opened FollowerRuns
  import opened FollowerSpec

  // ----- a page ---------------------------------------------------------------------------

  /** The last listing of a person in a page is the one whose login is kept. */
  lemma {:induction false} LastListingWins(rows: Rows, records: seq<Record>, passStart: Time, i: nat)
    requires i < |records| && forall j :: i < j < |records| ==> records[j].user != records[i].user
    ensures var r := StorePage(rows, records, passStart);
            && records[i].user in r
            && r[records[i].user].login == records[i].login && r[records[i].user].lastSeen == Some(passStart)
  {
    if i < |records| - 1 { LastListingWins(rows, records[..|records| - 1], passStart, i); }
  }

  lemma ConflictsNext(rows: Rows, records: seq<Record>)
    requires records != []
    ensures var front, last := records[..|records| - 1], records[|records| - 1];
            Conflicts(rows, records) <==>
              Conflicts(rows, front) || (last.user !in rows && last.user in Ids(front))
  {
    var n := |records| - 1;
    var front, last := records[..n], records[n];
    if i, j :| 0 <= i < j < |records| && records[i].user == records[j].user && records[i].user !in rows {
      if j < n {
        assert front[i].user == front[j].user;
      } else {
        assert front[i] in front;
      }
    }
    if i, j :| 0 <= i < j < n && front[i].user == front[j].user && front[i].user !in rows {
      assert records[i].user == records[j].user;
    }
    if last.user !in rows && last.user in Ids(front) {
      var r :| r in front && r.user == last.user;
      var k :| 0 <= k < n && front[k] == r;
      assert records[k].user == records[n].user;
    }
  }

  lemma NewIdsNext(rows: Rows, records: seq<Record>)
    requires records != []
    ensures var front, last := records[..|records| - 1], records[|records| - 1];
            |Ids(records) - rows.Keys| ==
            |Ids(front) - rows.Keys| + if last.user in rows || last.user in Ids(front) then 0 else 1
  {
    IdsNext(records);
    NewOnes(Ids(records[..|records| - 1]), records[|records| - 1].user, rows.Keys);
  }

  lemma IdsNext(records: seq<Record>)
    requires records != []
    ensures Ids(records) == Ids(records[..|records| - 1]) + {records[|records| - 1].user}
  {
    assert records == records[..|records| - 1] + [records[|records| - 1]];
  }

  lemma NewOnes(ids: set<UserId>, u: UserId, known: set<UserId>)
    ensures |(ids + {u}) - known| == |ids - known| + if u in known || u in ids then 0 else 1
  {
    if u in known || u in ids {
      assert (ids + {u}) - known == ids - known;
    } else {
      assert (ids + {u}) - known == (ids - known) + {u};
    }
  }

  /** The unique index refuses a page exactly when it inserts more rows than it lists new people. */
  lemma {:induction false} ConflictsIff(rows: Rows, records: seq<Record>)
    ensures Inserts(rows, records) >= |Ids(records) - rows.Keys|
    ensures Conflicts(rows, records) <==> Inserts(rows, records) > |Ids(records) - rows.Keys|
  {
    if records != [] {
      ConflictsIff(rows, records[..|records| - 1]);
      ConflictsNext(rows, records);
      NewIdsNext(rows, records);
    }
  }

  /** The live follow event adds someone new with the date it gives and nothing else, and leaves a known person
      as they are. */
  lemma LiveFollowIs(s: Sys, user: UserId, login: string, followedAt: Time, u: UserId)
    ensures var r := Step(s, LiveFollow(user, login, followedAt));
            && (u in r.db.rows <==> u in s.db.rows || u == user)
            && (u in s.db.rows ==> r.db.rows[u] == s.db.rows[u])
            && (u == user && u !in s.db.rows ==>
                  r.db.rows[u] == Row(login, followedAt, None, None, None, None, None))
            && r.db.channel == s.db.channel && r.db.unfollows == s.db.unfollows && r.worker == s.worker
  {
  }

  // ----- the walk -------------------------------------------------------------------------

  // The first k answers were stored, and none of them but the last may be the end of the list.
  predicate Taken(tape: seq<Answer>, k: nat) {
    && k <= |tape|
    && (forall i :: 0 <= i < k ==> tape[i].Page?)
    && (forall i :: 0 <= i < k - 1 ==> tape[i].next.Some?)
  }

  // The channel after k stored pages.
  predicate PagesOn(before: Channel, after: Channel, tape: seq<Answer>, k: nat, passStart: Time)
    requires Taken(tape, k)
  {
    && after.syncedAt == before.syncedAt
    && after.cursor == (if k == 0 then before.cursor else tape[k - 1].next)
    && after.startedAt == (if k == 0 then before.startedAt else Some(passStart))
    && after.total == (if k == 0 then before.total else Some(tape[k - 1].total))
  }

  // How the walk ends after k stored pages.
  predicate EndsAs(tape: seq<Answer>, k: nat, end: WalkEnd)
    requires Taken(tape, k)
  {
    var last := k > 0 && tape[k - 1].next.None?;
    match end
    case Completed => last
    case Died => !last && k == |tape|
    case Interrupted => !last && k < |tape|
  }

  predicate ErrorIs(before: Channel, after: Channel, tape: seq<Answer>, k: nat, end: WalkEnd)
    requires Taken(tape, k) && EndsAs(tape, k, end)
  {
    match end
    case Interrupted =>
      after.error == Some(WalkError(if tape[k].Raise? then tape[k].msg else "IntegrityError"))
    case _ => after.error == if k == 0 then before.error else None
  }

  // The counters: a page that its commit refuses has been fetched too.
  predicate CountsAs(before: Tally, after: Tally, tape: seq<Answer>, k: nat, end: WalkEnd)
    requires Taken(tape, k) && EndsAs(tape, k, end)
  {
    var fetched := if end.Interrupted? && tape[k].Page? then k + 1 else k;
    && after.pages == before.pages + fetched
    && after.total == if fetched == 0 then before.total else tape[fetched - 1].total
  }

  lemma {:induction false} WalkStops(db: Db, tape: seq<Answer>, t: Time, c: Tally) returns (k: nat)
    ensures var walk := Walk(db, tape, t);
            && Taken(tape, k) && EndsAs(tape, k, walk.end)
            && PagesOn(db.channel, walk.db.channel, tape, k, t)
            && ErrorIs(db.channel, walk.db.channel, tape, k, walk.end)
            && CountsAs(c, Tallied(db, tape, t, c), tape, k, walk.end)
    decreases |tape|
  {
    k := 0;
    if tape != [] && tape[0].Page? && !Conflicts(db.rows, tape[0].records) {
      if tape[0].next.None? {
        k := 1;
      } else {
        var next, now := CommitPage(db, tape[0], t), Counted(c, db.rows, tape[0]);
        var m := WalkStops(next, tape[1..], t, now);
        k := m + 1;
        LaterPages(tape, m);
        assert k < |tape| ==> tape[1..][m] == tape[k];
        assert m > 0 ==> tape[1..][m - 1] == tape[k - 1];
      }
    }
  }

  lemma LaterPages(tape: seq<Answer>, m: nat)
    requires tape != [] && tape[0].Page? && tape[0].next.Some? && Taken(tape[1..], m)
    ensures Taken(tape, m + 1)
  {
    assert forall i :: 0 < i < |tape| ==> tape[i] == tape[1..][i - 1];
  }

  // ----- reconciliation -------------------------------------------------------------------

  /** The guard: more than ten candidates, and more than a quarter of what Twitch reports. */
  lemma TooManyIs(candidates: nat, reported: int)
    ensures TooManyToBelieve(candidates, reported) <==>
      candidates > 10 && candidates as real > reported as real * 0.25
  {
  }

  /** Who is a candidate: someone who followed before the pass and was not seen in it. */
  lemma CandidatesAre(rows: Rows, passStart: Time, u: UserId)
    ensures u in Candidates(rows, passStart) <==>
      u in rows && rows[u].followedAt < passStart && !(rows[u].lastSeen.Some? && rows[u].lastSeen.value >= passStart)
  {
  }

  // How many of the records give a reason.
  function HowMany(us: seq<Unfollow>, reason: Reason): nat {
    if us == [] then 0 else HowMany(us[..|us| - 1], reason) + if us[|us| - 1].reason == reason then 1 else 0
  }

  lemma {:induction false} ConfirmReasons(db: Db, batch: seq<UserId>, v: Verdicts, passStart: Time, now: Time)
    requires forall u :: u in batch ==> u in db.rows
    requires forall i, j :: 0 <= i < j < |batch| ==> batch[i] != batch[j]
    ensures var us := Confirm(db, batch, v, passStart, now).unfollows;
            && HowMany(us, Unfollowed) == HowMany(db.unfollows, Unfollowed) + UnfollowedOf(batch, v)
            && HowMany(us, AccountGone) == HowMany(db.unfollows, AccountGone) + AccountsGone(batch, v)
  {
    if batch != [] {
      var front, u := batch[..|batch| - 1], batch[|batch| - 1];
      assert u in db.rows && u !in front;
      ConfirmReasons(db, front, v, passStart, now);
      assert u in Confirm(db, front, v, passStart, now).rows by { ConfirmRows(db, front, v, passStart, now); }
      var us := Confirm(db, batch, v, passStart, now).unfollows;
      assert Departs(u, v) ==> us[..|us| - 1] == Confirm(db, front, v, passStart, now).unfollows;
    }
  }

  /** An unfollow carries the deleted row's own data, field by field. */
  lemma UnfollowsCarryRows(db: Db, batch: seq<UserId>, v: Verdicts, passStart: Time, now: Time, k: nat)
    requires forall u :: u in batch ==> u in db.rows
    requires forall i, j :: 0 <= i < j < |batch| ==> batch[i] != batch[j]
    requires |db.unfollows| <= k < |Confirm(db, batch, v, passStart, now).unfollows|
    ensures var f := Confirm(db, batch, v, passStart, now).unfollows[k];
            && f.user in batch && f.user in db.rows
            && f.login == db.rows[f.user].login && f.followedAt == db.rows[f.user].followedAt && f.detectedAt == now
            && (db.rows[f.user].profile.None? ==> f.displayName.None? && f.imageUrl.None?)
            && (db.rows[f.user].profile.Some? ==>
                  && f.displayName == Some(db.rows[f.user].profile.value.displayName)
                  && f.imageUrl == Some(db.rows[f.user].profile.value.imageUrl))
            && (f.reason.AccountGone? <==> f.user !in v.alive)
  {
    ConfirmUnfollows(db, batch, v, passStart, now);
  }

  // Reconciliation asks: there are candidates, and they are not too many to believe.
  ghost predicate Asks(db: Db, passStart: Time) {
    var n := |Candidates(db.rows, passStart)|;
    n > 0 && (n <= 10 || 4 * n <= db.channel.total.GetOr(0))
  }

  /** What reconciliation reports: nothing when it does not ask or a check raises, but for the candidates it
      refuses to believe; else the departures of each kind it wrote, and the candidates beyond two hundred. */
  lemma ReconcileReports(db: Db, passStart: Time, w: World)
    requires IsPlanner(w.plan)
    ensures var r, n := Reconcile(db, passStart, w), |Candidates(db.rows, passStart)|;
            && HowMany(r.db.unfollows, Unfollowed) == HowMany(db.unfollows, Unfollowed) + r.gone.unfollowed
            && HowMany(r.db.unfollows, AccountGone) == HowMany(db.unfollows, AccountGone) + r.gone.accountsGone
            && r.raised == (Asks(db, passStart) && w.confirm.Unreachable?)
            && r.error == (if n > 0 && !Asks(db, passStart) then Some(TooMany(n, db.channel.total.GetOr(0))) else None)
            && r.gone.deferred ==
               (if r.error.Some? then n else if r.raised || n <= 200 then 0 else n - 200)
            && (r.error.Some? || r.raised || n == 0 ==> r.db == db && r.gone.unfollowed == r.gone.accountsGone == 0)
            && r.db.channel == db.channel
  {
    var s := Candidates(db.rows, passStart);
    var order := w.plan(s);
    assert Enumerates(order, s);
    if Asks(db, passStart) && w.confirm.Heard? {
      var batch := order[..Min(UNFOLLOW_CONFIRM_LIMIT, |order|)];
      assert forall u :: u in batch ==> u in order;
      ConfirmReasons(db, batch, w.confirm.verdicts, passStart, w.confirm.at);
      ConfirmRows(db, batch, w.confirm.verdicts, passStart, w.confirm.at);
    }
  }

  // ----- the call --------------------------------------------------------------------------

  // Profiles first, then streamers; whichever fails first is the error.
  ghost predicate EnrichErrorIs(error: Option<SyncError>, rows: Rows, w: World)
    requires IsPlanner(w.plan)
  {
    var followers := EnrichFollowers(rows, w);
    error == if followers.error.Some? then followers.error else EnrichStreamers(followers.rows, w).error
  }

  /** What a call leaves on the channel: a refused token only its error; a completed pass its stamp, no cursor and
      no start, and the refusal or else the enrichment error; a check that raised a finished walk without a
      stamp, to be started afresh. The rest is WalkStops. */
  lemma CallLeaves(db: Db, w: World)
    requires IsPlanner(w.plan)
    ensures var d, t := Sync(db, w), PassStart(db.channel, w.now);
            var walk := Walk(db, w.tape, t);
            var e := Enrich(walk.db.rows, w);
            var r := Reconcile(walk.db.(rows := e.rows), t, w);
            && EnrichErrorIs(e.error, walk.db.rows, w)
            && (db.channel.cursor.Some? && db.channel.startedAt.Some? ==> t == db.channel.startedAt.value)
            && (db.channel.cursor.None? || db.channel.startedAt.None? ==> t == w.now)
            && (w.tokenError.Some? ==> d == db.(channel := db.channel.(error := Some(TokenError(w.tokenError.value)))))
            && (w.tokenError.None? && !walk.end.Completed? ==> d == walk.db)
            && (w.tokenError.None? && walk.end.Completed? ==>
                  && d.channel.cursor.None? && d.channel.total == walk.db.channel.total
                  && (r.raised ==> d.channel == walk.db.channel)
                  && (!r.raised ==>
                        && d.channel.startedAt.None? && d.channel.syncedAt == Some(w.finishedAt)
                        && d.channel.error == if r.error.Some? then r.error else e.error))
  {
    var t := PassStart(db.channel, w.now);
    var k := WalkStops(db, w.tape, t, Tally(0, 0, 0));
    var walk := Walk(db, w.tape, t);
    ReconcileReports(walk.db.(rows := Enrich(walk.db.rows, w).rows), t, w);
  }

  /** What a call reports: nothing after a death or an exception; the total last told, the pages fetched and the
      rows added in any case; enrichment and departures only when the pass completed. */
  lemma ResultIs(db: Db, w: World) returns (k: nat)
    requires IsPlanner(w.plan)
    ensures var t, c := PassStart(db.channel, w.now), Tally(db.channel.total.GetOr(0), 0, 0);
            var walk := Walk(db, w.tape, t);
            && Taken(w.tape, k) && EndsAs(w.tape, k, walk.end)
            && CountsAs(c, Tallied(db, w.tape, t, c), w.tape, k, walk.end)
    ensures w.tokenError.Some? ==>
              ResultOf(db, w) == Some(SyncResult(db.channel.total.GetOr(0), 0, 0, 0, GoneCount(0, 0, 0), false))
    ensures w.tokenError.None? ==>
              var t, c := PassStart(db.channel, w.now), Tally(db.channel.total.GetOr(0), 0, 0);
              var walk, tally := Walk(db, w.tape, t), Tallied(db, w.tape, t, c);
              var e := Enrich(walk.db.rows, w);
              var r := Reconcile(walk.db.(rows := e.rows), t, w);
              && (ResultOf(db, w).None? <==> walk.end.Died? || (walk.end.Completed? && r.raised))
              && (ResultOf(db, w).Some? ==>
                    var result := ResultOf(db, w).value;
                    && result.total == tally.total && result.pages == tally.pages && result.added == tally.added
                    && (result.completed <==> walk.end.Completed?)
                    && result.enriched == (if walk.end.Completed? then e.count else 0)
                    && result.gone == (if walk.end.Completed? then r.gone else GoneCount(0, 0, 0)))
  {
    k := WalkStops(db, w.tape, PassStart(db.channel, w.now), Tally(db.channel.total.GetOr(0), 0, 0));
  }
}
