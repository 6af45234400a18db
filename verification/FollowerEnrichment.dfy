/** What enrichment writes about each person, in one round and over the whole loop. */
module FollowerEnrichment {
  import opened Wrappers
  import opened Numbers
  import opened Sequences
  import opened FollowerTables
  import opened FollowerSpec

  // ----- one round of profiles ---------------------------------------------------------------

  // The i-th answer is the last one about `u`.
  predicate LastProfile(profiles: seq<Profile>, i: int, u: UserId) {
    && 0 <= i < |profiles| && profiles[i].user == u
    && forall j :: i < j < |profiles| ==> profiles[j].user != u
  }

  predicate NoProfile(profiles: seq<Profile>, u: UserId) {
    forall j :: 0 <= j < |profiles| ==> profiles[j].user != u
  }

  // The row of someone asked about: the login, the whole profile and the stamp of the last answer, or the
  // stamp alone when nothing was answered.
  ghost predicate Profiled(was: Row, row: Row, u: UserId, profiles: seq<Profile>, now: Time) {
    && (forall i :: LastProfile(profiles, i, u) ==>
          && row.login == profiles[i].login && row.profile == Some(profiles[i]) && row.enrichedAt == Some(now))
    && (NoProfile(profiles, u) ==>
          && row.login == was.login && row.profile == was.profile
          && row.enrichedAt == (if was.enrichedAt.Some? then was.enrichedAt else Some(now)))
    && row.followedAt == was.followedAt && row.lastSeen == was.lastSeen
    && row.info == was.info && row.streamerEnrichedAt == was.streamerEnrichedAt
  }

  // The row before the rest of the batch is stamped.
  ghost predicate Applied(was: Row, row: Row, asked: bool, u: UserId, profiles: seq<Profile>, now: Time) {
    && row == was.(login := row.login, profile := row.profile, enrichedAt := row.enrichedAt)
    && (!asked || NoProfile(profiles, u) ==> row == was)
    && (forall i :: asked && LastProfile(profiles, i, u) ==>
          row.login == profiles[i].login && row.profile == Some(profiles[i]) && row.enrichedAt == Some(now))
  }

  lemma AnswerAboutAnother(was: Row, row: Row, asked: bool, u: UserId, profiles: seq<Profile>, now: Time)
    requires profiles != [] && profiles[|profiles| - 1].user != u
    requires Applied(was, row, asked, u, profiles[..|profiles| - 1], now)
    ensures Applied(was, row, asked, u, profiles, now)
  {
    var front := profiles[..|profiles| - 1];
    assert NoProfile(profiles, u) ==> NoProfile(front, u);
    assert forall i :: LastProfile(profiles, i, u) ==> LastProfile(front, i, u) && front[i] == profiles[i];
  }

  lemma AnswerAbout(was: Row, row: Row, u: UserId, profiles: seq<Profile>, now: Time)
    requires profiles != [] && profiles[|profiles| - 1].user == u
    requires row == was.(login := row.login, profile := row.profile, enrichedAt := row.enrichedAt)
    ensures Applied(was, WithProfile(row, profiles[|profiles| - 1], now), true, u, profiles, now)
  {
    assert LastProfile(profiles, |profiles| - 1, u);
  }

  lemma {:induction false} AppliedProfiles(
    rows: Rows, batch: seq<UserId>, profiles: seq<Profile>, now: Time, u: UserId)
    requires u in rows
    ensures var r := ApplyProfiles(rows, batch, profiles, now);
            u in r && Applied(rows[u], r[u], u in batch, u, profiles, now)
  {
    if profiles != [] {
      var front, p := profiles[..|profiles| - 1], profiles[|profiles| - 1];
      AppliedProfiles(rows, batch, front, now, u);
      var before := ApplyProfiles(rows, batch, front, now);
      if p.user != u {
        AnswerAboutAnother(rows[u], before[u], u in batch, u, profiles, now);
      } else if u in batch {
        AnswerAbout(rows[u], before[u], u, profiles, now);
      }
    }
  }

  /** A round writes, about everyone in its batch, exactly what was answered last about them, and about nobody
      else anything. */
  lemma RoundWritesProfiles(rows: Rows, batch: seq<UserId>, profiles: seq<Profile>, now: Time, u: UserId)
    requires u in rows
    ensures var r := EnrichBatch(rows, batch, profiles, now);
            u in r && if u in batch then Profiled(rows[u], r[u], u, profiles, now) else r[u] == rows[u]
  {
    AppliedProfiles(rows, batch, profiles, now, u);
    SomeLastProfile(profiles, u);
  }

  function OfBatch(batch: seq<UserId>, profiles: seq<Profile>): int -> bool {
    i => 0 <= i < |profiles| && profiles[i].user in batch
  }

  lemma {:induction false} ProfilesPicked(batch: seq<UserId>, profiles: seq<Profile>, n: nat)
    requires n <= |profiles|
    ensures |Picked(n, OfBatch(batch, profiles))| == ProfilesUsed(batch, profiles[..n])
  {
    if n > 0 {
      ProfilesPicked(batch, profiles, n - 1);
      assert profiles[..n][..n - 1] == profiles[..n - 1];
    }
  }

  /** What a round adds to the count of enriched people: the answers about its batch. */
  lemma ProfilesAreCounted(batch: seq<UserId>, profiles: seq<Profile>) returns (used: seq<int>)
    ensures Selects(used, |profiles|, OfBatch(batch, profiles)) && |used| == ProfilesUsed(batch, profiles)
  {
    used := Picked(|profiles|, OfBatch(batch, profiles));
    PickedSelects(|profiles|, OfBatch(batch, profiles));
    ProfilesPicked(batch, profiles, |profiles|);
    assert profiles[..|profiles|] == profiles;
  }

  // ----- the whole loop over profiles ----------------------------------------------------------

  // A batch is what the query returns first, at most a hundred of them.
  lemma BatchIs(plan: Planner, s: set<UserId>, k: nat)
    requires IsPlanner(plan)
    ensures var b := Batch(plan, s);
            && |b| == (if |s| <= 100 then |s| else 100)
            && (k < |b| ==> b[k] == plan(s)[k])
  {
    assert Enumerates(plan(s), s);
  }

  // Someone was asked about in one batch, and the row says what was answered.
  ghost predicate AskedOnce(w: World, was: Row, row: Row, u: UserId) {
    exists batch: seq<UserId> ::
      u in batch && w.users(batch).Told? && Profiled(was, row, u, w.users(batch).items, w.users(batch).at)
  }

  lemma UntouchedAfterwards(rows: Rows, w: World, u: UserId)
    requires IsPlanner(w.plan) && u in rows && rows[u].enrichedAt.Some?
    ensures u in EnrichFollowers(rows, w).rows && EnrichFollowers(rows, w).rows[u] == rows[u]
    decreases |Pending(rows)|
  {
    if Pending(rows) != {} {
      var batch := Batch(w.plan, Pending(rows));
      BatchShrinks(w.plan, Pending(rows));
      if w.users(batch).Told? {
        var profiles, at := w.users(batch).items, w.users(batch).at;
        EnrichBatchEffect(rows, batch, profiles, at);
        RoundWritesProfiles(rows, batch, profiles, at, u);
        UntouchedAfterwards(EnrichBatch(rows, batch, profiles, at), w, u);
      }
    }
  }

  lemma ProfiledIsStamped(was: Row, row: Row, u: UserId, profiles: seq<Profile>, now: Time)
    requires Profiled(was, row, u, profiles, now)
    ensures row.enrichedAt.Some?
  {
    SomeLastProfile(profiles, u);
  }

  lemma {:induction false} SomeLastProfile(profiles: seq<Profile>, u: UserId)
    ensures NoProfile(profiles, u) || exists i :: LastProfile(profiles, i, u)
  {
    if profiles != [] {
      var n := |profiles| - 1;
      SomeLastProfile(profiles[..n], u);
      if profiles[n].user == u {
        assert LastProfile(profiles, n, u);
      } else if i :| LastProfile(profiles[..n], i, u) {
        assert LastProfile(profiles, i, u);
      } else {
        assert NoProfile(profiles[..n], u);
      }
    }
  }

  /** Over the whole loop: whoever was enriched before is untouched; everyone else is asked about once and gets
      the profile answered, or only the stamp, unless a lookup failed before their batch. */
  lemma {:induction false} FollowersGetTheirProfiles(rows: Rows, w: World, u: UserId)
    requires IsPlanner(w.plan) && u in rows
    ensures var r := EnrichFollowers(rows, w);
            && u in r.rows
            && (rows[u].enrichedAt.Some? ==> r.rows[u] == rows[u])
            && (rows[u].enrichedAt.None? ==>
                  AskedOnce(w, rows[u], r.rows[u], u) || (r.error.Some? && r.rows[u] == rows[u]))
    decreases |Pending(rows)|
  {
    if rows[u].enrichedAt.Some? {
      UntouchedAfterwards(rows, w, u);
    } else {
      assert u in Pending(rows);
      var batch := Batch(w.plan, Pending(rows));
      BatchShrinks(w.plan, Pending(rows));
      if w.users(batch).Told? {
        var profiles, at := w.users(batch).items, w.users(batch).at;
        var next := EnrichBatch(rows, batch, profiles, at);
        EnrichBatchEffect(rows, batch, profiles, at);
        RoundWritesProfiles(rows, batch, profiles, at, u);
        if u in batch {
          ProfiledIsStamped(rows[u], next[u], u, profiles, at);
          UntouchedAfterwards(next, w, u);
          assert AskedOnce(w, rows[u], next[u], u);
        } else {
          FollowersGetTheirProfiles(next, w, u);
        }
      }
    }
  }

  /** The count of the loop is the answers used, round after round; a failed lookup ends it with its message. */
  lemma RoundsAreCounted(rows: Rows, w: World) returns (used: seq<int>)
    requires IsPlanner(w.plan)
    ensures Pending(rows) == {} ==> EnrichFollowers(rows, w) == Enriched(rows, None, 0)
    ensures Pending(rows) != {} ==>
      var r, batch := EnrichFollowers(rows, w), Batch(w.plan, Pending(rows));
      var answer := w.users(batch);
      && (answer.Failed? ==> r == Enriched(rows, Some(EnrichmentError(answer.msg)), 0))
      && (answer.Told? ==>
            var rest := EnrichFollowers(EnrichBatch(rows, batch, answer.items, answer.at), w);
            && Selects(used, |answer.items|, OfBatch(batch, answer.items))
            && r == Enriched(rest.rows, rest.error, rest.count + |used|))
  {
    used := [];
    var batch := Batch(w.plan, Pending(rows));
    if Pending(rows) != {} && w.users(batch).Told? {
      BatchShrinks(w.plan, Pending(rows));
      used := ProfilesAreCounted(batch, w.users(batch).items);
    }
  }

  lemma StreamerRoundsAreCounted(rows: Rows, w: World) returns (used: seq<int>)
    requires IsPlanner(w.plan)
    ensures PendingStreamers(rows) == {} ==> EnrichStreamers(rows, w) == Enriched(rows, None, 0)
    ensures PendingStreamers(rows) != {} ==>
      var r, batch := EnrichStreamers(rows, w), Batch(w.plan, PendingStreamers(rows));
      var answer := w.infos(batch);
      && (answer.Failed? ==> r == Enriched(rows, Some(EnrichmentError(answer.msg)), 0))
      && (answer.Told? ==>
            var rest := EnrichStreamers(EnrichStreamersBatch(rows, batch, answer.items, answer.at), w);
            && Selects(used, |answer.items|, OfStreamers(batch, answer.items))
            && r == Enriched(rest.rows, rest.error, rest.count + |used|))
  {
    used := [];
    var batch := Batch(w.plan, PendingStreamers(rows));
    if PendingStreamers(rows) != {} && w.infos(batch).Told? {
      BatchShrinks(w.plan, PendingStreamers(rows));
      used := InfosAreCounted(batch, w.infos(batch).items);
    }
  }

  /** Both loops together: the streamers only after all followers, and nothing counted when either failed. */
  lemma BothLoops(rows: Rows, w: World)
    requires IsPlanner(w.plan)
    ensures var e, f := Enrich(rows, w), EnrichFollowers(rows, w);
            var g := EnrichStreamers(f.rows, w);
            && (f.error.Some? ==> e == Enriched(f.rows, f.error, 0))
            && (f.error.None? && g.error.Some? ==> e == Enriched(g.rows, g.error, 0))
            && (f.error.None? && g.error.None? ==> e == Enriched(g.rows, None, f.count + g.count))
  {
  }

  // ----- streamers: the same with their channel information ------------------------------------

  predicate LastInfo(infos: seq<StreamerInfo>, i: int, u: UserId) {
    && 0 <= i < |infos| && infos[i].user == u
    && forall j :: i < j < |infos| ==> infos[j].user != u
  }

  predicate NoInfo(infos: seq<StreamerInfo>, u: UserId) {
    forall j :: 0 <= j < |infos| ==> infos[j].user != u
  }

  ghost predicate Informed(was: Row, row: Row, u: UserId, infos: seq<StreamerInfo>, now: Time) {
    && (forall i :: LastInfo(infos, i, u) ==>
          row == was.(info := Some(infos[i]), streamerEnrichedAt := Some(now)))
    && (NoInfo(infos, u) ==>
          row == was.(streamerEnrichedAt :=
                          if was.streamerEnrichedAt.Some? then was.streamerEnrichedAt else Some(now)))
  }

  ghost predicate AppliedInfo(was: Row, row: Row, asked: bool, u: UserId, infos: seq<StreamerInfo>, now: Time) {
    && row == was.(info := row.info, streamerEnrichedAt := row.streamerEnrichedAt)
    && (!asked || NoInfo(infos, u) ==> row == was)
    && (forall i :: asked && LastInfo(infos, i, u) ==>
          row == was.(info := Some(infos[i]), streamerEnrichedAt := Some(now)))
  }

  lemma InfoAboutAnother(was: Row, row: Row, asked: bool, u: UserId, infos: seq<StreamerInfo>, now: Time)
    requires infos != [] && infos[|infos| - 1].user != u
    requires AppliedInfo(was, row, asked, u, infos[..|infos| - 1], now)
    ensures AppliedInfo(was, row, asked, u, infos, now)
  {
    var front := infos[..|infos| - 1];
    assert NoInfo(infos, u) ==> NoInfo(front, u);
    assert forall i :: LastInfo(infos, i, u) ==> LastInfo(front, i, u) && front[i] == infos[i];
  }

  lemma InfoAbout(was: Row, row: Row, u: UserId, infos: seq<StreamerInfo>, now: Time)
    requires infos != [] && infos[|infos| - 1].user == u
    requires row == was.(info := row.info, streamerEnrichedAt := row.streamerEnrichedAt)
    ensures var written := row.(info := Some(infos[|infos| - 1]), streamerEnrichedAt := Some(now));
            AppliedInfo(was, written, true, u, infos, now)
  {
    assert LastInfo(infos, |infos| - 1, u);
  }

  lemma {:induction false} AppliedInfos(rows: Rows, batch: seq<UserId>, infos: seq<StreamerInfo>, now: Time, u: UserId)
    requires u in rows
    ensures var r := ApplyInfos(rows, batch, infos, now);
            u in r && AppliedInfo(rows[u], r[u], u in batch, u, infos, now)
  {
    if infos != [] {
      var front, info := infos[..|infos| - 1], infos[|infos| - 1];
      AppliedInfos(rows, batch, front, now, u);
      var before := ApplyInfos(rows, batch, front, now);
      if info.user != u {
        InfoAboutAnother(rows[u], before[u], u in batch, u, infos, now);
      } else if u in batch {
        InfoAbout(rows[u], before[u], u, infos, now);
      }
    }
  }

  lemma RoundWritesInfos(rows: Rows, batch: seq<UserId>, infos: seq<StreamerInfo>, now: Time, u: UserId)
    requires u in rows
    ensures var r := EnrichStreamersBatch(rows, batch, infos, now);
            u in r && if u in batch then Informed(rows[u], r[u], u, infos, now) else r[u] == rows[u]
  {
    AppliedInfos(rows, batch, infos, now, u);
  }

  function OfStreamers(batch: seq<UserId>, infos: seq<StreamerInfo>): int -> bool {
    i => 0 <= i < |infos| && infos[i].user in batch
  }

  lemma {:induction false} InfosPicked(batch: seq<UserId>, infos: seq<StreamerInfo>, n: nat)
    requires n <= |infos|
    ensures |Picked(n, OfStreamers(batch, infos))| == InfosUsed(batch, infos[..n])
  {
    if n > 0 {
      InfosPicked(batch, infos, n - 1);
      assert infos[..n][..n - 1] == infos[..n - 1];
    }
  }

  lemma InfosAreCounted(batch: seq<UserId>, infos: seq<StreamerInfo>) returns (used: seq<int>)
    ensures Selects(used, |infos|, OfStreamers(batch, infos)) && |used| == InfosUsed(batch, infos)
  {
    used := Picked(|infos|, OfStreamers(batch, infos));
    PickedSelects(|infos|, OfStreamers(batch, infos));
    InfosPicked(batch, infos, |infos|);
    assert infos[..|infos|] == infos;
  }

  // An affiliate or partner nobody has asked about yet.
  predicate UnknownStreamer(row: Row) {
    && row.streamerEnrichedAt.None? && row.profile.Some?
    && (row.profile.value.broadcasterType == "affiliate" || row.profile.value.broadcasterType == "partner")
  }

  ghost predicate StreamerAskedOnce(w: World, was: Row, row: Row, u: UserId) {
    exists batch: seq<UserId> ::
      u in batch && w.infos(batch).Told? && Informed(was, row, u, w.infos(batch).items, w.infos(batch).at)
  }

  lemma {:induction false} SomeLastInfo(infos: seq<StreamerInfo>, u: UserId)
    ensures NoInfo(infos, u) || exists i :: LastInfo(infos, i, u)
  {
    if infos != [] {
      var n := |infos| - 1;
      SomeLastInfo(infos[..n], u);
      if infos[n].user == u {
        assert LastInfo(infos, n, u);
      } else if i :| LastInfo(infos[..n], i, u) {
        assert LastInfo(infos, i, u);
      } else {
        assert NoInfo(infos[..n], u);
      }
    }
  }

  lemma StreamerUntouched(rows: Rows, w: World, u: UserId)
    requires IsPlanner(w.plan) && u in rows && !UnknownStreamer(rows[u])
    ensures u in EnrichStreamers(rows, w).rows && EnrichStreamers(rows, w).rows[u] == rows[u]
    decreases |PendingStreamers(rows)|
  {
    if PendingStreamers(rows) != {} {
      var batch := Batch(w.plan, PendingStreamers(rows));
      BatchShrinks(w.plan, PendingStreamers(rows));
      if w.infos(batch).Told? {
        var infos, at := w.infos(batch).items, w.infos(batch).at;
        EnrichStreamersBatchEffect(rows, batch, infos, at);
        StreamerUntouched(EnrichStreamersBatch(rows, batch, infos, at), w, u);
      }
    }
  }

  /** And over the whole loop: only streamers not yet asked about change, each by what was answered about them. */
  lemma {:induction false} StreamersGetTheirInfos(rows: Rows, w: World, u: UserId)
    requires IsPlanner(w.plan) && u in rows
    ensures var r := EnrichStreamers(rows, w);
            && u in r.rows
            && (!UnknownStreamer(rows[u]) ==> r.rows[u] == rows[u])
            && (UnknownStreamer(rows[u]) ==>
                  StreamerAskedOnce(w, rows[u], r.rows[u], u) || (r.error.Some? && r.rows[u] == rows[u]))
    decreases |PendingStreamers(rows)|
  {
    if !UnknownStreamer(rows[u]) {
      StreamerUntouched(rows, w, u);
    } else {
      assert u in PendingStreamers(rows);
      var batch := Batch(w.plan, PendingStreamers(rows));
      BatchShrinks(w.plan, PendingStreamers(rows));
      if w.infos(batch).Told? {
        var infos, at := w.infos(batch).items, w.infos(batch).at;
        var next := EnrichStreamersBatch(rows, batch, infos, at);
        EnrichStreamersBatchEffect(rows, batch, infos, at);
        RoundWritesInfos(rows, batch, infos, at, u);
        if u in batch {
          SomeLastInfo(infos, u);
          StreamerUntouched(next, w, u);
          assert StreamerAskedOnce(w, rows[u], next[u], u);
        } else {
          StreamersGetTheirInfos(next, w, u);
        }
      }
    }
  }
}
