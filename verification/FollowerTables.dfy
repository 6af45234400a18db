/**
 The rows that follower synchronisation reads and writes (one channel's share of
 `followers`, `unfollows` and the follower columns of `channels`), and what each
 statement of core/follower_sync.py does to them, as functions on values.
 */
module FollowerTables {
  import opened Wrappers

  type UserId = int
  type Time = int

  // Twitch's page token. Its content never matters, only whether there is one.
  type Cursor = nat

  const ENRICH_BATCH_SIZE: nat := 100
  const UNFOLLOW_CONFIRM_LIMIT: nat := 200
  const UNFOLLOW_ALWAYS_ALLOWED: nat := 10

  datatype Profile = Profile(user: UserId, login: string, displayName: string, imageUrl: string,
                             description: string, broadcasterType: string, createdAt: Time)

  datatype StreamerInfo = StreamerInfo(user: UserId, category: string, language: string)

  datatype Row = Row(login: string, followedAt: Time, lastSeen: Option<Time>,
                     profile: Option<Profile>, enrichedAt: Option<Time>,
                     info: Option<StreamerInfo>, streamerEnrichedAt: Option<Time>)

  datatype Reason = Unfollowed | AccountGone

  datatype Unfollow = Unfollow(user: UserId, login: string, displayName: Option<string>, imageUrl: Option<string>,
                               followedAt: Time, detectedAt: Time, reason: Reason)

  datatype SyncError =
    | TokenError(msg: string)
    | WalkError(msg: string)
    | EnrichmentError(msg: string)
    | TooMany(candidates: nat, reported: int)

  datatype Channel = Channel(cursor: Option<Cursor>, startedAt: Option<Time>, syncedAt: Option<Time>,
                             total: Option<int>, error: Option<SyncError>)

  // The unique index on (channel_id, twitch_user_id) is what makes the followers a map.
  type Rows = map<UserId, Row>

  datatype Db = Db(rows: Rows, unfollows: seq<Unfollow>, channel: Channel)

  // One entry of a page of Get Channel Followers.
  datatype Record = Record(user: UserId, login: string, followedAt: Time)

  datatype Answer =
    | Page(records: seq<Record>, next: Option<Cursor>, total: int)
    | Raise(msg: string)

  function Ids(records: seq<Record>): set<UserId> {
    set r | r in records :: r.user
  }

  // ----- storing a page ---------------------------------------------------

  // The row a page leaves behind for one of its records.
  function Stored(rows: Rows, r: Record, passStart: Time): Row {
    if r.user in rows then
      rows[r.user].(login := r.login, lastSeen := Some(passStart))
    else
      Row(r.login, r.followedAt, Some(passStart), None, None, None, None)
  }

  function StorePage(rows: Rows, records: seq<Record>, passStart: Time): Rows {
    if records == [] then rows
    else
      var before := StorePage(rows, records[..|records| - 1], passStart);
      var last := records[|records| - 1];
      before[last.user := Stored(before, last, passStart)]
  }

  // Two inserts of one new id in a page violate the unique index when the page commits.
  predicate Conflicts(rows: Rows, records: seq<Record>) {
    exists i, j :: 0 <= i < j < |records| && records[i].user == records[j].user && records[i].user !in rows
  }

  // How many of the records are inserts.
  function Inserts(rows: Rows, records: seq<Record>): nat {
    if records == [] then 0
    else Inserts(rows, records[..|records| - 1]) + if records[|records| - 1].user in rows then 0 else 1
  }

  // ----- enrichment -------------------------------------------------------

  function WithProfile(row: Row, p: Profile, now: Time): Row {
    row.(login := p.login, profile := Some(p), enrichedAt := Some(now))
  }

  function ApplyProfiles(rows: Rows, batch: seq<UserId>, profiles: seq<Profile>, now: Time): Rows {
    if profiles == [] then rows
    else
      var before := ApplyProfiles(rows, batch, profiles[..|profiles| - 1], now);
      var p := profiles[|profiles| - 1];
      if p.user in batch && p.user in before then before[p.user := WithProfile(before[p.user], p, now)] else before
  }

  // How many of the answers are about the batch.
  function ProfilesUsed(batch: seq<UserId>, profiles: seq<Profile>): nat {
    if profiles == [] then 0
    else ProfilesUsed(batch, profiles[..|profiles| - 1]) + if profiles[|profiles| - 1].user in batch then 1 else 0
  }

  function InfosUsed(batch: seq<UserId>, infos: seq<StreamerInfo>): nat {
    if infos == [] then 0
    else InfosUsed(batch, infos[..|infos| - 1]) + if infos[|infos| - 1].user in batch then 1 else 0
  }

  function StampEnriched(rows: Rows, batch: seq<UserId>, now: Time): Rows {
    map u | u in rows ::
      if u in batch && rows[u].enrichedAt.None? then rows[u].(enrichedAt := Some(now)) else rows[u]
  }

  function EnrichBatch(rows: Rows, batch: seq<UserId>, profiles: seq<Profile>, now: Time): Rows {
    StampEnriched(ApplyProfiles(rows, batch, profiles, now), batch, now)
  }

  function ApplyInfos(rows: Rows, batch: seq<UserId>, infos: seq<StreamerInfo>, now: Time): Rows {
    if infos == [] then rows
    else
      var before := ApplyInfos(rows, batch, infos[..|infos| - 1], now);
      var i := infos[|infos| - 1];
      if i.user in batch && i.user in before then
        before[i.user := before[i.user].(info := Some(i), streamerEnrichedAt := Some(now))]
      else before
  }

  function StampStreamers(rows: Rows, batch: seq<UserId>, now: Time): Rows {
    map u | u in rows ::
      if u in batch && rows[u].streamerEnrichedAt.None? then rows[u].(streamerEnrichedAt := Some(now)) else rows[u]
  }

  function EnrichStreamersBatch(rows: Rows, batch: seq<UserId>, infos: seq<StreamerInfo>, now: Time): Rows {
    StampStreamers(ApplyInfos(rows, batch, infos, now), batch, now)
  }

  function Pending(rows: Rows): set<UserId> {
    set u | u in rows && rows[u].enrichedAt.None?
  }

  function PendingStreamers(rows: Rows): set<UserId> {
    set u | u in rows && rows[u].streamerEnrichedAt.None?
            && rows[u].profile.Some? && rows[u].profile.value.broadcasterType in {"affiliate", "partner"}
  }

  // What enrichment may not touch: who is stored, since when, and the pass stamps.
  ghost predicate SameFollowers(a: Rows, b: Rows) {
    && a.Keys == b.Keys
    && forall u :: u in a ==> u in b && a[u].followedAt == b[u].followedAt && a[u].lastSeen == b[u].lastSeen
  }

  // ----- reconciliation ---------------------------------------------------

  function Candidates(rows: Rows, passStart: Time): set<UserId> {
    set u | u in rows && rows[u].followedAt < passStart
            && (rows[u].lastSeen.None? || rows[u].lastSeen.value < passStart)
  }

  // candidates > max(10, total * 0.25), in exact arithmetic
  predicate TooManyToBelieve(candidates: nat, reported: int) {
    candidates > UNFOLLOW_ALWAYS_ALLOWED && 4 * candidates > reported
  }

  // The order in which a query without ORDER BY returns the ids of `s`.
  ghost predicate Enumerates(order: seq<UserId>, s: set<UserId>) {
    && |order| == |s|
    && (forall u :: u in order <==> u in s)
    && (forall i, j :: 0 <= i < j < |order| ==> order[i] != order[j])
  }

  function GoneRecord(user: UserId, row: Row, now: Time, reason: Reason): Unfollow {
    Unfollow(user, row.login,
             if row.profile.Some? then Some(row.profile.value.displayName) else None,
             if row.profile.Some? then Some(row.profile.value.imageUrl) else None,
             row.followedAt, now, reason)
  }

  // What Twitch said while a batch was being confirmed.
  datatype Verdicts = Verdicts(alive: set<UserId>, follows: set<UserId>)

  predicate Departs(u: UserId, v: Verdicts) {
    u !in v.alive || u !in v.follows
  }

  function ReasonFor(u: UserId, v: Verdicts): Reason {
    if u in v.alive then Unfollowed else AccountGone
  }

  function Confirm(db: Db, batch: seq<UserId>, v: Verdicts, passStart: Time, now: Time): Db {
    if batch == [] then db
    else
      var before := Confirm(db, batch[..|batch| - 1], v, passStart, now);
      var u := batch[|batch| - 1];
      if u !in before.rows then before
      else if u !in v.alive then
        before.(rows := before.rows - {u},
                unfollows := before.unfollows + [GoneRecord(u, before.rows[u], now, AccountGone)])
      else if u in v.follows then
        before.(rows := before.rows[u := before.rows[u].(lastSeen := Some(passStart))])
      else
        before.(rows := before.rows - {u},
                unfollows := before.unfollows + [GoneRecord(u, before.rows[u], now, Unfollowed)])
  }

  // How many of a batch are accounts that are gone, and how many are people who left.
  function AccountsGone(batch: seq<UserId>, v: Verdicts): nat {
    if batch == [] then 0
    else AccountsGone(batch[..|batch| - 1], v) + if batch[|batch| - 1] in v.alive then 0 else 1
  }

  function UnfollowedOf(batch: seq<UserId>, v: Verdicts): nat {
    if batch == [] then 0
    else
      var u := batch[|batch| - 1];
      UnfollowedOf(batch[..|batch| - 1], v) + if u in v.alive && u !in v.follows then 1 else 0
  }

  function UnfollowedIds(us: seq<Unfollow>): multiset<UserId> {
    if us == [] then multiset{} else UnfollowedIds(us[..|us| - 1]) + multiset{us[|us| - 1].user}
  }

  // ----- what the statements preserve --------------------------------------

  lemma {:induction false} StorePageKeeps(rows: Rows, records: seq<Record>, passStart: Time)
    ensures var r := StorePage(rows, records, passStart);
            forall u :: u in rows ==> u in r && r[u] == rows[u].(login := r[u].login, lastSeen := r[u].lastSeen)
  {
    if records != [] { StorePageKeeps(rows, records[..|records| - 1], passStart); }
  }

  lemma {:induction false} StorePageStamps(rows: Rows, records: seq<Record>, passStart: Time)
    ensures var r := StorePage(rows, records, passStart);
            && r.Keys == rows.Keys + Ids(records)
            && (forall u :: u in Ids(records) ==> u in r && r[u].lastSeen == Some(passStart))
            && (forall u :: u in rows && u !in Ids(records) ==> r[u] == rows[u])
  {
    if records != [] {
      var n := |records| - 1;
      StorePageStamps(rows, records[..n], passStart);
      assert records == records[..n] + [records[n]];
      assert Ids(records) == Ids(records[..n]) + {records[n].user};
    }
  }

  /** A stored page keeps every row, adds exactly the ids it lists, stamps exactly those with
      the pass start, and changes nothing but login and stamp of a row that was there. */
  lemma StorePageEffect(rows: Rows, records: seq<Record>, passStart: Time)
    ensures var r := StorePage(rows, records, passStart);
            && r.Keys == rows.Keys + Ids(records)
            && (forall u :: u in Ids(records) ==> u in r && r[u].lastSeen == Some(passStart))
            && (forall u :: u in rows && u !in Ids(records) ==> r[u] == rows[u])
            && (forall u :: u in rows ==> r[u] == rows[u].(login := r[u].login, lastSeen := r[u].lastSeen))
  {
    StorePageKeeps(rows, records, passStart);
    StorePageStamps(rows, records, passStart);
  }

  /** What is written about one person a page lists once: the login, and for a new person the follow date and
      an empty profile. */
  lemma {:induction false} StorePageWrites(rows: Rows, records: seq<Record>, passStart: Time, i: nat)
    requires i < |records|
    requires forall j :: 0 <= j < |records| && j != i ==> records[j].user != records[i].user
    ensures var u, r := records[i].user, StorePage(rows, records, passStart);
            && u in r
            && r[u] == if u in rows then rows[u].(login := records[i].login, lastSeen := Some(passStart))
                       else Row(records[i].login, records[i].followedAt, Some(passStart), None, None, None, None)
  {
    var n := |records| - 1;
    if i < n {
      StorePageWrites(rows, records[..n], passStart, i);
    } else {
      StorePageEffect(rows, records[..n], passStart);
      assert records[i].user !in Ids(records[..n]);
    }
  }

  lemma {:induction false} ApplyProfilesKeeps(rows: Rows, batch: seq<UserId>, profiles: seq<Profile>, now: Time)
    ensures SameFollowers(rows, ApplyProfiles(rows, batch, profiles, now))
    ensures forall u :: u in rows && u !in batch ==> ApplyProfiles(rows, batch, profiles, now)[u] == rows[u]
    ensures forall u :: u in rows && rows[u].enrichedAt.Some? ==>
      ApplyProfiles(rows, batch, profiles, now)[u].enrichedAt.Some?
  {
    if profiles != [] {
      ApplyProfilesKeeps(rows, batch, profiles[..|profiles| - 1], now);
    }
  }

  /** Whatever subset Twitch answers, a round of enrichment stamps its whole batch and
      leaves every other row, and everyone's follow data, alone. */
  lemma EnrichBatchEffect(rows: Rows, batch: seq<UserId>, profiles: seq<Profile>, now: Time)
    requires forall u :: u in batch ==> u in rows
    ensures var r := EnrichBatch(rows, batch, profiles, now);
            && SameFollowers(rows, r)
            && (forall u :: u in rows && u !in batch ==> r[u] == rows[u])
            && Pending(r) == Pending(rows) - (set u | u in batch)
  {
    ApplyProfilesKeeps(rows, batch, profiles, now);
  }

  lemma {:induction false} ApplyInfosKeeps(rows: Rows, batch: seq<UserId>, infos: seq<StreamerInfo>, now: Time)
    ensures SameFollowers(rows, ApplyInfos(rows, batch, infos, now))
    ensures forall u :: u in rows ==> ApplyInfos(rows, batch, infos, now)[u].profile == rows[u].profile
    ensures forall u :: u in rows ==> ApplyInfos(rows, batch, infos, now)[u].enrichedAt == rows[u].enrichedAt
    ensures forall u :: u in rows && u !in batch ==> ApplyInfos(rows, batch, infos, now)[u] == rows[u]
    ensures forall u :: u in rows && rows[u].streamerEnrichedAt.Some?
                        ==> ApplyInfos(rows, batch, infos, now)[u].streamerEnrichedAt.Some?
  {
    if infos != [] {
      ApplyInfosKeeps(rows, batch, infos[..|infos| - 1], now);
    }
  }

  lemma EnrichStreamersBatchEffect(rows: Rows, batch: seq<UserId>, infos: seq<StreamerInfo>, now: Time)
    requires forall u :: u in batch ==> u in rows
    ensures var r := EnrichStreamersBatch(rows, batch, infos, now);
            && SameFollowers(rows, r)
            && (forall u :: u in rows && u !in batch ==> r[u] == rows[u])
            && PendingStreamers(r) == PendingStreamers(rows) - (set u | u in batch)
  {
    ApplyInfosKeeps(rows, batch, infos, now);
  }

  /** Confirming a batch deletes exactly the members Twitch denied, stamps the others and
      leaves everyone else alone. */
  lemma {:induction false} ConfirmRows(db: Db, batch: seq<UserId>, v: Verdicts, passStart: Time, now: Time)
    requires forall u :: u in batch ==> u in db.rows
    requires forall i, j :: 0 <= i < j < |batch| ==> batch[i] != batch[j]
    ensures var r := Confirm(db, batch, v, passStart, now);
            && r.channel == db.channel
            && (forall u :: u in r.rows <==> u in db.rows && !(u in batch && Departs(u, v)))
            && (forall u :: u in r.rows ==>
                  r.rows[u] == if u in batch then db.rows[u].(lastSeen := Some(passStart)) else db.rows[u])
  {
    if batch != [] {
      var n := |batch| - 1;
      ConfirmRows(db, batch[..n], v, passStart, now);
      assert batch == batch[..n] + [batch[n]];
    }
  }

  /** Every unfollow a confirmation adds is about a denied member of the batch, has the reason
      that separates the two denials, and carries the deleted row's own data. */
  lemma {:induction false} ConfirmUnfollows(db: Db, batch: seq<UserId>, v: Verdicts, passStart: Time, now: Time)
    requires forall u :: u in batch ==> u in db.rows
    requires forall i, j :: 0 <= i < j < |batch| ==> batch[i] != batch[j]
    ensures var r := Confirm(db, batch, v, passStart, now);
            && |db.unfollows| <= |r.unfollows| && r.unfollows[..|db.unfollows|] == db.unfollows
            && (forall k :: |db.unfollows| <= k < |r.unfollows| ==>
                  var f := r.unfollows[k];
                  f.user in batch && Departs(f.user, v)
                  && f == GoneRecord(f.user, db.rows[f.user], now, ReasonFor(f.user, v)))
  {
    if batch != [] {
      var n := |batch| - 1;
      ConfirmUnfollows(db, batch[..n], v, passStart, now);
      ConfirmRows(db, batch[..n], v, passStart, now);
      assert batch == batch[..n] + [batch[n]];
    }
  }

  // How often `u` was recorded as gone, plus one while `u` is stored.
  ghost function Accounted(db: Db, u: UserId): nat {
    UnfollowedIds(db.unfollows)[u] + if u in db.rows then 1 else 0
  }

  /** Each deletion comes with exactly one unfollow of the same user: what is stored and what
      is recorded as gone, counted together, never changes. */
  lemma {:induction false} ConfirmConserves(
    db: Db, batch: seq<UserId>, v: Verdicts, passStart: Time, now: Time, x: UserId)
    ensures Accounted(Confirm(db, batch, v, passStart, now), x) == Accounted(db, x)
  {
    if batch != [] {
      var n := |batch| - 1;
      var u := batch[n];
      ConfirmConserves(db, batch[..n], v, passStart, now, x);
      var before := Confirm(db, batch[..n], v, passStart, now);
      var r := Confirm(db, batch, v, passStart, now);
      if u in before.rows && Departs(u, v) {
        assert r.unfollows[..|r.unfollows| - 1] == before.unfollows;
      }
    }
  }
}
