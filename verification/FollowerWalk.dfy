/** The walk against a list that does not move: interruptions cost nothing. */
module FollowerWalk {
  import opened Wrappers
  import opened FollowerTables
  import opened FollowerRuns
  import opened FollowerSpec

  // Twitch's list while nobody joins or leaves: its pages, in order, and the total it reports.
  datatype Frozen = Frozen(pages: seq<seq<Record>>, total: int)

  ghost predicate WellPaged(f: Frozen) {
    && f.pages != []
    && forall k :: 0 <= k < |f.pages| ==> NoRepeats(f.pages[k])
  }

  ghost predicate NoRepeats(records: seq<Record>) {
    forall i, j :: 0 <= i < j < |records| ==> records[i].user != records[j].user
  }

  function Listed(pages: seq<seq<Record>>): set<UserId> {
    if pages == [] then {} else Listed(pages[..|pages| - 1]) + Ids(pages[|pages| - 1])
  }

  function Serve(f: Frozen, at: Option<Cursor>): Answer
    requires at.GetOr(0) < |f.pages|
  {
    var k := at.GetOr(0);
    Page(f.pages[k], if k + 1 < |f.pages| then Some(k + 1) else None, f.total)
  }

  function WalkedRows(rows: Rows, pages: seq<seq<Record>>, passStart: Time): Rows {
    if pages == [] then rows
    else StorePage(WalkedRows(rows, pages[..|pages| - 1], passStart), pages[|pages| - 1], passStart)
  }

  // The database after the first k pages of an uninterrupted walk.
  function WalkedDb(db: Db, f: Frozen, k: nat, passStart: Time): Db
    requires 0 < k <= |f.pages|
  {
    db.(rows := WalkedRows(db.rows, f.pages[..k], passStart),
        channel := db.channel.(cursor := if k < |f.pages| then Some(k) else None,
                               startedAt := Some(passStart), total := Some(f.total), error := None))
  }

  function FullTape(f: Frozen): seq<Answer> {
    seq(|f.pages|, k requires 0 <= k < |f.pages| => Serve(f, Some(k)))
  }

  lemma CommitExtendsWalk(db: Db, f: Frozen, k: nat, t: Time)
    requires WellPaged(f) && k < |f.pages|
    ensures CommitPage(if k == 0 then db else WalkedDb(db, f, k, t), Serve(f, Some(k)), t) == WalkedDb(db, f, k + 1, t)
  {
    var upTo := f.pages[..k + 1];
    assert upTo[..|upTo| - 1] == f.pages[..k] && upTo[|upTo| - 1] == f.pages[k];
    assert k == 0 ==> WalkedRows(db.rows, f.pages[..k], t) == db.rows;
  }

  /** The method's own loop, told every page without a failure, computes WalkedDb. */
  lemma {:induction false} UninterruptedWalk(db: Db, f: Frozen, k: nat, t: Time)
    requires WellPaged(f) && k < |f.pages|
    ensures Walk(if k == 0 then db else WalkedDb(db, f, k, t), FullTape(f)[k..], t)
            == Walked(WalkedDb(db, f, |f.pages|, t), Completed)
    decreases |f.pages| - k
  {
    var now := if k == 0 then db else WalkedDb(db, f, k, t);
    assert FullTape(f)[k..][0] == Serve(f, Some(k));
    assert !Conflicts(now.rows, f.pages[k]);
    CommitExtendsWalk(db, f, k, t);
    if k + 1 < |f.pages| {
      assert FullTape(f)[k..][1..] == FullTape(f)[k + 1..];
      UninterruptedWalk(db, f, k + 1, t);
    }
  }

  /** A walk keeps every row, adds everyone listed, and stamps exactly those listed. */
  lemma {:induction false} WalkedRowsEffect(rows: Rows, pages: seq<seq<Record>>, t: Time)
    ensures var r := WalkedRows(rows, pages, t);
            && (forall u :: u in r <==> u in rows || u in Listed(pages))
            && (forall u :: u in Listed(pages) ==> r[u].lastSeen == Some(t))
            && (forall u :: u in rows && u !in Listed(pages) ==> r[u] == rows[u])
            && (forall u :: u in rows ==> r[u].followedAt == rows[u].followedAt)
  {
    if pages != [] {
      var n := |pages| - 1;
      WalkedRowsEffect(rows, pages[..n], t);
      StorePageEffect(WalkedRows(rows, pages[..n], t), pages[n], t);
    }
  }

  // ----- interruptions ------------------------------------------------------

  // What can happen during a walk over a frozen list: attempts begin, pages arrive as the list
  // has them, anything raises, the process dies, the token is refused.
  ghost predicate FrozenEvent(s: Sys, e: Event, f: Frozen) {
    match e
    case Begin(_) => true
    case Die => true
    case TokenRefused(_) => true
    case StoreAnswer(answer) =>
      answer.Raise? || (s.worker.Walking? && s.worker.at.GetOr(0) < |f.pages| && answer == Serve(f, s.worker.at))
    case _ => false
  }

  // A run of such events that has not completed the walk before its last event.
  ghost predicate FrozenRun(s: Sys, events: seq<Event>, f: Frozen) {
    Runs(s, events) &&
    forall n :: 0 <= n < |events| ==>
      && Runs(s, events[..n]) && FrozenEvent(After(s, events[..n]), events[n], f)
      && !After(s, events[..n]).worker.Enriching?
  }

  ghost predicate BeganAt(events: seq<Event>, t: Time) {
    Begin(t) in events
  }

  // Either no page of the pass is stored and nothing but the error changed, or what is stored is
  // the uninterrupted walk's database after some number of pages.
  ghost predicate OnTheWay(start: Db, s: Sys, events: seq<Event>, f: Frozen)
    requires f.pages != []
  {
    var c := s.db.channel;
    if s.worker.Enriching? then
      s.worker.pendingError.None? && BeganAt(events, s.worker.passStart)
      && s.db == WalkedDb(start, f, |f.pages|, s.worker.passStart)
    else if c.cursor.None? then
      && s.db == WithError(start, c.error)
      && (s.worker.Idle? || (&& s.worker.Walking? && s.worker.first && s.worker.at.None?
                             && BeganAt(events, s.worker.passStart)))
    else
      && c.startedAt.Some? && BeganAt(events, c.startedAt.value)
      && 0 < c.cursor.value < |f.pages|
      && s.db == WithError(WalkedDb(start, f, c.cursor.value, c.startedAt.value), c.error)
      && (s.worker.Idle? || (s.worker.Walking? && !s.worker.first && s.worker.at == c.cursor
                             && Some(s.worker.passStart) == c.startedAt))
  }

  // A page that arrives in time leaves the database of the uninterrupted walk, one page further.
  lemma PageOnTheWay(start: Db, s: Sys, events: seq<Event>, answer: Answer, f: Frozen)
    requires WellPaged(f) && start.channel.cursor.None?
    requires OnTheWay(start, s, events, f) && s.worker.Walking? && answer.Page?
    requires Enabled(s, StoreAnswer(answer)) && FrozenEvent(s, StoreAnswer(answer), f)
    ensures var k, t := s.worker.at.GetOr(0), s.worker.passStart;
            && k < |f.pages| && answer == Serve(f, Some(k)) && !Conflicts(s.db.rows, answer.records)
            && CommitPage(s.db, answer, t) == WalkedDb(start, f, k + 1, t)
  {
    var k, t := s.worker.at.GetOr(0), s.worker.passStart;
    var before := if k == 0 then start else WalkedDb(start, f, k, t);
    assert s.db == WithError(before, s.db.channel.error);
    assert !Conflicts(s.db.rows, f.pages[k]);
    CommitExtendsWalk(start, f, k, t);
  }

  lemma StepStaysOnTheWay(start: Db, s: Sys, events: seq<Event>, e: Event, f: Frozen)
    requires WellPaged(f) && start.channel.cursor.None?
    requires OnTheWay(start, s, events, f) && !s.worker.Enriching?
    requires Enabled(s, e) && FrozenEvent(s, e, f)
    ensures OnTheWay(start, Step(s, e), events + [e], f)
  {
    assert forall t :: BeganAt(events, t) ==> BeganAt(events + [e], t);
    match e
    case Begin(now) => assert BeganAt(events + [e], now);
    case StoreAnswer(answer) =>
      if answer.Page? { PageOnTheWay(start, s, events, answer, f); }
    case _ =>
  }

  lemma {:induction false} RunStaysOnTheWay(start: Sys, events: seq<Event>, f: Frozen)
    requires WellPaged(f) && start.worker.Idle? && start.db.channel.cursor.None?
    requires FrozenRun(start, events, f)
    ensures OnTheWay(start.db, After(start, events), events, f)
  {
    if events != [] {
      var n := |events| - 1;
      assert events == events[..n] + [events[n]];
      forall k | 0 <= k < n
        ensures Runs(start, events[..n][..k]) && FrozenEvent(After(start, events[..n][..k]), events[..n][k], f)
                && !After(start, events[..n][..k]).worker.Enriching?
      {
        assert events[..n][..k] == events[..k];
      }
      RunStaysOnTheWay(start, events[..n], f);
      StepStaysOnTheWay(start.db, After(start, events[..n]), events[..n], events[n], f);
    }
  }

  /** Refinement: over a frozen list, a walk cut by exceptions and process deaths at any points and
      resumed any number of times ends, once it completes, in the very database of one call that was
      never interrupted, started at the time one of its attempts began. */
  lemma InterruptionsCostNothing(start: Sys, events: seq<Event>, f: Frozen)
    requires WellPaged(f) && start.worker.Idle? && start.db.channel.cursor.None?
    requires FrozenRun(start, events, f) && After(start, events).worker.Enriching?
    ensures var s := After(start, events);
            && BeganAt(events, s.worker.passStart)
            && Walk(start.db, FullTape(f), s.worker.passStart) == Walked(s.db, Completed)
  {
    RunStaysOnTheWay(start, events, f);
    var s := After(start, events);
    CompletedWalk(start.db, f, s.worker.passStart);
  }

  lemma CompletedWalk(db: Db, f: Frozen, t: Time)
    requires WellPaged(f)
    ensures Walk(db, FullTape(f), t) == Walked(WalkedDb(db, f, |f.pages|, t), Completed)
    ensures WalkedDb(db, f, |f.pages|, t).rows == WalkedRows(db.rows, f.pages, t)
  {
    UninterruptedWalk(db, f, 0, t);
    assert FullTape(f)[0..] == FullTape(f);
    assert f.pages[..|f.pages|] == f.pages;
  }

  /** And that database has every listed person in it, once, and its rows stamped with the pass
      start are the list together with whoever carried that very stamp before. */
  lemma StampedAreTheList(db: Db, f: Frozen, t: Time)
    requires WellPaged(f)
    ensures var r := Walk(db, FullTape(f), t).db.rows;
            && (forall u :: u in r <==> u in db.rows || u in Listed(f.pages))
            && (forall u :: u in r && r[u].lastSeen == Some(t) <==>
                  u in Listed(f.pages) || (u in db.rows && db.rows[u].lastSeen == Some(t)))
  {
    CompletedWalk(db, f, t);
    WalkedRowsEffect(db.rows, f.pages, t);
  }

  /** So with a start time that no row carries yet, the rows stamped with it are exactly the list. */
  lemma StampedExactly(db: Db, f: Frozen, t: Time)
    requires WellPaged(f) && forall u :: u in db.rows ==> db.rows[u].lastSeen != Some(t)
    ensures var r := Walk(db, FullTape(f), t).db.rows;
            forall u :: u in Listed(f.pages) <==> u in r && r[u].lastSeen == Some(t)
  {
    StampedAreTheList(db, f, t);
  }
}
