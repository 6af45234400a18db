/**
 How every stream ends: from any reachable state there is a way on, without a single failure or death, that
 makes an ended stream ready, or failed when its last attempt is already lost.
 */
module JobEnds {
  import opened Wrappers
  import opened JobTables
  import opened JobRuns
  import opened JobTheorems
  import opened JobProgress
  import opened JobWorker

  // Nothing goes wrong: polls, finalizations, beats, reclaims, starts and returns, all of them at one time.
  predicate Smooth(e: Event, at: Time) {
    match e
    case CapturePoll(_) => true
    case FinalizeNext => true
    case HeartBeat(_, t) => t == at
    case Reclaim(_, t, _) => t == at
    case PickAndStart(_, _, t) => t == at
    case Returned(_, t) => t == at
    case _ => false
  }

  ghost predicate AllSmooth(events: seq<Event>, at: Time) {
    forall e :: e in events ==> Smooth(e, at)
  }

  // A job whose worker died.
  ghost predicate Orphaned(s: Sys, j: JobId) {
    j in s.db.jobs && s.db.jobs[j].status.Running? && forall w :: w in s.busy ==> s.busy[w] != j
  }

  // A stream that has failed, or whose job lost its worker on the third attempt.
  ghost predicate Doomed(s: Sys, id: StreamId)
    requires id in s.db.streams
  {
    || s.db.streams[id].status.Failed?
    || exists j: JobId :: Orphaned(s, j) && s.db.jobs[j].stream == id && s.db.jobs[j].attempts == 3
  }

  // Every orphan of the stream has been silent for more than five minutes.
  ghost predicate OrphansAreStale(s: Sys, id: StreamId, at: Time) {
    forall j :: Orphaned(s, j) && s.db.jobs[j].stream == id ==> Stale(s.db.jobs[j], at - HEARTBEAT_STALE_AFTER)
  }

  // ----- a handler that returns ------------------------------------------------------------

  // A stage of the stream is done, and the next one is queued.
  ghost predicate StageDone(s: Sys, id: StreamId, kind: JobKind) {
    && Inv(s) && id in s.db.streams && s.db.streams[id].status == SpecOf(kind).done
    && (kind.Transcribe? ==> exists a: JobId :: IsQueued(s.db, id, a))
  }

  ghost predicate IsQueued(db: Db, id: StreamId, a: JobId) {
    IsJobOf(db, id, Analyze, a) && db.jobs[a].status.Queued?
  }

  lemma CompleteEndsStage(db: Db, j: JobId, at: Time)
    requires JobsAgree(db) && j in db.jobs && db.jobs[j].stream in db.streams
    ensures var r, job := Complete(db, j, at), db.jobs[j];
            && job.stream in r.streams && r.streams[job.stream].status == SpecOf(job.kind).done
            && (job.kind.Transcribe? ==> IsQueued(r, job.stream, db.nextJob))
  {
  }

  lemma ReturnEndsStage(s: Sys, w: WorkerId, at: Time)
    requires Inv(s) && w in s.busy
    ensures s.busy[w] in s.db.jobs && Enabled(s, Returned(w, at))
    ensures var r := Step(s, Returned(w, at));
            r.busy == s.busy - {w} && StageDone(r, s.db.jobs[s.busy[w]].stream, s.db.jobs[s.busy[w]].kind)
  {
    JobsHaveStreams(s.db, s.busy[w]);
    StepKeepsInv(s, Returned(w, at));
    CompleteEndsStage(s.db, s.busy[w], at);
  }

  // An idle worker takes a queued job.
  ghost predicate Taken(s: Sys, idle: WorkerId, job: Job) {
    && Inv(s) && idle in s.busy && s.busy[idle] in s.db.jobs
    && s.db.jobs[s.busy[idle]].stream == job.stream && s.db.jobs[s.busy[idle]].kind == job.kind
  }

  lemma StartTakes(s: Sys, idle: WorkerId, j: JobId, at: Time)
    requires Inv(s) && idle !in s.busy && j in s.db.jobs && s.db.jobs[j].status.Queued?
    ensures Enabled(s, PickAndStart(idle, j, at))
    ensures var r := Step(s, PickAndStart(idle, j, at));
            r.busy - {idle} == s.busy && Taken(r, idle, s.db.jobs[j])
  {
    JobsHaveStreams(s.db, j);
    StepKeepsInv(s, PickAndStart(idle, j, at));
    assert s.busy[idle := j] - {idle} == s.busy;
  }

  lemma TwoSteps(s: Sys, e: Event, f: Event, at: Time) returns (events: seq<Event>)
    requires Enabled(s, e) && Enabled(Step(s, e), f) && !e.Reclaim? && !f.Reclaim? && Smooth(e, at) && Smooth(f, at)
    ensures Runs(s, events) && AllSmooth(events, at) && After(s, events) == Step(Step(s, e), f)
  {
    OneStep(s, e);
    ExtendRun(s, [e], f);
    events := [e] + [f];
  }

  lemma TakenReturns(s: Sys, w: WorkerId, job: Job, at: Time)
    requires Taken(s, w, job)
    ensures Enabled(s, Returned(w, at))
    ensures var r := Step(s, Returned(w, at)); r.busy == s.busy - {w} && StageDone(r, job.stream, job.kind)
  {
    ReturnEndsStage(s, w, at);
  }

  // And its handler returns.
  lemma RunOnce(s: Sys, idle: WorkerId, j: JobId, at: Time) returns (events: seq<Event>)
    requires Inv(s) && idle !in s.busy && j in s.db.jobs && s.db.jobs[j].status.Queued?
    ensures Runs(s, events) && AllSmooth(events, at) && After(s, events).busy == s.busy
    ensures StageDone(After(s, events), s.db.jobs[j].stream, s.db.jobs[j].kind)
  {
    var start, end := PickAndStart(idle, j, at), Returned(idle, at);
    StartTakes(s, idle, j, at);
    TakenReturns(Step(s, start), idle, s.db.jobs[j], at);
    events := TwoSteps(s, start, end, at);
  }

  lemma FinishQueued(s: Sys, idle: WorkerId, j: JobId, at: Time) returns (events: seq<Event>)
    requires Inv(s) && idle !in s.busy && j in s.db.jobs && s.db.jobs[j].status.Queued?
    ensures Runs(s, events) && AllSmooth(events, at)
    ensures StageDone(After(s, events), s.db.jobs[j].stream, Analyze)
  {
    events := RunOnce(s, idle, j, at);
    if s.db.jobs[j].kind.Transcribe? {
      var r := After(s, events);
      var a: JobId :| IsQueued(r.db, s.db.jobs[j].stream, a);
      var more := RunOnce(r, idle, a, at);
      RunsConcat(s, events, more);
      events := events + more;
    }
  }

  lemma FinishRunning(s: Sys, w: WorkerId, idle: WorkerId, at: Time) returns (events: seq<Event>)
    requires Inv(s) && w in s.busy && idle !in s.busy
    ensures s.busy[w] in s.db.jobs
    ensures Runs(s, events) && AllSmooth(events, at)
    ensures StageDone(After(s, events), s.db.jobs[s.busy[w]].stream, Analyze)
  {
    var id := s.db.jobs[s.busy[w]].stream;
    ReturnEndsStage(s, w, at);
    OneStep(s, Returned(w, at));
    events := [Returned(w, at)];
    if s.db.jobs[s.busy[w]].kind.Transcribe? {
      var r := After(s, events);
      var a: JobId :| IsQueued(r.db, id, a);
      var more := FinishQueued(r, idle, a, at);
      RunsConcat(s, events, more);
      events := events + more;
    }
  }

  // ----- an orphan -----------------------------------------------------------------------

  // The given workers have beaten at `at`, and nothing else has changed.
  ghost predicate Beaten(s: Sys, r: Sys, ws: seq<WorkerId>, at: Time) {
    && r.busy == s.busy && r.db.streams == s.db.streams && r.db.jobs.Keys == s.db.jobs.Keys
    && (forall w :: w in ws ==> w in s.busy && s.busy[w] in r.db.jobs && r.db.jobs[s.busy[w]].lastBeat == Some(at))
    && (forall j :: Orphaned(s, j) ==> r.db.jobs[j] == s.db.jobs[j])
  }

  lemma BeatOne(s: Sys, r: Sys, ws: seq<WorkerId>, w: WorkerId, at: Time)
    requires Beaten(s, r, ws, at) && w in s.busy && s.busy[w] in s.db.jobs
    ensures Enabled(r, HeartBeat(w, at)) && Beaten(s, Step(r, HeartBeat(w, at)), ws + [w], at)
  {
  }

  lemma {:induction false} BeatAll(s: Sys, ws: seq<WorkerId>, at: Time) returns (events: seq<Event>)
    requires WorkersAgree(s) && forall w :: w in ws ==> w in s.busy
    ensures Runs(s, events) && AllSmooth(events, at) && Beaten(s, After(s, events), ws, at)
  {
    if ws == [] {
      events := [];
    } else {
      var front, w := ws[..|ws| - 1], ws[|ws| - 1];
      assert ws == front + [w];
      var before := BeatAll(s, front, at);
      BeatOne(s, After(s, before), front, w, at);
      ExtendRun(s, before, HeartBeat(w, at));
      events := before + [HeartBeat(w, at)];
    }
  }

  // The rows a poll takes back, in some order.
  function StaleOnes(db: Db, kind: JobKind, at: Time, plan: set<nat> -> seq<nat>): seq<JobId> {
    plan(set j | j in db.jobs && Reclaimable(db, kind, at, j))
  }

  lemma PollAfterBeats(s: Sys, r: Sys, ws: seq<WorkerId>, at: Time, kind: JobKind, plan: set<nat> -> seq<nat>)
    requires Beaten(s, r, ws, at) && (forall w :: w in s.busy ==> w in ws) && forall x :: Lists(plan(x), x)
    ensures var poll := Reclaim(kind, at, StaleOnes(r.db, kind, at, plan)); Enabled(r, poll) && Timely(r, poll)
  {
    var stale := set j | j in r.db.jobs && Reclaimable(r.db, kind, at, j);
    assert Lists(plan(stale), stale);
  }

  // The job is queued again, or its stream has failed after three attempts.
  ghost predicate TakenBack(r: Sys, j: JobId, job: Job) {
    && Inv(r) && j in r.db.jobs && r.db.jobs[j].stream == job.stream && job.stream in r.db.streams
    && (if job.attempts == 3 then r.db.streams[job.stream].status.Failed? else r.db.jobs[j].status.Queued?)
  }

  lemma AbandonedFails(db: Db, j: JobId)
    requires JobsAgree(db) && j in db.jobs && db.jobs[j].status.Abandoned?
    ensures db.jobs[j].stream in db.streams && db.streams[db.jobs[j].stream].status.Failed?
  {
    assert Agrees(db.streams[db.jobs[j].stream].status, db.jobs[j]);
  }

  lemma OrphanRow(s: Sys, j: JobId, at: Time, dead: seq<JobId>)
    requires j in s.db.jobs && s.db.jobs[j].status.Running?
    requires Stale(s.db.jobs[j], at - HEARTBEAT_STALE_AFTER)
    requires Enabled(s, Reclaim(s.db.jobs[j].kind, at, dead))
    ensures var r := Step(s, Reclaim(s.db.jobs[j].kind, at, dead)).db;
            && j in r.jobs && r.jobs[j].stream == s.db.jobs[j].stream
            && r.jobs[j].status == if s.db.jobs[j].attempts >= 3 then Abandoned else Queued
  {
    StaleIsTakenBack(s, j, at, dead);
    ReclaimAllJobs(s.db, dead, at);
  }

  lemma PollTakesOrphan(s: Sys, j: JobId, at: Time, dead: seq<JobId>)
    requires Inv(s) && j in s.db.jobs && s.db.jobs[j].status.Running?
    requires Stale(s.db.jobs[j], at - HEARTBEAT_STALE_AFTER)
    requires Enabled(s, Reclaim(s.db.jobs[j].kind, at, dead)) && Timely(s, Reclaim(s.db.jobs[j].kind, at, dead))
    ensures TakenBack(Step(s, Reclaim(s.db.jobs[j].kind, at, dead)), j, s.db.jobs[j])
  {
    var e := Reclaim(s.db.jobs[j].kind, at, dead);
    var r := Step(s, e);
    assert Inv(r) by { StepKeepsInv(s, e); }
    assert s.db.jobs[j].attempts <= 3 by { NotCapturing(s.db, j); }
    OrphanRow(s, j, at, dead);
    TakenBackIs(r, j, s.db.jobs[j]);
  }

  lemma TakenBackIs(r: Sys, j: JobId, job: Job)
    requires Inv(r) && j in r.db.jobs && r.db.jobs[j].stream == job.stream && job.attempts <= 3
    requires r.db.jobs[j].status == if job.attempts >= 3 then Abandoned else Queued
    ensures TakenBack(r, j, job)
  {
    JobsHaveStreams(r.db, j);
    if job.attempts == 3 { AbandonedFails(r.db, j); }
  }

  lemma TakeBack(s: Sys, j: JobId, at: Time, plan: set<nat> -> seq<nat>) returns (events: seq<Event>)
    requires Inv(s) && Orphaned(s, j) && Stale(s.db.jobs[j], at - HEARTBEAT_STALE_AFTER)
    requires forall x :: Lists(plan(x), x)
    ensures Runs(s, events) && AllSmooth(events, at) && After(s, events).busy == s.busy
    ensures TakenBack(After(s, events), j, s.db.jobs[j])
  {
    var ws := plan(s.busy.Keys);
    assert Lists(ws, s.busy.Keys);
    events := BeatAll(s, ws, at);
    RunKeepsInv(s, events);
    var r, kind := After(s, events), s.db.jobs[j].kind;
    PollAfterBeats(s, r, ws, at, kind, plan);
    var poll := Reclaim(kind, at, StaleOnes(r.db, kind, at, plan));
    PollTakesOrphan(r, j, at, poll.dead);
    ExtendRun(s, events, poll);
    events := events + [poll];
  }

  // ----- the theorem ---------------------------------------------------------------------

  // The open job of a stream is its only one that can be running.
  lemma OnlyOpenJob(db: Db, id: StreamId, j: JobId, k: JobId)
    requires Consistent(db) && j in db.jobs && k in db.jobs && db.jobs[j].stream == db.jobs[k].stream == id
    requires db.jobs[j].status.Queued? || db.jobs[j].status.Running?
    requires db.jobs[k].status.Running?
    ensures k == j
  {
    assert Agrees(db.streams[id].status, db.jobs[j]) && Agrees(db.streams[id].status, db.jobs[k]);
  }

  lemma FinishOpen(s: Sys, j: JobId, idle: WorkerId, at: Time, plan: set<nat> -> seq<nat>) returns (events: seq<Event>)
    requires Inv(s) && idle !in s.busy && forall x :: Lists(plan(x), x)
    requires j in s.db.jobs && (s.db.jobs[j].status.Queued? || s.db.jobs[j].status.Running?)
    requires Orphaned(s, j) ==> Stale(s.db.jobs[j], at - HEARTBEAT_STALE_AFTER)
    ensures Runs(s, events) && AllSmooth(events, at)
    ensures var id, db := s.db.jobs[j].stream, After(s, events).db;
            && id in db.streams
            && db.streams[id].status == if Orphaned(s, j) && s.db.jobs[j].attempts == 3 then Failed else Ready
  {
    if s.db.jobs[j].status.Queued? {
      events := FinishQueued(s, idle, j, at);
    } else if w :| w in s.busy && s.busy[w] == j {
      events := FinishRunning(s, w, idle, at);
    } else {
      events := TakeBack(s, j, at, plan);
      if s.db.jobs[j].attempts != 3 {
        var more := FinishQueued(After(s, events), idle, j, at);
        RunsConcat(s, events, more);
        events := events + more;
      }
    }
  }

  lemma DoomedByOpenJob(s: Sys, id: StreamId, j: JobId)
    requires Inv(s) && id in s.db.streams && j in s.db.jobs && s.db.jobs[j].stream == id
    requires s.db.jobs[j].status.Queued? || s.db.jobs[j].status.Running?
    ensures Doomed(s, id) <==> Orphaned(s, j) && s.db.jobs[j].attempts == 3
  {
    assert Agrees(s.db.streams[id].status, s.db.jobs[j]);
    forall k | Orphaned(s, k) && s.db.jobs[k].stream == id ensures k == j {
      OnlyOpenJob(s.db, id, j, k);
    }
  }

  lemma DoomedWithoutOpenJob(s: Sys, id: StreamId)
    requires Inv(s) && id in s.db.streams && s.db.streams[id].status in {Capturing, Ready, Failed}
    ensures Doomed(s, id) <==> s.db.streams[id].status.Failed?
  {
    forall k | k in s.db.jobs && s.db.jobs[k].stream == id ensures !s.db.jobs[k].status.Running? {
      assert Agrees(s.db.streams[id].status, s.db.jobs[k]);
    }
  }

  /** From every state that satisfies the invariant, every stream that is not live can be brought to its end with
      nothing failing any more: the poll under way is finished, the live workers beat, an orphaned job is taken
      back, started again and returns. It ends ready, unless it had failed or had lost its third attempt. */
  lemma EveryStreamCanEnd(s: Sys, id: StreamId, idle: WorkerId, at: Time, plan: set<nat> -> seq<nat>)
    returns (events: seq<Event>)
    requires Inv(s) && idle !in s.busy && forall x :: Lists(plan(x), x)
    requires id in s.db.streams && id !in Live(s.db) && OrphansAreStale(s, id, at)
    ensures Runs(s, events) && AllSmooth(events, at)
    ensures id in After(s, events).db.streams
    ensures After(s, events).db.streams[id].status == if Doomed(s, id) then Failed else Ready
  {
    if s.db.streams[id].status in {Ready, Failed} {
      DoomedWithoutOpenJob(s, id);
      events := [];
    } else if s.db.streams[id].status.Capturing? {
      DoomedWithoutOpenJob(s, id);
      events := EndedIsFinalized(s, id, plan);
      RunKeepsInv(s, events);
      var r := After(s, events);
      var j := OneKindStory(r.db, id);
      var more := FinishOpen(r, j, idle, at, plan);
      RunsConcat(s, events, more);
      events := events + more;
    } else {
      var j := OpenJobOf(s.db, id);
      DoomedByOpenJob(s, id, j);
      events := FinishOpen(s, j, idle, at, plan);
    }
  }

  // ----- and such a time comes ----------------------------------------------------------

  ghost predicate RunningHaveBeats(db: Db) {
    forall j :: j in db.jobs && db.jobs[j].status.Running? ==> db.jobs[j].lastBeat.Some?
  }

  // Only a start makes a job run.
  lemma OthersStartNothing(s: Sys, e: Event, j: JobId)
    requires JobsAgree(s.db) && Enabled(s, e) && !e.PickAndStart? && !e.HeartBeat?
    requires j in Step(s, e).db.jobs && Step(s, e).db.jobs[j].status.Running?
    ensures j in s.db.jobs && s.db.jobs[j].status.Running?
  {
    match e
    case Reclaim(_, at, dead) => ReclaimAllJobs(s.db, dead, at);
    case _ =>
  }

  lemma StartHasBeat(db: Db, j: JobId, at: Time)
    requires RunningHaveBeats(db) && j in db.jobs
    ensures RunningHaveBeats(Start(db, j, at))
  {
  }

  lemma StepKeepsBeats(s: Sys, e: Event)
    requires Inv(s) && Enabled(s, e) && RunningHaveBeats(s.db)
    ensures RunningHaveBeats(Step(s, e).db)
  {
    match e
    case PickAndStart(_, j, at) => StartHasBeat(s.db, j, at);
    case HeartBeat(_, _) =>
    case _ =>
      OthersKeepBeats(s, e);
      OthersRunWithBeats(s, e);
  }

  lemma OthersRunWithBeats(s: Sys, e: Event)
    requires JobsAgree(s.db) && Enabled(s, e) && !e.PickAndStart? && !e.HeartBeat?
    requires RunningHaveBeats(s.db) && KeepsBeats(s.db, Step(s, e).db)
    ensures RunningHaveBeats(Step(s, e).db)
  {
    var r := Step(s, e).db;
    forall j | j in r.jobs && r.jobs[j].status.Running? ensures r.jobs[j].lastBeat.Some? {
      OthersStartNothing(s, e, j);
    }
  }

  lemma {:induction false} RunsHaveBeats(start: Sys, events: seq<Event>)
    requires Init(start) && Runs(start, events)
    ensures RunningHaveBeats(After(start, events).db)
  {
    if events != [] {
      var n := |events| - 1;
      RunsHaveBeats(start, events[..n]);
      InitInv(start);
      RunKeepsInv(start, events[..n]);
      StepKeepsBeats(After(start, events[..n]), events[n]);
    }
  }

  // More than five minutes after the last beat of anyone.
  ghost predicate LongAfter(db: Db, at: Time) {
    forall j :: j in db.jobs && db.jobs[j].lastBeat.Some? ==> db.jobs[j].lastBeat.value < at - HEARTBEAT_STALE_AFTER
  }

  /** So no run leaves a stream hanging: at any time more than five minutes after the last beat it can still be
      continued to the end of any stream that is not live, whatever has died before. */
  lemma NoStreamHangs(
    start: Sys, before: seq<Event>, id: StreamId, idle: WorkerId, at: Time, plan: set<nat> -> seq<nat>)
    returns (events: seq<Event>)
    requires Init(start) && Runs(start, before) && forall x :: Lists(plan(x), x)
    requires id in After(start, before).db.streams && id !in Live(After(start, before).db)
    requires idle !in After(start, before).busy && LongAfter(After(start, before).db, at)
    ensures AllSmooth(events, at) && Runs(start, before + events)
    ensures var db := After(start, before + events).db;
            && id in db.streams
            && db.streams[id].status == if Doomed(After(start, before), id) then Failed else Ready
  {
    InitInv(start);
    RunKeepsInv(start, before);
    RunsHaveBeats(start, before);
    events := EveryStreamCanEnd(After(start, before), id, idle, at, plan);
    RunsConcat(start, before, events);
  }
}
