/**
 Why every stream ends, and what the heartbeat assumption is for.
 */
module JobProgress {
  import opened Wrappers
  import opened JobTables
  import opened JobRuns
  import opened JobTheorems

  // Attempts left, then whether one of them is running.
  function JobRank(job: Job): nat {
    if job.attempts <= 3 then 2 * (3 - job.attempts) + (if job.status.Running? then 1 else 0) else 0
  }

  ghost function StageRank(db: Db, s: StreamId, kind: JobKind): nat {
    if exists j: JobId :: IsJobOf(db, s, kind, j) then
      var j: JobId :| IsJobOf(db, s, kind, j);
      JobRank(db.jobs[j])
    else 0
  }

  // Stages left, attempts left and the running flag, in lexicographic order.
  ghost function Rank(db: Db, s: StreamId): nat
    requires s in db.streams
  {
    match db.streams[s].status
    case Capturing => 14
    case QueuedTranscription => 7 + StageRank(db, s, Transcribe)
    case Transcribing => 7 + StageRank(db, s, Transcribe)
    case QueuedAnalysis => StageRank(db, s, Analyze)
    case Analyzing => StageRank(db, s, Analyze)
    case Ready => 0
    case Failed => 0
  }

  ghost predicate TakesFrom(db: Db, dead: seq<JobId>, id: StreamId) {
    exists j :: j in dead && j in db.jobs && db.jobs[j].stream == id
  }

  // The events that move a stream along.
  ghost predicate Advances(s: Sys, e: Event, id: StreamId)
    requires Enabled(s, e)
  {
    match e
    case FinalizeNext => s.todo[0] == id
    case PickAndStart(_, j, _) => s.db.jobs[j].stream == id
    case Returned(w, _) => s.db.jobs[s.busy[w]].stream == id
    case Raised(w, _) => s.db.jobs[s.busy[w]].stream == id
    case Reclaim(_, _, dead) => TakesFrom(s.db, dead, id)
    case _ => false
  }

  lemma StageRankIs(db: Db, s: StreamId, kind: JobKind, j: JobId)
    requires OneJobEach(db) && IsJobOf(db, s, kind, j)
    ensures StageRank(db, s, kind) == JobRank(db.jobs[j])
  {
  }

  // A stream whose status and jobs did not change keeps its rank.
  ghost predicate SameStream(db: Db, db': Db, s: StreamId) {
    && s in db.streams && s in db'.streams && db'.streams[s].status == db.streams[s].status
    && (forall j :: j in db.jobs && db.jobs[j].stream == s ==> j in db'.jobs && db'.jobs[j] == db.jobs[j])
    && (forall j :: j in db'.jobs && db'.jobs[j].stream == s ==> j in db.jobs)
  }

  lemma SameStageRank(db: Db, db': Db, s: StreamId, kind: JobKind)
    requires OneJobEach(db) && OneJobEach(db') && SameStream(db, db', s)
    requires forall j :: j in db.jobs && j in db'.jobs ==> db'.jobs[j].stream == db.jobs[j].stream
    ensures StageRank(db', s, kind) == StageRank(db, s, kind)
  {
    if j: JobId :| IsJobOf(db, s, kind, j) {
      assert IsJobOf(db', s, kind, j);
      StageRankIs(db, s, kind, j);
      StageRankIs(db', s, kind, j);
    } else {
      forall j: JobId ensures !IsJobOf(db', s, kind, j) {
        if j in db.jobs { assert !IsJobOf(db, s, kind, j); }
      }
    }
  }

  lemma SameRank(db: Db, db': Db, s: StreamId)
    requires OneJobEach(db) && OneJobEach(db') && SameStream(db, db', s)
    requires forall j :: j in db.jobs && j in db'.jobs ==> db'.jobs[j].stream == db.jobs[j].stream
    ensures Rank(db', s) == Rank(db, s)
  {
    SameStageRank(db, db', s, Transcribe);
    SameStageRank(db, db', s, Analyze);
  }

  lemma RankPositive(db: Db, j: JobId)
    requires Consistent(db) && j in db.jobs && (db.jobs[j].status.Queued? || db.jobs[j].status.Running?)
    ensures db.jobs[j].stream in db.streams
    ensures Rank(db, db.jobs[j].stream) == (if db.jobs[j].kind.Transcribe? then 7 else 0) + JobRank(db.jobs[j])
    ensures Rank(db, db.jobs[j].stream) <= 13
  {
    var s := db.jobs[j].stream;
    assert Agrees(db.streams[s].status, db.jobs[j]);
    assert IsJobOf(db, s, db.jobs[j].kind, j);
    StageRankIs(db, s, db.jobs[j].kind, j);
  }

  lemma MoveOther(db: Db, j: JobId, job: Job, status: StreamStatus, id: StreamId)
    requires StageMove(db, j, job, status) && id in db.streams && id != job.stream
    ensures SameStream(db, Moved(db, j, job, status), id)
    ensures var r := Moved(db, j, job, status);
            forall k :: k in db.jobs ==> k in r.jobs && r.jobs[k].stream == db.jobs[k].stream
  {
  }

  // One job of `id` moves inside its stage, or out of it.
  lemma MoveRank(db: Db, j: JobId, job: Job, status: StreamStatus, id: StreamId)
    requires Consistent(db) && StageMove(db, j, job, status) && id in db.streams
    requires db.streams[job.stream].status != Capturing
    ensures Consistent(Moved(db, j, job, status))
    ensures var db' := Moved(db, j, job, status);
            if id != job.stream then Rank(db', id) == Rank(db, id)
            else Rank(db', id) == (if status.Failed? then 0 else (if job.kind.Transcribe? then 7 else 0) + JobRank(job))
    ensures id == job.stream ==> Rank(db, id) == (if job.kind.Transcribe? then 7 else 0) + JobRank(db.jobs[j])
  {
    StageMoveKeeps(db, j, job, status);
    var db' := Moved(db, j, job, status);
    if id != job.stream {
      MoveOther(db, j, job, status, id);
      SameRank(db, db', id);
    } else {
      RankPositive(db, j);
      if !status.Failed? { RankPositive(db', j); }
    }
  }

  lemma NotCapturing(db: Db, j: JobId)
    requires JobsAgree(db) && j in db.jobs
    ensures db.jobs[j].stream in db.streams && db.streams[db.jobs[j].stream].status != Capturing
    ensures db.jobs[j].attempts <= 3
  {
    assert Agrees(db.streams[db.jobs[j].stream].status, db.jobs[j]);
  }

  lemma StartRank(db: Db, j: JobId, at: Time, id: StreamId)
    requires Consistent(db) && j in db.jobs && db.jobs[j].status.Queued? && id in db.streams
    ensures id in Start(db, j, at).streams
    ensures Rank(Start(db, j, at), id) == Rank(db, id) - if db.jobs[j].stream == id then 1 else 0
  {
    NotCapturing(db, j);
    QueuedJob(db, j, at);
    MoveRank(db, j, Started(db.jobs[j], at), SpecOf(db.jobs[j].kind).running, id);
  }

  lemma GiveUpRank(db: Db, j: JobId, at: Time, id: StreamId)
    requires Consistent(db) && j in db.jobs && db.jobs[j].status.Running? && id in db.streams
    ensures var db' := ReclaimOne(db, j, at);
            db' == RegisterFailure(db, j, at) && Consistent(db') && id in db'.streams
            && (if db.jobs[j].stream == id then Rank(db', id) < Rank(db, id) else Rank(db', id) == Rank(db, id))
  {
    NotCapturing(db, j);
    RunningJob(db, j);
    GiveUpKeeps(db, j, at);
    var job := db.jobs[j];
    if job.attempts >= MAX_ATTEMPTS {
      MoveRank(db, j, job.(status := Abandoned, finishedAt := Some(at)), Failed, id);
    } else {
      KeepStatus(db, j, job.(status := Queued));
      MoveRank(db, j, job.(status := Queued), SpecOf(job.kind).running, id);
    }
  }

  ghost predicate RunningOnes(db: Db, dead: seq<JobId>) {
    && (forall j :: j in dead ==> j in db.jobs && db.jobs[j].status.Running?)
    && (forall a, b :: 0 <= a < b < |dead| ==> dead[a] != dead[b])
  }

  lemma FrontOfRunning(db: Db, dead: seq<JobId>)
    requires RunningOnes(db, dead) && dead != []
    ensures var n := |dead| - 1;
            && RunningOnes(db, dead[..n])
            && dead[n] !in dead[..n] && dead[n] in db.jobs && db.jobs[dead[n]].status.Running?
            && forall j :: j in dead[..n] ==> j in dead
  {
    assert dead == dead[..|dead| - 1] + [dead[|dead| - 1]];
    assert dead[|dead| - 1] in dead;
  }

  lemma LastReclaim(db: Db, dead: seq<JobId>, at: Time)
    requires Consistent(db) && RunningOnes(db, dead) && dead != []
    ensures var n := |dead| - 1;
            && RunningOnes(db, dead[..n])
            && dead[n] in db.jobs && db.jobs[dead[n]].stream in db.streams
            && Consistent(ReclaimAll(db, dead[..n], at))
            && ReclaimAll(db, dead[..n], at).jobs[dead[n]] == db.jobs[dead[n]]
            && db.jobs[dead[n]].status.Running?
  {
    var n := |dead| - 1;
    FrontOfRunning(db, dead);
    JobsHaveStreams(db, dead[n]);
    ReclaimAllKeeps(db, dead[..n], at);
    ReclaimAllJobs(db, dead[..n], at);
  }

  lemma TakesFromLast(db: Db, dead: seq<JobId>, id: StreamId)
    requires dead != [] && dead[|dead| - 1] in db.jobs
    ensures var n := |dead| - 1;
            TakesFrom(db, dead, id) <==> TakesFrom(db, dead[..n], id) || db.jobs[dead[n]].stream == id
  {
    var n := |dead| - 1;
    assert dead == dead[..n] + [dead[n]];
    assert dead[n] in dead;
  }

  lemma {:induction false} ReclaimRank(db: Db, dead: seq<JobId>, at: Time, id: StreamId)
    requires Consistent(db) && id in db.streams && RunningOnes(db, dead)
    ensures var db' := ReclaimAll(db, dead, at);
            if TakesFrom(db, dead, id) then Rank(db', id) < Rank(db, id) else Rank(db', id) == Rank(db, id)
  {
    if dead != [] {
      var n := |dead| - 1;
      LastReclaim(db, dead, at);
      TakesFromLast(db, dead, id);
      ReclaimRank(db, dead[..n], at, id);
      GiveUpRank(ReclaimAll(db, dead[..n], at), dead[n], at, id);
    }
  }

  // The rank of a stream that has just entered the stage of `kind`.
  lemma EnteredRank(db: Db, id: StreamId, kind: JobKind, j: JobId)
    requires OneJobEach(db) && id in db.streams && IsJobOf(db, id, kind, j) && FreshJob(db.jobs[j])
    requires db.streams[id].status == (if kind.Transcribe? then QueuedTranscription else QueuedAnalysis)
    ensures Rank(db, id) == if kind.Transcribe? then 13 else 6
  {
    StageRankIs(db, id, kind, j);
  }

  lemma CompleteOther(db: Db, j: JobId, at: Time, id: StreamId)
    requires JobsAgree(db) && j in db.jobs && id in db.streams && db.jobs[j].stream in db.streams
      && db.jobs[j].stream != id
    ensures SameStream(db, Complete(db, j, at), id)
    ensures var r := Complete(db, j, at);
            forall k :: k in db.jobs ==> k in r.jobs && r.jobs[k].stream == db.jobs[k].stream
  {
    assert db.nextJob !in db.jobs;
  }

  lemma CompleteRank(db: Db, j: JobId, at: Time, id: StreamId)
    requires Consistent(db) && j in db.jobs && db.jobs[j].status.Running? && id in db.streams
    ensures db.jobs[j].stream in db.streams
    ensures var db' := Complete(db, j, at);
            && id in db'.streams
            && if db.jobs[j].stream == id then Rank(db', id) < Rank(db, id) else Rank(db', id) == Rank(db, id)
  {
    RunningJob(db, j);
    CompleteKeeps(db, j, at);
    var db' := Complete(db, j, at);
    if db.jobs[j].stream != id {
      CompleteOther(db, j, at, id);
      SameRank(db, db', id);
    } else {
      RankPositive(db, j);
      if db.jobs[j].kind.Transcribe? { EnteredRank(db', id, Analyze, db.nextJob); }
    }
  }

  lemma FinalizeRank(db: Db, s: StreamId, id: StreamId)
    requires Consistent(db) && s in db.streams && db.streams[s].status.Capturing? && id in db.streams
    ensures var db' := Finalize(db, s);
            && id in db'.streams
            && if s == id then Rank(db', id) < Rank(db, id) else Rank(db', id) == Rank(db, id)
  {
    FinalizeKeeps(db, s);
    var db' := Finalize(db, s);
    assert db.nextJob !in db.jobs;
    if s != id {
      SameRank(db, db', id);
    } else {
      EnteredRank(db', id, Transcribe, db.nextJob);
    }
  }

  lemma BeatRank(db: Db, j: JobId, at: Time, id: StreamId)
    requires Consistent(db) && j in db.jobs && db.jobs[j].status.Running? && id in db.streams
    ensures Rank(Beat(db, j, at), id) == Rank(db, id)
  {
    NotCapturing(db, j);
    RunningJob(db, j);
    var job := db.jobs[j].(lastBeat := Some(at));
    KeepStatus(db, j, job);
    MoveRank(db, j, job, db.streams[job.stream].status, id);
  }

  lemma WebhookRank(s: Sys, e: Event, id: StreamId)
    requires Inv(s) && Enabled(s, e) && (e.Online? || e.Offline?) && id in s.db.streams
    ensures id in Step(s, e).db.streams && Rank(Step(s, e).db, id) == Rank(s.db, id)
  {
    SameRank(s.db, Step(s, e).db, id);
  }

  /** Every event about a stream brings it strictly closer to ready or failed, and no other event
      takes it further away. */
  lemma RankStep(s: Sys, e: Event, id: StreamId)
    requires Inv(s) && Enabled(s, e) && Timely(s, e) && id in s.db.streams
    ensures var db' := Step(s, e).db;
            && id in db'.streams
            && if Advances(s, e, id) then Rank(db', id) < Rank(s.db, id) else Rank(db', id) == Rank(s.db, id)
  {
    match e
    case FinalizeNext => assert s.todo[0] in Ended(s.db); FinalizeRank(s.db, s.todo[0], id);
    case PickAndStart(_, j, at) => StartRank(s.db, j, at, id);
    case Returned(w, at) => CompleteRank(s.db, s.busy[w], at, id);
    case Raised(w, at) => GiveUpRank(s.db, s.busy[w], at, id);
    case Reclaim(_, at, dead) => ReclaimRank(s.db, dead, at, id);
    case HeartBeat(w, at) => BeatRank(s.db, s.busy[w], at, id);
    case Online(_, _) => WebhookRank(s, e, id);
    case Offline(_, _) => WebhookRank(s, e, id);
    case _ =>
  }

  ghost function Advanced(start: Sys, events: seq<Event>, id: StreamId): nat
    requires Runs(start, events)
  {
    if events == [] then 0
    else
      var n := |events| - 1;
      Advanced(start, events[..n], id) + if Advances(After(start, events[..n]), events[n], id) then 1 else 0
  }

  /** In every run at most 14 events are about one stream: one finalization, then starts, ends,
      failures and reclaims until it is ready or failed, after which nothing is. */
  lemma {:induction false} StreamsFinish(start: Sys, events: seq<Event>, id: StreamId)
    requires Init(start) && Runs(start, events)
    ensures var db := After(start, events).db;
            Advanced(start, events, id) + (if id in db.streams then Rank(db, id) else 14) <= 14
  {
    if events != [] {
      var n := |events| - 1;
      var before, e := After(start, events[..n]), events[n];
      StreamsFinish(start, events[..n], id);
      InitInv(start);
      RunKeepsInv(start, events[..n]);
      if id in before.db.streams {
        RankStep(before, e, id);
      } else {
        UnknownStream(before, e, id);
      }
    }
  }

  lemma UnknownNeverAdvances(s: Sys, e: Event, id: StreamId)
    requires JobsAgree(s.db) && Enabled(s, e) && id !in s.db.streams
    requires e.FinalizeNext? ==> s.todo[0] in s.db.streams
    ensures !Advances(s, e, id)
  {
    match e
    case PickAndStart(_, j, _) => JobsHaveStreams(s.db, j);
    case Returned(w, _) => JobsHaveStreams(s.db, s.busy[w]);
    case Raised(w, _) => JobsHaveStreams(s.db, s.busy[w]);
    case Reclaim(_, _, dead) =>
      forall j | j in dead && j in s.db.jobs ensures s.db.jobs[j].stream != id {
        JobsHaveStreams(s.db, j);
      }
    case _ =>
  }

  // Only the webhook adds streams.
  lemma NewStreamsCapture(s: Sys, e: Event, id: StreamId)
    requires JobsAgree(s.db) && Enabled(s, e) && id !in s.db.streams
    requires e.FinalizeNext? ==> s.todo[0] in s.db.streams
    ensures id in Step(s, e).db.streams ==> Step(s, e).db.streams[id].status.Capturing?
  {
    match e
    case PickAndStart(_, j, _) => JobsHaveStreams(s.db, j);
    case Returned(w, _) => JobsHaveStreams(s.db, s.busy[w]);
    case Raised(w, _) => JobsHaveStreams(s.db, s.busy[w]);
    case HeartBeat(w, _) => JobsHaveStreams(s.db, s.busy[w]);
    case _ =>
  }

  lemma UnknownStream(s: Sys, e: Event, id: StreamId)
    requires Inv(s) && Enabled(s, e) && id !in s.db.streams
    ensures !Advances(s, e, id)
    ensures id in Step(s, e).db.streams ==> Step(s, e).db.streams[id].status.Capturing?
  {
    TodoExists(s, e);
    UnknownNeverAdvances(s, e, id);
    NewStreamsCapture(s, e, id);
  }

  lemma TodoExists(s: Sys, e: Event)
    requires Inv(s) && Enabled(s, e)
    ensures JobsAgree(s.db)
    ensures e.FinalizeNext? ==> s.todo[0] in s.db.streams
  {
    assert e.FinalizeNext? ==> s.todo[0] in Ended(s.db);
  }

  /** Nothing gets stuck: the open job of a stream that is neither capturing nor finished is queued, and
      any idle worker can start it, or running, and its live worker can end it ... */
  lemma NeverStuck(s: Sys, id: StreamId, idle: WorkerId, at: Time) returns (j: JobId)
    requires Inv(s) && id in s.db.streams && idle !in s.busy
    requires s.db.streams[id].status in {QueuedTranscription, Transcribing, QueuedAnalysis, Analyzing}
    ensures j in s.db.jobs && s.db.jobs[j].stream == id && (s.db.jobs[j].status.Queued? || s.db.jobs[j].status.Running?)
    ensures s.db.jobs[j].status.Queued? ==>
              Enabled(s, PickAndStart(idle, j, at)) && Advances(s, PickAndStart(idle, j, at), id)
    ensures forall w :: w in s.busy && s.busy[w] == j ==>
              Enabled(s, Returned(w, at)) && Advances(s, Returned(w, at), id)
  {
    j := OpenJobOf(s.db, id);
    OpenJobMoves(s, j, idle, at);
  }

  lemma OpenJobMoves(s: Sys, j: JobId, idle: WorkerId, at: Time)
    requires j in s.db.jobs && s.db.jobs[j].stream in s.db.streams && idle !in s.busy
    ensures s.db.jobs[j].status.Queued? ==>
      Enabled(s, PickAndStart(idle, j, at)) && Advances(s, PickAndStart(idle, j, at), s.db.jobs[j].stream)
    ensures forall w :: w in s.busy && s.busy[w] == j ==>
              Enabled(s, Returned(w, at)) && Advances(s, Returned(w, at), s.db.jobs[j].stream)
  {
  }

  /** ... while every poll later than five minutes after its last beat takes it back. */
  lemma StaleIsTakenBack(s: Sys, j: JobId, at: Time, dead: seq<JobId>)
    requires j in s.db.jobs && s.db.jobs[j].status.Running? && Stale(s.db.jobs[j], at - HEARTBEAT_STALE_AFTER)
    requires Enabled(s, Reclaim(s.db.jobs[j].kind, at, dead))
    ensures var e := Reclaim(s.db.jobs[j].kind, at, dead);
            && Advances(s, e, s.db.jobs[j].stream)
            && j in Step(s, e).db.jobs
            && Step(s, e).db.jobs[j].status == (if s.db.jobs[j].attempts >= 3 then Abandoned else Queued)
  {
    assert Reclaimable(s.db, s.db.jobs[j].kind, at, j);
    assert j in dead;
    ReclaimAllJobs(s.db, dead, at);
  }

  lemma OpenJobOf(db: Db, id: StreamId) returns (j: JobId)
    requires Consistent(db) && id in db.streams
    requires db.streams[id].status in {QueuedTranscription, Transcribing, QueuedAnalysis, Analyzing}
    ensures j in db.jobs && db.jobs[j].stream == id && (db.jobs[j].status.Queued? || db.jobs[j].status.Running?)
  {
    if db.streams[id].status in {QueuedTranscription, Transcribing} {
      j := OneKindStory(db, id);
    } else {
      var t;
      t, j := TwoKindsStory(db, id);
    }
  }

  // ----- without timely beats -----------------------------------------------------------

  // A table with the one stream 0 and its jobs.
  function Only(status: StreamStatus, jobs: map<JobId, Job>, next: JobId): Db {
    Db(map[0 := Stream(7, 0, Some(50), status)], jobs, 1, next)
  }

  function Ticket(status: JobStatus, attempts: nat, beat: Time): Job {
    Job(Transcribe, 0, status, attempts, Some(beat), Some(beat), None)
  }

  // Worker 1 started, beat at 100 and then only kept working; worker 2 polls at 500.
  function Silent(): Sys {
    Sys(Only(Transcribing, map[0 := Ticket(Running, 1, 100)], 1), map[1 := 0], {}, [])
  }

  // A run of five events that leads from an empty database to the silent worker.
  function ToSilent(): seq<Event> {
    [Online(7, 0)] + [Offline(0, 50)] + [CapturePoll([0])] + [FinalizeNext] + [PickAndStart(1, 0, 100)]
  }

  const EMPTY: Sys := Sys(Db(map[], map[], 0, 0), map[], {}, [])

  // Two workers inside the handler of one queued or running transcribe job of an existing stream.
  ghost predicate TwoInside(s: Sys, j: JobId, v: WorkerId, w: WorkerId) {
    && j in s.db.jobs && s.db.jobs[j].kind.Transcribe? && s.db.jobs[j].stream in s.db.streams
    && v != w && v in s.busy && w in s.busy && s.busy[v] == s.busy[w] == j
    && (forall k :: k in s.db.jobs ==> k < s.db.nextJob)
  }

  lemma BothReturn(s: Sys, j: JobId, v: WorkerId, w: WorkerId, first: Time, second: Time)
    requires TwoInside(s, j, v, w)
    ensures Enabled(s, Returned(w, first))
    ensures var s1 := Step(s, Returned(w, first));
            && Enabled(s1, Returned(v, second))
            && var db := Step(s1, Returned(v, second)).db;
               && IsJobOf(db, s.db.jobs[j].stream, Analyze, s.db.nextJob)
               && IsJobOf(db, s.db.jobs[j].stream, Analyze, s.db.nextJob + 1)
  {
    var s1 := Step(s, Returned(w, first));
    assert s1.db.jobs[j].stream == s.db.jobs[j].stream && s1.db.jobs[j].kind.Transcribe?;
    assert s1.busy[v] == j;
  }

  /** In general: when a transcribe job is queued again while a live worker still runs it, any idle worker's
      start and the two returns, at any times, leave two analyze jobs for its stream. */
  lemma SecondRunnerBreaksIt(s: Sys, v: WorkerId, w: WorkerId, again: Time, first: Time, second: Time)
    requires Consistent(s.db) && v in s.busy && w !in s.busy && s.busy[v] in s.db.jobs
    requires s.db.jobs[s.busy[v]].kind.Transcribe? && s.db.jobs[s.busy[v]].status.Queued?
    ensures var j := s.busy[v];
            && Enabled(s, PickAndStart(w, j, again))
            && var s1 := Step(s, PickAndStart(w, j, again));
               && Enabled(s1, Returned(w, first))
               && var s2 := Step(s1, Returned(w, first));
                  && Enabled(s2, Returned(v, second))
                  && var db := Step(s2, Returned(v, second)).db;
                     exists a: JobId, b: JobId ::
                       && a != b
                       && IsJobOf(db, s.db.jobs[j].stream, Analyze, a) && IsJobOf(db, s.db.jobs[j].stream, Analyze, b)
  {
    var j := s.busy[v];
    JobsHaveStreams(s.db, j);
    StartKeeps(s.db, j, again);
    var s1 := Step(s, PickAndStart(w, j, again));
    BothReturn(s1, j, v, w, first, second);
  }

  /** And every late beat leads there: from any consistent state, a poll that finds a live worker late with a
      transcribe job of fewer than three attempts queues the job again under it. */
  lemma LateBeatLeadsThere(s: Sys, v: WorkerId, at: Time, dead: seq<JobId>)
    requires Inv(s) && v in s.busy && s.db.jobs[s.busy[v]].kind.Transcribe? && s.db.jobs[s.busy[v]].attempts < 3
    requires Stale(s.db.jobs[s.busy[v]], at - HEARTBEAT_STALE_AFTER) && Enabled(s, Reclaim(Transcribe, at, dead))
    ensures var after := Step(s, Reclaim(Transcribe, at, dead));
            && Consistent(after.db) && v in after.busy && after.busy[v] == s.busy[v] && s.busy[v] in after.db.jobs
            && after.db.jobs[s.busy[v]].kind.Transcribe? && after.db.jobs[s.busy[v]].status.Queued?
            && !Inv(after)
  {
    LateIsTaken(s, v, at, dead);
    ReclaimAllKeeps(s.db, dead, at);
    ReclaimKeepsInvIff(s, Transcribe, at, dead);
  }

  lemma SilentIsReached()
    ensures Init(EMPTY) && Runs(EMPTY, ToSilent()) && After(EMPTY, ToSilent()) == Silent()
  {
    var e1, e2, e3: Event := Online(7, 0), Offline(0, 50), CapturePoll([0]);
    var e4, e5 := FinalizeNext, PickAndStart(1, 0, 100);
    OneStep(EMPTY, e1);
    var s1 := Step(EMPTY, e1);
    assert s1.db == Db(map[0 := Stream(7, 0, None, Capturing)], map[], 1, 0);
    ExtendRun(EMPTY, [e1], e2);
    var s2 := Step(s1, e2);
    assert Ended(s2.db) == {0} && Live(s2.db) == {};
    ExtendRun(EMPTY, [e1] + [e2], e3);
    var s3 := Step(s2, e3);
    ExtendRun(EMPTY, [e1] + [e2] + [e3], e4);
    var s4 := Step(s3, e4);
    ExtendRun(EMPTY, [e1] + [e2] + [e3] + [e4], e5);
  }

  /** An instance from the start: a run from an empty database in which one worker goes silent for more than
      five minutes, and the poll that then takes its job. Every step is one the code takes. */
  lemma SilenceBreaksIt()
    ensures Init(EMPTY) && Runs(EMPTY, ToSilent())
    ensures var s := After(EMPTY, ToSilent());
            var poll := Reclaim(Transcribe, 500, [0]);
            && Inv(s) && Enabled(s, poll) && !Timely(s, poll)
            && var again := PickAndStart(2, 0, 500);
            && Enabled(Step(s, poll), again)
            && var second := Step(Step(s, poll), again);
            && Enabled(second, Returned(2, 600)) && Enabled(Step(second, Returned(2, 600)), Returned(1, 700))
            && var db := Step(Step(second, Returned(2, 600)), Returned(1, 700)).db;
               exists a: JobId, b: JobId :: a != b && IsJobOf(db, 0, Analyze, a) && IsJobOf(db, 0, Analyze, b)
  {
    SilentIsReached();
    InitInv(EMPTY);
    RunKeepsInv(EMPTY, ToSilent());
    SilentIsLate();
    LateBeatLeadsThere(Silent(), 1, 500, [0]);
    SecondRunnerBreaksIt(Step(Silent(), Reclaim(Transcribe, 500, [0])), 1, 2, 500, 600, 700);
  }

  lemma SilentIsLate()
    ensures var poll := Reclaim(Transcribe, 500, [0]); Enabled(Silent(), poll) && !Timely(Silent(), poll)
  {
    var w: WorkerId := 1;
    assert w in Silent().busy;
  }
}
