/**
 Every run of the pipeline: the webhook, one capture worker and any number of job workers, which
 start, beat, finish, fail and die in any interleaving of their commits.
 */
module JobRuns {
  import opened Wrappers
  import opened JobTables

  type WorkerId = nat

  // `busy` are the live workers inside a handler. `sessions` and `todo` are the capture worker's
  // memory: its session dict and the ended streams of the current poll not yet finalized.
  datatype Sys = Sys(db: Db, busy: map<WorkerId, JobId>, sessions: set<StreamId>, todo: seq<StreamId>)

  datatype Event =
    | Online(channel: ChannelId, at: Time)
    | Offline(stream: StreamId, at: Time)
    | CapturePoll(order: seq<StreamId>)
    | FinalizeNext
    | CaptureDies
    | Reclaim(kind: JobKind, at: Time, dead: seq<JobId>)
    | PickAndStart(worker: WorkerId, job: JobId, at: Time)
    | HeartBeat(worker: WorkerId, at: Time)
    | Returned(worker: WorkerId, at: Time)
    | Raised(worker: WorkerId, at: Time)
    | WorkerDies(worker: WorkerId)

  ghost predicate Enabled(s: Sys, e: Event) {
    match e
    case Online(_, _) => true
    case Offline(id, _) =>
      id in s.db.streams && IsActive(s.db, id, s.db.streams[id].channel)
    case CapturePoll(order) => s.todo == [] && Lists(order, Ended(s.db))
    case FinalizeNext => s.todo != []
    case CaptureDies => true
    case Reclaim(kind, at, dead) =>
      && (forall j :: j in dead <==> Reclaimable(s.db, kind, at, j))
      && (forall a, b :: 0 <= a < b < |dead| ==> dead[a] != dead[b])
    case PickAndStart(w, j, _) => w !in s.busy && j in s.db.jobs && s.db.jobs[j].status.Queued?
    case HeartBeat(w, _) => w in s.busy && s.busy[w] in s.db.jobs
    case Returned(w, _) => w in s.busy && s.busy[w] in s.db.jobs && s.db.jobs[s.busy[w]].stream in s.db.streams
    case Raised(w, _) => w in s.busy && s.busy[w] in s.db.jobs
    case WorkerDies(w) => w in s.busy
  }

  ghost function Step(s: Sys, e: Event): Sys
    requires Enabled(s, e)
  {
    match e
    case Online(channel, at) => s.(db := StartStream(s.db, channel, at))
    case Offline(id, at) => s.(db := MarkOffline(s.db, id, at))
    case CapturePoll(order) => s.(sessions := s.sessions + Live(s.db), todo := order)
    case FinalizeNext => s.(db := Finalize(s.db, s.todo[0]), sessions := s.sessions - {s.todo[0]}, todo := s.todo[1..])
    case CaptureDies => s.(sessions := {}, todo := [])
    case Reclaim(_, at, dead) => s.(db := ReclaimAll(s.db, dead, at))
    case PickAndStart(w, j, at) => s.(db := Start(s.db, j, at), busy := s.busy[w := j])
    case HeartBeat(w, at) => s.(db := Beat(s.db, s.busy[w], at))
    case Returned(w, at) => s.(db := Complete(s.db, s.busy[w], at), busy := s.busy - {w})
    case Raised(w, at) => s.(db := RegisterFailure(s.db, s.busy[w], at), busy := s.busy - {w})
    case WorkerDies(w) => s.(busy := s.busy - {w})
  }

  // When someone reclaims jobs of a kind, no live worker inside a handler of that kind is more than
  // HEARTBEAT_STALE_AFTER behind with its beats.
  ghost predicate Timely(s: Sys, e: Event) {
    e.Reclaim? ==>
      forall w :: w in s.busy && s.busy[w] in s.db.jobs && s.db.jobs[s.busy[w]].kind == e.kind ==>
        !Stale(s.db.jobs[s.busy[w]], e.at - HEARTBEAT_STALE_AFTER)
  }

  ghost predicate Runs(s: Sys, events: seq<Event>)
    decreases |events|, 0
  {
    events == [] ||
    var n := |events| - 1;
    Runs(s, events[..n]) && Enabled(After(s, events[..n]), events[n]) && Timely(After(s, events[..n]), events[n])
  }

  ghost function After(s: Sys, events: seq<Event>): Sys
    requires Runs(s, events)
    decreases |events|, 1
  {
    if events == [] then s
    else
      var n := |events| - 1;
      Step(After(s, events[..n]), events[n])
  }

  lemma ExtendRun(s: Sys, es: seq<Event>, e: Event)
    requires Runs(s, es) && Enabled(After(s, es), e) && Timely(After(s, es), e)
    ensures Runs(s, es + [e]) && After(s, es + [e]) == Step(After(s, es), e)
  {
    assert (es + [e])[..|es|] == es;
  }

  lemma {:induction false} RunsConcat(s: Sys, a: seq<Event>, b: seq<Event>)
    requires Runs(s, a) && Runs(After(s, a), b)
    ensures Runs(s, a + b) && After(s, a + b) == After(After(s, a), b)
  {
    if b == [] {
      assert a + b == a;
    } else {
      var front, last := b[..|b| - 1], b[|b| - 1];
      RunsConcat(s, a, front);
      SnocAssoc(a, b);
      ExtendRun(s, a + front, last);
    }
  }

  // A run, seen from its first event.
  lemma {:induction false} RunsTail(s: Sys, events: seq<Event>)
    requires Runs(s, events) && events != []
    ensures Enabled(s, events[0]) && Timely(s, events[0]) && Runs(Step(s, events[0]), events[1..])
    ensures After(Step(s, events[0]), events[1..]) == After(s, events)
  {
    var n := |events| - 1;
    assert events[..0] == [];
    if n == 0 {
      assert Runs(s, []) && After(s, []) == s;
      assert events[1..] == [];
    } else {
      RunsTail(s, events[..n]);
      ExtendRun(Step(s, events[0]), events[..n][1..], events[n]);
      assert events[1..] == events[..n][1..] + [events[n]];
    }
  }

  lemma OneStep(s: Sys, e: Event)
    requires Enabled(s, e) && Timely(s, e)
    ensures Runs(s, [e]) && After(s, [e]) == Step(s, e)
  {
    assert [e][..0] == [];
    assert Runs(s, []) && After(s, []) == s;
  }

  lemma FirstThenRest(s: Sys, events: seq<Event>)
    requires events != []
    ensures Runs(s, events) <==>
      Enabled(s, events[0]) && Timely(s, events[0]) && Runs(Step(s, events[0]), events[1..])
  {
    assert [events[0]] + events[1..] == events;
    if Runs(s, events) { RunsTail(s, events); }
    if Enabled(s, events[0]) && Timely(s, events[0]) && Runs(Step(s, events[0]), events[1..]) {
      OneStep(s, events[0]);
      RunsConcat(s, [events[0]], events[1..]);
    }
  }

  ghost predicate Init(s: Sys) {
    s.db.streams == map[] && s.db.jobs == map[] && s.busy == map[] && s.sessions == {} && s.todo == []
  }

  // ----- the invariant ---------------------------------------------------------

  predicate OpenJob(job: Job) {
    (job.status.Running? && 1 <= job.attempts <= 3) || (job.status.Queued? && 1 <= job.attempts <= 2)
  }

  predicate FreshJob(job: Job) {
    job.status.Queued? && job.attempts == 0
  }

  // What a stream's status says about a job of it. A requeued job leaves the status running.
  predicate Agrees(status: StreamStatus, job: Job) {
    match job.kind
    case Transcribe =>
      (match status
       case Capturing => false
       case QueuedTranscription => FreshJob(job)
       case Transcribing => OpenJob(job)
       case Failed => (job.status.Done? && 1 <= job.attempts <= 3) || (job.status.Abandoned? && job.attempts == 3)
       case _ => job.status.Done? && 1 <= job.attempts <= 3)
    case Analyze =>
      (match status
       case QueuedAnalysis => FreshJob(job)
       case Analyzing => OpenJob(job)
       case Ready => job.status.Done? && 1 <= job.attempts <= 3
       case Failed => job.status.Abandoned? && job.attempts == 3
       case _ => false)
  }

  ghost predicate HasJob(db: Db, s: StreamId, kind: JobKind) {
    exists j :: j in db.jobs && db.jobs[j].stream == s && db.jobs[j].kind == kind
  }

  ghost predicate HasAbandoned(db: Db, s: StreamId) {
    exists j :: j in db.jobs && db.jobs[j].stream == s && db.jobs[j].status.Abandoned?
  }

  ghost predicate JobsAgree(db: Db) {
    forall j :: j in db.jobs ==>
      && j < db.nextJob
      && db.jobs[j].stream in db.streams
      && Agrees(db.streams[db.jobs[j].stream].status, db.jobs[j])
  }

  ghost predicate OneJobEach(db: Db) {
    forall i, j ::
      i in db.jobs && j in db.jobs && db.jobs[i].stream == db.jobs[j].stream && db.jobs[i].kind == db.jobs[j].kind
      ==> i == j
  }

  ghost predicate AnalyzeAfterTranscribe(db: Db) {
    forall i, j ::
      && i in db.jobs && j in db.jobs && db.jobs[i].stream == db.jobs[j].stream
      && db.jobs[i].kind.Transcribe? && db.jobs[j].kind.Analyze?
      ==> db.jobs[i].status.Done?
  }

  ghost predicate StreamHasJobs(db: Db, s: StreamId)
    requires s in db.streams
  {
    && s < db.nextStream
    && (!db.streams[s].status.Capturing? ==> HasJob(db, s, Transcribe))
    && (db.streams[s].status in {QueuedAnalysis, Analyzing, Ready} ==> HasJob(db, s, Analyze))
    && (db.streams[s].status.Failed? ==> HasAbandoned(db, s))
  }

  ghost predicate StreamsHaveJobs(db: Db) {
    forall s :: s in db.streams ==> StreamHasJobs(db, s)
  }

  ghost predicate OneActiveEach(db: Db) {
    forall s, t, c :: IsActive(db, s, c) && IsActive(db, t, c) ==> s == t
  }

  ghost predicate Consistent(db: Db) {
    JobsAgree(db) && OneJobEach(db) && AnalyzeAfterTranscribe(db) && StreamsHaveJobs(db) && OneActiveEach(db)
  }

  // A live worker runs a running job that nobody else runs.
  ghost predicate WorkersAgree(s: Sys) {
    && (forall w :: w in s.busy ==>
          s.busy[w] in s.db.jobs && s.db.jobs[s.busy[w]].status.Running? && s.db.jobs[s.busy[w]].lastBeat.Some?)
    && (forall v, w :: v in s.busy && w in s.busy && s.busy[v] == s.busy[w] ==> v == w)
  }

  ghost predicate CaptureAgrees(s: Sys) {
    && (forall i, j :: 0 <= i < j < |s.todo| ==> s.todo[i] != s.todo[j])
    && (forall i :: 0 <= i < |s.todo| ==> s.todo[i] in Ended(s.db))
    && (forall id :: id in s.sessions ==> id in s.db.streams && s.db.streams[id].status.Capturing?)
  }

  ghost predicate Inv(s: Sys) {
    Consistent(s.db) && WorkersAgree(s) && CaptureAgrees(s)
  }

  // ----- one job moves on --------------------------------------------------------

  // db with job j replaced and its stream's status set.
  function Moved(db: Db, j: JobId, job: Job, status: StreamStatus): Db
    requires job.stream in db.streams
  {
    SetStream(SetJob(db, j, job), job.stream, status)
  }

  // The moves of one open job inside its stage, or out of it into failure.
  predicate StageMove(db: Db, j: JobId, job: Job, status: StreamStatus) {
    && j in db.jobs && job.stream == db.jobs[j].stream && job.kind == db.jobs[j].kind
    && job.stream in db.streams
    && (db.jobs[j].status.Queued? || db.jobs[j].status.Running?)
    && Agrees(status, job)
    && (status == SpecOf(job.kind).running || (status.Failed? && job.status.Abandoned?))
  }

  lemma MovedHasJobs(db: Db, db': Db)
    requires forall j :: j in db.jobs ==>
               j in db'.jobs && db'.jobs[j].stream == db.jobs[j].stream && db'.jobs[j].kind == db.jobs[j].kind
    ensures forall s, k :: HasJob(db, s, k) ==> HasJob(db', s, k)
  {
    forall s, k | HasJob(db, s, k) ensures HasJob(db', s, k) {
      var j :| j in db.jobs && db.jobs[j].stream == s && db.jobs[j].kind == k;
      assert j in db'.jobs;
    }
  }

  // Streams whose status and abandoned jobs did not change still have the jobs they need.
  lemma OtherStreamHasJobs(db: Db, db': Db, s: StreamId)
    requires forall j :: j in db.jobs ==>
               j in db'.jobs && db'.jobs[j].stream == db.jobs[j].stream && db'.jobs[j].kind == db.jobs[j].kind
    requires forall j :: j in db.jobs && db.jobs[j].stream == s ==> db'.jobs[j] == db.jobs[j]
    requires s in db.streams && s in db'.streams && db'.streams[s].status == db.streams[s].status
    requires db.nextStream <= db'.nextStream
    requires StreamHasJobs(db, s)
    ensures StreamHasJobs(db', s)
  {
    MovedHasJobs(db, db');
    if HasAbandoned(db, s) {
      var j :| j in db.jobs && db.jobs[j].stream == s && db.jobs[j].status.Abandoned?;
      assert j in db'.jobs;
    }
  }

  lemma MoveJobsAgree(db: Db, j: JobId, job: Job, status: StreamStatus)
    requires JobsAgree(db) && OneJobEach(db) && AnalyzeAfterTranscribe(db) && StageMove(db, j, job, status)
    ensures JobsAgree(Moved(db, j, job, status))
  {
    var db' := Moved(db, j, job, status);
    var was := db.streams[job.stream].status;
    assert Agrees(was, db.jobs[j]);
    forall k | k in db'.jobs
      ensures k < db'.nextJob && db'.jobs[k].stream in db'.streams
      ensures Agrees(db'.streams[db'.jobs[k].stream].status, db'.jobs[k])
    {
      if k != j && db.jobs[k].stream == job.stream {
        assert db.jobs[k].kind != job.kind;
        assert Agrees(was, db.jobs[k]);
      }
    }
  }

  lemma MoveAnalyzeAfter(db: Db, j: JobId, job: Job, status: StreamStatus)
    requires JobsAgree(db) && OneJobEach(db) && AnalyzeAfterTranscribe(db) && StageMove(db, j, job, status)
    ensures OneJobEach(Moved(db, j, job, status)) && AnalyzeAfterTranscribe(Moved(db, j, job, status))
  {
    assert Agrees(db.streams[job.stream].status, db.jobs[j]);
  }

  lemma MoveStreams(db: Db, j: JobId, job: Job, status: StreamStatus)
    requires JobsAgree(db) && StreamsHaveJobs(db) && StageMove(db, j, job, status)
    ensures StreamsHaveJobs(Moved(db, j, job, status))
  {
    var db' := Moved(db, j, job, status);
    forall s | s in db'.streams ensures StreamHasJobs(db', s) {
      assert StreamHasJobs(db, s);
      if s != job.stream {
        OtherStreamHasJobs(db, db', s);
      } else {
        MovedHasJobs(db, db');
        assert Agrees(db.streams[s].status, db.jobs[j]);
        assert j in db'.jobs;
        assert HasJob(db', s, job.kind);
        assert status.Failed? ==> HasAbandoned(db', s);
      }
    }
  }

  lemma MoveActive(db: Db, j: JobId, job: Job, status: StreamStatus)
    requires OneActiveEach(db) && StageMove(db, j, job, status)
    ensures OneActiveEach(Moved(db, j, job, status))
  {
    var db' := Moved(db, j, job, status);
    forall s, c | IsActive(db', s, c) ensures IsActive(db, s, c) {
    }
  }

  lemma StageMoveKeeps(db: Db, j: JobId, job: Job, status: StreamStatus)
    requires Consistent(db) && StageMove(db, j, job, status)
    ensures Consistent(Moved(db, j, job, status))
  {
    MoveJobsAgree(db, j, job, status);
    MoveAnalyzeAfter(db, j, job, status);
    MoveStreams(db, j, job, status);
    MoveActive(db, j, job, status);
  }

  // ----- each transaction keeps the tables consistent ------------------------------

  function Started(job: Job, now: Time): Job {
    job.(status := Running, attempts := job.attempts + 1, startedAt := Some(now), lastBeat := Some(now))
  }

  lemma QueuedJob(db: Db, j: JobId, now: Time)
    requires JobsAgree(db) && j in db.jobs && db.jobs[j].status.Queued?
    ensures db.jobs[j].stream in db.streams && db.jobs[j].attempts <= 2
    ensures StageMove(db, j, Started(db.jobs[j], now), SpecOf(db.jobs[j].kind).running)
    ensures Start(db, j, now) == Moved(db, j, Started(db.jobs[j], now), SpecOf(db.jobs[j].kind).running)
  {
    assert Agrees(db.streams[db.jobs[j].stream].status, db.jobs[j]);
  }

  lemma StartKeeps(db: Db, j: JobId, now: Time)
    requires Consistent(db) && j in db.jobs && db.jobs[j].status.Queued?
    ensures Consistent(Start(db, j, now))
  {
    QueuedJob(db, j, now);
    StageMoveKeeps(db, j, Started(db.jobs[j], now), SpecOf(db.jobs[j].kind).running);
  }

  // What JobsAgree says of a job in the hands of a worker.
  lemma RunningJob(db: Db, j: JobId)
    requires JobsAgree(db) && j in db.jobs && db.jobs[j].status.Running?
    ensures db.jobs[j].stream in db.streams && db.streams[db.jobs[j].stream].status == SpecOf(db.jobs[j].kind).running
    ensures 1 <= db.jobs[j].attempts <= 3
  {
    assert Agrees(db.streams[db.jobs[j].stream].status, db.jobs[j]);
  }

  lemma KeepStatus(db: Db, j: JobId, job: Job)
    requires job.stream in db.streams
    ensures SetJob(db, j, job) == Moved(db, j, job, db.streams[job.stream].status)
  {
    assert db.streams == db.streams[job.stream := db.streams[job.stream].(status := db.streams[job.stream].status)];
  }

  lemma BeatKeeps(db: Db, j: JobId, now: Time)
    requires Consistent(db) && j in db.jobs && db.jobs[j].status.Running?
    ensures Consistent(Beat(db, j, now))
  {
    RunningJob(db, j);
    var job := db.jobs[j].(lastBeat := Some(now));
    KeepStatus(db, j, job);
    StageMoveKeeps(db, j, job, db.streams[job.stream].status);
  }

  // A failed attempt and a reclaimed one differ in nothing the tables record.
  lemma GiveUpKeeps(db: Db, j: JobId, now: Time)
    requires Consistent(db) && j in db.jobs && db.jobs[j].status.Running?
    ensures RegisterFailure(db, j, now) == ReclaimOne(db, j, now)
    ensures Consistent(ReclaimOne(db, j, now))
  {
    RunningJob(db, j);
    var job := db.jobs[j];
    if job.attempts >= MAX_ATTEMPTS {
      StageMoveKeeps(db, j, job.(status := Abandoned, finishedAt := Some(now)), Failed);
    } else {
      KeepStatus(db, j, job.(status := Queued));
      StageMoveKeeps(db, j, job.(status := Queued), SpecOf(job.kind).running);
    }
  }

  // Reclaiming touches the listed jobs only, each as if it were alone.
  lemma {:induction false} ReclaimAllJobs(db: Db, dead: seq<JobId>, now: Time)
    requires forall j :: j in dead ==> j in db.jobs
    requires forall a, b :: 0 <= a < b < |dead| ==> dead[a] != dead[b]
    ensures forall j :: j in db.jobs ==>
      ReclaimAll(db, dead, now).jobs[j] == if j in dead then ReclaimOne(db, j, now).jobs[j] else db.jobs[j]
  {
    if dead != [] {
      var n := |dead| - 1;
      assert dead == dead[..n] + [dead[n]];
      assert dead[n] !in dead[..n];
      ReclaimAllJobs(db, dead[..n], now);
    }
  }

  lemma LastOfDead(dead: seq<JobId>)
    requires dead != [] && forall a, b :: 0 <= a < b < |dead| ==> dead[a] != dead[b]
    ensures var n := |dead| - 1; dead[n] in dead && dead[n] !in dead[..n] && forall j :: j in dead[..n] ==> j in dead
  {
    assert dead == dead[..|dead| - 1] + [dead[|dead| - 1]];
  }

  lemma {:induction false} ReclaimAllKeeps(db: Db, dead: seq<JobId>, now: Time)
    requires Consistent(db)
    requires forall j :: j in dead ==> j in db.jobs && db.jobs[j].status.Running?
    requires forall a, b :: 0 <= a < b < |dead| ==> dead[a] != dead[b]
    ensures Consistent(ReclaimAll(db, dead, now))
  {
    if dead != [] {
      var n := |dead| - 1;
      LastOfDead(dead);
      ReclaimAllKeeps(db, dead[..n], now);
      ReclaimAllJobs(db, dead[..n], now);
      GiveUpKeeps(ReclaimAll(db, dead[..n], now), dead[n], now);
    }
  }

  lemma AnalyzeDoneJobs(db: Db, j: JobId, job: Job)
    requires JobsAgree(db) && OneJobEach(db) && AnalyzeAfterTranscribe(db)
    requires j in db.jobs && db.jobs[j].status.Running? && db.jobs[j].kind.Analyze?
    requires job.stream == db.jobs[j].stream && job.kind.Analyze?
    requires job.status.Done? && job.attempts == db.jobs[j].attempts
    ensures job.stream in db.streams && db.streams[job.stream].status.Analyzing?
    ensures var db' := Moved(db, j, job, Ready); JobsAgree(db') && OneJobEach(db') && AnalyzeAfterTranscribe(db')
  {
    RunningJob(db, j);
    forall k | k in db.jobs && k != j && db.jobs[k].stream == job.stream ensures Agrees(Ready, db.jobs[k]) {
      assert Agrees(Analyzing, db.jobs[k]);
    }
  }

  lemma AnalyzeDoneStreams(db: Db, j: JobId, job: Job)
    requires StreamsHaveJobs(db) && j in db.jobs && job.stream == db.jobs[j].stream && job.kind == db.jobs[j].kind
    requires job.stream in db.streams && db.streams[job.stream].status.Analyzing?
    ensures StreamsHaveJobs(Moved(db, j, job, Ready))
  {
    var db' := Moved(db, j, job, Ready);
    forall s | s in db'.streams ensures StreamHasJobs(db', s) {
      assert StreamHasJobs(db, s);
      if s != job.stream { OtherStreamHasJobs(db, db', s); } else { MovedHasJobs(db, db'); }
    }
  }

  lemma AnalyzeDoneKeeps(db: Db, j: JobId, job: Job)
    requires Consistent(db) && j in db.jobs && db.jobs[j].status.Running? && db.jobs[j].kind.Analyze?
    requires job.stream == db.jobs[j].stream && job.kind.Analyze?
    requires job.status.Done? && job.attempts == db.jobs[j].attempts
    ensures job.stream in db.streams && Consistent(Moved(db, j, job, Ready))
  {
    AnalyzeDoneJobs(db, j, job);
    AnalyzeDoneStreams(db, j, job);
    forall s, c | IsActive(Moved(db, j, job, Ready), s, c) ensures IsActive(db, s, c) {
    }
  }

  // `db` is `before` with the stage of `s` that ends, if any, marked done.
  ghost predicate StageEnded(before: Db, db: Db, s: StreamId, kind: JobKind, status: StreamStatus) {
    && s in before.streams
    && db.streams == before.streams && db.nextStream == before.nextStream && db.nextJob == before.nextJob
    && db.jobs.Keys == before.jobs.Keys
    && status == (if kind.Transcribe? then QueuedTranscription else QueuedAnalysis)
    && (forall j :: j in db.jobs ==>
          && db.jobs[j].stream == before.jobs[j].stream && db.jobs[j].kind == before.jobs[j].kind
          && (if db.jobs[j].stream == s
              then db.jobs[j].kind != kind && db.jobs[j].status.Done? && Agrees(status, db.jobs[j])
              else db.jobs[j] == before.jobs[j]))
  }

  lemma EnterStageJobs(before: Db, db: Db, s: StreamId, kind: JobKind, status: StreamStatus)
    requires JobsAgree(before) && OneJobEach(before) && AnalyzeAfterTranscribe(before)
    requires StageEnded(before, db, s, kind, status)
    ensures var db' := Enqueue(SetStream(db, s, status), kind, s);
            JobsAgree(db') && OneJobEach(db') && AnalyzeAfterTranscribe(db')
  {
    assert db.nextJob !in before.jobs;
  }

  lemma EnterStageStreams(before: Db, db: Db, s: StreamId, kind: JobKind, status: StreamStatus)
    requires StreamsHaveJobs(before) && JobsAgree(before) && StageEnded(before, db, s, kind, status)
    requires kind.Analyze? ==> HasJob(before, s, Transcribe)
    ensures StreamsHaveJobs(Enqueue(SetStream(db, s, status), kind, s))
  {
    var db' := Enqueue(SetStream(db, s, status), kind, s);
    assert db.nextJob !in before.jobs;
    forall t | t in db'.streams ensures StreamHasJobs(db', t) {
      assert StreamHasJobs(before, t);
      if t != s {
        OtherStreamHasJobs(before, db', t);
      } else {
        MovedHasJobs(before, db');
        assert HasJob(db', s, kind) by { assert db.nextJob in db'.jobs; }
      }
    }
  }

  // The next stage is entered in one commit: the status is set and the stage's job enqueued.
  lemma EnterStageKeeps(before: Db, db: Db, s: StreamId, kind: JobKind, status: StreamStatus)
    requires Consistent(before) && StageEnded(before, db, s, kind, status)
    requires kind.Analyze? ==> HasJob(before, s, Transcribe)
    ensures Consistent(Enqueue(SetStream(db, s, status), kind, s))
  {
    EnterStageJobs(before, db, s, kind, status);
    EnterStageStreams(before, db, s, kind, status);
    forall t, c | IsActive(Enqueue(SetStream(db, s, status), kind, s), t, c) ensures IsActive(before, t, c) {
    }
  }

  lemma TranscribeEnded(db: Db, j: JobId, job: Job)
    requires JobsAgree(db) && OneJobEach(db)
    requires j in db.jobs && db.jobs[j].status.Running? && db.jobs[j].kind.Transcribe?
    requires job.stream == db.jobs[j].stream && job.kind.Transcribe?
    requires job.status.Done? && job.attempts == db.jobs[j].attempts
    ensures StageEnded(db, SetJob(db, j, job), job.stream, Analyze, QueuedAnalysis)
    ensures HasJob(db, job.stream, Transcribe)
  {
    RunningJob(db, j);
    forall k | k in db.jobs && db.jobs[k].stream == job.stream ensures k == j {
      assert Agrees(Transcribing, db.jobs[k]);
    }
  }

  lemma CompleteKeeps(db: Db, j: JobId, now: Time)
    requires Consistent(db) && j in db.jobs && db.jobs[j].status.Running?
    ensures db.jobs[j].stream in db.streams && Consistent(Complete(db, j, now))
  {
    RunningJob(db, j);
    var job := db.jobs[j].(status := Done, finishedAt := Some(now));
    if job.kind.Analyze? {
      AnalyzeDoneKeeps(db, j, job);
    } else {
      TranscribeEnded(db, j, job);
      EnterStageKeeps(db, SetJob(db, j, job), job.stream, Analyze, QueuedAnalysis);
    }
  }

  // A capturing stream has no job.
  lemma CapturingHasNoJob(db: Db, s: StreamId)
    requires JobsAgree(db) && s in db.streams && db.streams[s].status.Capturing?
    ensures forall j :: j in db.jobs ==> db.jobs[j].stream != s
  {
    forall j | j in db.jobs ensures db.jobs[j].stream != s {
      assert Agrees(db.streams[db.jobs[j].stream].status, db.jobs[j]);
    }
  }

  lemma FinalizeKeeps(db: Db, s: StreamId)
    requires Consistent(db) && s in db.streams && db.streams[s].status.Capturing?
    ensures Consistent(Finalize(db, s))
  {
    CapturingHasNoJob(db, s);
    EnterStageKeeps(db, db, s, Transcribe, QueuedTranscription);
  }

  // Inserting or ending a capturing stream touches no job.
  lemma StreamChangeKeeps(db: Db, db': Db)
    requires Consistent(db)
    requires db'.jobs == db.jobs && db'.nextJob == db.nextJob
    requires forall s :: s in db.streams ==> s in db'.streams && db'.streams[s].status == db.streams[s].status
    requires db.nextStream <= db'.nextStream
    requires forall s :: s in db'.streams && s !in db.streams ==> s < db'.nextStream && db'.streams[s].status.Capturing?
    requires OneActiveEach(db')
    ensures Consistent(db')
  {
    forall s | s in db'.streams ensures StreamHasJobs(db', s) {
      if s in db.streams { assert StreamHasJobs(db, s); OtherStreamHasJobs(db, db', s); }
    }
  }

  lemma StartStreamKeeps(db: Db, channel: ChannelId, at: Time)
    requires Consistent(db)
    ensures Consistent(StartStream(db, channel, at))
  {
    if !HasActive(db, channel) {
      var db' := StartStream(db, channel, at);
      forall s, c | IsActive(db', s, c)
        ensures if s == db.nextStream then c == channel else c != channel && IsActive(db, s, c)
      {
      }
      StreamChangeKeeps(db, db');
    }
  }

  lemma MarkOfflineKeeps(db: Db, s: StreamId, at: Time)
    requires Consistent(db) && s in db.streams
    ensures Consistent(MarkOffline(db, s, at))
  {
    var db' := MarkOffline(db, s, at);
    assert OneActiveEach(db') by { forall t, c | IsActive(db', t, c) ensures IsActive(db, t, c) {} }
    StreamChangeKeeps(db, db');
  }

  // ----- each step keeps the invariant -----------------------------------------------

  // Job transactions leave every capturing stream as it was.
  ghost predicate CapturingUntouched(db: Db, db': Db) {
    forall id :: id in db.streams && db.streams[id].status.Capturing? ==>
      id in db'.streams && db'.streams[id] == db.streams[id]
  }

  lemma CaptureStill(s: Sys, db': Db)
    requires CaptureAgrees(s) && CapturingUntouched(s.db, db')
    ensures CaptureAgrees(s.(db := db'))
  {
    forall i | 0 <= i < |s.todo| ensures s.todo[i] in Ended(db') {
      assert s.todo[i] in Ended(s.db);
    }
  }

  lemma {:induction false} ReclaimUntouched(db: Db, dead: seq<JobId>, now: Time)
    requires JobsAgree(db)
    requires forall j :: j in dead ==> j in db.jobs
    ensures CapturingUntouched(db, ReclaimAll(db, dead, now))
    ensures forall j :: j in db.jobs ==> ReclaimAll(db, dead, now).jobs[j].stream == db.jobs[j].stream
  {
    if dead != [] {
      var n := |dead| - 1;
      assert dead == dead[..n] + [dead[n]];
      ReclaimUntouched(db, dead[..n], now);
      assert Agrees(db.streams[db.jobs[dead[n]].stream].status, db.jobs[dead[n]]);
    }
  }

  // One job moves on: no other job and no capturing stream changes.
  ghost predicate OnlyJob(db: Db, db': Db, j: JobId) {
    && CapturingUntouched(db, db')
    && forall k :: k in db.jobs && k != j ==> k in db'.jobs && db'.jobs[k] == db.jobs[k]
  }

  lemma MovesOnlyJob(db: Db, j: JobId, at: Time)
    requires JobsAgree(db) && j in db.jobs
    ensures db.jobs[j].stream in db.streams
    ensures OnlyJob(db, Start(db, j, at), j) && OnlyJob(db, Beat(db, j, at), j)
    ensures OnlyJob(db, Complete(db, j, at), j) && OnlyJob(db, RegisterFailure(db, j, at), j)
  {
    assert Agrees(db.streams[db.jobs[j].stream].status, db.jobs[j]);
    assert db.nextJob !in db.jobs;
  }

  lemma OthersStillAgree(s: Sys, w: WorkerId, db': Db)
    requires WorkersAgree(s) && w in s.busy && OnlyJob(s.db, db', s.busy[w])
    ensures WorkersAgree(s.(db := db', busy := s.busy - {w}))
  {
  }

  lemma ReclaimStep(s: Sys, kind: JobKind, at: Time, dead: seq<JobId>)
    requires Inv(s) && Enabled(s, Reclaim(kind, at, dead)) && Timely(s, Reclaim(kind, at, dead))
    ensures Inv(Step(s, Reclaim(kind, at, dead)))
    ensures forall w :: w in s.busy ==> s.busy[w] !in dead
  {
    ReclaimAllKeeps(s.db, dead, at);
    ReclaimUntouched(s.db, dead, at);
    CaptureStill(s, ReclaimAll(s.db, dead, at));
    ReclaimWorkers(s, kind, at, dead);
  }

  lemma ReclaimWorkers(s: Sys, kind: JobKind, at: Time, dead: seq<JobId>)
    requires WorkersAgree(s) && Enabled(s, Reclaim(kind, at, dead)) && Timely(s, Reclaim(kind, at, dead))
    ensures WorkersAgree(Step(s, Reclaim(kind, at, dead)))
    ensures forall w :: w in s.busy ==> s.busy[w] !in dead
  {
    ReclaimAllJobs(s.db, dead, at);
    assert forall w :: w in s.busy ==> !Reclaimable(s.db, kind, at, s.busy[w]);
  }

  lemma BeatWorkers(s: Sys, w: WorkerId, at: Time)
    requires WorkersAgree(s) && Enabled(s, HeartBeat(w, at))
    ensures WorkersAgree(Step(s, HeartBeat(w, at)))
  {
  }

  lemma StartWorkers(s: Sys, w: WorkerId, j: JobId, at: Time)
    requires WorkersAgree(s) && Enabled(s, PickAndStart(w, j, at))
    requires s.db.jobs[j].stream in s.db.streams && OnlyJob(s.db, Start(s.db, j, at), j)
    ensures WorkersAgree(Step(s, PickAndStart(w, j, at)))
  {
  }

  lemma StartStep(s: Sys, w: WorkerId, j: JobId, at: Time)
    requires Inv(s) && Enabled(s, PickAndStart(w, j, at))
    ensures Inv(Step(s, PickAndStart(w, j, at)))
  {
    StartKeeps(s.db, j, at);
    MovesOnlyJob(s.db, j, at);
    CaptureStill(s, Start(s.db, j, at));
    StartWorkers(s, w, j, at);
  }

  lemma HandlerStep(s: Sys, e: Event)
    requires Inv(s) && Enabled(s, e) && (e.Returned? || e.Raised?)
    ensures Inv(Step(s, e))
  {
    var j := s.busy[e.worker];
    MovesOnlyJob(s.db, j, e.at);
    if e.Returned? { CompleteKeeps(s.db, j, e.at); } else { GiveUpKeeps(s.db, j, e.at); }
    var db' := Step(s, e).db;
    CaptureStill(s, db');
    OthersStillAgree(s, e.worker, db');
  }

  lemma BeatStep(s: Sys, w: WorkerId, at: Time)
    requires Inv(s) && Enabled(s, HeartBeat(w, at))
    ensures Inv(Step(s, HeartBeat(w, at)))
  {
    BeatKeeps(s.db, s.busy[w], at);
    MovesOnlyJob(s.db, s.busy[w], at);
    CaptureStill(s, Beat(s.db, s.busy[w], at));
    BeatWorkers(s, w, at);
  }

  lemma FinalizeStep(s: Sys)
    requires Inv(s) && Enabled(s, FinalizeNext)
    ensures Inv(Step(s, FinalizeNext))
  {
    var id := s.todo[0];
    assert id in Ended(s.db);
    FinalizeKeeps(s.db, id);
    assert s.db.nextJob !in s.db.jobs;
    var s' := Step(s, FinalizeNext);
    forall i | 0 <= i < |s'.todo| ensures s'.todo[i] in Ended(s'.db) {
      assert s'.todo[i] == s.todo[i + 1] && s.todo[i + 1] in Ended(s.db);
    }
  }

  lemma WebhookStep(s: Sys, e: Event)
    requires Inv(s) && Enabled(s, e) && (e.Online? || e.Offline?)
    ensures Inv(Step(s, e))
  {
    if e.Online? {
      StartStreamKeeps(s.db, e.channel, e.at);
      CaptureStill(s, Step(s, e).db);
    } else {
      MarkOfflineKeeps(s.db, e.stream, e.at);
      var s' := Step(s, e);
      forall i | 0 <= i < |s.todo| ensures s.todo[i] in Ended(s'.db) {
        assert s.todo[i] in Ended(s.db);
      }
    }
  }

  /** What a poll needs, exactly: it keeps the invariant if and only if no live worker inside a handler of
      the polled kind is late with its beats. */
  lemma ReclaimKeepsInvIff(s: Sys, kind: JobKind, at: Time, dead: seq<JobId>)
    requires Inv(s) && Enabled(s, Reclaim(kind, at, dead))
    ensures Inv(Step(s, Reclaim(kind, at, dead))) <==> Timely(s, Reclaim(kind, at, dead))
  {
    if Timely(s, Reclaim(kind, at, dead)) {
      ReclaimStep(s, kind, at, dead);
    } else {
      var w :| w in s.busy && s.db.jobs[s.busy[w]].kind == kind
               && Stale(s.db.jobs[s.busy[w]], at - HEARTBEAT_STALE_AFTER);
      LateIsTaken(s, w, at, dead);
    }
  }

  // A late worker's job is taken from it, although the worker is alive.
  lemma LateIsTaken(s: Sys, w: WorkerId, at: Time, dead: seq<JobId>)
    requires Inv(s) && w in s.busy && Enabled(s, Reclaim(s.db.jobs[s.busy[w]].kind, at, dead))
    requires Stale(s.db.jobs[s.busy[w]], at - HEARTBEAT_STALE_AFTER)
    ensures var after := Step(s, Reclaim(s.db.jobs[s.busy[w]].kind, at, dead));
            && w in after.busy && after.busy[w] == s.busy[w] && s.busy[w] in after.db.jobs
            && !after.db.jobs[s.busy[w]].status.Running?
            && after.db.jobs[s.busy[w]] == ReclaimOne(s.db, s.busy[w], at).jobs[s.busy[w]]
  {
    assert Reclaimable(s.db, s.db.jobs[s.busy[w]].kind, at, s.busy[w]);
    assert s.busy[w] in dead;
    ReclaimAllJobs(s.db, dead, at);
  }

  lemma StepKeepsInv(s: Sys, e: Event)
    requires Inv(s) && Enabled(s, e) && Timely(s, e)
    ensures Inv(Step(s, e))
  {
    match e
    case Online(_, _) => WebhookStep(s, e);
    case Offline(_, _) => WebhookStep(s, e);
    case FinalizeNext => FinalizeStep(s);
    case Reclaim(kind, at, dead) => ReclaimStep(s, kind, at, dead);
    case PickAndStart(w, j, at) => StartStep(s, w, j, at);
    case HeartBeat(w, at) => BeatStep(s, w, at);
    case Returned(_, _) => HandlerStep(s, e);
    case Raised(_, _) => HandlerStep(s, e);
    case _ =>
  }

  lemma {:induction false} RunKeepsInv(s: Sys, events: seq<Event>)
    requires Inv(s) && Runs(s, events)
    ensures Inv(After(s, events))
  {
    if events != [] {
      var n := |events| - 1;
      RunKeepsInv(s, events[..n]);
      StepKeepsInv(After(s, events[..n]), events[n]);
    }
  }
}
