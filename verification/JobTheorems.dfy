/**
 What every run of the pipeline satisfies: the two tables tell one story, handlers start a bounded
 number of times, every stream moves towards ready or failed, and heartbeats decide who is dead.
 */
module JobTheorems {
  import opened Wrappers
  import opened JobTables
  import opened JobRuns

  ghost function JobsOf(db: Db, s: StreamId): set<JobId> {
    set j | j in db.jobs && db.jobs[j].stream == s
  }

  ghost predicate IsJobOf(db: Db, s: StreamId, kind: JobKind, j: JobId) {
    j in db.jobs && db.jobs[j].stream == s && db.jobs[j].kind == kind
  }

  lemma InitInv(s: Sys)
    requires Init(s)
    ensures Inv(s)
  {
  }

  // ----- the two tables ----------------------------------------------------------

  // What the status of a stream says about the whole of its job rows.
  ghost predicate TellsOneStory(db: Db, s: StreamId)
    requires s in db.streams
  {
    match db.streams[s].status
    case Capturing => JobsOf(db, s) == {}
    case QueuedTranscription =>
      exists t: JobId :: IsJobOf(db, s, Transcribe, t) && JobsOf(db, s) == {t} && FreshJob(db.jobs[t])
    case Transcribing =>
      exists t: JobId :: IsJobOf(db, s, Transcribe, t) && JobsOf(db, s) == {t} && OpenJob(db.jobs[t])
    case QueuedAnalysis =>
      exists t: JobId, a: JobId ::
        IsJobOf(db, s, Transcribe, t) && IsJobOf(db, s, Analyze, a) && JobsOf(db, s) == {t, a}
                     && db.jobs[t].status.Done? && FreshJob(db.jobs[a])
    case Analyzing =>
      exists t: JobId, a: JobId ::
        IsJobOf(db, s, Transcribe, t) && IsJobOf(db, s, Analyze, a) && JobsOf(db, s) == {t, a}
                     && db.jobs[t].status.Done? && OpenJob(db.jobs[a])
    case Ready =>
      exists t: JobId, a: JobId ::
        IsJobOf(db, s, Transcribe, t) && IsJobOf(db, s, Analyze, a) && JobsOf(db, s) == {t, a}
                     && db.jobs[t].status.Done? && db.jobs[a].status.Done?
    case Failed =>
      exists f: JobId :: OnlyFailure(db, s, f)
  }

  // The one abandoned job of a stream, used up, beside jobs that are all done.
  ghost predicate OnlyFailure(db: Db, s: StreamId, f: JobId) {
    && f in JobsOf(db, s) && db.jobs[f].status.Abandoned? && db.jobs[f].attempts == 3
    && forall j :: j in JobsOf(db, s) && j != f ==> db.jobs[j].status.Done?
  }

  lemma OneKindStory(db: Db, s: StreamId) returns (t: JobId)
    requires Consistent(db) && s in db.streams && db.streams[s].status in {QueuedTranscription, Transcribing}
    ensures IsJobOf(db, s, Transcribe, t) && JobsOf(db, s) == {t}
    ensures Agrees(db.streams[s].status, db.jobs[t])
  {
    assert StreamHasJobs(db, s);
    t :| t in db.jobs && db.jobs[t].stream == s && db.jobs[t].kind == Transcribe;
    forall j | j in JobsOf(db, s) ensures j == t {
      assert Agrees(db.streams[s].status, db.jobs[j]);
    }
  }

  lemma TwoKindsStory(db: Db, s: StreamId) returns (t: JobId, a: JobId)
    requires Consistent(db) && s in db.streams && db.streams[s].status in {QueuedAnalysis, Analyzing, Ready}
    ensures IsJobOf(db, s, Transcribe, t) && IsJobOf(db, s, Analyze, a) && JobsOf(db, s) == {t, a}
    ensures db.jobs[t].status.Done? && Agrees(db.streams[s].status, db.jobs[a])
  {
    assert StreamHasJobs(db, s);
    t :| t in db.jobs && db.jobs[t].stream == s && db.jobs[t].kind == Transcribe;
    a :| a in db.jobs && db.jobs[a].stream == s && db.jobs[a].kind == Analyze;
    assert Agrees(db.streams[s].status, db.jobs[t]);
    forall j | j in JobsOf(db, s) ensures j == t || j == a {
      assert db.jobs[j].kind == Transcribe || db.jobs[j].kind == Analyze;
    }
  }

  lemma FailedStory(db: Db, s: StreamId)
    requires Consistent(db) && s in db.streams && db.streams[s].status.Failed?
    ensures TellsOneStory(db, s)
  {
    assert StreamHasJobs(db, s);
    var f: JobId :| f in db.jobs && db.jobs[f].stream == s && db.jobs[f].status.Abandoned?;
    AbandonedAttempts(db, f);
    forall j | j in JobsOf(db, s) && j != f ensures db.jobs[j].status.Done? {
      assert Agrees(Failed, db.jobs[j]) && Agrees(Failed, db.jobs[f]);
      assert db.jobs[j].kind != db.jobs[f].kind;
    }
    assert OnlyFailure(db, s, f);
  }

  lemma AbandonedAttempts(db: Db, f: JobId)
    requires JobsAgree(db) && f in db.jobs && db.jobs[f].status.Abandoned?
    ensures db.jobs[f].attempts == 3
  {
    assert Agrees(db.streams[db.jobs[f].stream].status, db.jobs[f]);
  }

  lemma StoryOf(db: Db, s: StreamId)
    requires Consistent(db) && s in db.streams
    ensures TellsOneStory(db, s)
  {
    match db.streams[s].status
    case Capturing =>
      CapturingHasNoJob(db, s);
    case Failed =>
      FailedStory(db, s);
    case QueuedTranscription => var t := OneKindStory(db, s);
    case Transcribing => var t := OneKindStory(db, s);
    case _ => var t, a := TwoKindsStory(db, s);
  }

  /** In every reachable state the status of every stream and its job rows agree; each stream has at
      most one job of each kind; each channel has at most one active stream. */
  lemma PipelineIsConsistent(start: Sys, events: seq<Event>)
    requires Init(start) && Runs(start, events)
    ensures var db := After(start, events).db;
            && (forall s :: s in db.streams ==> TellsOneStory(db, s))
            && (forall s, k, i, j :: IsJobOf(db, s, k, i) && IsJobOf(db, s, k, j) ==> i == j)
            && (forall s, t, c :: IsActive(db, s, c) && IsActive(db, t, c) ==> s == t)
  {
    InitInv(start);
    RunKeepsInv(start, events);
    var db := After(start, events).db;
    forall s | s in db.streams ensures TellsOneStory(db, s) {
      StoryOf(db, s);
    }
  }

  // One worker process per job type: a worker that polls for a kind is not inside a handler, so nobody
  // else runs a job of that kind either.
  ghost predicate PollerIsFree(s: Sys, e: Event) {
    e.Reclaim? ==> forall w :: w in s.busy && s.busy[w] in s.db.jobs ==> s.db.jobs[s.busy[w]].kind != e.kind
  }

  // A run of such processes; nothing is asked of their beats.
  ghost predicate OneWorkerEach(s: Sys, events: seq<Event>)
    decreases |events|
  {
    events == [] ||
    (Enabled(s, events[0]) && PollerIsFree(s, events[0]) && OneWorkerEach(Step(s, events[0]), events[1..]))
  }

  /** With one worker process per job type no heartbeat can be late enough to matter: every run of them is a
      run in the sense of all theorems here, whatever beats are lost. */
  lemma {:induction false} OneWorkerEachRuns(s: Sys, events: seq<Event>)
    requires OneWorkerEach(s, events)
    ensures Runs(s, events)
    decreases |events|
  {
    if events != [] {
      OneWorkerEachRuns(Step(s, events[0]), events[1..]);
      FirstThenRest(s, events);
    }
  }

  /** So there the two tables agree unconditionally. */
  lemma OneWorkerPipeline(start: Sys, events: seq<Event>)
    requires Init(start) && OneWorkerEach(start, events)
    ensures Runs(start, events)
    ensures var db := After(start, events).db;
            && (forall s :: s in db.streams ==> TellsOneStory(db, s))
            && (forall s, k, i, j :: IsJobOf(db, s, k, i) && IsJobOf(db, s, k, j) ==> i == j)
  {
    OneWorkerEachRuns(start, events);
    PipelineIsConsistent(start, events);
  }

  // ----- how often a handler starts -------------------------------------------------

  // Starts of the handler of one job, and of the handlers of one kind for one stream, in a run.
  ghost function Starts(events: seq<Event>, j: JobId): nat {
    if events == [] then 0
    else
      var n := |events| - 1;
      Starts(events[..n], j) + if events[n].PickAndStart? && events[n].job == j then 1 else 0
  }

  ghost function KindStarts(start: Sys, events: seq<Event>, s: StreamId, kind: JobKind): nat
    requires Runs(start, events)
  {
    if events == [] then 0
    else
      var n := |events| - 1;
      var e, db := events[n], After(start, events[..n]).db;
      KindStarts(start, events[..n], s, kind) + if e.PickAndStart? && IsJobOf(db, s, kind, e.job) then 1 else 0
  }

  // The attempts column after one step.
  ghost predicate AttemptsGrow(db: Db, db': Db, j: JobId, more: nat) {
    && (j in db.jobs ==> j in db'.jobs && db'.jobs[j].stream == db.jobs[j].stream && db'.jobs[j].kind == db.jobs[j].kind
                         && db'.jobs[j].attempts == db.jobs[j].attempts + more)
    && (j !in db.jobs && j in db'.jobs ==> db'.jobs[j].attempts == 0)
  }

  lemma AttemptsUnmoved(db: Db, k: JobId, at: Time, j: JobId)
    requires JobsAgree(db) && k in db.jobs
    ensures db.jobs[k].stream in db.streams
    ensures AttemptsGrow(db, Beat(db, k, at), j, 0) && AttemptsGrow(db, Complete(db, k, at), j, 0)
    ensures AttemptsGrow(db, RegisterFailure(db, k, at), j, 0)
  {
    assert Agrees(db.streams[db.jobs[k].stream].status, db.jobs[k]);
    assert db.nextJob !in db.jobs;
  }

  lemma AttemptsStep(s: Sys, e: Event, j: JobId)
    requires JobsAgree(s.db) && Enabled(s, e)
    ensures AttemptsGrow(s.db, Step(s, e).db, j, if e.PickAndStart? && e.job == j then 1 else 0)
  {
    match e
    case Reclaim(_, at, dead) => ReclaimAllJobs(s.db, dead, at);
    case PickAndStart(_, k, at) => QueuedJob(s.db, k, at);
    case HeartBeat(w, at) => AttemptsUnmoved(s.db, s.busy[w], at, j);
    case Returned(w, at) => AttemptsUnmoved(s.db, s.busy[w], at, j);
    case Raised(w, at) => AttemptsUnmoved(s.db, s.busy[w], at, j);
    case FinalizeNext => assert s.db.nextJob !in s.db.jobs;
    case _ =>
  }

  lemma {:induction false} AttemptsCountStarts(start: Sys, events: seq<Event>, j: JobId)
    requires Init(start) && Runs(start, events)
    ensures var db := After(start, events).db;
            Starts(events, j) == if j in db.jobs then db.jobs[j].attempts else 0
  {
    if events != [] {
      var n := |events| - 1;
      AttemptsCountStarts(start, events[..n], j);
      InitInv(start);
      RunKeepsInv(start, events[..n]);
      AttemptsStep(After(start, events[..n]), events[n], j);
    }
  }

  lemma AttemptsAtMostThree(db: Db, j: JobId)
    requires JobsAgree(db) && j in db.jobs
    ensures db.jobs[j].attempts <= 3
    ensures db.jobs[j].status.Running? ==> 1 <= db.jobs[j].attempts
    ensures db.jobs[j].status.Queued? ==> db.jobs[j].attempts <= 2
  {
    assert Agrees(db.streams[db.jobs[j].stream].status, db.jobs[j]);
  }

  /** In every run a handler starts at most 3 times for one job; the attempts column is exactly the
      number of starts; running means 1 to 3 of them and queued at most 2. */
  lemma ThreeStartsPerJob(start: Sys, events: seq<Event>, j: JobId)
    requires Init(start) && Runs(start, events)
    ensures var db := After(start, events).db;
            && Starts(events, j) <= 3
            && (j in db.jobs ==>
                  && db.jobs[j].attempts == Starts(events, j)
                  && (db.jobs[j].status.Running? ==> 1 <= Starts(events, j))
                  && (db.jobs[j].status.Queued? ==> Starts(events, j) <= 2))
  {
    AttemptsCountStarts(start, events, j);
    InitInv(start);
    RunKeepsInv(start, events);
    var db := After(start, events).db;
    if j in db.jobs { AttemptsAtMostThree(db, j); }
  }

  // `count` is the attempts of the stream's job of a kind, or zero when there is none.
  ghost predicate CountsAttempts(db: Db, s: StreamId, kind: JobKind, count: nat) {
    && (forall j: JobId :: IsJobOf(db, s, kind, j) ==> count == db.jobs[j].attempts)
    && ((forall j: JobId :: !IsJobOf(db, s, kind, j)) ==> count == 0)
  }

  lemma {:induction false} KindStartsAreAttempts(start: Sys, events: seq<Event>, s: StreamId, kind: JobKind)
    requires Init(start) && Runs(start, events)
    ensures CountsAttempts(After(start, events).db, s, kind, KindStarts(start, events, s, kind))
  {
    if events != [] {
      var n := |events| - 1;
      KindStartsAreAttempts(start, events[..n], s, kind);
      InitInv(start);
      RunKeepsInv(start, events[..n]);
      RunKeepsInv(start, events);
      KindStartsStep(After(start, events[..n]), events[n], s, kind, KindStarts(start, events[..n], s, kind));
    }
  }

  lemma KindStartsStep(before: Sys, e: Event, s: StreamId, kind: JobKind, count: nat)
    requires Inv(before) && Enabled(before, e) && OneJobEach(Step(before, e).db)
    requires CountsAttempts(before.db, s, kind, count)
    ensures CountsAttempts(Step(before, e).db, s, kind,
                           count + if e.PickAndStart? && IsJobOf(before.db, s, kind, e.job) then 1 else 0)
  {
    var db := Step(before, e).db;
    if k: JobId :| IsJobOf(before.db, s, kind, k) {
      AttemptsStep(before, e, k);
      assert IsJobOf(db, s, kind, k);
      assert e.PickAndStart? && IsJobOf(before.db, s, kind, e.job) ==> e.job == k;
    } else {
      assert e.PickAndStart? ==> e.job in before.db.jobs;
      forall j: JobId | IsJobOf(db, s, kind, j) ensures db.jobs[j].attempts == 0 {
        AttemptsStep(before, e, j);
        assert j in before.db.jobs ==> IsJobOf(before.db, s, kind, j);
      }
    }
  }

  /** ... and at most 6 times for one stream: 3 transcriptions and 3 analyses. */
  lemma SixStartsPerStream(start: Sys, events: seq<Event>, s: StreamId)
    requires Init(start) && Runs(start, events)
    ensures KindStarts(start, events, s, Transcribe) <= 3 && KindStarts(start, events, s, Analyze) <= 3
    ensures KindStarts(start, events, s, Transcribe) + KindStarts(start, events, s, Analyze) <= 6
  {
    KindAtMostThree(start, events, s, Transcribe);
    KindAtMostThree(start, events, s, Analyze);
  }

  lemma KindAtMostThree(start: Sys, events: seq<Event>, s: StreamId, kind: JobKind)
    requires Init(start) && Runs(start, events)
    ensures KindStarts(start, events, s, kind) <= 3
  {
    var db := After(start, events).db;
    KindStartsAreAttempts(start, events, s, kind);
    if j: JobId :| IsJobOf(db, s, kind, j) {
      InitInv(start);
      RunKeepsInv(start, events);
      AttemptsAtMostThree(db, j);
    }
  }

  // ----- heartbeats --------------------------------------------------------------------

  /** A poll takes out of `running` exactly the running jobs of its kind whose beats stopped more than
      five minutes ago, and abandons exactly those of them on their third attempt. */
  lemma ReclaimIsExact(s: Sys, kind: JobKind, at: Time, dead: seq<JobId>, j: JobId)
    requires Consistent(s.db) && Enabled(s, Reclaim(kind, at, dead))
    requires j in s.db.jobs && s.db.jobs[j].status.Running? && s.db.jobs[j].kind == kind
    ensures var job, job' := s.db.jobs[j], Step(s, Reclaim(kind, at, dead)).db.jobs[j];
            if Stale(job, at - HEARTBEAT_STALE_AFTER) then
              job'.status == (if job.attempts == 3 then Abandoned else Queued) && job'.attempts == job.attempts
            else job' == job
  {
    assert j in dead <==> Stale(s.db.jobs[j], at - HEARTBEAT_STALE_AFTER);
    ReclaimAllJobs(s.db, dead, at);
    assert s.db.jobs[j].attempts <= 3 by { AttemptsAtMostThree(s.db, j); }
  }

  // When each worker was last heard of: at its last start or beat.
  type Signs = map<WorkerId, Time>

  function Heard(signs: Signs, e: Event): Signs {
    match e
    case PickAndStart(w, _, at) => signs[w := at]
    case HeartBeat(w, at) => signs[w := at]
    case _ => signs
  }

  // At a poll at `at`, every worker inside a handler of the kind was last heard of at most five minutes ago.
  ghost predicate HeardLately(s: Sys, signs: Signs, kind: JobKind, at: Time) {
    forall w :: w in s.busy && s.busy[w] in s.db.jobs && s.db.jobs[s.busy[w]].kind == kind ==>
      w in signs ==> at - signs[w] <= 300
  }

  // A run in which the times of a worker's start, its beats and the polls of its kind are never further apart.
  ghost predicate Steady(s: Sys, signs: Signs, events: seq<Event>)
    decreases |events|
  {
    events == [] ||
    var e := events[0];
    && Enabled(s, e) && (e.Reclaim? ==> HeardLately(s, signs, e.kind, e.at))
    && Steady(Step(s, e), Heard(signs, e), events[1..])
  }

  // The last beat of a worker's job is the worker's last sign of life.
  ghost predicate BeatsAreSigns(s: Sys, signs: Signs) {
    forall w :: w in s.busy ==>
      w in signs && s.busy[w] in s.db.jobs && s.db.jobs[s.busy[w]].lastBeat == Some(signs[w])
  }

  ghost predicate KeepsBeats(db: Db, db': Db) {
    forall j :: j in db.jobs ==> j in db'.jobs && db'.jobs[j].lastBeat == db.jobs[j].lastBeat
  }

  lemma CompleteKeepsBeats(db: Db, j: JobId, at: Time)
    requires JobsAgree(db) && j in db.jobs && db.jobs[j].stream in db.streams
    ensures KeepsBeats(db, Complete(db, j, at))
  {
    assert db.nextJob !in db.jobs;
  }

  lemma FinalizeKeepsBeats(db: Db, id: StreamId)
    requires JobsAgree(db)
    ensures KeepsBeats(db, Finalize(db, id))
  {
    assert db.nextJob !in db.jobs;
  }

  lemma ReclaimKeepsBeats(s: Sys, e: Event)
    requires e.Reclaim? && Enabled(s, e)
    ensures KeepsBeats(s.db, Step(s, e).db)
  {
    ReclaimAllJobs(s.db, e.dead, e.at);
  }

  // Only a start and a beat write a beat.
  lemma OthersKeepBeats(s: Sys, e: Event)
    requires JobsAgree(s.db) && Enabled(s, e) && !e.PickAndStart? && !e.HeartBeat?
    ensures KeepsBeats(s.db, Step(s, e).db)
    ensures forall w :: w in Step(s, e).busy ==> w in s.busy && Step(s, e).busy[w] == s.busy[w]
  {
    match e
    case Reclaim(_, _, _) => ReclaimKeepsBeats(s, e);
    case FinalizeNext => FinalizeKeepsBeats(s.db, s.todo[0]);
    case Returned(w, at) => CompleteKeepsBeats(s.db, s.busy[w], at);
    case _ =>
  }

  lemma StartIsASign(s: Sys, signs: Signs, w: WorkerId, j: JobId, at: Time)
    requires Inv(s) && Enabled(s, PickAndStart(w, j, at)) && BeatsAreSigns(s, signs)
    ensures BeatsAreSigns(Step(s, PickAndStart(w, j, at)), signs[w := at])
  {
    JobsHaveStreams(s.db, j);
  }

  lemma JobsHaveStreams(db: Db, j: JobId)
    requires JobsAgree(db) && j in db.jobs
    ensures db.jobs[j].stream in db.streams
  {
  }

  lemma BeatIsASign(s: Sys, signs: Signs, w: WorkerId, at: Time)
    requires WorkersAgree(s) && Enabled(s, HeartBeat(w, at)) && BeatsAreSigns(s, signs)
    ensures BeatsAreSigns(Step(s, HeartBeat(w, at)), signs[w := at])
  {
  }

  lemma KeptSigns(s: Sys, s': Sys, signs: Signs)
    requires BeatsAreSigns(s, signs) && KeepsBeats(s.db, s'.db)
    requires forall w :: w in s'.busy ==> w in s.busy && s'.busy[w] == s.busy[w]
    ensures BeatsAreSigns(s', signs)
  {
  }

  lemma SignsStep(s: Sys, signs: Signs, e: Event)
    requires Inv(s) && Enabled(s, e) && BeatsAreSigns(s, signs)
    ensures BeatsAreSigns(Step(s, e), Heard(signs, e))
  {
    match e
    case PickAndStart(w, j, at) => StartIsASign(s, signs, w, j, at);
    case HeartBeat(w, at) => BeatIsASign(s, signs, w, at);
    case _ =>
      OthersKeepBeats(s, e);
      KeptSigns(s, Step(s, e), signs);
  }

  lemma HeardIsTimely(s: Sys, signs: Signs, e: Event)
    requires e.Reclaim? && BeatsAreSigns(s, signs)
    ensures HeardLately(s, signs, e.kind, e.at) <==> Timely(s, e)
  {
  }

  /** What the heartbeats must do, exactly, in terms of the times of events alone: the runs in which no poll
      finds a live worker late are those in which starts, beats and polls are at most five minutes apart. */
  lemma {:induction false} SteadyIff(s: Sys, signs: Signs, events: seq<Event>)
    requires Inv(s) && BeatsAreSigns(s, signs)
    ensures Steady(s, signs, events) <==> Runs(s, events)
    decreases |events|
  {
    if events != [] {
      var e := events[0];
      FirstThenRest(s, events);
      if e.Reclaim? { HeardIsTimely(s, signs, e); }
      if Enabled(s, e) && Timely(s, e) {
        StepKeepsInv(s, e);
        SignsStep(s, signs, e);
        SteadyIff(Step(s, e), Heard(signs, e), events[1..]);
      }
    }
  }

  /** In such a run no poll ever takes a live worker's job, and every running job has at most one live
      worker. */
  lemma BeatingJobsAreSafe(start: Sys, events: seq<Event>, kind: JobKind, at: Time, dead: seq<JobId>)
    requires Init(start) && Steady(start, map[], events + [Reclaim(kind, at, dead)])
    ensures Runs(start, events + [Reclaim(kind, at, dead)]) && Runs(start, events)
    ensures var s, s' := After(start, events), After(start, events + [Reclaim(kind, at, dead)]);
            && (forall w :: w in s.busy ==> s.busy[w] in s'.db.jobs && s'.db.jobs[s.busy[w]] == s.db.jobs[s.busy[w]])
            && (forall v, w :: v in s.busy && w in s.busy && s.busy[v] == s.busy[w] ==> v == w)
  {
    var es := events + [Reclaim(kind, at, dead)];
    assert es[..|es| - 1] == events;
    InitInv(start);
    SteadyIff(start, map[], es);
    RunKeepsInv(start, events);
    var s := After(start, events);
    ReclaimWorkers(s, kind, at, dead);
    ReclaimAllJobs(s.db, dead, at);
  }
}
