/**
 The `streams` and `jobs` tables, and what each committed transaction of the capture worker, the
 job workers and the webhook does to them.
 */
module JobTables {
  import opened Wrappers

  type Time = int
  type StreamId = nat
  type JobId = nat
  type ChannelId = int

  // Seconds. A worker beats every 30 of them while its handler runs.
  const HEARTBEAT_STALE_AFTER: int := 300
  const MAX_ATTEMPTS: nat := 3

  datatype StreamStatus =
    Capturing | QueuedTranscription | Transcribing | QueuedAnalysis | Analyzing | Ready | Failed

  datatype JobStatus = Queued | Running | Done | Abandoned

  datatype JobKind = Transcribe | Analyze

  datatype Stream = Stream(channel: ChannelId, startedAt: Time, endedAt: Option<Time>, status: StreamStatus)

  datatype Job = Job(kind: JobKind, stream: StreamId, status: JobStatus, attempts: nat,
                     startedAt: Option<Time>, lastBeat: Option<Time>, finishedAt: Option<Time>)

  datatype WorkerSpec = WorkerSpec(running: StreamStatus, done: StreamStatus, next: Option<JobKind>)

  // The SPEC constants of the two job workers.
  function SpecOf(kind: JobKind): WorkerSpec {
    match kind
    case Transcribe => WorkerSpec(Transcribing, QueuedAnalysis, Some(Analyze))
    case Analyze => WorkerSpec(Analyzing, Ready, None)
  }

  datatype Db = Db(streams: map<StreamId, Stream>, jobs: map<JobId, Job>, nextStream: StreamId, nextJob: JobId)

  function SetStream(db: Db, s: StreamId, status: StreamStatus): Db
    requires s in db.streams
  {
    db.(streams := db.streams[s := db.streams[s].(status := status)])
  }

  function SetJob(db: Db, j: JobId, job: Job): Db {
    db.(jobs := db.jobs[j := job])
  }

  function Enqueue(db: Db, kind: JobKind, s: StreamId): Db {
    db.(jobs := db.jobs[db.nextJob := Job(kind, s, Queued, 0, None, None, None)], nextJob := db.nextJob + 1)
  }

  // ----- job workers ---------------------------------------------------------

  predicate Stale(job: Job, cutoff: Time) {
    if job.lastBeat.Some? then job.lastBeat.value < cutoff
    else job.startedAt.Some? && job.startedAt.value < cutoff
  }

  // What the reclaim query selects.
  predicate Reclaimable(db: Db, kind: JobKind, now: Time, j: JobId) {
    j in db.jobs && db.jobs[j].kind == kind && db.jobs[j].status.Running?
    && Stale(db.jobs[j], now - HEARTBEAT_STALE_AFTER)
  }

  function ReclaimOne(db: Db, j: JobId, now: Time): Db
    requires j in db.jobs
  {
    var job := db.jobs[j];
    if job.attempts >= MAX_ATTEMPTS then
      var failed := SetJob(db, j, job.(status := Abandoned, finishedAt := Some(now)));
      if job.stream in db.streams then SetStream(failed, job.stream, Failed) else failed
    else SetJob(db, j, job.(status := Queued))
  }

  function ReclaimAll(db: Db, dead: seq<JobId>, now: Time): (r: Db)
    requires forall j :: j in dead ==> j in db.jobs
    ensures r.jobs.Keys == db.jobs.Keys && r.streams.Keys == db.streams.Keys
  {
    if dead == [] then db
    else
      var n := |dead| - 1;
      assert dead[n] in dead && forall j :: j in dead[..n] ==> j in dead;
      ReclaimOne(ReclaimAll(db, dead[..n], now), dead[n], now)
  }

  function Start(db: Db, j: JobId, now: Time): Db
    requires j in db.jobs
  {
    var job := db.jobs[j];
    if job.stream !in db.streams then SetJob(db, j, job.(status := Abandoned))
    else
      var started := job.(
        status := Running, attempts := job.attempts + 1, startedAt := Some(now), lastBeat := Some(now));
      SetStream(SetJob(db, j, started),
                job.stream, SpecOf(job.kind).running)
  }

  function Beat(db: Db, j: JobId, now: Time): Db
    requires j in db.jobs
  {
    SetJob(db, j, db.jobs[j].(lastBeat := Some(now)))
  }

  function Complete(db: Db, j: JobId, now: Time): Db
    requires j in db.jobs && db.jobs[j].stream in db.streams
  {
    var job := db.jobs[j];
    var spec := SpecOf(job.kind);
    var done := SetStream(SetJob(db, j, job.(status := Done, finishedAt := Some(now))), job.stream, spec.done);
    if spec.next.Some? then Enqueue(done, spec.next.value, job.stream) else done
  }

  function RegisterFailure(db: Db, j: JobId, now: Time): Db
    requires j in db.jobs
  {
    var job := db.jobs[j];
    if job.stream !in db.streams then db
    else if job.attempts >= MAX_ATTEMPTS then
      SetStream(SetJob(db, j, job.(status := Abandoned, finishedAt := Some(now))), job.stream, Failed)
    else SetJob(db, j, job.(status := Queued))
  }

  // ----- capture and webhook ---------------------------------------------------

  predicate IsActive(db: Db, s: StreamId, channel: ChannelId) {
    && s in db.streams && db.streams[s].channel == channel
    && db.streams[s].status.Capturing? && db.streams[s].endedAt.None?
  }

  predicate HasActive(db: Db, channel: ChannelId) {
    exists s :: s in db.streams && IsActive(db, s, channel)
  }

  function StartStream(db: Db, channel: ChannelId, startedAt: Time): Db {
    if HasActive(db, channel) then db
    else
      db.(streams := db.streams[db.nextStream := Stream(channel, startedAt, None, Capturing)],
          nextStream := db.nextStream + 1)
  }

  function MarkOffline(db: Db, s: StreamId, endedAt: Time): Db
    requires s in db.streams
  {
    if db.streams[s].endedAt.Some? then db
    else db.(streams := db.streams[s := db.streams[s].(endedAt := Some(endedAt))])
  }

  function Finalize(db: Db, s: StreamId): Db {
    if s !in db.streams then db
    else Enqueue(SetStream(db, s, QueuedTranscription), Transcribe, s)
  }

  // The two lists one poll of the capture worker reads.
  function Live(db: Db): set<StreamId> {
    set s | s in db.streams && db.streams[s].status.Capturing? && db.streams[s].endedAt.None?
  }

  function Ended(db: Db): set<StreamId> {
    set s | s in db.streams && db.streams[s].status.Capturing? && db.streams[s].endedAt.Some?
  }

  // The order in which a query without ORDER BY returns the members of a set.
  ghost predicate Lists(order: seq<nat>, s: set<nat>) {
    && (forall x :: x in order <==> x in s)
    && (forall i, j :: 0 <= i < j < |order| ==> order[i] != order[j])
  }
}
