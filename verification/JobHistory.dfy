/** What the columns of the two tables record about the run that led to them. */
module JobHistory {
  import opened Wrappers
  import opened JobTables
  import opened JobRuns
  import opened JobTheorems

  predicate Over(job: Job) {
    job.status.Done? || job.status.Abandoned?
  }

  // The event that ends a job: its handler returns, or its third attempt raises or is taken back.
  ghost predicate EndsJob(s: Sys, e: Event, j: JobId)
    requires j in s.db.jobs
  {
    match e
    case Returned(w, _) => w in s.busy && s.busy[w] == j
    case Raised(w, _) => w in s.busy && s.busy[w] == j && s.db.jobs[j].attempts >= 3
    case Reclaim(_, _, dead) => j in dead && s.db.jobs[j].attempts >= 3
    case _ => false
  }

  function TimeOf(e: Event): Time {
    match e
    case Online(_, at) => at
    case Offline(_, at) => at
    case Reclaim(_, at, _) => at
    case PickAndStart(_, _, at) => at
    case HeartBeat(_, at) => at
    case Returned(_, at) => at
    case Raised(_, at) => at
    case _ => 0
  }

  predicate Starts(e: Event, j: JobId) {
    e.PickAndStart? && e.job == j
  }

  // What one event writes into the row of a job that was there.
  ghost predicate RowAfter(s: Sys, e: Event, r: Db, j: JobId)
    requires j in s.db.jobs
  {
    && j in r.jobs
    && r.jobs[j].stream == s.db.jobs[j].stream && r.jobs[j].kind == s.db.jobs[j].kind
    && r.jobs[j].startedAt == (if Starts(e, j) then Some(TimeOf(e)) else s.db.jobs[j].startedAt)
    && r.jobs[j].attempts == s.db.jobs[j].attempts + (if Starts(e, j) then 1 else 0)
    && r.jobs[j].finishedAt == (if EndsJob(s, e, j) then Some(TimeOf(e)) else s.db.jobs[j].finishedAt)
    && (Over(r.jobs[j]) <==> Over(s.db.jobs[j]) || EndsJob(s, e, j))
  }

  lemma ReclaimRow(s: Sys, e: Event, j: JobId)
    requires JobsAgree(s.db) && Enabled(s, e) && e.Reclaim? && j in s.db.jobs
    ensures RowAfter(s, e, Step(s, e).db, j)
  {
    ReclaimAllJobs(s.db, e.dead, e.at);
    assert j in e.dead ==> s.db.jobs[j].status.Running?;
  }

  lemma ReturnedRow(s: Sys, e: Event, j: JobId)
    requires JobsAgree(s.db) && Enabled(s, e) && e.Returned? && j in s.db.jobs
    ensures RowAfter(s, e, Step(s, e).db, j)
  {
    assert s.db.nextJob !in s.db.jobs;
  }

  lemma RaisedRow(s: Sys, e: Event, j: JobId)
    requires JobsAgree(s.db) && WorkersAgree(s) && Enabled(s, e) && e.Raised? && j in s.db.jobs
    ensures RowAfter(s, e, Step(s, e).db, j)
  {
    JobsHaveStreams(s.db, s.busy[e.worker]);
  }

  lemma StartRow(s: Sys, e: Event, j: JobId)
    requires JobsAgree(s.db) && Enabled(s, e) && e.PickAndStart? && j in s.db.jobs
    ensures RowAfter(s, e, Step(s, e).db, j)
  {
    JobsHaveStreams(s.db, e.job);
  }

  lemma BeatRow(s: Sys, e: Event, j: JobId)
    requires JobsAgree(s.db) && Enabled(s, e) && e.HeartBeat? && j in s.db.jobs
    ensures RowAfter(s, e, Step(s, e).db, j)
  {
  }

  lemma FinalizeRow(s: Sys, e: Event, j: JobId)
    requires JobsAgree(s.db) && Enabled(s, e) && e.FinalizeNext? && j in s.db.jobs
    ensures RowAfter(s, e, Step(s, e).db, j)
  {
    assert s.db.nextJob !in s.db.jobs;
  }

  lemma RowStep(s: Sys, e: Event, j: JobId)
    requires JobsAgree(s.db) && WorkersAgree(s) && Enabled(s, e) && j in s.db.jobs
    ensures RowAfter(s, e, Step(s, e).db, j)
  {
    match e
    case Reclaim(_, _, _) => ReclaimRow(s, e, j);
    case Returned(_, _) => ReturnedRow(s, e, j);
    case Raised(_, _) => RaisedRow(s, e, j);
    case PickAndStart(_, _, _) => StartRow(s, e, j);
    case HeartBeat(_, _) => BeatRow(s, e, j);
    case FinalizeNext => FinalizeRow(s, e, j);
    case _ =>
  }

  lemma OnlyTwoEnqueue(s: Sys, e: Event, j: JobId)
    requires JobsAgree(s.db) && WorkersAgree(s) && Enabled(s, e) && j !in s.db.jobs && j in Step(s, e).db.jobs
    ensures (e.FinalizeNext? || e.Returned?) && j == s.db.nextJob
  {
  }

  // A new job is queued and has no history.
  lemma NewRow(s: Sys, e: Event, j: JobId)
    requires JobsAgree(s.db) && WorkersAgree(s) && Enabled(s, e) && j !in s.db.jobs && j in Step(s, e).db.jobs
    ensures var job := Step(s, e).db.jobs[j];
            job.status.Queued? && job.attempts == 0 && job.startedAt.None? && job.lastBeat.None? && job.finishedAt.None?
  {
    OnlyTwoEnqueue(s, e, j);
  }

  // The time of the last start of a job in a run.
  function LastStart(events: seq<Event>, j: JobId): Option<Time> {
    if events == [] then None
    else if Starts(events[|events| - 1], j) then Some(TimeOf(events[|events| - 1]))
    else LastStart(events[..|events| - 1], j)
  }

  // Some event of the run ended the job at `t`.
  ghost predicate EndedAt(start: Sys, events: seq<Event>, j: JobId, t: Time)
    requires Runs(start, events)
  {
    events != [] &&
    var front, e := events[..|events| - 1], events[|events| - 1];
    || EndedAt(start, front, j, t)
    || (j in After(start, front).db.jobs && EndsJob(After(start, front), e, j) && TimeOf(e) == t)
  }

  // What the columns say about the run.
  ghost predicate Recorded(start: Sys, events: seq<Event>, j: JobId)
    requires Runs(start, events) && j in After(start, events).db.jobs
  {
    var job := After(start, events).db.jobs[j];
    && job.startedAt == LastStart(events, j)
    && (job.finishedAt.Some? <==> Over(job))
    && (job.finishedAt.Some? ==> EndedAt(start, events, j, job.finishedAt.value))
  }

  lemma {:induction false} NeverStarted(start: Sys, events: seq<Event>, j: JobId)
    requires Init(start) && Runs(start, events) && j !in After(start, events).db.jobs
    ensures LastStart(events, j) == None
  {
    if events != [] {
      var n := |events| - 1;
      var s := After(start, events[..n]);
      InitInv(start);
      RunKeepsInv(start, events[..n]);
      if j in s.db.jobs { RowStep(s, events[n], j); }
      NeverStarted(start, events[..n], j);
    }
  }

  /** In every reachable state a job's start is that of its last attempt, and it has an end exactly when it is
      done or given up: the time of the event that ended it. */
  lemma {:induction false} JobTimesAreRecorded(start: Sys, events: seq<Event>, j: JobId)
    requires Init(start) && Runs(start, events) && j in After(start, events).db.jobs
    ensures Recorded(start, events, j)
  {
    if events != [] {
      var n := |events| - 1;
      var s, e := After(start, events[..n]), events[n];
      InitInv(start);
      RunKeepsInv(start, events[..n]);
      if j in s.db.jobs {
        JobTimesAreRecorded(start, events[..n], j);
        RowStep(s, e, j);
      } else {
        NewRow(s, e, j);
        NeverStarted(start, events[..n], j);
        assert !Starts(e, j);
      }
    }
  }

  // ----- streams ---------------------------------------------------------------------------

  predicate SaidOnline(events: seq<Event>, channel: ChannelId, at: Time) {
    Online(channel, at) in events
  }

  predicate SaidOffline(events: seq<Event>, id: StreamId, at: Time) {
    Offline(id, at) in events
  }

  // What one event does to the webhook's columns.
  ghost predicate StreamAfter(s: Sys, e: Event, r: Db, id: StreamId)
    requires id in s.db.streams
  {
    && id in r.streams
    && r.streams[id].channel == s.db.streams[id].channel
    && r.streams[id].startedAt == s.db.streams[id].startedAt
    && r.streams[id].endedAt == (if e.Offline? && e.stream == id then Some(e.at) else s.db.streams[id].endedAt)
    && (e.Offline? && e.stream == id ==> s.db.streams[id].endedAt.None?)
  }

  lemma JobEventStream(s: Sys, e: Event, id: StreamId)
    requires JobsAgree(s.db) && Enabled(s, e) && id in s.db.streams
    requires e.PickAndStart? || e.HeartBeat? || e.Returned? || e.Raised? || e.FinalizeNext?
    ensures StreamAfter(s, e, Step(s, e).db, id)
  {
  }

  lemma OnlineStream(s: Sys, e: Event, id: StreamId)
    requires StreamsHaveJobs(s.db) && Enabled(s, e) && e.Online? && id in s.db.streams
    ensures StreamAfter(s, e, Step(s, e).db, id)
  {
    NextStreamIsNew(s.db);
  }

  lemma StreamStep(s: Sys, e: Event, id: StreamId)
    requires JobsAgree(s.db) && StreamsHaveJobs(s.db) && Enabled(s, e) && id in s.db.streams
    ensures StreamAfter(s, e, Step(s, e).db, id)
  {
    match e
    case Reclaim(_, at, dead) => ReclaimKeepsTimes(s.db, dead, at, id);
    case Online(_, _) => OnlineStream(s, e, id);
    case Offline(_, _) =>
    case CapturePoll(_) =>
    case CaptureDies =>
    case WorkerDies(_) =>
    case _ => JobEventStream(s, e, id);
  }

  lemma NextStreamIsNew(db: Db)
    requires StreamsHaveJobs(db)
    ensures db.nextStream !in db.streams
  {
    assert forall s :: s in db.streams ==> StreamHasJobs(db, s);
  }

  lemma {:induction false} ReclaimKeepsTimes(db: Db, dead: seq<JobId>, at: Time, id: StreamId)
    requires (forall j :: j in dead ==> j in db.jobs) && id in db.streams
    ensures var r := ReclaimAll(db, dead, at).streams;
            && id in r && r[id].channel == db.streams[id].channel
            && r[id].startedAt == db.streams[id].startedAt && r[id].endedAt == db.streams[id].endedAt
  {
    if dead != [] {
      var n := |dead| - 1;
      assert dead[n] in dead && forall j :: j in dead[..n] ==> j in dead;
      ReclaimKeepsTimes(db, dead[..n], at, id);
    }
  }

  // A new stream is live.
  lemma NewStream(s: Sys, e: Event, id: StreamId)
    requires JobsAgree(s.db) && Enabled(s, e) && id !in s.db.streams && id in Step(s, e).db.streams
    ensures e.Online?
    ensures Step(s, e).db.streams[id] == Stream(e.channel, e.at, None, Capturing)
  {
  }

  lemma {:induction false} NeverOffline(start: Sys, events: seq<Event>, id: StreamId, at: Time)
    requires Init(start) && Runs(start, events) && id !in After(start, events).db.streams
    ensures !SaidOffline(events, id, at)
  {
    if events != [] {
      var n := |events| - 1;
      var s := After(start, events[..n]);
      InitInv(start);
      RunKeepsInv(start, events[..n]);
      if id in s.db.streams { StreamStep(s, events[n], id); }
      NeverOffline(start, events[..n], id, at);
      assert events == events[..n] + [events[n]];
    }
  }

  lemma NeverOfflineYet(start: Sys, events: seq<Event>, id: StreamId)
    requires Init(start) && Runs(start, events) && id !in After(start, events).db.streams
    ensures forall at :: !SaidOffline(events, id, at)
  {
    forall at ensures !SaidOffline(events, id, at) {
      NeverOffline(start, events, id, at);
    }
  }

  ghost predicate StreamRecorded(stream: Stream, events: seq<Event>, id: StreamId) {
    && SaidOnline(events, stream.channel, stream.startedAt)
    && forall at :: stream.endedAt == Some(at) <==> SaidOffline(events, id, at)
  }

  lemma RecordedOn(was: Stream, stream: Stream, events: seq<Event>, e: Event, id: StreamId)
    requires StreamRecorded(was, events, id)
    requires stream.channel == was.channel && stream.startedAt == was.startedAt
    requires stream.endedAt == if e.Offline? && e.stream == id then Some(e.at) else was.endedAt
    requires e.Offline? && e.stream == id ==> was.endedAt.None?
    ensures StreamRecorded(stream, events + [e], id)
  {
    assert SaidOnline(events + [e], was.channel, was.startedAt);
    forall at ensures stream.endedAt == Some(at) <==> SaidOffline(events + [e], id, at) {
      assert SaidOffline(events + [e], id, at) <==> SaidOffline(events, id, at) || e == Offline(id, at);
    }
  }

  lemma RecordedNew(events: seq<Event>, channel: ChannelId, at: Time, id: StreamId)
    requires forall t :: !SaidOffline(events, id, t)
    ensures StreamRecorded(Stream(channel, at, None, Capturing), events + [Online(channel, at)], id)
  {
    var all := events + [Online(channel, at)];
    assert all[|events|] == Online(channel, at);
    forall t ensures !SaidOffline(all, id, t) {
      assert SaidOffline(all, id, t) <==> SaidOffline(events, id, t) || Online(channel, at) == Offline(id, t);
    }
  }

  lemma RecordStep(s: Sys, e: Event, events: seq<Event>, id: StreamId)
    requires Inv(s) && Enabled(s, e) && id in Step(s, e).db.streams
    requires if id in s.db.streams then StreamRecorded(s.db.streams[id], events, id)
             else forall t :: !SaidOffline(events, id, t)
    ensures StreamRecorded(Step(s, e).db.streams[id], events + [e], id)
  {
    if id in s.db.streams {
      StreamStep(s, e, id);
      RecordedOn(s.db.streams[id], Step(s, e).db.streams[id], events, e, id);
    } else {
      NewStream(s, e, id);
      RecordedNew(events, e.channel, e.at, id);
    }
  }

  /** In every reachable state a stream has the channel and the start of an online message of the run, and the
      end of its offline message, if there was one. */
  lemma {:induction false} StreamTimesAreRecorded(start: Sys, events: seq<Event>, id: StreamId)
    requires Init(start) && Runs(start, events) && id in After(start, events).db.streams
    ensures StreamRecorded(After(start, events).db.streams[id], events, id)
  {
    if events != [] {
      var n := |events| - 1;
      var s, e := After(start, events[..n]), events[n];
      InitInv(start);
      RunKeepsInv(start, events[..n]);
      assert events == events[..n] + [e];
      if id in s.db.streams {
        StreamTimesAreRecorded(start, events[..n], id);
      } else {
        NeverOfflineYet(start, events[..n], id);
      }
      RecordStep(s, e, events[..n], id);
    }
  }
}
