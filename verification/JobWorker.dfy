/**
 The worker loops in their own form: objects over the two tables whose methods update rows and
 commit, each tied to the transactions of JobTables and to the events of JobRuns.
 */
module JobWorker {
  import opened Wrappers
  import opened JobTables
  import opened JobRuns

  // How a handler call ends: it returns, it raises, or the process dies inside it.
  datatype Outcome = HandlerReturned(at: Time) | HandlerRaised(at: Time) | ProcessDied

  ghost function RunJobResult(db: Db, j: JobId, at: Time, outcome: Outcome): Db
    requires j in db.jobs
  {
    var started := Start(db, j, at);
    if db.jobs[j].stream !in db.streams then started
    else
      match outcome
      case ProcessDied => started
      case HandlerReturned(end) => Complete(started, j, end)
      case HandlerRaised(end) => RegisterFailure(started, j, end)
  }

  function FinalizeAll(db: Db, todo: seq<StreamId>): Db {
    if todo == [] then db else Finalize(FinalizeAll(db, todo[..|todo| - 1]), todo[|todo| - 1])
  }

  class Tables {
    var streams: map<StreamId, Stream>
    var jobs: map<JobId, Job>
    var nextStream: StreamId
    var nextJob: JobId

    function View(): Db
      reads this
    {
      Db(streams, jobs, nextStream, nextJob)
    }

    constructor ()
      ensures View() == Db(map[], map[], 0, 0)
    {
      streams, jobs, nextStream, nextJob := map[], map[], 0, 0;
    }

    method EnqueueJob(kind: JobKind, s: StreamId)
      modifies this
      ensures View() == Enqueue(old(View()), kind, s)
    {
      jobs := jobs[nextJob := Job(kind, s, Queued, 0, None, None, None)];
      nextJob := nextJob + 1;
    }

    /** A duplicate stream.online finds the active stream and inserts nothing. */
    method StartStream(channel: ChannelId, startedAt: Time)
      modifies this
      ensures View() == JobTables.StartStream(old(View()), channel, startedAt)
      ensures HasActive(View(), channel)
    {
      if HasActive(View(), channel) { return; }
      streams := streams[nextStream := Stream(channel, startedAt, None, Capturing)];
      assert IsActive(View(), nextStream, channel);
      nextStream := nextStream + 1;
    }

    /** stream.offline stamps the end once; the status stays capturing. */
    method MarkStreamOffline(s: StreamId, endedAt: Time)
      requires s in streams
      modifies `streams
      ensures View() == MarkOffline(old(View()), s, endedAt)
      ensures streams[s].endedAt.Some? && streams[s].status == old(streams)[s].status
    {
      if streams[s].endedAt.Some? { return; }
      streams := streams[s := streams[s].(endedAt := Some(endedAt))];
    }

    /** Requeues or abandons every running job of a kind whose heartbeat stopped. */
    method ReclaimDeadJobs(kind: JobKind, now: Time, dead: seq<JobId>)
      requires forall j :: j in dead ==> j in View().jobs
      requires forall j :: j in dead <==> Reclaimable(View(), kind, now, j)
      requires forall a, b :: 0 <= a < b < |dead| ==> dead[a] != dead[b]
      modifies `jobs, `streams
      ensures View() == ReclaimAll(old(View()), dead, now)
    {
      var i := 0;
      assert forall k :: 0 <= k < |dead| ==> dead[k] in dead;
      while i < |dead|
        invariant 0 <= i <= |dead|
        invariant forall j :: j in dead[..i] ==> j in old(jobs)
        invariant View() == ReclaimAll(old(View()), dead[..i], now)
      {
        var j := dead[i];
        assert dead[..i + 1][..i] == dead[..i];
        var job := jobs[j];
        if job.attempts >= MAX_ATTEMPTS {
          jobs := jobs[j := job.(status := Abandoned, finishedAt := Some(now))];
          if job.stream in streams {
            streams := streams[job.stream := streams[job.stream].(status := Failed)];
          }
        } else {
          jobs := jobs[j := job.(status := Queued)];
        }
        i := i + 1;
      }
      assert dead[..|dead|] == dead;
    }

    /** One job from pick to verdict: start, handler, then done with the next stage's job in the same
        commit, or failure. A death inside the handler leaves the started row. */
    method RunJob(j: JobId, at: Time, outcome: Outcome)
      requires j in jobs
      modifies this
      ensures View() == RunJobResult(old(View()), j, at, outcome)
    {
      var job := jobs[j];
      if job.stream !in streams {
        jobs := jobs[j := job.(status := Abandoned)];
        return;
      }
      var spec := SpecOf(job.kind);
      job := job.(status := Running, attempts := job.attempts + 1, startedAt := Some(at), lastBeat := Some(at));
      jobs := jobs[j := job];
      streams := streams[job.stream := streams[job.stream].(status := spec.running)];
      if outcome.ProcessDied? { return; }
      if outcome.HandlerRaised? {
        FailJob(j, outcome.at);
        return;
      }
      jobs := jobs[j := job.(status := Done, finishedAt := Some(outcome.at))];
      streams := streams[job.stream := streams[job.stream].(status := spec.done)];
      if spec.next.Some? {
        EnqueueJob(spec.next.value, job.stream);
      }
    }

    method FailJob(j: JobId, now: Time)
      requires j in jobs
      modifies `jobs, `streams
      ensures View() == RegisterFailure(old(View()), j, now)
    {
      var job := jobs[j];
      if job.stream !in streams { return; }
      if job.attempts >= MAX_ATTEMPTS {
        jobs := jobs[j := job.(status := Abandoned, finishedAt := Some(now))];
        streams := streams[job.stream := streams[job.stream].(status := Failed)];
      } else {
        jobs := jobs[j := job.(status := Queued)];
      }
    }

    /** The atomic handover: the status and the transcribe job appear together. */
    method FinalizeStream(s: StreamId)
      modifies this
      ensures View() == Finalize(old(View()), s)
    {
      if s !in streams { return; }
      streams := streams[s := streams[s].(status := QueuedTranscription)];
      EnqueueJob(Transcribe, s);
    }
  }

  /** The capture worker: a dict of sessions, refreshed by one poll at a time. */
  class CaptureWorker {
    const tables: Tables
    var sessions: set<StreamId>

    constructor (tables: Tables)
      ensures this.tables == tables && sessions == {}
    {
      this.tables, sessions := tables, {};
    }

    /** One turn of run_forever: a session for every live stream, then every ended one is finalized, with
        its session or, after a restart, without. */
    method Poll(live: seq<StreamId>, ended: seq<StreamId>)
      requires Lists(live, Live(tables.View())) && Lists(ended, Ended(tables.View()))
      modifies this, tables
      ensures tables.View() == FinalizeAll(old(tables.View()), ended)
      ensures sessions == (old(sessions) + Live(old(tables.View()))) - (set s | s in ended)
    {
      var i := 0;
      while i < |live|
        invariant 0 <= i <= |live|
        invariant sessions == old(sessions) + (set s | s in live[..i])
        invariant tables.View() == old(tables.View())
      {
        assert live[..i + 1] == live[..i] + [live[i]];
        if live[i] !in sessions {
          sessions := sessions + {live[i]};
        }
        i := i + 1;
      }
      assert live[..|live|] == live && (set s | s in live) == Live(old(tables.View()));
      ghost var started := sessions;
      i := 0;
      while i < |ended|
        invariant 0 <= i <= |ended|
        invariant sessions == started - (set s | s in ended[..i])
        invariant tables.View() == FinalizeAll(old(tables.View()), ended[..i])
      {
        assert ended[..i + 1] == ended[..i] + [ended[i]];
        assert ended[..i + 1][..i] == ended[..i];
        if ended[i] in sessions {
          sessions := sessions - {ended[i]};
        }
        tables.FinalizeStream(ended[i]);
        i := i + 1;
      }
      assert ended[..|ended|] == ended;
    }
  }

  // ----- the methods are steps of the runs -------------------------------------------

  /** A worker that runs one job makes at most two steps, or three with its death. */
  lemma RunJobIsARun(s: Sys, w: WorkerId, j: JobId, at: Time, outcome: Outcome) returns (events: seq<Event>)
    requires w !in s.busy && j in s.db.jobs && s.db.jobs[j].status.Queued? && s.db.jobs[j].stream in s.db.streams
    ensures Runs(s, events)
    ensures After(s, events) == s.(db := RunJobResult(s.db, j, at, outcome))
  {
    var first := PickAndStart(w, j, at);
    OneStep(s, first);
    var s1 := Step(s, first);
    var second := match outcome
      case ProcessDied => WorkerDies(w)
      case HandlerReturned(end) => Returned(w, end)
      case HandlerRaised(end) => Raised(w, end);
    OneStep(s1, second);
    RunsConcat(s, [first], [second]);
    events := [first] + [second];
    assert s1.busy - {w} == s.busy;
  }

  ghost predicate OnlyCaptures(events: seq<Event>) {
    forall e :: e in events ==> e.CapturePoll? || e.FinalizeNext?
  }

  // The first n ended streams of the poll under way are finalized.
  ghost predicate Finalized(s: Sys, r: Sys, n: nat)
    requires n <= |s.todo|
  {
    && r.db == FinalizeAll(s.db, s.todo[..n]) && r.todo == s.todo[n..] && r.busy == s.busy
    && r.sessions == s.sessions - (set x | x in s.todo[..n])
  }

  lemma FinalizedNext(s: Sys, r: Sys, n: nat)
    requires n < |s.todo| && Finalized(s, r, n)
    ensures Enabled(r, FinalizeNext) && Finalized(s, Step(r, FinalizeNext), n + 1)
  {
    assert s.todo[..n + 1] == s.todo[..n] + [s.todo[n]];
    assert s.todo[..n + 1][..n] == s.todo[..n];
  }

  lemma {:induction false} FinalizingIsARun(s: Sys, n: nat) returns (events: seq<Event>)
    requires n <= |s.todo|
    ensures Runs(s, events) && Finalized(s, After(s, events), n) && OnlyCaptures(events)
  {
    events := [];
    if n > 0 {
      events := FinalizingIsARun(s, n - 1);
      FinalizedNext(s, After(s, events), n - 1);
      ExtendRun(s, events, FinalizeNext);
      events := events + [FinalizeNext];
    }
  }

  /** A poll of the capture worker is one reading of the streams followed by its finalizations, so it keeps
      every law of the runs; a crash between two of them is CaptureDies. */
  lemma PollIsARun(s: Sys, ended: seq<StreamId>) returns (events: seq<Event>)
    requires s.todo == [] && Lists(ended, Ended(s.db))
    ensures Runs(s, events)
    ensures var r := After(s, events);
            && r.db == FinalizeAll(s.db, ended) && r.todo == [] && r.busy == s.busy
            && r.sessions == (s.sessions + Live(s.db)) - (set x | x in ended)
    ensures OnlyCaptures(events)
  {
    OneStep(s, CapturePoll(ended));
    var s1 := Step(s, CapturePoll(ended));
    var rest := FinalizingIsARun(s1, |ended|);
    assert s1.todo[..|ended|] == ended;
    RunsConcat(s, [CapturePoll(ended)], rest);
    events := [CapturePoll(ended)] + rest;
  }

  lemma {:induction false} FinalizeAllEffect(db: Db, order: seq<StreamId>, id: StreamId)
    requires id in db.streams
    ensures id in FinalizeAll(db, order).streams
    ensures FinalizeAll(db, order).streams[id] ==
      if id in order then db.streams[id].(status := QueuedTranscription) else db.streams[id]
  {
    if order != [] {
      FinalizeAllEffect(db, order[..|order| - 1], id);
      assert order == order[..|order| - 1] + [order[|order| - 1]];
    }
  }

  lemma {:induction false} FinalizeAllStreams(db: Db, order: seq<StreamId>)
    ensures FinalizeAll(db, order).streams.Keys == db.streams.Keys
  {
    if order != [] { FinalizeAllStreams(db, order[..|order| - 1]); }
  }

  /** After a poll every live stream has a session, and no ended one. */
  lemma SessionsFollowStreams(s: Sys, ended: seq<StreamId>)
    requires Lists(ended, Ended(s.db)) && CaptureAgrees(s)
    ensures var db, sessions := FinalizeAll(s.db, ended), (s.sessions + Live(s.db)) - (set x | x in ended);
            forall id :: id in sessions <==> id in Live(db)
  {
    FinalizeAllStreams(s.db, ended);
    var db := FinalizeAll(s.db, ended);
    forall id | id in s.db.streams
      ensures id !in ended ==> db.streams[id] == s.db.streams[id]
      ensures id in ended ==> db.streams[id] == s.db.streams[id].(status := QueuedTranscription)
    {
      FinalizeAllEffect(s.db, ended, id);
    }
  }

  /** And an ended stream never stays capturing for good: wherever the capture worker is in its poll, and
      whatever order its queries return, finishing this poll and making one more finalizes it. */
  lemma EndedIsFinalized(s: Sys, id: StreamId, plan: set<StreamId> -> seq<StreamId>) returns (events: seq<Event>)
    requires id in Ended(s.db) && forall x :: Lists(plan(x), x)
    ensures Runs(s, events)
    ensures id in After(s, events).db.streams && After(s, events).db.streams[id].status.QueuedTranscription?
    ensures After(s, events).busy == s.busy && OnlyCaptures(events)
  {
    events := FinalizingIsARun(s, |s.todo|);
    assert s.todo[..|s.todo|] == s.todo;
    FinalizeAllEffect(s.db, s.todo, id);
    var s1 := After(s, events);
    if id !in s.todo {
      var order := plan(Ended(s1.db));
      assert Lists(order, Ended(s1.db));
      var more := PollIsARun(s1, order);
      FinalizeAllEffect(s1.db, order, id);
      RunsConcat(s, events, more);
      events := events + more;
    }
  }
}
