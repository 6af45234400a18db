# A verified model of the live-stream backend

This project models the protocols and algorithms of a Twitch analytics backend in Dafny and proves what
its code and documentation promise about them. The database is explicit state: tables are maps or
sequences of rows, a commit is an atomic step, a rollback or the death of a process returns to the last
commit. Whatever Twitch, the mail provider, the language model, the clock or the scheduler answers is an
arbitrary value.

Where the source changes things step by step (sessions, workers, loops, accumulators) the model is a class
or a method with a loop, proved equal to a function on values; the laws are then lemmas about that function
or about all runs of a state machine. Where one call of a method is one run of the machine, a lemma says
so (`SyncIsARun`, `RunJobIsARun`, `PollIsARun`, `SendOneIsARun`).

| part | files |
|---|---|
| follower synchronisation | `FollowerTables`, `FollowerRuns`, `FollowerSpec`, `FollowerWalk`, `FollowerDrain`, `FollowerEnrichment`, `FollowerReport`, `FollowerSync` |
| job pipeline | `JobTables`, `JobRuns`, `JobTheorems`, `JobProgress`, `JobWorker`, `JobHistory`, `JobEnds` |
| queue order and next-live estimate | `Sorting`, `Schedule`, `QueueOrder` |
| EventSub deduplication | `EventSub` |
| email digests | `Calendar`, `DigestRuns`, `DigestSender` |
| record table | `Records`, `RecordTheorems` |
| analysis budget | `Budget`, `AnalysisBudget` |
| chat lines | `Text`, `Irc`, `IrcTheorems` |
| chat peaks | `Peaks`, `PeakTheorems` |
| speech regions | `Regions` |
| audience dips | `Dips` |
| clip detector | `ClipDetector` |
| account-age window | `AgeWindow` |
| shared | `Wrappers`, `Numbers`, `Sequences` |

Assumptions the theorems make, each visible in a `requires` or in the machine it is about:

- one worker process per job type and one follower-sync worker per channel at a time; pick and start are
  one step;
- when jobs of a kind are reclaimed, no live worker inside a handler of that kind is more than five minutes
  behind with its beats (`Timely`). A poll keeps the invariant exactly then (`ReclaimKeepsInvIff`), and over whole
  runs it means starts, beats and polls at most five minutes apart (`SteadyIff`); with one
  worker process per type the poller is the only such worker, so nothing is assumed (`OneWorkerPipeline`);
  `SecondRunnerBreaksIt`, `LateBeatLeadsThere` and `SilenceBreaksIt` show what happens otherwise;
- the process clock does not go back from one EventSub claim to the next, and a message id is signed with one
  timestamp; unsigned requests may carry any (`ForgeriesDoNotMatter`).
  How early and how late a message comes, the delay between the two readings of the process clock and the
  drift of the database's clock, which dates the claim, are parameters (`Timing`); `WindowsFitExactly` says
  how far they may add up;
- a mail provider holds an email exactly when it answers below 300 with a message id, silence leaving it
  open (`Honest`), and a run does not die between its email and its commit unless the email was refused
  (`Calm`); `CrashBeforeCommitRepeats` shows what such a death costs;
- the answers of the language model keep to their token caps, and the content found in one is no longer than
  the answer, as it is for a JSON string (`Answers`); nothing is assumed of prompts and answers a live does not
  make, and the overhead of its prompts is bounded for the remote counter (`RemoteCosts`);
- a channel keeps its time zone, so a window is a range of local dates;
- a live's record metrics do not change between analyses;
- the refinement and draining results hold Twitch's list fixed while they run; safety and conservation
  do not.

Where the documentation and the code disagree, the model follows the code and says how far they agree:

- `backfill_records` calls itself idempotent; a second run keeps only the current best of each metric
  (`BackfillAgainKeepsTheBest`, `BackfillIsIdempotentIff`, `BackfillIsNotIdempotent`);
- a page of followers that lists one new person twice fails at its commit and interrupts the walk
  (`Conflicts`), although `_store_page` reads as if any page were accepted;
- `retention_and_dips` keeps one dip when asked for none (`LimitIsRespectedIff`);
- the reserve of the analysis is said to be what the three final steps need, and not to be spent by blocks; it
  counts neither the text around a block's context nor that around the context of the final steps, so it can be
  too small (`ReserveIsExact`), and `RemoteAnalysisIsComplete` says when it is not;
- the dedup window is as long as the freshness window, which is enough only if all clocks and readings agree
  (`SourceWindowsHaveNoSlack`); with any difference it is enough when retries stop that much earlier
  (`HandledAtMostOnce`);
- a requeued job leaves its stream's status at the running one, so "running" on a stream does not mean that
  a job of it runs (`Agrees` in `JobRuns`).

## Model

| member | source | states |
|---|---|---|
| FollowerTables.StorePageEffect | core/follower_sync.py:245-282 | a page keeps every row, adds exactly the ids it lists, stamps exactly those with the pass start, and changes nothing but login and stamp of a row that was there |
| FollowerTables.StorePageWrites | core/follower_sync.py:245-282 | for a person the page lists once: the login listed, and for a new person also the follow date listed, with an empty profile |
| FollowerTables.EnrichBatchEffect | core/follower_sync.py:304-328 | whatever subset Twitch returns, a round leaves its whole batch stamped, so pending shrinks by exactly the batch; follow data of everyone is untouched |
| FollowerTables.EnrichStreamersBatchEffect | core/follower_sync.py:341-363 | the same for streamer details |
| FollowerTables.ConfirmRows | core/follower_sync.py:480-498 | confirming deletes exactly the members whose account is gone or who no longer follow, stamps the confirmed ones, leaves the rest |
| FollowerTables.ConfirmUnfollows | core/follower_sync.py:480-498 | every unfollow written is about a denied member, with the reason that separates the two denials and the deleted row's own data |
| FollowerTables.ConfirmConserves | core/follower_sync.py:525-544 | for each person, stored plus recorded-as-gone is unchanged: a deletion carries exactly one unfollow |
| FollowerEnrichment.RoundWritesProfiles | core/follower_sync.py:304-328 | a round writes about everyone in its batch the login, the whole profile and the stamp of the last answer, or the stamp alone when nothing was answered, and about nobody else anything |
| FollowerEnrichment.FollowersGetTheirProfiles | core/follower_sync.py:289-328 | over the whole loop: whoever was enriched is untouched, everyone else is asked about once and gets what was answered, unless a lookup failed before |
| FollowerEnrichment.RoundsAreCounted | core/follower_sync.py:302-328 | the count is the answers about the batch, round after round |
| FollowerEnrichment.RoundWritesInfos | core/follower_sync.py:341-363 | a round writes about everyone in its batch the channel information last answered and the stamp, or the stamp alone |
| FollowerEnrichment.StreamersGetTheirInfos | core/follower_sync.py:331-363 | over the whole loop only affiliates and partners not yet asked about change, each by what was answered |
| FollowerEnrichment.StreamerRoundsAreCounted | core/follower_sync.py:339-363 | the count of the streamer loop |
| FollowerEnrichment.BothLoops | core/follower_sync.py:217-242 | streamers only after all followers; nothing counted when either fails |
| FollowerEnrichment.BatchIs | core/follower_sync.py:366-399 | a batch is the first of the pending rows, a hundred at most |
| FollowerReport.LastListingWins | core/follower_sync.py:245-282 | of two listings of a person in a page the last login is kept |
| FollowerReport.ConflictsIff | core/follower_sync.py:245-282 | the unique index refuses a page exactly when it inserts more rows than it lists new people |
| FollowerReport.LiveFollowIs | apps/api/eventsub.py:192-218 | the live follow event adds a new person with its date and leaves a known one alone |
| FollowerReport.CandidatesAre | core/follower_sync.py:435-447 | candidates followed before the pass and were not seen in it |
| FollowerReport.TooManyIs | core/follower_sync.py:402-407 | the guard refuses more than ten candidates that are more than a quarter of the reported total |
| FollowerReport.UnfollowsCarryRows | core/follower_sync.py:525-544 | an unfollow carries the row field by field, the time, and the reason |
| FollowerReport.ReconcileReports | core/follower_sync.py:447-499 | departures of each kind as written, candidates deferred or refused, and when it asks, refuses or raises |
| FollowerRuns.StepKeepsInv | core/follower_sync.py:122-214 | every event of the worker, of Twitch, of a crash and of the live follow webhook keeps the invariant that ties cursor, stamps, batch and history together |
| FollowerRuns.DeletionIsSafe | core/follower_sync.py:416-499 | in every run a row disappears only if its pass completed, no stored page of the pass listed it across restarts, it followed before the pass, the candidates passed the guard, and the account was absent or the direct check said no; exactly one unfollow commits with it |
| FollowerRuns.RowsAreConserved | core/follower_sync.py:525-544 | at every point of every run, rows ever inserted equal rows present plus unfollows, person by person and in all |
| FollowerRuns.CursorNeverAhead | core/follower_sync.py:162-173 | at every commit, everyone listed by the pages the stored cursor has passed holds a row with the stored pass start |
| FollowerSpec.SyncIsARun | core/follower_sync.py:122-214 | one call, whatever it is told, is a run of the machine, so the laws above hold of it |
| FollowerSpec.CountersAddUp | core/follower_sync.py:194-214 | in a completed pass, rows before plus rows added are rows after plus people reported unfollowed or gone, and as many unfollows were recorded |
| FollowerReport.WalkStops | core/follower_sync.py:156-186 | after k stored pages: cursor, start and total of the last of them, the error by how the walk ended, and the pages and total counted |
| FollowerReport.CallLeaves | core/follower_sync.py:122-201 | the channel after a refused token, an unfinished walk, a completed pass and a raised check |
| FollowerReport.ResultIs | core/follower_sync.py:122-214 | which calls report nothing, and each counter of those that do |
| FollowerSync.Session.Commit | core/follower_sync.py:170 | a commit makes the session's view the committed state |
| FollowerSync.Session.Rollback | core/follower_sync.py:175 | a rollback makes the committed state the session's view |
| FollowerSync.Session.RequestSync | core/follower_sync.py:112-119 | a login clears the stamp, lifts a token refusal and no other error, and leaves cursor and pass start alone |
| FollowerSync.Session.StorePage | core/follower_sync.py:245-282 | the loop over a page computes the page's effect and the number of inserts, or reports that the unique index will refuse it |
| FollowerSync.Session.EnrichFollowers | core/follower_sync.py:289-328 | the batch loop ends for every Twitch answer, commits each batch, computes the enrichment of the rows and returns how many were enriched |
| FollowerSync.Session.ApplyProfilesLoop | core/follower_sync.py:309-325 | one round applies the profiles asked for and stamps the rest |
| FollowerSync.Session.EnrichStreamers | core/follower_sync.py:331-363 | the same loop for streamer details |
| FollowerSync.Session.EnrichBestEffort | core/follower_sync.py:217-242 | a failed lookup keeps the batches committed, records the error and reports none enriched |
| FollowerSync.Session.ApplyInfosLoop | core/follower_sync.py:351-361 | one round of it |
| FollowerSync.Session.SettleBatch | core/follower_sync.py:484-498 | the confirmation loop computes the confirmed database and counts both kinds of departure |
| FollowerSync.Session.ReconcileUnfollows | core/follower_sync.py:416-499 | candidates, guard, batch limit, confirmation and one commit, with the people unfollowed, gone and deferred; a failed check changes nothing committed |
| FollowerSync.Session.TakePage | core/follower_sync.py:162-179 | a page, its cursor, total and cleared error commit together, or nothing does but the error |
| FollowerSync.Session.WalkPages | core/follower_sync.py:156-186 | the walk from the stored cursor ends completed, interrupted or cut, with the committed pages and the counters of the walk |
| FollowerSync.Session.AfterCompletedWalk | core/follower_sync.py:188-193 | enrichment, reconciliation and the stamp of a finished pass; completed exactly when reconciliation did not raise, with its counters |
| FollowerSync.Session.SyncChannel | core/follower_sync.py:122-214 | the whole call leaves the database that the specification of a pass says and reports its SyncResult, completed exactly when the pass went all the way |
| FollowerWalk.UninterruptedWalk | core/follower_sync.py:156-173 | over a frozen list, the loop told every page computes the walked database |
| FollowerWalk.InterruptionsCostNothing | core/follower_sync.py:151-193 | over a frozen list, a walk cut by exceptions and deaths anywhere and resumed any number of times ends in the very database of one uninterrupted call |
| FollowerWalk.StampedAreTheList | core/follower_sync.py:151-193 | that database has a row for every listed id and every id that had one, and the rows stamped with the pass start are the list together with rows that carried that very stamp before |
| FollowerWalk.StampedExactly | core/follower_sync.py:151-193 | for a start time no row carries yet, the rows stamped with it are exactly the list |
| FollowerDrain.StepDrains | core/follower_sync.py:416-499 | over a list that does not move, no step loses a listed row, only a confirmed batch of at most 200 changes the number of departed ones, and a pass that completes has settled what the guard lets it |
| FollowerDrain.DeparturesDrain | core/follower_sync.py:450-499 | in every run, with passes cut, resumed, failed and killed at any step: nobody listed is lost, max(0, D - 200 n) of D believable departures are left after n batches and no more after n completed passes, all of them above the guard |
| FollowerDrain.FullyDrained | core/follower_sync.py:450-499 | within the guard, ceil(D / 200) completed passes leave exactly the list |
| FollowerDrain.ResumedPassDrains | core/follower_sync.py:151-193 | a walk cut and resumed any number of times, then the end of a pass: no listed row is lost and min(200, D) of D believable departures go unless a check raises |
| FollowerDrain.OneCallDrains | core/follower_sync.py:122-214 | one call that begins, resumes, fails or completes a pass loses nobody listed, and removes min(200, D) believable departures exactly if it completes |
| FollowerDrain.CallsDrain | core/follower_sync.py:122-214 | over any sequence of calls of which n completed, max(0, D - 200 n) believable departures are left, all of them above the guard |
| FollowerDrain.CallsFullyDrain | core/follower_sync.py:122-214 | within the guard, ceil(D / 200) completed calls among any others leave exactly the list |
| JobRuns.StepKeepsInv | core/worker_loop.py:120-233 | every step of the webhook, the capture worker, the two job workers, a reclaim and a death keeps the invariant over streams, jobs and processes |
| JobRuns.ReclaimKeepsInvIff | core/worker_loop.py:120-170 | a poll keeps that invariant if and only if no live worker inside a handler of the polled kind is late with its beats |
| JobTheorems.PipelineIsConsistent | core/worker_loop.py:173-233 | in every reachable state a stream's status and its job rows tell one story: capturing has no job, each queued or running status one open job of its kind with the earlier stage done, ready both done, failed exactly one failed; at most one job of each kind per stream and one active stream per channel |
| JobTheorems.OneWorkerEachRuns | core/worker_loop.py:236-246 | when the poller of a type is its only worker, every run is a run in the sense of these theorems, whatever beats are lost |
| JobTheorems.OneWorkerPipeline | core/worker_loop.py:173-246 | so with one worker process per type the two tables agree with no assumption on heartbeats |
| JobTheorems.ThreeStartsPerJob | core/worker_loop.py:180-185 | a handler starts at most 3 times for a job, attempts counts the starts, running means 1 to 3 and queued at most 2 |
| JobTheorems.SixStartsPerStream | workers/transcribe/main.py:19-24 | at most 3 transcriptions and 3 analyses start for one stream |
| JobHistory.JobTimesAreRecorded | core/worker_loop.py:173-233 | in every reachable state a job's start is that of its last attempt, and it has an end exactly when it is done or given up, the time of the event that ended it |
| JobHistory.StreamTimesAreRecorded | core/streams.py:25-51 | a stream has the channel and start of an online message of the run, and the end of its offline message, if any |
| JobTheorems.ReclaimIsExact | core/worker_loop.py:120-170 | a poll takes out of running exactly the jobs of its kind whose beats stopped over five minutes ago, and abandons exactly those on their third attempt |
| JobTheorems.SteadyIff | core/worker_loop.py:84-140 | the runs in which no poll finds a live worker late are exactly those in which the times of a worker's start, its beats and the polls of its kind are at most 300 seconds apart |
| JobTheorems.BeatingJobsAreSafe | core/worker_loop.py:84-117 | in such runs no poll takes a live worker's job, and a running job has at most one live worker |
| JobProgress.RankStep | core/worker_loop.py:173-233 | every event about a stream decreases its measure of stages left, attempts left and running flag; no other event changes it |
| JobProgress.StreamsFinish | core/worker_loop.py:173-233 | in every run at most 14 events are about one stream before it is ready or failed |
| JobProgress.NeverStuck | core/worker_loop.py:236-246 | the open job of an unfinished stream is queued and any idle worker can start it, or running and its worker can end it |
| JobProgress.StaleIsTakenBack | core/worker_loop.py:127-169 | a running job whose beats stopped leaves running at the first poll after five minutes: queued again, or abandoned after three attempts |
| JobProgress.SecondRunnerBreaksIt | core/worker_loop.py:173-206 | from any consistent state in which a transcribe job is queued again while a live worker still runs it, any idle worker's start and the two returns leave two analyze jobs for its stream |
| JobProgress.LateBeatLeadsThere | core/worker_loop.py:120-170 | every poll that finds a live worker late with a transcribe job of fewer than three attempts leads to such a state |
| JobProgress.SilenceBreaksIt | core/worker_loop.py:24-29 | an instance: a run from an empty database to two analyze jobs for one stream |
| JobWorker.Tables.EnqueueJob | workers/capture/session.py:62-62 | a new queued job with no attempts |
| JobWorker.Tables.StartStream | core/streams.py:25-38 | a duplicate stream.online inserts nothing; afterwards the channel has an active stream |
| JobWorker.Tables.MarkStreamOffline | core/streams.py:41-51 | the end is stamped once and the status stays capturing |
| JobWorker.Tables.ReclaimDeadJobs | core/worker_loop.py:141-169 | the loop over dead jobs requeues or abandons each, with its stream |
| JobWorker.Tables.RunJob | core/worker_loop.py:173-206 | start, handler, then done with the next stage's job in one commit, or failure; a death leaves the started row |
| JobWorker.Tables.FailJob | core/worker_loop.py:209-233 | requeued below three attempts, else failed together with its stream |
| JobWorker.Tables.FinalizeStream | workers/capture/session.py:53-63 | the handover: status and transcribe job in one commit |
| JobWorker.CaptureWorker.Poll | workers/capture/main.py:35-54 | one turn opens a session for every live stream and finalizes every ended one, known or not |
| JobWorker.RunJobIsARun | core/worker_loop.py:173-206 | running one job is a run of the machine |
| JobWorker.PollIsARun | workers/capture/main.py:35-54 | one poll of the capture worker is a run of the machine |
| JobWorker.EndedIsFinalized | workers/capture/main.py:35-54 | a stream that has ended and is still capturing can always be polled and finalized |
| JobWorker.SessionsFollowStreams | workers/capture/main.py:35-54 | after a poll exactly the live streams have a session |
| JobEnds.EveryStreamCanEnd | core/worker_loop.py:120-246 | from every state of the invariant, every stream that is not live can be brought to its end with nothing failing any more: finish the poll, beat the live workers, take the orphan back, start, return; it ends failed exactly if it had failed or its job had lost its worker on the third attempt, and ready otherwise |
| JobEnds.NoStreamHangs | core/worker_loop.py:120-246 | so every run can be continued to the end of every stream that is not live, at any time more than five minutes after the last beat |
| Sorting.SortBySorted | workers/analyze/peaks.py:54-54 | the sort the source relies on orders by its key |
| Sorting.SortByMultiset | workers/analyze/peaks.py:54-54 | it permutes its input |
| Sorting.SortByStable | workers/analyze/peaks.py:54-54 | it keeps the order of ties, also when reversed |
| Sorting.DoubledMedianSplits | workers/analyze/peaks.py:36-36 | at least half of the elements are not above the median and at least half not below |
| Sorting.DoubledMedianIs | workers/analyze/peaks.py:36-36 | the median by ranks: half the sum of the elements below and above the middle |
| Schedule.GroupByWeekday | core/schedule.py:21-26 | the dict has a weekday exactly when some live started on it, with its start minutes in order |
| Schedule.CollectCandidates | core/schedule.py:28-39 | the loop collects the slots after now of the next eight days |
| Schedule.EstimateNextLive | core/schedule.py:15-42 | the loops compute the specified estimate |
| Schedule.TypicalIsAMedian | core/schedule.py:34-34 | the typical minute has half of the starts on either side |
| Schedule.TypicalIs | core/schedule.py:34-34 | it is the median by ranks, cut to a whole minute |
| Schedule.SlotIs | core/schedule.py:21-36 | a day has a slot exactly when some start lies whole weeks away, at the median minute of those starts |
| Schedule.NoHistory | core/schedule.py:18-19 | without history the estimate is a day from now |
| Schedule.BeforeIs | core/schedule.py:37-39 | moments are compared as times on the clock |
| Schedule.EstimateIsEarliestSlot | core/schedule.py:15-42 | for every non-empty history and moment the estimate is the earliest (weekday, median minute) slot after now, at most seven days later, and the last fallback is never taken |
| QueueOrder.PickNextJob | core/worker_loop.py:64-81 | a queued job of the type that no other of them goes before, the first listed of equals, or none when there is none |
| QueueOrder.CollectDeadlines | apps/api/dashboard.py:942-953 | one estimate per channel with a job |
| QueueOrder.CountAhead | apps/api/dashboard.py:963-972 | the sum counts the queued jobs of the type with a strictly earlier deadline |
| QueueOrder.BuildItem | apps/api/dashboard.py:959-986 | position, jobs ahead and ETA for a queued job, none otherwise |
| QueueOrder.QueueStatus | apps/api/dashboard.py:934-987 | the loop computes the caller's items |
| QueueOrder.CallerSeesOwnJobs | apps/api/dashboard.py:955-987 | the items are exactly the caller's own rows, in row order, with stream, kind and status; a queued one has as many ahead as queued rows of its kind are due strictly earlier, the next position and the ETA of that many averages and its own; a running one has none |
| QueueOrder.NobodyAhead | apps/api/dashboard.py:968-972 | zero ahead exactly when no queued job of the kind is more urgent |
| QueueOrder.PlacesFollowUrgency | apps/api/dashboard.py:968-973 | a job is never shown behind one that is less urgent |
| QueueOrder.EtasFollowUrgency | apps/api/dashboard.py:973-976 | nor is its ETA later |
| QueueOrder.PickedIsShownFirst | core/worker_loop.py:64-81 | the job the worker takes is shown in position 1 with zero jobs ahead and one average as its ETA at the same now, whatever order the two queries return |
| EventSub.Webhook.ClaimMessage | core/eventsub.py:62-88 | claimed exactly when no unexpired claim of the id exists; rows kept are within the window, the new row dated by the database |
| EventSub.Webhook.Callback | apps/api/eventsub.py:37-77 | secret (503), signature and freshness (403), then body and kind, each reply in exactly its case, exceptions before a claim included; only a claimed notification is handled, and a handler that raises (500) keeps its claim |
| EventSub.DeliveryIs | apps/api/eventsub.py:37-77 | only a signed, fresh notification in JSON touches the table; its handler is called exactly when no row within the window has its id, and then one row is added and older ones go |
| EventSub.HandledAtMostOnce | core/eventsub.py:53-88 | with the source's windows each message id is handled at most once in every run, although old claims are pruned and whatever is sent unsigned, when skew and retries as far as they pass as fresh, delay and drift together stay within the dedup window |
| EventSub.ForgeriesDoNotMatter | apps/api/eventsub.py:37-57 | a request without a matching signature, under any id and timestamp, changes nothing and leaves a run as orderly as it was |
| EventSub.WindowsFitExactly | core/eventsub.py:35-88 | handling is at most once over all runs if and only if the dedup window covers the skew and the retries that pass as fresh, the delay between the two clock readings and the drift of the database's clock |
| EventSub.SourceWindowsHaveNoSlack | core/eventsub.py:35-36 | with 600 and 600 and retries over the whole fresh window it holds exactly when skew, delay and drift are zero |
| EventSub.ClaimsStayYoung | core/eventsub.py:62-88 | after a claim no row is older than the dedup window, or than the drift of the clock that dated it |
| Calendar.NextFirstIsAMonthLater | core/db.py:27-31 | the exclusive end of a month is its start plus its days, leap years and December included |
| Calendar.PrevDayIsADayEarlier | core/digest.py:299-300 | the day before is one day earlier across months, years and leap days |
| Calendar.LastPeriodIs | core/digest.py:287-311 | the window of a date is the week or month just before the one the date lies in |
| Calendar.WindowIsTheLastCompleteOne | core/digest.py:287-311 | a window is not empty, ends at or before today, and today lies right after it |
| Calendar.WindowsNeverOverlap | core/digest.py:287-311 | two dates give one window exactly when they share the week or month, and disjoint windows otherwise |
| Calendar.PreviousWindowAdjoins | core/digest.py:314-324 | the previous window ends where this one starts and is the one that was due inside this one |
| Calendar.EveryDayHasOneWindow | core/digest.py:287-311 | every day lies in the window of the dates of exactly one week or month |
| DigestRuns.StepInv | scripts/send_email_digests.py:97-188 | every step of any number of interleaved runs keeps the invariant over log, reservations and attempts |
| DigestRuns.SentAtMostOnce | scripts/send_email_digests.py:97-188 | per channel, kind and window every email but the last was definitely not sent: at most one is accepted, and none follows an accepted or uncertain one |
| DigestRuns.OutcomesAreHonest | core/mailer.py:36-73 | what the run believes is what the provider did: accepted emails are held, definite failures are not, only silence leaves it open |
| DigestRuns.HeldAtMostOnce | scripts/send_email_digests.py:97-188 | the provider never holds two emails of one channel, kind and window |
| DigestRuns.NoDayReportedTwice | scripts/send_email_digests.py:78-111 | two emails of one channel and kind that may have been sent report windows without a common day |
| DigestRuns.LogIsTheSentEmails | scripts/send_email_digests.py:166-188 | with nothing in flight the rows are exactly the emails that may have been sent |
| DigestRuns.RowHasAnEmail | scripts/send_email_digests.py:185-188 | a row carries the message id returned for that window |
| DigestRuns.KeyTells | scripts/send_email_digests.py:97-111 | two digests share a row exactly when channel, kind and week or month agree |
| DigestRuns.FailureIsRetryable | scripts/send_email_digests.py:178-183 | a definite failure leaves the log as it was and the window can be reserved again |
| DigestRuns.CrashBeforeCommitRepeats | scripts/send_email_digests.py:166-188 | whenever a run dies after its email left and before its commit, the next run can send the window again |
| DigestSender.Sender.Rollback | scripts/send_email_digests.py:179-179 | the reservation is dropped |
| DigestSender.Sender.Commit | scripts/send_email_digests.py:185-187 | the reserved row and its message id are kept |
| DigestSender.Sender.Reserve | scripts/send_email_digests.py:97-111 | reserves exactly when the window has no row |
| DigestSender.Sender.SendOne | scripts/send_email_digests.py:137-188 | empty, already reserved, no recipient, uncertain, failed or sent, each with its log |
| DigestSender.Sender.Run | scripts/send_email_digests.py:191-216 | the loop computes log and summary, with rows of other runs arriving between check and insert |
| DigestSender.RunKeepsRows | scripts/send_email_digests.py:191-216 | a run never changes or removes a row |
| DigestSender.NewRowsAreExplained | scripts/send_email_digests.py:56-75 | every row a run adds is for someone who opted in and has an address, at or after the hour, not on a dry run, with something to report, and not refused |
| DigestSender.DueDigestIsSent | scripts/send_email_digests.py:56-216 | a visit to someone who opted in and has an address, due, not dry, with something to report and an accepted answer, in a window nobody has written, is sent: the log holds the row with the id and the summary says so |
| DigestSender.SilentDigestIsKept | scripts/send_email_digests.py:170-177 | an email whose outcome is unknown keeps its row, without an id |
| DigestSender.SummaryLists | scripts/send_email_digests.py:199-216 | the summary has an entry for exactly the visits to people who opted in and have an address or an override |
| DigestSender.SummarySays | scripts/send_email_digests.py:137-216 | and the entry is the verdict of the last of them, check by check |
| DigestSender.OthersAreSkipped | scripts/send_email_digests.py:56-66 | a visit to anyone else leaves no trace |
| DigestSender.OthersRowsStay | scripts/send_email_digests.py:97-111 | rows of other runs stay |
| DigestSender.LaterRunsAreQuiet | scripts/send_email_digests.py:78-94 | after a sent or uncertain visit every later visit in the same week or month reports already sent and posts nothing |
| DigestSender.DryRunChangesNothing | scripts/send_email_digests.py:211-214 | a dry run leaves the log alone |
| DigestSender.SendOneIsARun | scripts/send_email_digests.py:137-188 | one send is reserve, post, settle in the machine, and its status word is the outcome of its one email |
| Records.RecordTable.UpdateStreamRecords | core/records.py:138-174 | the metric loop computes the table after one analysis and the metrics broken |
| Records.RecordTable.BackfillRecords | core/records.py:229-242 | the loop over lives computes the replayed table and the rows written |
| Records.RecordTable.CurrentBest | core/records.py:177-189 | the loop computes the best of each metric |
| Records.RecordTable.RecordsHeldByStream | core/records.py:192-203 | each holder's metrics, in the enum's order, and no live without one |
| RecordTheorems.UpdateMember | core/records.py:138-174 | after an analysis: the other lives' rows, and one row per metric on which the live strictly beats all of them |
| RecordTheorems.AnalysedOk | core/records.py:138-174 | after any analyses every row is some analysed live's positive value and no two rows of a metric tie |
| RecordTheorems.BestRecord | core/records.py:138-174 | in any order and with repeats, the best positive value has a row held by the first live analysed with it, and every other row is lower |
| RecordTheorems.CurrentBestIsTheRecord | core/records.py:177-189 | the current best is that row whatever order the rows come in, and absent exactly when no live has a positive value |
| RecordTheorems.BestIsFirstHighest | core/records.py:177-189 | of any rows, in the order they come, the current best is the first of the highest |
| RecordTheorems.HeldByHolder | core/records.py:192-203 | a metric is listed under exactly the live that holds it |
| RecordTheorems.HeldInOrder | core/records.py:192-203 | the badges of a live come in the order of the enum, each once |
| RecordTheorems.BrokenInOrder | core/records.py:151-174 | so do the metrics an analysis reports |
| RecordTheorems.BestIsTheMetric | core/records.py:138-189 | rows and current best carry the computed metric, the highest and positive |
| RecordTheorems.BackfillWritesTheMaxima | core/records.py:229-242 | from an empty table the backfill writes exactly the strict left-to-right maxima |
| RecordTheorems.FirstBackfillCounts | core/records.py:238-242 | its count is the number of rows it leaves |
| RecordTheorems.BackfillAgainKeepsTheBest | core/records.py:229-242 | a second backfill keeps exactly the current best of each metric |
| RecordTheorems.BackfillIsIdempotentIff | core/records.py:229-232 | it reproduces the rows if and only if no metric has more than one row |
| RecordTheorems.BackfillIsNotIdempotent | core/records.py:229-232 | two lives on which it does not |
| Budget.TruncateToTokens | core/llm.py:188-199 | the binary search computes the truncation |
| Budget.TruncationIsTight | core/llm.py:188-199 | for every counter: a prefix, fitting unless empty, and one character more would not fit |
| Budget.TruncationIsLongest | core/llm.py:188-199 | for a monotone counter: the longest prefix that fits |
| Budget.CharCounterIsRegular | core/llm.py:138-142 | the remote counter is monotone and subadditive |
| Budget.CharTruncation | core/llm.py:138-142 | with it, truncation keeps exactly the first 4 max characters |
| Budget.LedgerBalances | core/llm.py:222-228 | after any calls, remaining is max(0, budget - spent) |
| Budget.TokenBudget.FitInput | core/llm.py:219-220 | fits to the smaller of cap and remaining input |
| Budget.TokenBudget.SpendCall | core/llm.py:222-228 | books a prompt and a response |
| AnalysisBudget.StreamBlocks | workers/analyze/pipeline.py:308-317 | fifteen-minute blocks that tile the live |
| AnalysisBudget.BlocksPartition | workers/analyze/pipeline.py:308-317 | every instant of the live lies in exactly one block, none outside in any, and their number is the length rounded up |
| AnalysisBudget.SummarizeBlocks | workers/analyze/pipeline.py:320-360 | the loop computes ledger, summaries and skipped blocks |
| AnalysisBudget.SummariesAre | workers/analyze/pipeline.py:328-360 | the summaries are, in block order, what was found in the answers of all affordable blocks, the skipped blocks are the others, and with the unreadable answers they make up the live |
| AnalysisBudget.PromptQuotes | workers/analyze/pipeline.py:336-346 | each prompt quotes the summary of the last block summarized before it, or none, around its own context cut to the cap and to what is left |
| AnalysisBudget.BlocksKeepReserve | workers/analyze/pipeline.py:329-351 | if the prompts the live really makes are at most o above their cap and its answers within 600, its blocks leave at least 9000 - o input and 2100 output |
| AnalysisBudget.RunStep | workers/analyze/pipeline.py:388-390 | one gated final step: skipped without its budget, else paid |
| AnalysisBudget.RunFinalSteps | workers/analyze/pipeline.py:131-136 | summary and topics when there are block summaries, then recommendations |
| AnalysisBudget.FinalStepsRunIff | workers/analyze/pipeline.py:388-425 | for any ledger and any answers no final step is skipped if and only if 3000 input and 700 output are left after the first two, which run only when there are block summaries |
| AnalysisBudget.FinalStepsAre | workers/analyze/pipeline.py:131-136 | the steps one by one: summary and topics only with block summaries, recommendations last and only with facts, each gated, paid or skipped by itself |
| AnalysisBudget.NoFinalStepIsSkipped | workers/analyze/pipeline.py:66-71 | with the block reserve affordable on entry no final step is skipped as long as overhead and the first two prompts cost at most 6000, whatever the length of the live |
| AnalysisBudget.RemoteCosts | workers/analyze/pipeline.py:337-360 | with the remote counter and the source's own prompts, each quoting the whole summary before it, o is 600 tokens and the text around, for every live |
| AnalysisBudget.RemoteAnalysisIsComplete | workers/analyze/pipeline.py:66-71 | so there no final step is skipped when that overhead and the first two final prompts cost at most 6000, whatever the live |
| AnalysisBudget.ReserveIsExact | workers/analyze/pipeline.py:66-71 | after one full block of the source's own prompts no final step is skipped if and only if the text around its context and the first two final prompts cost at most 6000 |
| AnalysisBudget.BeyondTheBoundAStepIsSkipped | workers/analyze/pipeline.py:66-71 | beyond it, for every overhead and prompts, a live of one block loses a final step |
| AnalysisBudget.OverheadOfWrapping | workers/analyze/pipeline.py:338-346 | for any subadditive counter the overhead of a prompt is at most what the text around the fitted context costs, the quoted summary included |
| Text.ParsePrint | scripts/simulate_stream.py:136-139 | decimal printing is undone by parsing |
| Text.SplitJoins | core/irc.py:48-48 | splitting two texts joined by the separator is splitting each |
| Text.SplitJoined | core/irc.py:70-70 | splitting undoes joining, for any number of parts without the separator |
| Text.PartitionAt | core/irc.py:79-84 | partition finds a separator whose first character does not occur before it |
| Irc.ParseTags | core/irc.py:46-51 | the loop fills the tag dict, later keys overriding |
| Irc.ParseBadges | core/irc.py:54-61 | the loop fills the badge dict |
| Irc.ParseEmotes | core/irc.py:64-71 | the loop fills emote ids with their positions |
| Irc.ParsePrivmsg | core/irc.py:74-100 | stripping, tags, prefix, command and text as specified, None for anything else |
| IrcTheorems.IsChatIff | core/irc.py:74-82 | a line is a chat message exactly when, stripped and without its tags, it starts with ":" and says " PRIVMSG #" somewhere |
| IrcTheorems.ChatLineIs | core/irc.py:74-100 | from any chat line, with tags or without, on any channel, every field is read from its own place |
| IrcTheorems.TagsJoin | core/irc.py:46-51 | parsing joined tag lists is merging their dicts |
| IrcTheorems.BadgesJoin | core/irc.py:54-61 | the same for badges |
| IrcTheorems.EmotesJoin | core/irc.py:64-71 | the same for emotes |
| IrcTheorems.OneTag | core/irc.py:46-51 | a printed tag comes back |
| IrcTheorems.BareTag | core/irc.py:46-51 | a tag without a value is read with an empty one |
| IrcTheorems.OneBadge | core/irc.py:54-61 | a printed badge comes back |
| IrcTheorems.OneEmote | core/irc.py:64-71 | an emote with any list of positions comes back; a single empty position is read as none |
| IrcTheorems.BareBadgeAndEmote | core/irc.py:54-71 | so is a badge without a version, and an emote without positions |
| IrcTheorems.ParsingUndoesPrinting | scripts/simulate_stream.py:135-142 | for every author without a space and every text the printed line parses, with message id, user id, no emotes and the text less trailing whitespace; the login exactly when the author has no "!", the time exactly when it is not before 1970 |
| IrcTheorems.RoundTrip | scripts/simulate_stream.py:135-142 | for authors without space, ";" and "!" and texts without trailing whitespace the parser returns exactly what was printed |
| IrcTheorems.SimulatedLineComesBack | scripts/simulate_stream.py:260-262 | every line the simulator prints, for each of its forty users and any text, comes back with the user's own id |
| IrcTheorems.NoBadgesIff | core/irc.py:46-61 | the badges come back empty if and only if the last badges tag among the ";" pieces of the author is empty or absent |
| IrcTheorems.SemicolonForgesABadge | core/irc.py:46-51 | the authors that fail it: any badge written into the name after a ";" comes back |
| IrcTheorems.UserIdsIdentify | scripts/simulate_stream.py:137-137 | the simulator's users have distinct ids, shared with nobody |
| Peaks.DetectPeaks | workers/analyze/peaks.py:31-54 | the pass and the sort compute the specified peaks |
| Peaks.WalkBuckets | workers/analyze/peaks.py:39-52 | the loop that opens, extends and closes the current window |
| Peaks.WalkedAreRuns | workers/analyze/peaks.py:39-52 | the windows are those of the runs, in order |
| Peaks.ThresholdIs | workers/analyze/peaks.py:36-37 | a bucket qualifies at ten messages and twice the median, which counts as one at least |
| Peaks.ScoreIs | workers/analyze/peaks.py:45-45 | the score is the highest count over that baseline |
| PeakTheorems.RunsAreTheMaximalRuns | workers/analyze/peaks.py:39-52 | the runs are exactly the maximal stretches of adjacent buckets at or above the threshold |
| PeakTheorems.EachBucketOnce | workers/analyze/peaks.py:39-52 | a bucket qualifies exactly when it is in a window, and then in one only |
| PeakTheorems.WindowsAreDisjoint | workers/analyze/peaks.py:39-52 | on ordered buckets windows follow each other without overlap |
| PeakTheorems.TopIsHighest | workers/analyze/peaks.py:46-48 | a window's top is the highest count of its buckets |
| PeakTheorems.ScoresAreAtLeastTwo | workers/analyze/peaks.py:36-37 | every score is at least 2 and comes from at least ten messages |
| PeakTheorems.ScoreOrder | workers/analyze/peaks.py:54-54 | ordering by count is ordering by score |
| PeakTheorems.PeaksAreTheTop | workers/analyze/peaks.py:54-54 | the result is the first topN of all windows in descending score, ties in time order |
| Regions.MergeSpeechSpans | workers/transcribe/pipeline.py:60-72 | the loop that extends or appends computes the merge |
| Regions.MergingIsExact | workers/transcribe/pipeline.py:60-72 | merged spans are more than the gap apart, every span lies in exactly one, each starts and ends where spans do |
| Regions.MergingIsIdempotent | workers/transcribe/pipeline.py:60-72 | merging twice is merging once |
| Regions.ClassifyRegions | workers/transcribe/pipeline.py:81-98 | the cursor loop computes the regions |
| Regions.RegionsCoverTheFile | workers/transcribe/pipeline.py:81-98 | regions are ordered, disjoint, inside the file, and no uncovered stretch lasts five seconds, at either end too |
| Regions.RegionsAreExact | workers/transcribe/pipeline.py:81-98 | a region that is not speech lasts five seconds, is music exactly when loud, and touches no span's interior; a speech region is a merged span |
| Regions.GapsAreFilled | workers/transcribe/pipeline.py:88-97 | a region that is not speech reaches from one speech region, or the start of the file, to the next, or to its end |
| Regions.SpanInOneSpeechRegion | workers/transcribe/pipeline.py:81-98 | every span lies in exactly one speech region |
| Dips.RetentionAndDips | core/analytics.py:89-142 | retention and the kept dips as specified, none for no samples |
| Dips.FindDips | core/analytics.py:101-123 | the loop over the samples |
| Dips.TakeSample | core/analytics.py:105-123 | its body: trough, drop, biggest so far, candidate |
| Dips.KeepApart | core/analytics.py:127-134 | the greedy loop with its break |
| Dips.TroughIsTheMinimum | core/analytics.py:108-109 | the trough is the lowest of the next five samples |
| Dips.DipsAreTheDrops | core/analytics.py:105-123 | the candidates are exactly the samples with a drop of 15% |
| Dips.CandidatesAre | core/analytics.py:104-123 | the candidates field by field: time, audience before and lowest of the next five, difference and rounded percentage, from fifteen percent on |
| Dips.RetentionIs | core/analytics.py:92-141 | peak, last count, their rounded ratio, and when the first of the deepest falls began if it was fifteen percent |
| Dips.BiggestIsFirstDeepest | core/analytics.py:104-113 | the biggest drop is the first of the deepest falls |
| Dips.TenthsMonotone | core/analytics.py:121 | a deeper drop never shows a smaller percentage |
| Numbers.RoundedIsNearest | core/analytics.py:121-121 | rounding goes to the nearest, a half to the even neighbour |
| Dips.KeptAreApart | core/analytics.py:125-134 | kept dips are candidates, pairwise over 120 s apart, in descending percentage |
| Dips.DroppedAreExplained | core/analytics.py:125-134 | a dropped candidate is within 120 s of a kept one at least as deep, or the list is full of dips at least as deep |
| Dips.EarlierIsKept | core/analytics.py:125-134 | of candidates as deep as each other the earlier is kept |
| Dips.LimitIsRespectedIff | core/analytics.py:127-134 | the limit holds if and only if it is at least one or there is no candidate |
| ClipDetector.Detector.Observe | workers/capture/clip_detector.py:43-47 | the pruned deque stays the full history restricted to the baseline |
| ClipDetector.Detector.WindowRate | workers/capture/clip_detector.py:62-63 | the count over every message ever observed in the last 30 s |
| ClipDetector.Detector.ShouldClip | workers/capture/clip_detector.py:49-60 | decided by the full history and marks: cap, cooldown, minimum and lift |
| ClipDetector.Detector.MarkClipped | workers/capture/clip_detector.py:65-67 | one more mark |
| ClipDetector.Detector.MaybeClip | workers/capture/collectors.py:160-168 | the three calls at one reading of the clock |
| ClipDetector.WindowInBaseline | workers/capture/clip_detector.py:49-63 | pruning never changes the 30 s count |
| ClipDetector.SinceIsTheEnd | workers/capture/clip_detector.py:53-53 | what is counted since a time is the chat from the first message not before it |
| ClipDetector.BaselineIs | workers/capture/clip_detector.py:43-47 | the baseline is the chat of the 300 s before its last message |
| ClipDetector.ClipsIs | workers/capture/clip_detector.py:49-60 | the decision in rates: limit, cooldown, minimum, and three times the average window of the baseline |
| ClipDetector.ClipsAreRare | workers/capture/clip_detector.py:49-67 | in every run clips are at least 120 s apart and at most 10 |
| ClipDetector.ClipsArePaidFor | workers/capture/clip_detector.py:54-57 | every clip has fifteen messages of its own: n messages give at most n / 15 clips |
| AgeWindow.CollectMonths | core/follower_signals.py:226-227 | the month dict and the total |
| AgeWindow.WindowSum | core/follower_signals.py:234-237 | the followers of six months |
| AgeWindow.BestWindow | core/follower_signals.py:231-239 | the walk over populated months finds the maximum over every integer start, and its earliest populated start |
| AgeWindow.BaseAgeConcentration | core/follower_signals.py:211-251 | the report: total, months, best window with its rounded share and its month as printed, concentrated exactly at 500 followers and 60%; all zero for no followers |
| AgeWindow.DecodesExactly | core/follower_signals.py:247-247 | the printed year and month are those of the index |
| AgeWindow.TotalAdds | core/follower_signals.py:227-227 | the total is the sum of the months |
| AgeWindow.WindowIs | core/follower_signals.py:234-237 | a window is six consecutive months |
| AgeWindow.ShareIsNearest | core/follower_signals.py:241-246 | the share is the nearest number of thousandths |
| AgeWindow.MonthReadsBack | core/follower_signals.py:247-247 | the text names one month: split at the dash it reads back, with four digits and two |
| AgeWindow.PopulatedStartsSuffice | core/follower_signals.py:231-239 | no window anywhere beats the best at populated starts |
| AgeWindow.WindowIsPartOfTheBase | core/follower_signals.py:241-241 | the window is at most the base |

## Left out

- HTTP, OAuth, signatures, encryption, storage, ffmpeg, Whisper, voice detection, audio energy and the language models: their answers are arbitrary values.
- The web application, request routing, report text, translations, SQL aggregates and revenue folds: each claim there would be a sum or a string.
- FollowerSync.Session.SyncChannel: a death of the process is modelled in FollowerRuns at every step, and in this method at every page; a result is then not returned.
- FollowerSync.Session.EnrichFollowers: does not model rows that live follow events insert while the loop runs; each such row only adds a batch.
- FollowerSync.Session.EnrichStreamers: likewise.
- Two follower-sync workers on one channel, and a database whose follower rows belong to another channel.
- JobRuns.StepKeepsInv: does not model two workers of one type picking one job, nor an operator who enqueues a stream again; the source takes no lock for the first and its invariant does not cover the second.
- The case of a job whose stream row is missing, job error texts, the stream audit, stream titles and categories.
- The thread of the heartbeat and the chat buffer: beats and flushes are timed steps.
- QueueOrder.QueueStatus: does not model how the average duration of finished jobs is computed, nor float rounding of the ETA.
- Schedule.EstimateNextLive: does not model the limit of 20 starts, which is part of the query that supplies the history.
- EventSub.Webhook.Callback: does not model what each handler stores, only that it runs and may raise, nor two requests whose clock readings and claims come in opposite orders.
- Calendar.LastPeriodIs: does not model time-zone offsets within a date, years outside 1 to 9999, nor a change of a channel's zone.
- DigestSender.Sender.Run: does not model a response body that is not JSON, which ends the run before its commit, and lists channels and kinds as one sequence of visits.
- Records.RecordTable.UpdateStreamRecords: does not model how the fourteen metrics are computed, nor achieved_at.
- Negative token settings, and settings of the clip detector other than the capture worker's.
- AnalysisBudget.SummarizeBlocks: does not model the peak explanations that spend before it; the ledger on entry is arbitrary.
- Irc.ParsePrivmsg: does not model digits outside ASCII, for which the source's conversion of the timestamp may raise, nor times beyond the range of datetime.
- IrcTheorems.ParsingUndoesPrinting: takes the time in milliseconds, as the printer truncates it.
- Peaks.DetectPeaks: does not model float rounding; the score is the exact count over the exact baseline.
- Regions.ClassifyRegions: counts time in samples and does not model the guest-conversation kind, which the source never produces.
- Dips.RetentionAndDips: does not model float rounding; drops are exact and percentages are rounded from the exact value, halves to even.
- AgeWindow.BaseAgeConcentration: does not model float rounding of the share.
