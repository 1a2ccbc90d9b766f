# Freyja operations: a verified model

This project models five parts of the Freyja repository and proves properties of them:

1. **The Cloyd-Smith supervisor**, a durable job loop that drives an unreliable remote worker
   ("Smith"). The job store is a class whose methods are proved equal to functions on a ledger
   value; a pass of the supervisor is a method on that store, proved equal to a function of the
   ledger and of Smith's answers. Smith's answers are arbitrary, and the pass may die at any
   await. A second model cuts every process at every store call and every await and interleaves
   any number of supervisors, operator stops, status queries and other writers, with crashes,
   exceptions and lock files; a pass that is not interrupted is proved to be the first model.
2. **The Open WebUI reconciler**: the access planner and applier, the resource upsert, and the
   activation that joins both with the provider configuration in one transaction.
3. **Certification scores**: grading, category totals, ranking, report comparison, and the
   cut-over gate that trusts the ranking.
4. **Certification fixtures**: the scope that changes settings and client attributes for one case.
5. **Two text transformers**: the sender allowlist with its id normaliser, and the env file rewriter.

| file | contents |
|---|---|
| `JobLedger.dfy`, `JobStore.dfy` | the job store, as a value and as a class |
| `Supervisor.dfy` | a pass and an operator stop, as functions and in place |
| `SupervisorRuns.dfy`, `SupervisorSafety.dfy` | what whole runs keep; evidence for a review |
| `SupervisorBounds.dfy`, `QueueOrder.dfy` | which jobs a pass reaches, starvation, and the order of submission |
| `DecisionTables.dfy` | what a pass and a stop write, answer by answer and column by column |
| `SupervisorProtocol.dfy`, `SendAccounting.dfy` | the interleaved system, and how often it sends a job |
| `Stops.dfy`, `Races.dfy`, `Revivals.dfy` | when a stop holds; runs that lose a stop or send twice; when requests bound the sends |
| `PassRefinement.dfy`, `OtherRuns.dfy` | an uninterrupted pass of the interleaved system is the pass function; so for stops, status queries and writers; what the counters count |
| `LockFiles.dfy` | with which lock files the bound on the sends holds |
| `CutPasses.dfy`, `BusyTime.dfy`, `TornPasses.dfy` | passes cut between two store calls, bounded busy time, what a cut costs |
| `BusyLimit.dfy` | when the busy limit applies |
| `KeyedTable.dfy`, `AccessPlan.dfy`, `AccessResults.dfy`, `Resources.dfy` | upserts, the access plan, resource rows |
| `HomeAccess.dfy` | whom a group stands for, and what plan and application are, in the columns of the rows |
| `WebUiConnection.dfy`, `Activation.dfy` | the connection with its transaction, and the activation |
| `Scoring.dfy`, `Ranking.dfy`, `Comparison.dfy` | scores, rankings and the gate, comparisons |
| `Standings.dfy`, `ReportChanges.dfy` | rankings figure by figure, and comparisons line by line |
| `Fixtures.dfy` | the fixture scope and the suite loop |
| `Allowlist.dfy`, `SenderEntries.dfy`, `EnvFile.dfy` | the text transformers |
| `Text.dfy`, `TextOrder.dfy`, `Wrappers.dfy` | shared string operations, string order, Option |

## What the proofs found

Where the code does not do what one would expect of it, the code is modelled as it is, and the
exact condition is proved next to a family of counterexamples.

- A stop from the command line takes no lock. If a pass is waiting for the answer to its send when
  the stop is stored, the pass overwrites it and the job ends up running (`LostStop`). A stored stop
  holds in every continuation if and only if no process in progress threatens it: none has it in
  hand with a call to Smith other than a stop, a write of another status, a write-back of a row not
  stopped, or a busy check that may still apply, and none lists it as queued, running or stale
  (`StopHoldsExactly`).
- Two supervisors with different lock files on one database send the same queued job twice
  (`TwoLockFilesSendTwice`). With one lock file a job is sent at most once for each time it becomes
  queued (`AtMostOneSendPerEpisode`); the bound holds for supervisors with lock files from a set if
  and only if the set has at most one element (`BoundedIffOneLockFile`).
- A job becomes queued not only by submissions and by writes that say so. A record from outside
  leaves the status alone, but writes back the row it has read: if that row was queued and the job
  has been sent since, the job is queued and sent once more (`WriteBackSendsTwice`). From any reachable
  state on, submissions and requests alone bound the sends if and only if no such writer in progress
  holds the row as queued or is still to read it (`RequestsBoundSendsExactly`).
- An exception from the store between a heartbeat that ends a job's run and the row that is to
  follow leaves the job running with a blocked or reviewed heartbeat; the next pass finds no running
  heartbeat, so it does not apply the limit and writes the heartbeat as running again. Each such cut
  can cost one pass more, for any number of cuts (`EachCutCostsAPass`), and nothing else can
  (`BusyTimeIsBounded`).
- The busy limit applies only to a job whose heartbeat was still fresh when the pass began
  (`BusyLimitFiresIff`). With passes more than 300 seconds apart it never applies to any job
  (`SlowPassesNeverBlock`), and a job that Smith reports as busy stays running for ever
  (`SlowBusyJobRunsForever`).
- Twenty jobs that await review hide every queued job behind them for ever (`BacklogStarvesQueue`):
  a completed pass dispatches a queued job if and only if fewer than twenty jobs that are not over
  were submitted before it (`DispatchedIffEarly`), and marking looks at the first fifty only
  (`MarkedIffEarly`).
- The store marks the heartbeat stale together with the job and logs the event, so replaying a
  job's log gives the stored status exactly, STALE included.
- The cut-over gate keeps the last entry of each target id, so a clean entry masks an earlier
  failing one (`MaskedFailurePasses`, `GateMissesMaskedFailures`).
- The fixture set-up stands before the `try`, so a set-up that raises leaves its changes behind
  (`RaisingSetupLeaks`, `CloudSettingLeaks`).
- A body that deletes the router's Iris attribute leaves the router without the client it had
  (`DeletedIrisIsLost`); only then is the client not as at entry (`ScopeRestores`).
- A member id that is cut to 64 characters just behind a dash ends in that dash (`CutBehindDash`),
  and only then does normalising it again change it (`IdempotentExactly`).
- A value with a line break is written to the env file but never read back (`ValueIsReadBackExactly`).

## Model

| member | source | states |
|---|---|---|
| JobStore.Store.CreateJob | src/freyja/cloyd_smith_loop.py:163-191 | a new job is queued, with the creation time of the clock, and takes its place in the (created_at, job_id) order; nothing else changes. The row is spelled out, with the stamp |
| QueueOrder.CreateStamps | src/freyja/cloyd_smith_loop.py:163-191 | the new row is written out: queued, to be sent, no error, created now, not completed; and when every other job was created before now, the new one comes last |
| QueueOrder.EarlierFirst | src/freyja/cloyd_smith_loop.py:200-217 | over every run, of two jobs submitted at different times the earlier stands first in the listing order ever after, whatever their ids |
| JobStore.Store.UpdateJob | src/freyja/cloyd_smith_loop.py:237-289 | a partial update: unset fields keep their values, completed_at follows the status, other jobs and tables are unchanged; returns the stored status |
| JobStore.Store.LogEvent | src/freyja/cloyd_smith_loop.py:291-299 | appends one event and changes nothing else |
| JobStore.Store.RecordHeartbeat | scripts/cloyd-smith-loop-daemon.py:486-520 | replaces the job's heartbeat, keeping session, directory and start time of the old one where the caller gives none |
| JobStore.Store.List | src/freyja/cloyd_smith_loop.py:200-217 | the first active jobs in (created_at, job_id) order, as a snapshot |
| JobStore.Store.MarkRun | src/freyja/cloyd_smith_loop.py:367-388 | heartbeat, status and log of one run turn stale together |
| JobStore.Store.MarkStaleRuns | src/freyja/cloyd_smith_loop.py:359-389 | exactly the listed running jobs whose heartbeat is older than its limit are marked, in listing order |
| JobLedger.ActiveKnown | src/freyja/cloyd_smith_loop.py:200-217 | a job is listed if and only if it is active, with its current status |
| Supervisor.RunOnce | scripts/cloyd-smith-loop-daemon.py:43-264 | the pass on the store, for every script of answers and a crash at any await, leaves the store, the unread script and the results that Pass computes; what those are is in the tables of PassAsTabled |
| DecisionTables.PassAsTabled | scripts/cloyd-smith-loop-daemon.py:43-264 | with one job not over, whatever its status and whatever the answers, the whole outcome of a pass over all three tables is the row of a decision table written out column by column from the stored columns and the fields of the answers: which answers are asked for, where the pass dies, status, next action, error, completed_at, phase, stop reason, session, directory, start and update time, log entries, reported deeds; marked first when its heartbeat is overdue |
| DecisionTables.HandledAsTabled | scripts/cloyd-smith-loop-daemon.py:47-264 | whatever else is stored, handling a job is its table |
| DecisionTables.ListedAsTabled | scripts/cloyd-smith-loop-daemon.py:47-264 | in any pass the k-th listed job ends, in record, heartbeat and log, as its table says from the ledger and the unread answers that the jobs before it leave |
| DecisionTables.SendDecision | scripts/cloyd-smith-loop-daemon.py:80-171 | a queued job: one answer is read when the send is ok or fails without a timeout, and its ok decides between running and blocked; after a timeout a second one is read, ok and busy is running, not ok is blocked, and ok and idle reads a third and goes to review; the pass dies exactly when one of these is missing |
| DecisionTables.StopAsTabled | scripts/cloyd-smith-loop-daemon.py:401-430 | a stop is a row of such a table too: stopped whatever the status was, with session, directory and start of the heartbeat kept where the answer gives none |
| Supervisor.HandleQueuedJob | scripts/cloyd-smith-loop-daemon.py:53-171 | the queued branch with its timeout recovery, ending in the stored status it reports; what it asks and writes is in the tables of HandledAsTabled |
| Supervisor.HandleRunningJob | scripts/cloyd-smith-loop-daemon.py:173-263 | the running branch: failed status, busy limit, still busy, ready for review |
| Supervisor.BlockLongBusyJob | scripts/cloyd-smith-loop-daemon.py:267-312 | acts exactly when the heartbeat is running and more than 180 whole seconds old since dispatch |
| Supervisor.RecoverStaleJob | scripts/cloyd-smith-loop-daemon.py:315-398 | the stale branch, which does not apply the busy limit |
| Supervisor.Stop | scripts/cloyd-smith-loop-daemon.py:401-430 | a stop of a known job logs, beats and stores STOPPED; of an unknown job it changes nothing |
| SupervisorSafety.RunsAgree | scripts/cloyd-smith-loop-daemon.py:43-264 | over every run of submissions, waits, completed passes and serialised stops, for every job: heartbeat, record and last log entry tell one story (the phase fixes status, stop reason, next action, error and the kind of the last event), an untruncated log replays to the stored status, completed_at is set exactly for blocked, done, stopped and stale |
| SupervisorSafety.PassAgreement | scripts/cloyd-smith-loop-daemon.py:43-264 | a completed pass keeps that agreement from any state that has it |
| SupervisorSafety.StopAgreement | scripts/cloyd-smith-loop-daemon.py:401-430 | so does a completed stop |
| SupervisorSafety.PassReportsStoredStatus | scripts/cloyd-smith-loop-daemon.py:44-46 | the last entry of a completed pass about a job gives the status then stored and the action that fits its phase; a job without entry is as it was |
| SupervisorSafety.PassLeavesOthersAlone | scripts/cloyd-smith-loop-daemon.py:47-49 | a pass, crashed or not, changes nothing about reviewed, blocked, done and stopped jobs and does not report them |
| SupervisorSafety.ReviewOnlyOnEvidence | scripts/cloyd-smith-loop-daemon.py:89-121 | a job that becomes reviewable in a pass, crashed or not, has as its last two log entries an ok-and-idle answer of this pass and the output read because of it |
| SupervisorSafety.HandleReview | scripts/cloyd-smith-loop-daemon.py:235-263 | the same for one job in hand, in each of the three branches that read output |
| SupervisorSafety.CreateValid | src/freyja/cloyd_smith_loop.py:163-191 | submitting keeps the tables well formed and the listing in order |
| SupervisorRuns.HandleAllEffect | scripts/cloyd-smith-loop-daemon.py:47-264 | the loop leaves each listed job settled in all three records or untouched, and touches no other job |
| SupervisorRuns.MarkAllEffect | src/freyja/cloyd_smith_loop.py:359-389 | marking settles exactly the overdue running jobs as stale and leaves every other job alone |
| BusyTime.BusyTimeIsBounded | scripts/cloyd-smith-loop-daemon.py:206-234 | with passes at least a second apart and the heartbeat fresh, a job still running has been seen by at most PassesLeft completed passes, and one more for each pass that was cut between a heartbeat that ends its run and its row, whatever Smith answers and between whichever two store calls passes end; otherwise it is blocked or in review |
| BusyTime.DispatchedJobIsBounded | scripts/cloyd-smith-loop-daemon.py:63-72 | a running job leaves RUNNING by the 181st completed pass that sees it, counting one pass more for each such cut and one if it has no running heartbeat |
| BusyTime.AttemptSpends | scripts/cloyd-smith-loop-daemon.py:638-647 | one turn of the loop, whole or cut anywhere: a completed pass that sees the running job uses up one of its passes, and only a cut between a heartbeat that ends its run and its row gives one back; a cut behind a heartbeat that says still busy does not |
| TornPasses.EachCutCostsAPass | scripts/cloyd-smith-loop-daemon.py:287-311 | for every n: a job with no pass left, with every second pass cut behind its blocked heartbeat, is running after n such pairs, its heartbeat was never stale, n completed passes have seen it and n cuts have torn it |
| TornPasses.CutTearsApart | scripts/cloyd-smith-loop-daemon.py:287-311 | a pass that finds the job out of time and is cut after the heartbeat of the timeout leaves the job running under a blocked heartbeat with its start time |
| BusyTime.FateSpends | scripts/cloyd-smith-loop-daemon.py:502-520 | the measure falls with every pass that looks at the running job, because no later heartbeat moves its start time |
| CutPasses.MovesTracked | scripts/cloyd-smith-loop-daemon.py:173-312 | after any number of moves of a pass a job that ran with a fresh heartbeat at its beginning is untouched, blocked or in review, or running with its start time kept and a heartbeat that differs from running only between the heartbeat and the row |
| BusyLimit.BusyLimitFiresIff | scripts/cloyd-smith-loop-daemon.py:272-277 | on a busy answer a listed running job is blocked if and only if its heartbeat was fresh at the start of the pass, is running, and is more than 180 whole seconds past dispatch, and the call that stops Smith returns; otherwise it stays running |
| BusyLimit.SlowPassesNeverBlock | src/freyja/cloyd_smith_loop.py:359-389 | with passes more than 300 seconds apart no busy timeout is logged in any run, whatever the jobs, the answers and the crashes |
| BusyLimit.SlowBusyJobRunsForever | scripts/cloyd-smith-loop-daemon.py:324-345 | with such passes any listed running job to which Smith answers busy each time is running after any number of them |
| SupervisorBounds.DispatchedIffVisible | scripts/cloyd-smith-loop-daemon.py:47-79 | a completed pass takes a queued job out of the queue if and only if it is among the first twenty active jobs |
| QueueOrder.DispatchedIffEarly | scripts/cloyd-smith-loop-daemon.py:47-79 | the same in the columns: if and only if fewer than twenty jobs that are not blocked, done or stopped were created before it, or at the same time under a smaller id |
| QueueOrder.MarkedIffEarly | src/freyja/cloyd_smith_loop.py:355-389 | marking turns a running job stale if and only if its heartbeat is older than the seconds it allows and fewer than fifty such jobs were submitted before it |
| SupervisorBounds.BacklogStarvesQueue | scripts/cloyd-smith-loop-daemon.py:47-49 | behind twenty jobs awaiting review a queued job is unchanged by any number of passes |
| SupervisorBounds.PassSkipsInvisible | scripts/cloyd-smith-loop-daemon.py:47 | a job that is not running and not among the first twenty active ones is untouched by a pass |
| SupervisorBounds.MarkingKeepsListing | src/freyja/cloyd_smith_loop.py:359-389 | marking runs stale changes neither who is listed nor the order |
| SendAccounting.AtMostOneSendPerEpisode | scripts/cloyd-smith-loop-daemon.py:53-79 | in every interleaving of supervisors with one lock file, stops, status queries and outside writers whose read and write are apart, with deaths and exceptions anywhere, and over every interval of it: the sends of a job are at most the times it became queued from outside in the interval, and what was left to send at its beginning |
| SendAccounting.NothingLeft | scripts/cloyd-smith-loop-daemon.py:53-79 | nothing is left to send exactly when the job is not queued and the pass in flight neither lists it as queued, nor is on the way to its send, nor writes it back as queued |
| Revivals.RequestsBoundSendsExactly | src/freyja/cloyd_smith_loop.py:237-289 | in every reachable state, and over all continuations in which no writer that leaves the status alone begins: the sends of a job are at most what is left to send, the submissions and the writes that say queued, if and only if no outside writer in progress is still to read the row and write it back, or about to write it back as queued |
| Revivals.SpendsAll | scripts/cloyd-smith-loop-daemon.py:53-79 | the bound is tight: from every reachable state with such a writer there is a continuation without requests, in which it does not move, that makes all the sends that are left |
| Revivals.RevivesExactly | src/freyja/cloyd_smith_loop.py:237-289 | a step queues the job without saying so exactly when an outside writer writes back a row read as queued, leaving the status alone, over one that is queued no more |
| Races.WriteBackSendsTwice | src/freyja/tools/cloyd_smith_loop.py:116-145 | such a writer that reads before a dispatch and writes after it causes a second send without any request |
| SendAccounting.OnePassAtATime | scripts/cloyd-smith-loop-daemon.py:586-602 | no two processes with the same lock file are in a pass at once |
| SendAccounting.RunningIsStoredBeforeTheSend | scripts/cloyd-smith-loop-daemon.py:55-79 | in every such history, when a pass is about to send a job, an own step of it, since which it has been about to send the job without a break and before which it was not, has stored the job as running |
| SendAccounting.ResumePlain | scripts/cloyd-smith-loop-daemon.py:80-264 | no answer is followed by another send or by a write that queues the job |
| SendAccounting.ReachableWellFormed | scripts/cloyd-smith-loop-daemon.py:623-647 | in every reachable state every pass in progress holds the lock, never writes QUEUED, writes rows it has just read and sends only at the end of a dispatch; every other process lists no work and calls Smith only to stop; every lock is held by a living process |
| Stops.StopHoldsExactly | scripts/cloyd-smith-loop-daemon.py:401-430 | in every reachable state, with any lock files: a stopped job stays stopped in every continuation in which no outside writer says otherwise if and only if no process in progress threatens it |
| Races.LostStop | scripts/cloyd-smith-loop-daemon.py:620-622 | a stop stored while a pass awaits the answer to its send is overwritten when the answer arrives |
| LockFiles.BoundedIffOneLockFile | scripts/cloyd-smith-loop-daemon.py:586-602 | from the empty system, the sends of a job are at most the times it became queued in every run of supervisors with lock files from a set, if and only if the set has at most one element |
| Races.TwoLockFilesSendTwice | scripts/cloyd-smith-loop-daemon.py:633-637 | two supervisors with different lock files send one queued job twice in one episode |
| PassRefinement.PassIsUninterruptedRun | scripts/cloyd-smith-loop-daemon.py:43-264 | the step machine, answered from a script and not interrupted, ends exactly where Pass does, or waits where Pass crashes |
| PassRefinement.SystemRunsPass | scripts/cloyd-smith-loop-daemon.py:638-647 | in the interleaved system a supervisor that has just begun a pass has a sequence of its own actions after which the ledger is the one Pass computes |
| OtherRuns.StopIsUninterruptedRun | scripts/cloyd-smith-loop-daemon.py:401-430 | a stop just started and not interrupted ends exactly where StopJob does, or waits for good |
| OtherRuns.QueryIsMarking | src/freyja/cloyd_smith_loop.py:359-389 | a status query that is not interrupted marks the overdue runs and changes nothing else |
| OtherRuns.WriterIsUpdate | src/freyja/cloyd_smith_loop.py:237-289 | an outside writer that is not interrupted is one update, and its heartbeat if it records one |
| OtherRuns.OneGetsTheLock | scripts/cloyd-smith-loop-daemon.py:586-602 | a supervisor that is started holds the lock if nobody did; otherwise it exits and the system is as if it had not been started |
| OtherRuns.RaiseKeepsAndDeathFrees | scripts/cloyd-smith-loop-daemon.py:638-647 | an exception ends the pass and keeps process and lock; a death gives back exactly the locks of the process |
| OtherRuns.CountersCount | scripts/cloyd-smith-loop-daemon.py:53-79 | the counters behind the bounds: a send counts when the prompt goes out, and a job's becoming queued counts once, as a request or as a revival |
| KeyedTable.ExecuteMany | scripts/apply-open-webui-home-resources-offline.py:193-236 | the statement executed row by row is the fold of one-row upserts |
| KeyedTable.UpsertRow | scripts/apply-open-webui-home-resources-offline.py:199-206 | a mentioned key ends with its last row merged into the row it had, or into its first row if it had none |
| KeyedTable.UpsertKeys | scripts/apply-open-webui-home-resources-offline.py:193-236 | the keys afterwards are the old ones and those of the rows; unmentioned rows are untouched |
| KeyedTable.Growth | scripts/apply-open-webui-home-resources-offline.py:312-316 | the table grows by the predicted inserts if and only if no new key is listed twice, and never by more |
| KeyedTable.UpsertAgain | scripts/apply-open-webui-home-resources-offline.py:193-236 | the same upsert again changes nothing, repeated keys included |
| AccessPlan.FirstUserIsEarliest | scripts/bind-open-webui-home-agent-access.py:62-73 | a group stands for the earliest row that answers to it, and for nobody exactly when there is no such row; which rows do is said by StandsFor |
| HomeAccess.StandsFor | scripts/bind-open-webui-home-agent-access.py:62-73 | for every id: a group stands for the user of the earliest row in which the name, the e-mail or the user name, read character by character after leading blanks and without regard to capitals, is the id up to trailing blanks or up to its first at-sign; for nobody exactly when there is none |
| HomeAccess.PlanOnRows | scripts/bind-open-webui-home-agent-access.py:113-168 | the plan in the columns of the rows: exactly the missing groups, memberships of those users and read grants of the catalogue, and exactly the groups without user and models without row |
| HomeAccess.GroupInsertsOrdered | scripts/bind-open-webui-home-agent-access.py:139-139 | planned groups stand in the order of the catalogue |
| HomeAccess.MemberInsertsOrdered | scripts/bind-open-webui-home-agent-access.py:140-144 | so do planned members |
| HomeAccess.GrantInsertsOrdered | scripts/bind-open-webui-home-agent-access.py:145-152 | and planned grants, by model and then by group |
| HomeAccess.GroupsApplied | scripts/bind-open-webui-home-agent-access.py:171-199 | every group of the catalogue ends with its descriptive columns and the time, under its old owner and creation time or, if new, under the owner given; other groups are as they were |
| HomeAccess.MembersApplied | scripts/bind-open-webui-home-agent-access.py:200-207 | a planned membership is new as of now, or keeps its creation time and is touched now; every other one is as it was |
| HomeAccess.GrantsApplied | scripts/bind-open-webui-home-agent-access.py:208-215 | a planned grant is new as of now or stays as it is |
| HomeAccess.HomeGroups | scripts/bind-open-webui-home-agent-access.py:20-20 | the four home groups and the columns of their rows |
| HomeAccess.HomeBindings | scripts/bind-open-webui-home-agent-access.py:21-28 | which groups may talk to which agent |
| AccessPlan.FieldMeansPrefix | scripts/bind-open-webui-home-agent-access.py:67-71 | an account field means a group exactly when its trimmed, casefolded text up to the first at-sign is the group id |
| AccessPlan.PlanHolds | scripts/bind-open-webui-home-agent-access.py:113-168 | the plan inserts exactly the required groups, members and grants that are not there, and reports exactly the groups without user and the models without row; it is ready when there are none |
| AccessPlan.HomeIsWellFormed | scripts/bind-open-webui-home-agent-access.py:20-28 | the catalogue has distinct groups, distinct models and no model that lists a group twice |
| WebUiConnection.LoadUsers | scripts/bind-open-webui-home-agent-access.py:62-73 | the nested loops give each group that an account says, in its name, e-mail or user name, the user of the earliest such account, and no other group a user |
| WebUiConnection.PlanAccess | scripts/bind-open-webui-home-agent-access.py:113-168 | the planner's loops build the plan that the results below are about, and that PlanOnRows gives in the columns of the rows |
| WebUiConnection.ListGrants | scripts/bind-open-webui-home-agent-access.py:142-152 | the nested loop over models and groups, skipping models without a row |
| WebUiConnection.Connection.ApplyAccess | scripts/bind-open-webui-home-agent-access.py:171-215 | the three upserts change exactly the access tables of the open transaction, to Apply of them |
| AccessResults.ApplyConverges | scripts/bind-open-webui-home-agent-access.py:171-215 | on every database, the plan of the database after applying its plan has no inserts and reports the same missing users and models |
| AccessResults.GrowsAsPlanned | scripts/bind-open-webui-home-agent-access.py:127-152 | each table grows by exactly the planned number of rows |
| AccessResults.AppliedRows | scripts/bind-open-webui-home-agent-access.py:171-215 | no row is deleted; unplanned members and all grants are untouched; a group keeps owner and creation time |
| AccessResults.SecondRunTouchesTimestamps | scripts/bind-open-webui-home-agent-access.py:171-215 | a second application changes only the update times of the home groups, whatever owner and time it is given |
| AccessResults.StalePlanIsUnion | scripts/bind-open-webui-home-agent-access.py:127-152 | an old plan applied to a database that has only grown gives that database and every row required when it was made |
| AccessResults.StalePlanLeavesOnlyNewcomers | scripts/bind-open-webui-home-agent-access.py:113-168 | what a new plan would still insert concerns only users and models that were missing when the old plan was made |
| AccessResults.EffectiveAccess | scripts/bind-open-webui-home-agent-access.py:123-152 | a user can read a model afterwards exactly through old or planned membership and old or planned grant; every home user can read every agent its group is bound to |
| AccessResults.NoOtherAccess | scripts/bind-open-webui-home-agent-access.py:123-152 | nobody gains access except through a required membership or a required grant |
| Resources.CountRows | scripts/apply-open-webui-home-resources-offline.py:312-316 | predicted inserts and updates of a table, which add up to its rows |
| Resources.GrowthAsPredicted | scripts/apply-open-webui-home-resources-offline.py:95-148 | memory always grows as predicted; knowledge and tools do if and only if no new id is exported twice |
| Resources.CreationKept | scripts/apply-open-webui-home-resources-offline.py:193-236 | existing rows keep created_at in all three tables |
| Resources.UnrelatedUntouched | scripts/apply-open-webui-home-resources-offline.py:193-236 | rows whose id is not exported are untouched in all three tables |
| Resources.UpsertTwice | scripts/apply-open-webui-home-resources-offline.py:193-236 | repeating the upsert with the same rows is the identity, repeated ids included |
| Resources.ExportedKnowledgeLands | scripts/apply-open-webui-home-resources-offline.py:97-109 | with distinct ids every exported knowledge item ends in its table as exported, under the owner, with its old creation time if it had one |
| Resources.ExportedToolLands | scripts/apply-open-webui-home-resources-offline.py:110-124 | with distinct ids every exported tool ends disabled behind the managed boundary, with one spec for each operation, and its old creation time if it had one |
| Resources.ExportedPreferenceLands | scripts/apply-open-webui-home-resources-offline.py:125-147 | every preference ends in the memory table under the id made from its name, as one sentence of context without a path, under the owner, with policy, scope and name, and its old creation time if it had one |
| Activation.BuildActivationPlan | scripts/activate-open-webui-home-agent-post-auth.py:105-160 | the dry run: access plan, provider state, resolved owner and row counts of the three tables |
| Activation.ApplyActivation | scripts/activate-open-webui-home-agent-post-auth.py:193-228 | all or nothing: whatever step raises and whatever it had written, the file is untouched or holds access, configuration and resources together; every backup is the file as it was. The result is exact: it applies if and only if no step raises, every model of the catalogue has a row, and either a non-empty owner is named and an account has that id or none is named and there is exactly one account; otherwise it is refused or raised at the first step reached that fails, after none, one or two backups |
| Activation.ReadyOnTables | scripts/activate-open-webui-home-agent-post-auth.py:105-160 | the dry run of a file is ready exactly under those conditions on its tables, and reports the provider as ready exactly when its setting lists the proxy and nothing else |
| Activation.DryRunCounts | scripts/activate-open-webui-home-agent-post-auth.py:131-150 | the dry run counts rows exactly when the owner is known and not the empty text: per table, the exported items whose id is not there and those whose id is |
| Activation.OutcomeOnTables | scripts/activate-open-webui-home-agent-post-auth.py:193-228 | what an applied activation leaves: the access plan applied under the script's own owner, the two settings with the values and the time written out, and the resources under the account named or the only one |
| Activation.Activate | scripts/activate-open-webui-home-agent-post-auth.py:231-273 | ready means an export is there, every model of the catalogue has a row and the owner is known, by the tables; with the apply flag the result is that of ApplyActivation when ready and refused otherwise; without it nothing changes |
| Activation.ActivationSettles | scripts/activate-open-webui-home-agent-post-auth.py:105-160 | the dry run after an activation is ready, finds the provider configured, and has no access row and no resource row to insert |
| Scoring.GradeExactly | certification/grader.py:10-56 | a case passes exactly when there is no error, every expected keyword occurs, no forbidden one does and no verifier failed, where to occur is to be a stretch of consecutive characters; its score is then its weight, and otherwise 0 |
| Scoring.OccursIsContains | certification/grader.py:38-39 | the search finds a keyword exactly when it stands somewhere in the text |
| Scoring.KeywordsReported | certification/grader.py:38-39 | exactly the expected keywords that do not occur and the forbidden ones that do are reported, and none when there is an error |
| Scoring.SelectOrdered | certification/grader.py:38-39 | in the order in which they were given |
| Scoring.CategoryScores | certification/runner.py:581-589 | the accumulating loop gives, for exactly the categories that occur, earned over possible points, 0 when nothing is possible |
| Scoring.CombinedCategoryScores | certification/benchmark.py:567-576 | the nested loop over reports gives the category scores of the concatenated cases |
| Scoring.ReportsAddUp | certification/benchmark.py:172-174 | totals over reports are the totals of the concatenated cases |
| Scoring.ScoresConserved | certification/runner.py:581-589 | category sums add up to the overall sum, for earned points and for weights |
| Scoring.OverallIsConvex | certification/runner.py:530-533 | the overall score is the category scores weighted by shares that are not negative and add up to 1 |
| Scoring.PassesExactlyWhenAllPass | certification/models.py:77-79 | with passing score 1.0 a report passes if and only if something can be earned and every case of positive weight passed |
| Ranking.RankIsExactAndSorted | certification/benchmark.py:621-640 | every sorted arrangement of the (score, id) pairs of exactly the scored entries yields this ranking |
| Ranking.RankExists | certification/benchmark.py:621-640 | and there is such an arrangement; which scores and which direction is said by BestFirst and QuickestFirst |
| Standings.BestFirst | certification/benchmark.py:295-302 | in each of the six rankings by a score, the entry with the higher figure of that metric stands before the other; with equal figures the larger name does |
| Standings.QuickestFirst | certification/benchmark.py:303-307 | in the latency ranking fewer failures stand first, then the shorter time, then the smaller name |
| Standings.ListedIffFigure | certification/benchmark.py:621-640 | a ranking lists exactly the names of the entries that have its figure |
| Standings.NamesOnce | certification/benchmark.py:621-640 | with distinct names none is listed twice |
| Ranking.RankIgnoresOrder | certification/benchmark.py:295-308 | the ranking of each metric is the same for every permutation of the entries, repeated ids included |
| Ranking.GateExactly | certification/rev2_readiness.py:439-470 | the gate passes exactly when there are two entries, the expected winner leads the latency ranking, and every entry that no later one masks is clean |
| Standings.GateOnAnyReport | certification/rev2_readiness.py:439-470 | for any loaded report, written by the benchmark or not: the gate passes exactly when there are two entries and one is a dictionary, the first name of the latency ranking is not empty and is the expected one if there is one, and the last entry filed under each id, missing or empty ids and targets included, has no failures |
| Ranking.GateIsSound | certification/rev2_readiness.py:446-455 | with distinct ids a passing report has no failures at all and no target is faster than the winner |
| Ranking.GateMissesMaskedFailures | certification/rev2_readiness.py:448-452 | a passing report is free of failures if and only if no failing entry is masked by a later one with its id |
| Ranking.MaskedFailurePasses | certification/rev2_readiness.py:448-452 | a failing run followed by a clean run of the same target passes |
| Comparison.CompareCertificationReports | certification/benchmark.py:407-429 | regressions and improvements are the sorted ids of the common cases whose verdict changed |
| Comparison.CompareBenchmarkReports | certification/benchmark.py:432-464 | deltas of exactly the common targets, sorted regressions and improvements by score, ranking changes |
| ReportChanges.CertificationSays | certification/benchmark.py:407-429 | score and time are after minus before; a case regresses exactly when its last line with that id passed before and fails after, and improves the other way round |
| ReportChanges.MissingCase | certification/benchmark.py:414-414 | a case that one report lacks is in neither list |
| ReportChanges.BenchmarkSays | certification/benchmark.py:432-455 | for a target in both reports, by its last entries: every delta is after minus before, a category that one of them lacks counts as 0, and it regresses or improves by the sign of the score |
| ReportChanges.MissingTarget | certification/benchmark.py:438-438 | a target that one report lacks has no delta and is in neither list |
| ReportChanges.RankingsSay | certification/benchmark.py:648-654 | exactly the rankings that differ are shown, as before and as after, a missing one counting as empty |
| Comparison.SwapBenchmarks | certification/benchmark.py:432-464 | swapping the reports negates every delta and exchanges regressions with improvements and before with after |
| Comparison.SwapCertifications | certification/benchmark.py:407-429 | the same for certification reports |
| Comparison.RegressionsAreNotImprovements | certification/benchmark.py:414-420 | nothing both regresses and improves |
| Comparison.SelfComparison | certification/benchmark.py:407-464 | a report compared with itself shows no change |
| Comparison.DeltasTelescope | certification/benchmark.py:438-451 | over three reports the deltas of a common target add up, category by category |
| Comparison.RegressionHasAStep | certification/benchmark.py:452-455 | a target that regresses over a series regressed in one of its steps |
| Fixtures.Process.EnterScope | certification/runner.py:56-65 | set-up with a fault at any of its writes or between two of them, remembering what it replaces |
| Fixtures.Process.WithFixtures | certification/runner.py:52-76 | set-up, body and, only after a completed set-up, restoration |
| Fixtures.Process.RunSuite | certification/runner.py:503-528 | every case begins with the suite's settings, with its Iris client unless a body deletes the attribute, and with its client attributes unless a body sets some itself; so does what follows the suite unless a set-up raised |
| Fixtures.ScopeShows | certification/runner.py:62-104 | what the body of a case finds: the cloud setting asked for, Iris switched on and replaced, and on the reasoning client, or else the plain one, a `healthy` that says no and a `chat` that fails, as far as it has them; nothing else differs |
| Fixtures.ScopeRestores | certification/runner.py:66-76 | however the body ends and whatever it did, settings and every replaced attribute are as at entry, and no other attribute is touched; the Iris client is as at entry if and only if the router still has the attribute after the body or had no client at entry |
| Fixtures.DeletedIrisIsLost | certification/runner.py:72-73 | a body that deletes the attribute leaves no Iris client where there was one |
| Fixtures.GentleScopeRestoresAll | certification/runner.py:52-76 | with a body that leaves attributes alone all attributes are as at entry; the router differs exactly when the Iris attribute was missing and the fixtures set it |
| Fixtures.RaisingSetupLeaks | certification/runner.py:62-66 | when the set-up raises, the world is as before if and only if the set-up had changed nothing yet |
| Fixtures.CloudSettingLeaks | certification/runner.py:62-65 | a failing import leaves the cloud setting changed |
| Allowlist.ParseAllowedSenders | connectors/messaging.py:239-268 | the parsing loop, with the error of an id that has no alphanumeric character |
| Allowlist.ConcatenationOverrides | connectors/messaging.py:239-268 | parsing a list, a comma and another list gives the senders of both, the second overriding the first, and fails exactly when one of them does |
| Allowlist.SendersAreKeyedByAddress | connectors/messaging.py:262-268 | every sender is stored under its own address, which is trimmed, not empty and has no comma |
| Allowlist.SafeIdIsWellFormed | connectors/messaging.py:398-403 | an id exists exactly when the text has an alphanumeric character; it is not empty, at most 64 characters, plain, without leading or doubled dash |
| Allowlist.IdempotentExactly | connectors/messaging.py:398-403 | normalising again changes an id if and only if the squeezed text is longer than 64 characters and has a dash at the 64th; a third time never changes it |
| Allowlist.CutBehindDash | connectors/messaging.py:398-403 | sixty-three characters, a dash and anything behind it give an id that ends in the dash, and normalising that drops it |
| SenderEntries.SeparatorBetween | connectors/messaging.py:398-403 | every character but an ASCII letter or digit separates the words of a member id; runs of them become one dash, and none stands at the ends |
| SenderEntries.WordIsKept | connectors/messaging.py:398-403 | a word is kept in small letters, and an id is the first sixty-four characters of all |
| SenderEntries.PlainEntry | connectors/messaging.py:245-268 | an entry without an equals sign is an address, trimmed, and nothing when blank |
| SenderEntries.NamedEntry | connectors/messaging.py:250-268 | before the first equals sign stands the member id and after it the address; it fails when the text before has no letter or digit, and when one side is blank the whole entry is the address |
| SenderEntries.EntryIsTrimmed | connectors/messaging.py:246-248 | blanks around an entry do not count |
| SenderEntries.ResolveOrder | connectors/messaging.py:406-427 | an address stands for the first who is known by member id, as a Signal sender, as an iMessage sender, by kind, as a legacy member |
| EnvFile.LineEnds | scripts/configure-imessage-family-agents.py:47-47 | a line ends at each of the ten line ends, a carriage return and a newline being one |
| EnvFile.EnvFile.ReplaceLine | scripts/configure-imessage-family-agents.py:46-55 | the file afterwards is the lines with one setting rewritten, each line ended by a newline |
| EnvFile.EnvFile.Configure | scripts/configure-imessage-family-agents.py:168-177 | the database path is looked up first, then the six settings are written in their order |
| EnvFile.RewriteInPlace | scripts/configure-imessage-family-agents.py:49-54 | the first line that sets the key is replaced in place, or one is added at the end; no other line changes or moves |
| EnvFile.ValueIsReadBackExactly | scripts/configure-imessage-family-agents.py:46-55 | a written value is read back if and only if it holds no line break |
| EnvFile.ConfiguredFile | scripts/configure-imessage-family-agents.py:171-177 | after the six rewrites each key reads back its value, every other key reads as before, lines that set none of the keys keep content and order, and repeating the rewrites changes nothing |
| EnvFile.ConfiguredValues | scripts/configure-imessage-family-agents.py:170-177 | the six settings read back: the senders, sqlite, the path, true, fixed, freyja |
| EnvFile.PathFound | scripts/configure-imessage-family-agents.py:61-65 | the path is that of the first line that names one that is not blank |
| EnvFile.NoPathFound | scripts/configure-imessage-family-agents.py:58-66 | an explicit path goes before them all, and the default is used when no line names one |
| EnvFile.PathIsReadBack | scripts/configure-imessage-family-agents.py:58-66 | the path read back is the written one trimmed and expanded, so it is the written one if and only if trimming and expanding leave that alone |
| EnvFile.ConfiguringAgain | scripts/configure-imessage-family-agents.py:168-177 | a second configuration leaves the file as it is if and only if trimming and expanding leave the first path alone |

## Left out

- Smith's prompt, the message, action and agent columns, the evidence payloads and job metadata: they never decide a branch. Words such as phases and stop reasons are constructors, and texts built from numbers name the numbers.
- The sequential model's clock moves only at awaits and between actions; store calls take no time in it. The interleaved model lets time pass between any two steps.
- Log payloads keep only whether the answer was ok and idle, or that it was cut short. Redaction is assumed not to touch those two fields.
- Writers outside the daemon are in the interleaved model (one update of one job, and at most one heartbeat) and not in the sequential runs. The event that some of them log is not modelled.
- In `Stops` the continuations are without outside writers that say otherwise about the job: no status but stopped, and no running heartbeat.
- A cut pass ends at a store call or an await; a store call that raises is one that has not happened. Cut passes are proved for one supervisor without other writers.
- The store's second read of the heartbeat row inside one record call is one step with the first.
- The supervisor's own heartbeat file, the `meaningful` argument (computed and never used), and the status payload beyond its marking of stale runs.
- SQLite and flock internals: tables are maps by their unique key, a commit is atomic, a backup copies the committed file, a lock file has one holder and is released when its process dies. Surrogate row ids are not modelled.
- `Activation` has no other writer between planning and the first write; `StalePlanIsUnion` says what a plan does to a database that has grown.
- Schema inspection is a step that may raise; the columns it looks for are not modelled. Configuration values are lists of texts.
- The order of `sorted(set)` in the missing lists of the access plan: they are sets here.
- JSON, Markdown and report files, argument parsing, container snapshots, the live verifier.
- Scores and latencies are reals, so rounding is not modelled; `_speed_metrics` is left out, as are the tool, verifier and suite rates, which are ratios of counts.
- The normalisation of answers and keywords before they are matched (Unicode and white space) is an arbitrary function.
- Text is ASCII in the user matching and in the id normaliser: casefolding, `isalnum` and `strip` of other characters are not modelled.
- The Iris fixture's answers: the fixture client is one value. A body that deletes the router's Iris attribute is outside `KeepsIris`.
- The identity service behind the allowlist is an arbitrary function; the family identity database is not modelled.
- `expanduser` is an arbitrary function, and the normalisation of a path by `Path` is the identity.
