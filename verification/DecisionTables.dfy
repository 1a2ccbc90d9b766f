/** What a pass writes, answer by answer, and what a stop does.
  *
  * The tables below give the outcome for one job from the columns of its rows and from
  * the fields of Smith's answers. They are written down row by row, without the functions
  * a pass is made of; the lemmas say that the pass and the stop do exactly this.
  */
module DecisionTables {
  import opened Wrappers
  import opened JobLedger
  import opened Supervisor
  import opened SupervisorRuns
  import opened SupervisorSafety
  import opened SupervisorBounds
  import opened BusyLimit

  // The columns of a job and of its heartbeat that a handler writes, and when.
  datatype Row = Row(
    status: Status,
    next: NextAction,
    error: Option<Complaint>,
    completed: Option<int>,
    phase: Phase,
    stop: Option<StopReason>,
    session: Option<string>,
    directory: string,
    since: int,
    at: int)

  // The ledger with these columns and more log entries. The job keeps its alias and its
  // creation time, and the heartbeat shows the same status.
  function Written(db: Ledger, id: JobId, row: Row, log: seq<Event>): Ledger
    requires id in db.jobs
  {
    var alias := db.jobs[id].alias;
    Ledger(db.jobs[id := Job(alias, row.status, Some(row.next), row.error, db.jobs[id].createdAt, row.completed)],
           db.order,
           db.beats[id := Heartbeat(alias, row.session, row.status, row.phase, row.directory, row.since, row.at, 300,
                                    row.stop)],
           db.events + log,
           row.at)
  }

  // Time goes by, and the log grows.
  function Later(db: Ledger, log: seq<Event>, now: int): Ledger {
    db.(events := db.events + log, now := now)
  }

  function Ends(db: Ledger, id: JobId, row: Row, log: seq<Event>, rest: seq<Reply>, deed: Deed): Outcome
    requires id in db.jobs
  {
    Outcome(Written(db, id, row, log), rest, false, [Entry(id, row.status, deed)])
  }

  function Dies(db: Ledger): Outcome {
    Outcome(db, [], true, [])
  }

  // An answer as the log keeps it.
  function Logged(id: JobId, kind: EventKind, r: Reply): Event {
    Event(id, kind, if r.large then Truncated else Whole(r.ok, r.idle))
  }

  // The session and the directory a heartbeat shows, and when the run began.
  function Session(db: Ledger, id: JobId): Option<string> {
    if id in db.beats then db.beats[id].session else None
  }

  function Directory(db: Ledger, id: JobId): string {
    if id in db.beats then db.beats[id].directory else ""
  }

  function Since(db: Ledger, id: JobId, now: int): int {
    if id in db.beats then db.beats[id].startedAt else now
  }

  // A session or a directory named in an answer replaces the one shown.
  function Shown(said: string, before: Option<string>): Option<string> {
    if said == "" then before else Some(said)
  }

  function Place(said: string, before: string): string {
    if said == "" then before else said
  }

  function Excuse(said: string, otherwise: Complaint): Option<Complaint> {
    Some(if said == "" then otherwise else SmithSaid(said))
  }

  // completed_at is set for four of the seven statuses.
  predicate Over(s: Status) {
    s == Blocked || s == Done || s == Stopped || s == Stale
  }

  // completed_at of a job that goes on: one that was over, or stale, loses it.
  function Completed(db: Ledger, id: JobId): Option<int>
    requires id in db.jobs
  {
    if Over(db.jobs[id].status) then None else db.jobs[id].completedAt
  }

  // ---- the tables ----------------------------------------------------------------------------

  // The row after an answer that is not followed by another.
  function RowAfter(db: Ledger, id: JobId, r: Reply, status: Status, next: NextAction, error: Option<Complaint>,
                    completed: Option<int>, phase: Phase, stop: Option<StopReason>, now: int): Row {
    Row(status, next, error, completed, phase, stop, Shown(r.session, Session(db, id)),
        Place(r.directory, Directory(db, id)), Since(db, id, now), now)
  }

  // Smith's output is read and the job goes to review.
  function OutputTable(db: Ledger, id: JobId, status: Reply, script: seq<Reply>, log: seq<Event>, now: int,
                       kind: EventKind, phase: Phase, stop: StopReason, error: Option<Complaint>, deed: Deed): Outcome
    requires id in db.jobs
  {
    if |script| == 0 then Dies(Later(db, log, now))
    else
      var output := script[0];
      var now1 := now + output.elapsed;
      var session := Shown(output.session, Shown(status.session, Session(db, id)));
      Ends(db, id, Row(NeedsReview, NextCloydReviewEvidence, error, Completed(db, id), phase, Some(stop), session,
                       Place(status.directory, Directory(db, id)), Since(db, id, now1), now1),
           log + [Logged(id, kind, output)], script[1..], deed)
  }

  // The send timed out: a question, and the output if Smith is idle.
  function FollowedTable(db: Ledger, id: JobId, sent: Reply, script: seq<Reply>, log: seq<Event>, now: int): Outcome
    requires id in db.jobs
  {
    if |script| == 0 then Dies(Later(db, log, now))
    else
      var status := script[0];
      var log1, now1 := log + [Logged(id, StatusAfterSendTimeout, status)], now + status.elapsed;
      if !status.ok then
        Ends(db, id, RowAfter(db, id, sent, Blocked, NextNeedsUserOrOperatorReview, Excuse(sent.error, SmithSendFailed),
                              Some(now1), PhSendFailed, Some(BecauseSendFailed), now1),
             log1, script[1..], DidSentToSmith)
      else if !status.idle then
        Ends(db, id, RowAfter(db, id, status, Running, NextCheckSmithOutput, Some(NoComplaint), Completed(db, id),
                              PhSmithBusyAfterSendTimeout, None, now1),
             log1, script[1..], DidSendTimedOutButSmithBusy)
      else
        OutputTable(db, id, status, script[1..], log1, now1, OutputAfterSendTimeout, PhOutputReadyAfterSendTimeout,
                    BecauseSmithIdleAfterSendTimeout, Some(NoComplaint), DidHarvestedOutputAfterSendTimeout)
  }

  // A queued job that has been marked running: the send, and what follows it.
  function SendingTable(db: Ledger, id: JobId, script: seq<Reply>): Outcome
    requires id in db.jobs
  {
    if |script| == 0 then Dies(db)
    else
      var sent := script[0];
      var log1, now1 := [Logged(id, SmithSend, sent)], db.now + sent.elapsed;
      if sent.ok then
        Ends(db, id, RowAfter(db, id, sent, Running, NextCheckSmithOutput, db.jobs[id].error, Completed(db, id),
                              PhSentToSmith, None, now1),
             log1, script[1..], DidSentToSmith)
      else if !sent.timedOut then
        Ends(db, id, RowAfter(db, id, sent, Blocked, NextNeedsUserOrOperatorReview, Excuse(sent.error, SmithSendFailed),
                              Some(now1), PhSendFailed, Some(BecauseSendFailed), now1),
             log1, script[1..], DidSentToSmith)
      else FollowedTable(db, id, sent, script[1..], log1, now1)
  }

  // A queued job is marked running, as of now, before it is sent.
  function QueuedTable(db: Ledger, id: JobId, script: seq<Reply>): Outcome
    requires id in db.jobs
  {
    var job := db.jobs[id];
    SendingTable(Written(db, id, Row(Running, NextAwaitSmithSendResult, job.error, job.completedAt, PhSendingToSmith,
                                     None, Session(db, id), Directory(db, id), db.now, db.now), []),
                 id, script)
  }

  // A running job: the question, then the output, or the stop when it has been busy for 181
  // seconds and its heartbeat says that it runs.
  function RunningTable(db: Ledger, id: JobId, script: seq<Reply>): Outcome
    requires id in db.jobs
  {
    if |script| == 0 then Dies(db)
    else
      var error, completed, status := db.jobs[id].error, db.jobs[id].completedAt, script[0];
      var log1, now1 := [Logged(id, SmithStatus, status)], db.now + status.elapsed;
      if !status.ok then
        Ends(db, id, RowAfter(db, id, status, Blocked, NextFixRuntimeOrRetry, Excuse(status.error, SmithStatusFailed),
                              Some(now1), PhStatusFailed, Some(BecauseStatusFailed), now1),
             log1, script[1..], DidBlocked)
      else if status.idle then
        OutputTable(db, id, status, script[1..], log1, now1, SmithOutput, PhOutputReady, BecauseSmithIdle, error,
                    DidReadyForReview)
      else if id in db.beats && db.beats[id].state.Running? && now1 - db.beats[id].startedAt >= 181_000_000 then
        if |script| == 1 then Dies(Later(db, log1, now1))
        else
          var seconds, now2 := (now1 - db.beats[id].startedAt) / 1_000_000, now1 + script[1].elapsed;
          Ends(db, id, RowAfter(db, id, status, Blocked, NextInspectOrQueueSuggestedReplacementAfterBusyTimeout,
                                Some(StayedBusy(seconds)), Some(now2), PhSmithBusyTimeout,
                                Some(BecauseSmithBusyTimeout), now2),
               log1 + [Event(id, BusyTimeoutStop, Summary)], script[2..], DidBlockedBusyTimeout)
      else
        Ends(db, id, RowAfter(db, id, status, Running, NextCheckSmithOutput, error, completed, PhSmithBusy, None, now1),
             log1, script[1..], DidStillRunning)
  }

  // A stale job: the same question, with no limit on how long Smith may be busy.
  function StaleTable(db: Ledger, id: JobId, script: seq<Reply>): Outcome
    requires id in db.jobs
  {
    if |script| == 0 then Dies(db)
    else
      var status := script[0];
      var log1, now1 := [Logged(id, StatusAfterStale, status)], db.now + status.elapsed;
      if !status.ok then
        Ends(db, id, RowAfter(db, id, status, Blocked, NextFixRuntimeOrRetry,
                              Excuse(status.error, SmithStatusFailedAfterStale), Some(now1), PhStatusFailedAfterStale,
                              Some(BecauseStatusFailedAfterStale), now1),
             log1, script[1..], DidBlockedAfterStaleStatusFailed)
      else if !status.idle then
        Ends(db, id, RowAfter(db, id, status, Running, NextCheckSmithOutput, Some(NoComplaint), None,
                              PhSmithBusyAfterStale, None, now1),
             log1, script[1..], DidRecoveredStaleBusy)
      else
        OutputTable(db, id, status, script[1..], log1, now1, OutputAfterStale, PhOutputReadyAfterStale,
                    BecauseSmithIdleAfterStale, Some(NoComplaint), DidHarvestedOutputAfterStale)
  }

  function Table(db: Ledger, id: JobId, script: seq<Reply>): Outcome
    requires id in db.jobs
  {
    match db.jobs[id].status
    case Queued => QueuedTable(db, id, script)
    case Running => RunningTable(db, id, script)
    case Stale => StaleTable(db, id, script)
    case _ => Outcome(db, script, false, [])
  }

  // The operator's stop: a job that is not there is an error, and nothing is done.
  function StopTable(db: Ledger, id: JobId, script: seq<Reply>): Outcome {
    if id !in db.jobs || |script| == 0 then Dies(db)
    else
      var stopped, job := script[0], db.jobs[id];
      var now := db.now + stopped.elapsed;
      Ends(db, id, Row(Stopped, NextStoppedBySupervisor, job.error, Some(now), PhStopped,
                       Some(BecauseStoppedBySupervisor), Shown(stopped.session, Session(db, id)), Directory(db, id),
                       Since(db, id, now), now),
           [Logged(id, SmithStop, stopped)], script[1..], DidStop)
  }

  // What marking writes for a running job whose heartbeat is overdue.
  function Overdue(db: Ledger, id: JobId): Ledger
    requires id in db.jobs && id in db.beats
  {
    var job, h := db.jobs[id], db.beats[id];
    Ledger(db.jobs[id := Job(job.alias, Stale, Some(NextInspectOpencodeOutputOrRestart), Some(NoProgress(h.staleAfter)),
                             job.createdAt, Some(db.now))],
           db.order,
           db.beats[id := Heartbeat(h.alias, h.session, Stale, PhStale, h.directory, h.startedAt, db.now, h.staleAfter,
                                    Some(BecauseStaleTimeout))],
           db.events + [Event(id, RunStale, Summary)],
           db.now)
  }

  // ---- the handlers do what the tables say ---------------------------------------------------

  lemma LoggedAs(db: Ledger, id: JobId, kind: EventKind, r: Reply, log: seq<Event>, now: int)
    ensures AddEvent(Tick(Later(db, log, now), r.elapsed), id, kind, Bounded(r)) ==
      Later(db, log + [Logged(id, kind, r)], now + r.elapsed)
  {
    assert db.events + log + [Logged(id, kind, r)] == db.events + (log + [Logged(id, kind, r)]);
  }

  // The final writes, as a row.
  lemma SettledAs(db: Ledger, id: JobId, b: Beat, patch: Patch, log: seq<Event>, now: int)
    requires id in db.jobs && b.alias == db.jobs[id].alias && !b.resetStartedAt
    requires patch.nextAction.Some? && b.state == patch.status.GetOr(db.jobs[id].status)
    ensures Settle(Later(db, log, now), id, b, patch) == Written(db, id, Row(
      b.state, patch.nextAction.value, patch.error.OrElse(db.jobs[id].error),
      if Over(b.state) then Some(now) else Completed(db, id), b.phase, b.stopReason,
      Shown(b.session, Session(db, id)), Place(b.directory, Directory(db, id)), Since(db, id, now), now), log)
  {
  }

  lemma HarvestedAs(db: Ledger, id: JobId, status: Reply, script: seq<Reply>, log: seq<Event>, now: int,
                    kind: EventKind, phase: Phase, stop: StopReason, error: Option<Complaint>, deed: Deed)
    requires id in db.jobs && (db.jobs[id].status.Running? || db.jobs[id].status.Stale?)
    ensures Harvest(Later(db, log, now), Listed(id, db.jobs[id].alias, db.jobs[id].status), status, script, kind, phase,
                    stop, error, deed) ==
      OutputTable(db, id, status, script, log, now, kind, phase, stop, error.OrElse(db.jobs[id].error), deed)
  {
    if script == [] { return; }
    var output := script[0];
    LoggedAs(db, id, kind, output, log, now);
    SettledAs(db, id, ReviewBeat(db.jobs[id].alias, phase, stop, output, status), ReviewPatch(error),
              log + [Logged(id, kind, output)], now + output.elapsed);
  }

  lemma StaleHandled(db: Ledger, id: JobId, script: seq<Reply>)
    requires id in db.jobs && db.jobs[id].status.Stale?
    ensures RecoverStale(db, Listed(id, db.jobs[id].alias, Stale), script) == StaleTable(db, id, script)
  {
    if script == [] { return; }
    var alias, status := db.jobs[id].alias, script[0];
    var log1, now1 := [Logged(id, StatusAfterStale, status)], db.now + status.elapsed;
    if !status.ok {
      SettledAs(db, id, StatusFailedBeat(alias, PhStatusFailedAfterStale, BecauseStatusFailedAfterStale, status),
                StatusFailedPatch(status, SmithStatusFailedAfterStale), log1, now1);
    } else if !status.idle {
      SettledAs(db, id, BusyBeat(alias, PhSmithBusyAfterStale, status), BUSY_PATCH, log1, now1);
    } else {
      HarvestedAs(db, id, status, script[1..], log1, now1, OutputAfterStale, PhOutputReadyAfterStale,
                  BecauseSmithIdleAfterStale, Some(NoComplaint), DidHarvestedOutputAfterStale);
    }
  }

  lemma LongBusyAs(db: Ledger, id: JobId, status: Reply, script: seq<Reply>, log: seq<Event>, now: int)
    requires id in db.jobs && db.jobs[id].status.Running? && id in db.beats && script != []
    requires now - db.beats[id].startedAt >= 0
    ensures var now2 := now + script[0].elapsed;
      BlockLongBusy(Later(db, log, now), Listed(id, db.jobs[id].alias, Running), status,
                    BusySeconds(Later(db, log, now), id), script) ==
      Ends(db, id, RowAfter(db, id, status, Blocked, NextInspectOrQueueSuggestedReplacementAfterBusyTimeout,
                            Some(StayedBusy((now - db.beats[id].startedAt) / 1_000_000)), Some(now2),
                            PhSmithBusyTimeout, Some(BecauseSmithBusyTimeout), now2),
           log + [Event(id, BusyTimeoutStop, Summary)], script[1..], DidBlockedBusyTimeout)
  {
    var log2 := log + [Event(id, BusyTimeoutStop, Summary)];
    assert db.events + log + [Event(id, BusyTimeoutStop, Summary)] == db.events + log2;
    var patch := BusyTimeoutPatch(BusySeconds(Later(db, log, now), id));
    SettledAs(db, id, BusyTimeoutBeat(db.jobs[id].alias, status), patch, log2, now + script[0].elapsed);
  }

  // The four answers of a running job.
  lemma FailedAs(db: Ledger, id: JobId, status: Reply, rest: seq<Reply>)
    requires id in db.jobs && db.jobs[id].status.Running? && !status.ok
    ensures HandleRunning(db, Listed(id, db.jobs[id].alias, Running), [status] + rest) ==
      RunningTable(db, id, [status] + rest)
  {
    SettledAs(db, id, StatusFailedBeat(db.jobs[id].alias, PhStatusFailed, BecauseStatusFailed, status),
              StatusFailedPatch(status, SmithStatusFailed), [Logged(id, SmithStatus, status)],
              db.now + status.elapsed);
  }

  lemma IdleAs(db: Ledger, id: JobId, status: Reply, rest: seq<Reply>)
    requires id in db.jobs && db.jobs[id].status.Running? && status.ok && status.idle
    ensures HandleRunning(db, Listed(id, db.jobs[id].alias, Running), [status] + rest) ==
      RunningTable(db, id, [status] + rest)
  {
    HarvestedAs(db, id, status, rest, [Logged(id, SmithStatus, status)], db.now + status.elapsed, SmithOutput,
                PhOutputReady, BecauseSmithIdle, None, DidReadyForReview);
  }

  lemma BusyAs(db: Ledger, id: JobId, status: Reply, rest: seq<Reply>)
    requires id in db.jobs && db.jobs[id].status.Running? && status.ok && !status.idle
    ensures HandleRunning(db, Listed(id, db.jobs[id].alias, Running), [status] + rest) ==
      RunningTable(db, id, [status] + rest)
  {
    var log1, now1 := [Logged(id, SmithStatus, status)], db.now + status.elapsed;
    if BusyTooLong(Later(db, log1, now1), id) {
      if rest != [] { LongBusyAs(db, id, status, rest, log1, now1); }
      assert rest != [] ==> ([status] + rest)[2..] == rest[1..];
    } else {
      SettledAs(db, id, BusyBeat(db.jobs[id].alias, PhSmithBusy, status), STILL_BUSY_PATCH, log1, now1);
    }
  }

  lemma RunningHandled(db: Ledger, id: JobId, script: seq<Reply>)
    requires id in db.jobs && db.jobs[id].status.Running?
    ensures HandleRunning(db, Listed(id, db.jobs[id].alias, Running), script) == RunningTable(db, id, script)
  {
    if script == [] { return; }
    var status, rest := script[0], script[1..];
    assert script == [status] + rest;
    if !status.ok {
      FailedAs(db, id, status, rest);
    } else if status.idle {
      IdleAs(db, id, status, rest);
    } else {
      BusyAs(db, id, status, rest);
    }
  }

  lemma TimedOutHandled(db: Ledger, id: JobId, sent: Reply, script: seq<Reply>, log: seq<Event>, now: int)
    requires id in db.jobs && db.jobs[id].status.Running? && !sent.ok
    ensures AfterTimeout(Later(db, log, now), Listed(id, db.jobs[id].alias, Queued), sent, script) ==
      FollowedTable(db, id, sent, script, log, now)
  {
    if script == [] { return; }
    var alias, status := db.jobs[id].alias, script[0];
    LoggedAs(db, id, StatusAfterSendTimeout, status, log, now);
    var log1, now1 := log + [Logged(id, StatusAfterSendTimeout, status)], now + status.elapsed;
    if !status.ok {
      SettledAs(db, id, SentBeat(alias, sent), SentPatch(sent), log1, now1);
    } else if !status.idle {
      SettledAs(db, id, BusyBeat(alias, PhSmithBusyAfterSendTimeout, status), BUSY_PATCH, log1, now1);
    } else {
      HarvestedAs(db, id, status, script[1..], log1, now1, OutputAfterSendTimeout, PhOutputReadyAfterSendTimeout,
                  BecauseSmithIdleAfterSendTimeout, Some(NoComplaint), DidHarvestedOutputAfterSendTimeout);
    }
  }

  // The row that a dispatch writes before anything is sent.
  lemma DispatchedAs(db: Ledger, id: JobId, script: seq<Reply>) returns (db1: Ledger)
    requires id in db.jobs && db.jobs[id].status.Queued?
    ensures db1 == Dispatch(db, Listed(id, db.jobs[id].alias, Queued)) && id in db1.jobs && db1.now == db.now
    ensures db1.jobs[id].status.Running? && db1.jobs[id].alias == db.jobs[id].alias
    ensures QueuedTable(db, id, script) == SendingTable(db1, id, script)
  {
    db1 := Dispatch(db, Listed(id, db.jobs[id].alias, Queued));
    assert db.events + [] == db.events;
  }

  // The rest of a dispatch, from the ledger that shows it.
  lemma SendingHandled(db: Ledger, id: JobId, script: seq<Reply>)
    requires id in db.jobs && db.jobs[id].status.Running? && script != []
    ensures var job, sent := Listed(id, db.jobs[id].alias, Queued), script[0];
      var db1 := AddEvent(Tick(db, sent.elapsed), id, SmithSend, Bounded(sent));
      SendingTable(db, id, script) ==
        if SendTimedOut(sent) then AfterTimeout(db1, job, sent, script[1..]) else AfterSend(db1, job, sent, script[1..])
  {
    var sent := script[0];
    var log1, now1 := [Logged(id, SmithSend, sent)], db.now + sent.elapsed;
    if !sent.ok && sent.timedOut {
      TimedOutHandled(db, id, sent, script[1..], log1, now1);
    } else {
      SettledAs(db, id, SentBeat(db.jobs[id].alias, sent), SentPatch(sent), log1, now1);
    }
  }

  lemma QueuedHandled(db: Ledger, id: JobId, script: seq<Reply>)
    requires id in db.jobs && db.jobs[id].status.Queued?
    ensures HandleQueued(db, Listed(id, db.jobs[id].alias, Queued), script) == QueuedTable(db, id, script)
  {
    var db1 := DispatchedAs(db, id, script);
    if script != [] { SendingHandled(db1, id, script); }
  }

  // Whatever else is listed, a handler does to its job what the table of the job's status says.
  lemma HandledAsTabled(db: Ledger, id: JobId, script: seq<Reply>)
    requires id in db.jobs
    ensures Handle(db, Listed(id, db.jobs[id].alias, db.jobs[id].status), script) == Table(db, id, script)
  {
    match db.jobs[id].status
    case Queued => QueuedHandled(db, id, script);
    case Running => RunningHandled(db, id, script);
    case Stale => StaleHandled(db, id, script);
    case _ =>
  }

  // ---- the pass and the stop do what the tables say ------------------------------------------

  // Every other job is blocked, done or stopped.
  ghost predicate OnlyJob(db: Ledger, id: JobId) {
    && Valid(db) && id in db.jobs && !(db.jobs[id].status in {Blocked, Done, Stopped})
    && forall x :: x in db.jobs && x != id ==> db.jobs[x].status in {Blocked, Done, Stopped}
  }

  // More than the seconds the heartbeat allows have passed since it was written.
  predicate IsOverdue(db: Ledger, id: JobId) {
    && id in db.jobs && db.jobs[id].status == Running && id in db.beats
    && db.now - db.beats[id].updatedAt > db.beats[id].staleAfter * 1_000_000
  }

  lemma OnlyListed(db: Ledger, id: JobId)
    requires OnlyJob(db, id)
    ensures ListActive(db, 50) == [Listed(id, db.jobs[id].alias, db.jobs[id].status)]
    ensures ListActive(db, PASS_LIMIT) == [Listed(id, db.jobs[id].alias, db.jobs[id].status)]
  {
    AloneListed(db, id);
  }

  lemma OneAsTabled(db: Ledger, id: JobId, script: seq<Reply>)
    requires id in db.jobs
    ensures HandleAll(db, [Listed(id, db.jobs[id].alias, db.jobs[id].status)], script) == Table(db, id, script)
  {
    HandleOnly(db, Listed(id, db.jobs[id].alias, db.jobs[id].status), script);
    HandledAsTabled(db, id, script);
  }

  lemma MarkedAs(db: Ledger, id: JobId)
    requires OnlyJob(db, id)
    ensures MarkStale(db) == if IsOverdue(db, id) then (Overdue(db, id), [id]) else (db, [])
  {
    var job := Listed(id, db.jobs[id].alias, db.jobs[id].status);
    OnlyListed(db, id);
    MarkOnly(db, job);
    if IsOverdue(db, id) { assert MarkOne(db, id) == Overdue(db, id); }
  }

  lemma MarkedIsListed(db: Ledger, id: JobId)
    requires OnlyJob(db, id) && IsOverdue(db, id)
    ensures ListActive(Overdue(db, id), PASS_LIMIT) == [Listed(id, db.jobs[id].alias, Stale)]
  {
    AloneListed(Overdue(db, id), id);
  }

  // The pass over the only job: marked first if its heartbeat is overdue, then as its table says.
  lemma PassAsTabled(db: Ledger, id: JobId, script: seq<Reply>)
    requires OnlyJob(db, id)
    ensures Pass(db, script) ==
      if IsOverdue(db, id) then
        var o := Table(Overdue(db, id), id, script);
        o.(results := [Entry(id, Stale, DidMarkedStale)] + o.results)
      else Table(db, id, script)
  {
    MarkedAs(db, id);
    if IsOverdue(db, id) {
      MarkedIsListed(db, id);
      OneAsTabled(Overdue(db, id), id, script);
      assert StaleEntries([id]) == [Entry(id, Stale, DidMarkedStale)];
    } else {
      OnlyListed(db, id);
      OneAsTabled(db, id, script);
      assert StaleEntries([]) == [];
    }
  }

  lemma StopAsTabled(db: Ledger, id: JobId, script: seq<Reply>)
    ensures StopJob(db, id, script) == StopTable(db, id, script)
  {
    if id in db.jobs && script != [] {
      SettledAs(db, id, StopBeat(db.jobs[id].alias, script[0]), STOP_PATCH, [Logged(id, SmithStop, script[0])],
                db.now + script[0].elapsed);
    }
  }

  // ---- what follows from the tables ----------------------------------------------------------

  // How many answers are read, and where the job ends. Smith is asked again exactly when the send
  // failed by a timeout, and for his output exactly when he then is idle.
  ghost predicate Decided(o: Outcome, id: JobId, script: seq<Reply>) {
    var followed := script != [] && !script[0].ok && script[0].timedOut;
    var harvested := followed && |script| > 1 && script[1].ok && script[1].idle;
    var answers := if harvested then 3 else if followed then 2 else 1;
    && (o.crashed <==> |script| < answers)
    && id in o.ledger.jobs
    && (!o.crashed ==> o.rest == script[answers..])
    && (!o.crashed ==>
          o.ledger.jobs[id].status ==
          if harvested then NeedsReview else if script[answers - 1].ok then Running else Blocked)
  }

  lemma QueuedDecided(db: Ledger, id: JobId, script: seq<Reply>)
    requires id in db.jobs
    ensures Decided(QueuedTable(db, id, script), id, script)
  {
  }

  lemma SendDecision(db: Ledger, id: JobId, script: seq<Reply>)
    requires OnlyJob(db, id) && db.jobs[id].status.Queued?
    ensures Decided(Pass(db, script), id, script)
  {
    PassAsTabled(db, id, script);
    QueuedDecided(db, id, script);
  }

  // In any pass, the job that is listed k-th ends as its table says, from the ledger and the
  // unread answers that the jobs before it leave.
  lemma ListedAsTabled(db: Ledger, k: nat, script: seq<Reply>)
    requires Valid(db) && k < |ListActive(db, PASS_LIMIT)| && !ComesTo(db, k, script).crashed
    ensures var o, id := ComesTo(db, k, script), ListActive(db, PASS_LIMIT)[k].id;
      id in o.ledger.jobs && SameJob(Table(o.ledger, id, o.rest).ledger, Pass(db, script).ledger, id)
  {
    MarkingKeepsListing(db, PASS_LIMIT);
    var db1 := MarkStale(db).0;
    var todo := ListActive(db1, PASS_LIMIT);
    ListingFacts(db1, PASS_LIMIT);
    KthHandled(db1, todo, k, script);
    var o, id := ComesTo(db, k, script), todo[k].id;
    assert todo[k] in todo;
    ActiveKnown(db1.jobs, db1.order);
    assert todo[k] == Listed(id, o.ledger.jobs[id].alias, o.ledger.jobs[id].status);
    HandledAsTabled(o.ledger, id, o.rest);
  }
}
