/** What completed passes and serialised stops keep, over whole runs.
  *
  * The status table, the heartbeat table and the event log are three records of
  * the same job, written by different calls. They never disagree.
  */
module SupervisorRuns {
  import opened Wrappers
  import opened JobLedger
  import opened Supervisor

  // ---- the log as an automaton ----------------------------------------------

  function EventsOf(events: seq<Event>, id: JobId): seq<Event> {
    if events == [] then []
    else
      var init := EventsOf(events[..|events| - 1], id);
      var last := events[|events| - 1];
      if last.id == id then init + [last] else init
  }

  // The status a job's log spells out, reading only what the log kept.
  function Replay(log: seq<Event>): Status {
    if log == [] then Queued else ReplayStep(Replay(log[..|log| - 1]), log[|log| - 1])
  }

  function ReplayStep(s: Status, e: Event): Status {
    match e.kind
    case RunStale => Stale
    case SmithStop => Stopped
    case BusyTimeoutStop => Blocked
    case SmithOutput => NeedsReview
    case OutputAfterSendTimeout => NeedsReview
    case OutputAfterStale => NeedsReview
    case SmithSend => if !e.payload.Whole? then s else if e.payload.ok then Running else Blocked
    case _ => if !e.payload.Whole? then s else if !e.payload.ok then Blocked else if e.payload.idle then s else Running
  }

  ghost predicate Untruncated(events: seq<Event>, id: JobId) {
    forall e :: e in EventsOf(events, id) ==> !e.payload.Truncated?
  }

  lemma EventsOfSnoc(events: seq<Event>, e: Event, id: JobId)
    ensures EventsOf(events + [e], id) == EventsOf(events, id) + (if e.id == id then [e] else [])
  {
    assert (events + [e])[..|events|] == events;
  }

  lemma ReplaySnoc(log: seq<Event>, e: Event)
    ensures Replay(log + [e]) == ReplayStep(Replay(log), e)
  {
    assert (log + [e])[..|log|] == log;
  }

  // ---- the three records agree -----------------------------------------------

  // The phase a heartbeat shows fixes the rest of the story: the status, the stop reason,
  // the next action, the error, and what was logged last.
  function PhaseStatus(p: Phase): Status {
    match p
    case PhSendingToSmith | PhSentToSmith | PhSmithBusy | PhSmithBusyAfterSendTimeout | PhSmithBusyAfterStale => Running
    case PhOutputReady | PhOutputReadyAfterSendTimeout | PhOutputReadyAfterStale => NeedsReview
    case PhSendFailed | PhStatusFailed | PhStatusFailedAfterStale | PhSmithBusyTimeout => Blocked
    case PhStopped => Stopped
    case PhStale => Stale
  }

  function PhaseStop(p: Phase): Option<StopReason> {
    match p
    case PhOutputReady => Some(BecauseSmithIdle)
    case PhOutputReadyAfterSendTimeout => Some(BecauseSmithIdleAfterSendTimeout)
    case PhOutputReadyAfterStale => Some(BecauseSmithIdleAfterStale)
    case PhSendFailed => Some(BecauseSendFailed)
    case PhStatusFailed => Some(BecauseStatusFailed)
    case PhStatusFailedAfterStale => Some(BecauseStatusFailedAfterStale)
    case PhSmithBusyTimeout => Some(BecauseSmithBusyTimeout)
    case PhStopped => Some(BecauseStoppedBySupervisor)
    case PhStale => Some(BecauseStaleTimeout)
    case _ => None
  }

  function PhaseNext(p: Phase): NextAction {
    match p
    case PhSendingToSmith => NextAwaitSmithSendResult
    case PhSentToSmith | PhSmithBusy | PhSmithBusyAfterSendTimeout | PhSmithBusyAfterStale => NextCheckSmithOutput
    case PhOutputReady | PhOutputReadyAfterSendTimeout | PhOutputReadyAfterStale => NextCloydReviewEvidence
    case PhSendFailed => NextNeedsUserOrOperatorReview
    case PhStatusFailed | PhStatusFailedAfterStale => NextFixRuntimeOrRetry
    case PhSmithBusyTimeout => NextInspectOrQueueSuggestedReplacementAfterBusyTimeout
    case PhStopped => NextStoppedBySupervisor
    case PhStale => NextInspectOpencodeOutputOrRestart
  }

  // A blocked job has a complaint, a recovered one has none.
  predicate PhaseError(p: Phase, error: Option<Complaint>) {
    match p
    case PhSendFailed | PhStatusFailed | PhStatusFailedAfterStale | PhSmithBusyTimeout | PhStale =>
      error.Some? && !error.value.NoComplaint?
    case PhSmithBusyAfterSendTimeout | PhSmithBusyAfterStale => error == Some(NoComplaint)
    case PhOutputReadyAfterSendTimeout | PhOutputReadyAfterStale =>
      error == Some(NoComplaint)
    case _ => true
  }

  predicate PhaseAfter(p: Phase, last: EventKind) {
    match p
    case PhSendingToSmith => false
    case PhSentToSmith => last.SmithSend?
    case PhSendFailed => last.SmithSend? || last.StatusAfterSendTimeout?
    case PhSmithBusyAfterSendTimeout => last.StatusAfterSendTimeout?
    case PhOutputReadyAfterSendTimeout => last.OutputAfterSendTimeout?
    case PhSmithBusy | PhStatusFailed => last.SmithStatus?
    case PhSmithBusyTimeout => last.BusyTimeoutStop?
    case PhOutputReady => last.SmithOutput?
    case PhSmithBusyAfterStale | PhStatusFailedAfterStale => last.StatusAfterStale?
    case PhOutputReadyAfterStale => last.OutputAfterStale?
    case PhStopped => last.SmithStop?
    case PhStale => last.RunStale?
  }

  // What a pass or a stop reports when it leaves a job in a phase.
  function PhaseDeed(p: Phase): Deed {
    match p
    case PhSendingToSmith | PhSentToSmith | PhSendFailed => DidSentToSmith
    case PhSmithBusy => DidStillRunning
    case PhStatusFailed => DidBlocked
    case PhSmithBusyTimeout => DidBlockedBusyTimeout
    case PhOutputReady => DidReadyForReview
    case PhSmithBusyAfterSendTimeout => DidSendTimedOutButSmithBusy
    case PhOutputReadyAfterSendTimeout => DidHarvestedOutputAfterSendTimeout
    case PhSmithBusyAfterStale => DidRecoveredStaleBusy
    case PhOutputReadyAfterStale => DidHarvestedOutputAfterStale
    case PhStatusFailedAfterStale => DidBlockedAfterStaleStatusFailed
    case PhStopped => DidStop
    case PhStale => DidMarkedStale
  }

  ghost predicate StoryAgrees(h: Heartbeat, job: Job, log: seq<Event>) {
    && h.state == job.status == PhaseStatus(h.phase)
    && h.stopReason == PhaseStop(h.phase)
    && job.nextAction == Some(PhaseNext(h.phase))
    && PhaseError(h.phase, job.error)
    && log != [] && PhaseAfter(h.phase, log[|log| - 1].kind)
  }

  // Every touched job's heartbeat, record and log tell one story; an untouched job is
  // still queued, to be sent.
  ghost predicate BeatAgrees(db: Ledger, id: JobId)
    requires id in db.jobs
  {
    if id in db.beats then StoryAgrees(db.beats[id], db.jobs[id], EventsOf(db.events, id))
    else db.jobs[id].status.Queued? && db.jobs[id].nextAction == Some(NextSendToSmith)
  }

  ghost predicate LogAgrees(db: Ledger, id: JobId)
    requires id in db.jobs
  {
    Untruncated(db.events, id) ==> Replay(EventsOf(db.events, id)) == db.jobs[id].status
  }

  // completed_at is set exactly for blocked, done, stopped and stale jobs.
  ghost predicate CompletionAgrees(db: Ledger, id: JobId)
    requires id in db.jobs
  {
    db.jobs[id].completedAt.Some? <==> Completes(db.jobs[id].status)
  }

  ghost predicate Agreement(db: Ledger) {
    forall id :: id in db.jobs ==> BeatAgrees(db, id) && LogAgrees(db, id) && CompletionAgrees(db, id)
  }

  // Nothing about the job changed: record, heartbeat and log.
  ghost predicate SameJob(db: Ledger, db': Ledger, id: JobId) {
    && id in db.jobs && id in db'.jobs
    && db.jobs[id] == db'.jobs[id]
    && GetBeat(db, id) == GetBeat(db', id)
    && EventsOf(db.events, id) == EventsOf(db'.events, id)
  }

  // What a step may do to the tables around a job `id`: time moves on, and every
  // other job keeps its record, heartbeat and log.
  ghost predicate OnlyTouches(db: Ledger, db': Ledger, id: JobId) {
    && db'.jobs.Keys == db.jobs.Keys && db'.order == db.order && db'.now >= db.now
    && db.beats.Keys <= db'.beats.Keys <= db.beats.Keys + {id}
    && (EventsKnown(db) && id in db.jobs ==> EventsKnown(db'))
    && (StartedBefore(db) ==> StartedBefore(db'))
    && (forall x :: x in db.jobs && x != id ==> SameJob(db, db', x))
    && (id in db.jobs ==>
        db'.jobs[id].createdAt == db.jobs[id].createdAt && (CompletionAgrees(db, id) ==> CompletionAgrees(db', id)))
  }

  lemma OnlyTouchesTransitive(db0: Ledger, db1: Ledger, db2: Ledger, id: JobId)
    requires OnlyTouches(db0, db1, id) && OnlyTouches(db1, db2, id)
    ensures OnlyTouches(db0, db2, id)
  {
    forall x | x in db0.jobs && x != id ensures SameJob(db0, db2, x) {
      assert SameJob(db0, db1, x) && SameJob(db1, db2, x);
    }
  }

  lemma SettleTouches(db: Ledger, id: JobId, b: Beat, patch: Patch)
    requires id in db.jobs
    ensures OnlyTouches(db, Settle(db, id, b, patch), id)
  {
  }

  lemma LogTouches(db: Ledger, id: JobId, kind: EventKind, payload: Payload, elapsed: nat)
    requires id in db.jobs
    ensures OnlyTouches(db, AddEvent(Tick(db, elapsed), id, kind, payload), id)
  {
    forall x | x in db.jobs { EventsOfSnoc(db.events, Event(id, kind, payload), x); }
  }

  // ---- one job, handled to the end --------------------------------------------

  // A handler that finishes leaves heartbeat, record and log telling one story, and
  // reports the stored status in one entry.
  ghost predicate Finished(o: Outcome, id: JobId) {
    && id in o.ledger.jobs && id in o.ledger.beats
    && BeatAgrees(o.ledger, id) && LogAgrees(o.ledger, id)
    && o.results == [Entry(id, o.ledger.jobs[id].status, PhaseDeed(o.ledger.beats[id].phase))]
  }

  // What the final writes say fits the event they follow. An error left unset keeps the old
  // one; no phase that says something about the error leaves it unset.
  predicate StoryFits(kind: EventKind, state: Status, phase: Phase, stop: Option<StopReason>, next: Option<NextAction>,
                      error: Option<Complaint>) {
    && state == PhaseStatus(phase) && stop == PhaseStop(phase) && next == Some(PhaseNext(phase))
    && PhaseAfter(phase, kind) && PhaseError(phase, error)
  }

  // One event followed by the final writes.
  lemma FinishOne(db: Ledger, id: JobId, kind: EventKind, payload: Payload, b: Beat, patch: Patch, rest: seq<Reply>,
                  status: Status, action: Deed)
    requires id in db.jobs && db.events != []
    requires db.events[|db.events| - 1] == Event(id, kind, payload)
    requires b.state == status == patch.status.GetOr(db.jobs[id].status)
    requires StoryFits(kind, b.state, b.phase, b.stopReason, patch.nextAction, patch.error)
    requires action == PhaseDeed(b.phase)
    requires payload.Truncated? || ReplayStep(Replay(EventsOf(db.events[..|db.events| - 1], id)),
                                              Event(id, kind, payload)) == status
    ensures Finished(Finish(Settle(db, id, b, patch), rest, id, status, action), id)
    ensures OnlyTouches(db, Settle(db, id, b, patch), id)
  {
    var events, e := db.events[..|db.events| - 1], Event(id, kind, payload);
    assert db.events == events + [e];
    EventsOfSnoc(events, e, id);
    ReplaySnoc(EventsOf(events, id), e);
    SettleTouches(db, id, b, patch);
  }

  lemma HarvestEffect(db: Ledger, job: Listed, status: Reply, script: seq<Reply>, kind: EventKind, phase: Phase,
                      stop: StopReason, error: Option<Complaint>, action: Deed)
    requires job.id in db.jobs && (kind.SmithOutput? || kind.OutputAfterSendTimeout? || kind.OutputAfterStale?)
    requires StoryFits(kind, NeedsReview, phase, Some(stop), Some(NextCloydReviewEvidence), error)
    requires action == PhaseDeed(phase)
    ensures var o := Harvest(db, job, status, script, kind, phase, stop, error, action);
      OnlyTouches(db, o.ledger, job.id) && (!o.crashed ==> Finished(o, job.id))
  {
    if script != [] {
      var output := script[0];
      var db1 := AddEvent(Tick(db, output.elapsed), job.id, kind, Bounded(output));
      assert db1.events[..|db.events|] == db.events;
      LogTouches(db, job.id, kind, Bounded(output), output.elapsed);
      FinishOne(db1, job.id, kind, Bounded(output), ReviewBeat(job.alias, phase, stop, output, status),
                ReviewPatch(error), script[1..], NeedsReview, action);
      OnlyTouchesTransitive(db, db1, Harvest(db, job, status, script, kind, phase, stop, error, action).ledger, job.id);
    }
  }

  lemma RecoverEffect(db: Ledger, job: Listed, script: seq<Reply>)
    requires job.id in db.jobs
    ensures var o := RecoverStale(db, job, script);
      OnlyTouches(db, o.ledger, job.id) && (!o.crashed ==> Finished(o, job.id))
  {
    if script == [] { return; }
    var status := script[0];
    var db1 := AddEvent(Tick(db, status.elapsed), job.id, StatusAfterStale, Bounded(status));
    assert db1.events[..|db.events|] == db.events;
    LogTouches(db, job.id, StatusAfterStale, Bounded(status), status.elapsed);
    if status.ok && status.idle {
      HarvestEffect(db1, job, status, script[1..], OutputAfterStale, PhOutputReadyAfterStale,
                    BecauseSmithIdleAfterStale, Some(NoComplaint), DidHarvestedOutputAfterStale);
    } else {
      StaleAnswerEffect(db1, job, status, script[1..]);
    }
    OnlyTouchesTransitive(db, db1, RecoverStale(db, job, script).ledger, job.id);
  }

  lemma StaleAnswerEffect(db: Ledger, job: Listed, status: Reply, rest: seq<Reply>)
    requires job.id in db.jobs && db.events != []
    requires db.events[|db.events| - 1] == Event(job.id, StatusAfterStale, Bounded(status))
    requires !(status.ok && status.idle)
    ensures var b, patch, s :=
        if status.ok then BusyBeat(job.alias, PhSmithBusyAfterStale, status)
        else StatusFailedBeat(job.alias, PhStatusFailedAfterStale, BecauseStatusFailedAfterStale, status),
        if status.ok then BUSY_PATCH else StatusFailedPatch(status, SmithStatusFailedAfterStale),
        if status.ok then Running else Blocked;
      && OnlyTouches(db, Settle(db, job.id, b, patch), job.id)
      && Finished(Finish(Settle(db, job.id, b, patch), rest, job.id, s, PhaseDeed(b.phase)), job.id)
  {
    if status.ok {
      FinishOne(db, job.id, StatusAfterStale, Bounded(status), BusyBeat(job.alias, PhSmithBusyAfterStale, status),
                BUSY_PATCH, rest, Running, DidRecoveredStaleBusy);
    } else {
      FinishOne(db, job.id, StatusAfterStale, Bounded(status),
                StatusFailedBeat(job.alias, PhStatusFailedAfterStale, BecauseStatusFailedAfterStale, status),
                StatusFailedPatch(status, SmithStatusFailedAfterStale), rest, Blocked,
                DidBlockedAfterStaleStatusFailed);
    }
  }

  lemma BlockEffect(db: Ledger, job: Listed, status: Reply, seconds: int, script: seq<Reply>)
    requires job.id in db.jobs
    ensures var o := BlockLongBusy(db, job, status, seconds, script);
      OnlyTouches(db, o.ledger, job.id) && (!o.crashed ==> Finished(o, job.id))
  {
    if script == [] { return; }
    var db1 := AddEvent(Tick(db, script[0].elapsed), job.id, BusyTimeoutStop, Summary);
    assert db1.events[..|db.events|] == db.events;
    LogTouches(db, job.id, BusyTimeoutStop, Summary, script[0].elapsed);
    FinishOne(db1, job.id, BusyTimeoutStop, Summary, BusyTimeoutBeat(job.alias, status), BusyTimeoutPatch(seconds),
              script[1..], Blocked, DidBlockedBusyTimeout);
    OnlyTouchesTransitive(db, db1, BlockLongBusy(db, job, status, seconds, script).ledger, job.id);
  }

  lemma PollFailedEffect(db: Ledger, job: Listed, status: Reply, rest: seq<Reply>)
    requires job.id in db.jobs && !status.ok
    requires db.events != [] && db.events[|db.events| - 1] == Event(job.id, SmithStatus, Bounded(status))
    ensures var b := StatusFailedBeat(job.alias, PhStatusFailed, BecauseStatusFailed, status);
      var db' := Settle(db, job.id, b, StatusFailedPatch(status, SmithStatusFailed));
      OnlyTouches(db, db', job.id) && Finished(Finish(db', rest, job.id, Blocked, DidBlocked), job.id)
  {
    FinishOne(db, job.id, SmithStatus, Bounded(status),
              StatusFailedBeat(job.alias, PhStatusFailed, BecauseStatusFailed, status),
              StatusFailedPatch(status, SmithStatusFailed), rest, Blocked, DidBlocked);
  }

  lemma PollBusyEffect(db: Ledger, job: Listed, status: Reply, rest: seq<Reply>)
    requires job.id in db.jobs && db.jobs[job.id].status.Running? && status.ok && !status.idle
    requires db.events != [] && db.events[|db.events| - 1] == Event(job.id, SmithStatus, Bounded(status))
    ensures var db' := Settle(db, job.id, BusyBeat(job.alias, PhSmithBusy, status), STILL_BUSY_PATCH);
      OnlyTouches(db, db', job.id) && Finished(Finish(db', rest, job.id, Running, DidStillRunning), job.id)
  {
    FinishOne(db, job.id, SmithStatus, Bounded(status), BusyBeat(job.alias, PhSmithBusy, status), STILL_BUSY_PATCH,
              rest, Running, DidStillRunning);
  }

  lemma RunningEffect(db: Ledger, job: Listed, script: seq<Reply>)
    requires job.id in db.jobs && db.jobs[job.id].status.Running?
    ensures var o := HandleRunning(db, job, script);
      OnlyTouches(db, o.ledger, job.id) && (!o.crashed ==> Finished(o, job.id))
  {
    if script == [] { return; }
    var status := script[0];
    var db1 := AddEvent(Tick(db, status.elapsed), job.id, SmithStatus, Bounded(status));
    assert db1.events[..|db.events|] == db.events;
    LogTouches(db, job.id, SmithStatus, Bounded(status), status.elapsed);
    if !status.ok {
      PollFailedEffect(db1, job, status, script[1..]);
    } else if status.idle {
      HarvestEffect(db1, job, status, script[1..], SmithOutput, PhOutputReady, BecauseSmithIdle, None,
                    DidReadyForReview);
    } else if BusyTooLong(db1, job.id) {
      BlockEffect(db1, job, status, BusySeconds(db1, job.id), script[1..]);
    } else {
      PollBusyEffect(db1, job, status, script[1..]);
    }
    OnlyTouchesTransitive(db, db1, HandleRunning(db, job, script).ledger, job.id);
  }

  // `events` and `e` split the log just before the answer that decided the dispatch.
  lemma AfterSendEffect(db: Ledger, job: Listed, sent: Reply, rest: seq<Reply>, kind: EventKind, payload: Payload)
    requires job.id in db.jobs && db.events != []
    requires db.events[|db.events| - 1] == Event(job.id, kind, payload)
    requires kind.SmithSend? || (kind.StatusAfterSendTimeout? && !sent.ok)
    requires payload.Truncated? || ReplayStep(Replay(EventsOf(db.events[..|db.events| - 1], job.id)),
                                              Event(job.id, kind, payload)) == SentStatus(sent)
    ensures var o := AfterSend(db, job, sent, rest); OnlyTouches(db, o.ledger, job.id) && Finished(o, job.id)
  {
    FinishOne(db, job.id, kind, payload, SentBeat(job.alias, sent), SentPatch(sent), rest, SentStatus(sent),
              DidSentToSmith);
  }

  lemma TimeoutEffect(db: Ledger, job: Listed, sent: Reply, script: seq<Reply>)
    requires job.id in db.jobs && !sent.ok
    ensures var o := AfterTimeout(db, job, sent, script);
      OnlyTouches(db, o.ledger, job.id) && (!o.crashed ==> Finished(o, job.id))
  {
    if script == [] { return; }
    var status := script[0];
    var db1 := AddEvent(Tick(db, status.elapsed), job.id, StatusAfterSendTimeout, Bounded(status));
    assert db1.events[..|db.events|] == db.events;
    LogTouches(db, job.id, StatusAfterSendTimeout, Bounded(status), status.elapsed);
    if status.ok && status.idle {
      HarvestEffect(db1, job, status, script[1..], OutputAfterSendTimeout, PhOutputReadyAfterSendTimeout,
                    BecauseSmithIdleAfterSendTimeout, Some(NoComplaint), DidHarvestedOutputAfterSendTimeout);
    } else if status.ok {
      FinishOne(db1, job.id, StatusAfterSendTimeout, Bounded(status),
                BusyBeat(job.alias, PhSmithBusyAfterSendTimeout, status),
                BUSY_PATCH, script[1..], Running, DidSendTimedOutButSmithBusy);
    } else {
      AfterSendEffect(db1, job, sent, script[1..], StatusAfterSendTimeout, Bounded(status));
    }
    OnlyTouchesTransitive(db, db1, AfterTimeout(db, job, sent, script).ledger, job.id);
  }

  lemma QueuedEffect(db: Ledger, job: Listed, script: seq<Reply>)
    requires job.id in db.jobs
    ensures var o := HandleQueued(db, job, script);
      OnlyTouches(db, o.ledger, job.id) && (!o.crashed ==> Finished(o, job.id))
  {
    var db1 := Dispatch(db, job);
    assert OnlyTouches(db, db1, job.id);
    if script == [] { return; }
    var sent := script[0];
    var db2 := AddEvent(Tick(db1, sent.elapsed), job.id, SmithSend, Bounded(sent));
    assert db2.events[..|db1.events|] == db1.events;
    LogTouches(db1, job.id, SmithSend, Bounded(sent), sent.elapsed);
    OnlyTouchesTransitive(db, db1, db2, job.id);
    if SendTimedOut(sent) {
      TimeoutEffect(db2, job, sent, script[1..]);
    } else {
      AfterSendEffect(db2, job, sent, script[1..], SmithSend, Bounded(sent));
    }
    OnlyTouchesTransitive(db, db2, HandleQueued(db, job, script).ledger, job.id);
  }

  ghost predicate Handleable(s: Status) {
    s.Queued? || s.Running? || s.Stale?
  }

  lemma HandleEffect(db: Ledger, job: Listed, script: seq<Reply>)
    requires job.id in db.jobs && job.status == db.jobs[job.id].status
    ensures var o := Handle(db, job, script);
      && OnlyTouches(db, o.ledger, job.id)
      && (Handleable(job.status) && !o.crashed ==> Finished(o, job.id))
      && (!Handleable(job.status) ==> o == Outcome(db, script, false, []))
  {
    match job.status
    case Stale => RecoverEffect(db, job, script);
    case Queued => QueuedEffect(db, job, script);
    case Running => RunningEffect(db, job, script);
    case _ =>
  }

  // ---- the listing, handled in order -------------------------------------------

  // The last thing a pass reports about a job.
  function LastEntry(results: seq<Entry>, id: JobId): Option<Entry> {
    if results == [] then None
    else if results[|results| - 1].id == id then Some(results[|results| - 1])
    else LastEntry(results[..|results| - 1], id)
  }

  lemma {:induction false} LastEntryAppend(a: seq<Entry>, b: seq<Entry>, id: JobId)
    ensures LastEntry(a + b, id) == LastEntry(b, id).OrElse(LastEntry(a, id))
  {
    if b == [] {
      assert a + b == a;
    } else {
      assert (a + b)[..|a + b| - 1] == a + b[..|b| - 1];
      LastEntryAppend(a, b[..|b| - 1], id);
    }
  }

  // The listing is a snapshot that still tells the truth.
  ghost predicate Current(db: Ledger, todo: seq<Listed>) {
    forall j :: j in todo ==> j.id in db.jobs && j.status == db.jobs[j.id].status && j.alias == db.jobs[j.id].alias
  }

  ghost predicate Names(todo: seq<Listed>, id: JobId) {
    exists j :: j in todo && j.id == id
  }

  // A job with its heartbeat and log in agreement and its last report true.
  ghost predicate Settled(db: Ledger, results: seq<Entry>, id: JobId) {
    && id in db.jobs && BeatAgrees(db, id) && LogAgrees(db, id)
    && id in db.beats && LastEntry(results, id) == Some(Entry(id, db.jobs[id].status, PhaseDeed(db.beats[id].phase)))
  }

  ghost predicate SameTables(db: Ledger, db': Ledger) {
    && db'.jobs.Keys == db.jobs.Keys && db'.order == db.order && db'.now >= db.now
    && db.beats.Keys <= db'.beats.Keys <= db.beats.Keys + db.jobs.Keys
    && (EventsKnown(db) ==> EventsKnown(db'))
    && (StartedBefore(db) ==> StartedBefore(db'))
    && forall id :: id in db.jobs ==>
      db'.jobs[id].createdAt == db.jobs[id].createdAt && (CompletionAgrees(db, id) ==> CompletionAgrees(db', id))
  }

  lemma SameJobKeeps(db: Ledger, db': Ledger, id: JobId)
    requires SameJob(db, db', id)
    ensures BeatAgrees(db, id) <==> BeatAgrees(db', id)
    ensures LogAgrees(db, id) <==> LogAgrees(db', id)
  {
  }

  lemma SameTablesTransitive(db0: Ledger, db1: Ledger, db2: Ledger)
    requires SameTables(db0, db1) && SameTables(db1, db2)
    ensures SameTables(db0, db2)
  {
  }

  lemma TouchedTables(db: Ledger, db': Ledger, id: JobId)
    requires OnlyTouches(db, db', id) && id in db.jobs
    ensures SameTables(db, db')
  {
    forall x | x in db.jobs
      ensures db'.jobs[x].createdAt == db.jobs[x].createdAt && (CompletionAgrees(db, x) ==> CompletionAgrees(db', x))
    {
      if x != id { assert SameJob(db, db', x); }
    }
  }

  lemma NamesInit(todo: seq<Listed>, id: JobId)
    requires todo != [] && DistinctIds(todo)
    ensures Names(todo, id) <==> (Names(todo[..|todo| - 1], id) || id == todo[|todo| - 1].id)
    ensures !Names(todo[..|todo| - 1], todo[|todo| - 1].id)
  {
    var init, last := todo[..|todo| - 1], todo[|todo| - 1];
    assert last in todo;
    if Names(todo, id) && id != last.id {
      var j :| j in todo && j.id == id;
      assert j in init;
    }
    if Names(init, id) {
      var j :| j in init && j.id == id;
      assert j in todo;
    }
  }

  lemma CurrentInit(db: Ledger, todo: seq<Listed>)
    requires todo != [] && Current(db, todo) && DistinctIds(todo)
    ensures Current(db, todo[..|todo| - 1]) && DistinctIds(todo[..|todo| - 1]) && todo[|todo| - 1] in todo
  {
  }

  // Handling a listing, seen from one job: a job it does not name, or with nothing to
  // do, is left alone and not reported; any other is settled if the handling finishes.
  lemma {:induction false} HandleAllEffect(db: Ledger, todo: seq<Listed>, script: seq<Reply>, id: JobId)
    requires Current(db, todo) && DistinctIds(todo) && id in db.jobs
    ensures var o := HandleAll(db, todo, script);
      if Names(todo, id) && Handleable(db.jobs[id].status) then !o.crashed ==> Settled(o.ledger, o.results, id)
      else SameJob(db, o.ledger, id) && LastEntry(o.results, id).None?
  {
    if todo == [] { return; }
    var init, last := todo[..|todo| - 1], todo[|todo| - 1];
    CurrentInit(db, todo);
    NamesInit(todo, id);
    HandleAllEffect(db, init, script, id);
    var o1 := HandleAll(db, init, script);
    if o1.crashed { return; }
    NamesInit(todo, last.id);
    HandleAllEffect(db, init, script, last.id);
    var o2 := Handle(o1.ledger, last, o1.rest);
    HandleEffect(o1.ledger, last, o1.rest);
    LastEntryAppend(o1.results, o2.results, id);
    if id == last.id {
      if Handleable(last.status) && !o2.crashed { assert o2.results == [o2.results[0]]; }
    } else {
      HandleReportsOwn(o1.ledger, last, o1.rest, id);
      assert SameJob(o1.ledger, o2.ledger, id);
      SameJobKeeps(o1.ledger, o2.ledger, id);
    }
  }

  lemma {:induction false} HandleAllTables(db: Ledger, todo: seq<Listed>, script: seq<Reply>)
    requires Current(db, todo) && DistinctIds(todo)
    ensures SameTables(db, HandleAll(db, todo, script).ledger)
  {
    if todo == [] { return; }
    var init, last := todo[..|todo| - 1], todo[|todo| - 1];
    CurrentInit(db, todo);
    HandleAllTables(db, init, script);
    var o1 := HandleAll(db, init, script);
    if o1.crashed { return; }
    NamesInit(todo, last.id);
    HandleAllEffect(db, init, script, last.id);
    HandleEffect(o1.ledger, last, o1.rest);
    TouchedTables(o1.ledger, Handle(o1.ledger, last, o1.rest).ledger, last.id);
    SameTablesTransitive(db, o1.ledger, Handle(o1.ledger, last, o1.rest).ledger);
  }

  // A handler reports no job but its own.
  lemma HandleReportsOwn(db: Ledger, job: Listed, script: seq<Reply>, id: JobId)
    requires job.id in db.jobs && id != job.id
    ensures LastEntry(Handle(db, job, script).results, id).None?
  {
    var o := Handle(db, job, script);
    assert |o.results| <= 1 && (o.results != [] ==> o.results[0].id == job.id);
  }

  // ---- marking stale runs --------------------------------------------------------

  ghost predicate Marks(db: Ledger, todo: seq<Listed>, id: JobId)
    requires id in db.jobs
  {
    Names(todo, id) && db.jobs[id].status.Running? && id in db.beats && BeatIsStale(db.beats[id], db.now)
  }

  lemma MarkOneTouches(db: Ledger, id: JobId)
    requires id in db.jobs && id in db.beats
    ensures OnlyTouches(db, MarkOne(db, id), id) && MarkOne(db, id).now == db.now
  {
    var db1 := db.(beats := db.beats[id := StaleBeat(db.beats[id], db.now)]);
    var db2 := Update(db1, id, StalePatch(db.beats[id]));
    assert OnlyTouches(db, db1, id) && OnlyTouches(db1, db2, id);
    OnlyTouchesTransitive(db, db1, db2, id);
    LogTouches(db2, id, RunStale, Summary, 0);
    assert Tick(db2, 0) == db2;
    OnlyTouchesTransitive(db, db2, MarkOne(db, id), id);
  }

  lemma MarkOneEffect(db: Ledger, id: JobId)
    requires id in db.jobs && id in db.beats
    ensures var db' := MarkOne(db, id);
      && OnlyTouches(db, db', id) && db'.now == db.now
      && db'.jobs[id].status.Stale? && BeatAgrees(db', id) && LogAgrees(db', id)
      && db'.beats[id].startedAt == db.beats[id].startedAt
  {
    var e := Event(id, RunStale, Summary);
    MarkOneTouches(db, id);
    EventsOfSnoc(db.events, e, id);
    ReplaySnoc(EventsOf(db.events, id), e);
  }

  lemma MarkNext(db: Ledger, job: Listed, marked: seq<JobId>, id: JobId)
    requires job.id in db.jobs && id in db.jobs && ShouldMark(db, job)
    ensures var (db', marked') := (MarkOne(db, job.id), marked + [job.id]);
      if id == job.id then
        && Settled(db', StaleEntries(marked'), id) && db'.jobs[id].status.Stale?
        && id in db'.beats && db'.beats[id].startedAt == db.beats[id].startedAt
      else
        && SameJob(db, db', id) && (BeatAgrees(db, id) <==> BeatAgrees(db', id))
        && (LogAgrees(db, id) <==> LogAgrees(db', id))
        && LastEntry(StaleEntries(marked'), id) == LastEntry(StaleEntries(marked), id)
  {
    assert StaleEntries(marked + [job.id])[..|marked|] == StaleEntries(marked);
    MarkOneEffect(db, job.id);
    if id != job.id { SameJobKeeps(db, MarkOne(db, job.id), id); }
  }

  // Marking touches only running jobs whose heartbeat is too old, and leaves those
  // stale in all three records.
  lemma {:induction false} MarkAllEffect(db: Ledger, todo: seq<Listed>, id: JobId)
    requires Current(db, todo) && DistinctIds(todo) && id in db.jobs
    ensures MarkedOrSame(db, todo, MarkAll(db, todo).0, MarkAll(db, todo).1, id)
  {
    if todo == [] { return; }
    var init, last := todo[..|todo| - 1], todo[|todo| - 1];
    CurrentInit(db, todo);
    NamesInit(todo, id);
    NamesInit(todo, last.id);
    MarkAllEffect(db, init, id);
    MarkAllEffect(db, init, last.id);
    Supervisor.MarkAllFrame(db, init);
    var (db1, marked1) := MarkAll(db, init);
    if ShouldMark(db1, last) { MarkNext(db1, last, marked1, id); }
  }

  ghost predicate MarkedOrSame(db: Ledger, todo: seq<Listed>, db': Ledger, marked: seq<JobId>, id: JobId)
    requires id in db.jobs
  {
    if Marks(db, todo, id) then
      && Settled(db', StaleEntries(marked), id) && db'.jobs[id].status.Stale?
      && id in db'.beats && db'.beats[id].startedAt == db.beats[id].startedAt
    else
      SameJob(db, db', id) && LastEntry(StaleEntries(marked), id).None?
  }

  lemma {:induction false} MarkAllTables(db: Ledger, todo: seq<Listed>)
    requires Current(db, todo)
    ensures SameTables(db, MarkAll(db, todo).0) && MarkAll(db, todo).0.now == db.now
  {
    if todo == [] { return; }
    MarkAllTables(db, todo[..|todo| - 1]);
    var db1 := MarkAll(db, todo[..|todo| - 1]).0;
    var last := todo[|todo| - 1];
    assert last in todo;
    if ShouldMark(db1, last) {
      MarkOneEffect(db1, last.id);
      TouchedTables(db1, MarkOne(db1, last.id), last.id);
      SameTablesTransitive(db, db1, MarkOne(db1, last.id));
    }
  }
}
