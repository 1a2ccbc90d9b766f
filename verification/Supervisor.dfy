/** One pass of the Cloyd-Smith supervisor, and the operator's stop.
  *
  * Smith is a script of answers. Each await consumes one answer and lets time
  * pass; an await with no answer left is where the supervisor dies or raises, so
  * a pass under a shorter script is the same pass crashed at that await.
  *
  * The functions say what a pass does to the ledger. The methods below do the
  * same work on the store, step by step, and are proved equal to them.
  */
module Supervisor {
  import opened Wrappers
  import opened JobLedger
  import opened JobStore

  datatype Reply = Reply(
    ok: bool,
    timedOut: bool,       // the error text says "timed out"
    idle: bool,           // state == "idle"
    session: string,
    directory: string,
    error: string,
    large: bool,          // the redacted payload exceeds the log limit
    elapsed: nat)         // microseconds until the answer arrived

  datatype Deed =
    | DidMarkedStale | DidHarvestedOutputAfterSendTimeout | DidSendTimedOutButSmithBusy | DidSentToSmith
    | DidBlockedBusyTimeout | DidBlocked | DidStillRunning | DidReadyForReview
    | DidRecoveredStaleBusy | DidHarvestedOutputAfterStale | DidBlockedAfterStaleStatusFailed | DidStop

  datatype Entry = Entry(id: JobId, status: Status, action: Deed)

  // `rest` is the unread script. A crashed outcome leaves the ledger as it was at
  // the await, and its results are lost.
  datatype Outcome = Outcome(ledger: Ledger, rest: seq<Reply>, crashed: bool, results: seq<Entry>)

  function Bounded(r: Reply): Payload {
    if r.large then Truncated else Whole(r.ok, r.idle)
  }

  function Either(a: string, b: string): string {
    if a != "" then a else b
  }

  function Complain(said: string, default: Complaint): Complaint {
    if said != "" then SmithSaid(said) else default
  }

  predicate SendTimedOut(r: Reply) {
    !r.ok && r.timedOut
  }

  // ---- the writes between two awaits ---------------------------------------

  function Settle(db: Ledger, id: JobId, b: Beat, patch: Patch): Ledger
    requires id in db.jobs
  {
    Update(RecordBeat(db, id, b), id, patch)
  }

  function Crash(db: Ledger): Outcome {
    Outcome(db, [], true, [])
  }

  function Finish(db: Ledger, rest: seq<Reply>, id: JobId, status: Status, action: Deed): Outcome {
    Outcome(db, rest, false, [Entry(id, status, action)])
  }

  // ---- queued jobs ----------------------------------------------------------

  const DISPATCH_PATCH := Patch(Some(Running), Some(NextAwaitSmithSendResult), None)

  function DispatchBeat(alias: string): Beat {
    Beat(alias, "", Running, PhSendingToSmith, "", None, true)
  }

  function Dispatch(db: Ledger, job: Listed): Ledger
    requires job.id in db.jobs
  {
    RecordBeat(Update(db, job.id, DISPATCH_PATCH), job.id, DispatchBeat(job.alias))
  }

  function ReviewBeat(alias: string, phase: Phase, stop: StopReason, output: Reply, status: Reply): Beat {
    Beat(alias, Either(output.session, status.session), NeedsReview, phase, status.directory, Some(stop), false)
  }

  function ReviewPatch(error: Option<Complaint>): Patch {
    Patch(Some(NeedsReview), Some(NextCloydReviewEvidence), error)
  }

  function BusyBeat(alias: string, phase: Phase, status: Reply): Beat {
    Beat(alias, status.session, Running, phase, status.directory, None, false)
  }

  const BUSY_PATCH := Patch(Some(Running), Some(NextCheckSmithOutput), Some(NoComplaint))

  function SentBeat(alias: string, sent: Reply): Beat {
    if sent.ok then Beat(alias, sent.session, Running, PhSentToSmith, sent.directory, None, false)
    else Beat(alias, sent.session, Blocked, PhSendFailed, sent.directory, Some(BecauseSendFailed), false)
  }

  function SentPatch(sent: Reply): Patch {
    if sent.ok then Patch(Some(Running), Some(NextCheckSmithOutput), None)
    else Patch(Some(Blocked), Some(NextNeedsUserOrOperatorReview), Some(Complain(sent.error, SmithSendFailed)))
  }

  function SentStatus(sent: Reply): Status {
    if sent.ok then Running else Blocked
  }

  // Lines 145-171: the ordinary end of a dispatch.
  function AfterSend(db: Ledger, job: Listed, sent: Reply, rest: seq<Reply>): (o: Outcome)
    requires job.id in db.jobs
    ensures o.ledger.jobs.Keys == db.jobs.Keys
  {
    Finish(Settle(db, job.id, SentBeat(job.alias, sent), SentPatch(sent)), rest, job.id, SentStatus(sent),
           DidSentToSmith)
  }

  function HandleQueued(db: Ledger, job: Listed, script: seq<Reply>): (o: Outcome)
    requires job.id in db.jobs
    ensures o.ledger.jobs.Keys == db.jobs.Keys
  {
    var db1 := Dispatch(db, job);
    if script == [] then Crash(db1)
    else
      var sent := script[0];
      var db2 := AddEvent(Tick(db1, sent.elapsed), job.id, SmithSend, Bounded(sent));
      if SendTimedOut(sent) then AfterTimeout(db2, job, sent, script[1..])
      else AfterSend(db2, job, sent, script[1..])
  }

  // Lines 81-144: the send timed out, so ask whether Smith is working after all.
  function AfterTimeout(db: Ledger, job: Listed, sent: Reply, script: seq<Reply>): (o: Outcome)
    requires job.id in db.jobs
    ensures o.ledger.jobs.Keys == db.jobs.Keys
  {
    if script == [] then Crash(db)
    else
      var status := script[0];
      var db1 := AddEvent(Tick(db, status.elapsed), job.id, StatusAfterSendTimeout, Bounded(status));
      if status.ok && status.idle then
        Harvest(db1, job, status, script[1..], OutputAfterSendTimeout, PhOutputReadyAfterSendTimeout,
                BecauseSmithIdleAfterSendTimeout, Some(NoComplaint), DidHarvestedOutputAfterSendTimeout)
      else if status.ok then
        Finish(Settle(db1, job.id, BusyBeat(job.alias, PhSmithBusyAfterSendTimeout, status), BUSY_PATCH),
               script[1..], job.id, Running, DidSendTimedOutButSmithBusy)
      else AfterSend(db1, job, sent, script[1..])
  }

  // Reading Smith's output and moving the job to review; three branches share it.
  function Harvest(db: Ledger, job: Listed, status: Reply, script: seq<Reply>, kind: EventKind, phase: Phase,
                   stop: StopReason, error: Option<Complaint>, action: Deed): (o: Outcome)
    requires job.id in db.jobs
    ensures o.ledger.jobs.Keys == db.jobs.Keys
  {
    if script == [] then Crash(db)
    else
      var output := script[0];
      var db1 := AddEvent(Tick(db, output.elapsed), job.id, kind, Bounded(output));
      Finish(Settle(db1, job.id, ReviewBeat(job.alias, phase, stop, output, status), ReviewPatch(error)),
             script[1..], job.id, NeedsReview, action)
  }

  // ---- running jobs ---------------------------------------------------------

  function StatusFailedBeat(alias: string, phase: Phase, stop: StopReason, status: Reply): Beat {
    Beat(alias, status.session, Blocked, phase, status.directory, Some(stop), false)
  }

  function StatusFailedPatch(status: Reply, default: Complaint): Patch {
    Patch(Some(Blocked), Some(NextFixRuntimeOrRetry), Some(Complain(status.error, default)))
  }

  const STILL_BUSY_PATCH := Patch(None, Some(NextCheckSmithOutput), None)

  predicate BusyTooLong(db: Ledger, id: JobId) {
    && id in db.beats
    && db.beats[id].state.Running?
    && IntSeconds(db.now - db.beats[id].startedAt) > MAX_BUSY_SECONDS
  }

  function BusySeconds(db: Ledger, id: JobId): int
    requires id in db.beats
  {
    IntSeconds(db.now - db.beats[id].startedAt)
  }

  function BusyTimeoutBeat(alias: string, status: Reply): Beat {
    Beat(alias, status.session, Blocked, PhSmithBusyTimeout, status.directory, Some(BecauseSmithBusyTimeout), false)
  }

  function BusyTimeoutPatch(seconds: int): Patch {
    Patch(Some(Blocked), Some(NextInspectOrQueueSuggestedReplacementAfterBusyTimeout), Some(StayedBusy(seconds)))
  }

  function HandleRunning(db: Ledger, job: Listed, script: seq<Reply>): (o: Outcome)
    requires job.id in db.jobs
    ensures o.ledger.jobs.Keys == db.jobs.Keys
  {
    if script == [] then Crash(db)
    else
      var status := script[0];
      var db1 := AddEvent(Tick(db, status.elapsed), job.id, SmithStatus, Bounded(status));
      if !status.ok then
        Finish(Settle(db1, job.id, StatusFailedBeat(job.alias, PhStatusFailed, BecauseStatusFailed, status),
                      StatusFailedPatch(status, SmithStatusFailed)),
               script[1..], job.id, Blocked, DidBlocked)
      else if !status.idle then
        if BusyTooLong(db1, job.id) then BlockLongBusy(db1, job, status, BusySeconds(db1, job.id), script[1..])
        else
          Finish(Settle(db1, job.id, BusyBeat(job.alias, PhSmithBusy, status), STILL_BUSY_PATCH),
                 script[1..], job.id, Running, DidStillRunning)
      else
        Harvest(db1, job, status, script[1..], SmithOutput, PhOutputReady, BecauseSmithIdle, None, DidReadyForReview)
  }

  function BlockLongBusy(db: Ledger, job: Listed, status: Reply, seconds: int, script: seq<Reply>): (o: Outcome)
    requires job.id in db.jobs
    ensures o.ledger.jobs.Keys == db.jobs.Keys
  {
    if script == [] then Crash(db)
    else
      var db1 := AddEvent(Tick(db, script[0].elapsed), job.id, BusyTimeoutStop, Summary);
      Finish(Settle(db1, job.id, BusyTimeoutBeat(job.alias, status), BusyTimeoutPatch(seconds)),
             script[1..], job.id, Blocked, DidBlockedBusyTimeout)
  }

  // ---- stale jobs -----------------------------------------------------------

  function RecoverStale(db: Ledger, job: Listed, script: seq<Reply>): (o: Outcome)
    requires job.id in db.jobs
    ensures o.ledger.jobs.Keys == db.jobs.Keys
  {
    if script == [] then Crash(db)
    else
      var status := script[0];
      var db1 := AddEvent(Tick(db, status.elapsed), job.id, StatusAfterStale, Bounded(status));
      if status.ok && !status.idle then
        Finish(Settle(db1, job.id, BusyBeat(job.alias, PhSmithBusyAfterStale, status), BUSY_PATCH),
               script[1..], job.id, Running, DidRecoveredStaleBusy)
      else if status.ok then
        Harvest(db1, job, status, script[1..], OutputAfterStale, PhOutputReadyAfterStale,
                BecauseSmithIdleAfterStale, Some(NoComplaint), DidHarvestedOutputAfterStale)
      else
        Finish(Settle(db1, job.id, StatusFailedBeat(job.alias, PhStatusFailedAfterStale, BecauseStatusFailedAfterStale,
                                                    status),
                      StatusFailedPatch(status, SmithStatusFailedAfterStale)),
               script[1..], job.id, Blocked, DidBlockedAfterStaleStatusFailed)
  }

  // ---- the pass -------------------------------------------------------------

  function Handle(db: Ledger, job: Listed, script: seq<Reply>): (o: Outcome)
    requires job.id in db.jobs
    ensures o.ledger.jobs.Keys == db.jobs.Keys
  {
    match job.status
    case Stale => RecoverStale(db, job, script)
    case Queued => HandleQueued(db, job, script)
    case Running => HandleRunning(db, job, script)
    case _ => Outcome(db, script, false, [])
  }

  predicate AllKnown(db: Ledger, todo: seq<Listed>) {
    forall j :: j in todo ==> j.id in db.jobs
  }

  // The loop over the listing: stops at the first crash.
  function HandleAll(db: Ledger, todo: seq<Listed>, script: seq<Reply>): (o: Outcome)
    requires AllKnown(db, todo)
    ensures o.ledger.jobs.Keys == db.jobs.Keys
  {
    if todo == [] then Outcome(db, script, false, [])
    else
      var last := todo[|todo| - 1];
      var o := HandleAll(db, todo[..|todo| - 1], script);
      if o.crashed then o
      else
        assert last in todo;
        var o' := Handle(o.ledger, last, o.rest);
        o'.(results := o.results + o'.results)
  }

  // A listing of one job.
  lemma HandleOnly(db: Ledger, job: Listed, script: seq<Reply>)
    requires job.id in db.jobs
    ensures HandleAll(db, [job], script) == Handle(db, job, script)
  {
    assert [job][..0] == [];
    assert HandleAll(db, [], script) == Outcome(db, script, false, []);
    assert [] + Handle(db, job, script).results == Handle(db, job, script).results;
  }

  function StaleEntries(marked: seq<JobId>): seq<Entry> {
    seq(|marked|, i requires 0 <= i < |marked| => Entry(marked[i], Stale, DidMarkedStale))
  }

  const PASS_LIMIT: nat := 20

  function Pass(db: Ledger, script: seq<Reply>): Outcome
    requires Valid(db)
  {
    var (db1, marked) := MarkStale(db);
    ActiveKnown(db1.jobs, db1.order);
    var o := HandleAll(db1, ListActive(db1, PASS_LIMIT), script);
    o.(results := StaleEntries(marked) + o.results)
  }

  // ---- the operator's stop ---------------------------------------------------

  const STOP_PATCH := Patch(Some(Stopped), Some(NextStoppedBySupervisor), None)

  function StopBeat(alias: string, stopped: Reply): Beat {
    Beat(alias, stopped.session, Stopped, PhStopped, "", Some(BecauseStoppedBySupervisor), false)
  }

  // A stop of an unknown job raises before it does anything.
  function StopJob(db: Ledger, id: JobId, script: seq<Reply>): Outcome {
    if id !in db.jobs || script == [] then Crash(db)
    else
      var stopped := script[0];
      var db1 := AddEvent(Tick(db, stopped.elapsed), id, SmithStop, Bounded(stopped));
      Finish(Settle(db1, id, StopBeat(db.jobs[id].alias, stopped), STOP_PATCH), script[1..], id, Stopped, DidStop)
  }

  // ---- the same work, in place ------------------------------------------------

  // Smith, seen from the supervisor: a queue of answers.
  class Smith {
    var script: seq<Reply>

    constructor (script: seq<Reply>)
      ensures this.script == script
    {
      this.script := script;
    }
  }

  // One await: time passes on the store's clock. None means the process ends here.
  method Await(store: Store, smith: Smith) returns (answer: Option<Reply>)
    modifies store`now, smith
    ensures answer.None? <==> old(smith.script) == []
    ensures answer.None? ==> store.Contents() == old(store.Contents()) && smith.script == []
    ensures answer.Some? ==> answer.value == old(smith.script)[0] && smith.script == old(smith.script)[1..]
    ensures answer.Some? ==> store.Contents() == Tick(old(store.Contents()), answer.value.elapsed)
  {
    if smith.script == [] { return None; }
    answer := Some(smith.script[0]);
    store.now := store.now + smith.script[0].elapsed;
    smith.script := smith.script[1..];
  }

  method RecoverStaleJob(store: Store, smith: Smith, job: Listed) returns (result: Option<Entry>)
    requires job.id in store.jobs
    modifies store, smith
    ensures Agrees(RecoverStale(old(store.Contents()), job, old(smith.script)), store.Contents(), smith.script, result)
  {
    var id := job.id;
    var answer := Await(store, smith);
    if answer.None? { return None; }
    var status := answer.value;
    store.LogEvent(id, StatusAfterStale, Bounded(status));
    if status.ok && !status.idle {
      store.RecordHeartbeat(id, BusyBeat(job.alias, PhSmithBusyAfterStale, status));
      var updated := store.UpdateJob(id, BUSY_PATCH);
      return Some(Entry(id, updated, DidRecoveredStaleBusy));
    }
    if status.ok && status.idle {
      answer := Await(store, smith);
      if answer.None? { return None; }
      var output := answer.value;
      store.LogEvent(id, OutputAfterStale, Bounded(output));
      store.RecordHeartbeat(id, ReviewBeat(job.alias, PhOutputReadyAfterStale, BecauseSmithIdleAfterStale, output,
                                           status));
      var updated := store.UpdateJob(id, ReviewPatch(Some(NoComplaint)));
      return Some(Entry(id, updated, DidHarvestedOutputAfterStale));
    }
    store.RecordHeartbeat(id, StatusFailedBeat(job.alias, PhStatusFailedAfterStale, BecauseStatusFailedAfterStale,
                                               status));
    var updated := store.UpdateJob(id, StatusFailedPatch(status, SmithStatusFailedAfterStale));
    return Some(Entry(id, updated, DidBlockedAfterStaleStatusFailed));
  }

  // What a handler method promises against its function: the same ledger and unread
  // script, and one result entry unless it crashed.
  ghost predicate Agrees(o: Outcome, db: Ledger, script: seq<Reply>, result: Option<Entry>) {
    && db == o.ledger
    && script == o.rest
    && o.crashed == result.None?
    && o.results == (if result.None? then [] else [result.value])
  }

  method BlockLongBusyJob(store: Store, smith: Smith, job: Listed, status: Reply)
    returns (needed: bool, result: Option<Entry>)
    requires job.id in store.jobs
    modifies store, smith
    ensures needed == BusyTooLong(old(store.Contents()), job.id)
    ensures needed ==>
      Agrees(BlockLongBusy(old(store.Contents()), job, status, BusySeconds(old(store.Contents()), job.id),
                           old(smith.script)), store.Contents(), smith.script, result)
    ensures !needed ==> store.Contents() == old(store.Contents()) && smith.script == old(smith.script)
  {
    var id := job.id;
    if id !in store.beats || store.beats[id].state != Running { return false, None; }
    var elapsedSeconds := IntSeconds(store.now - store.beats[id].startedAt);
    if elapsedSeconds <= MAX_BUSY_SECONDS { return false, None; }
    var stop := Await(store, smith);
    if stop.None? { return true, None; }
    store.LogEvent(id, BusyTimeoutStop, Summary);
    store.RecordHeartbeat(id, BusyTimeoutBeat(job.alias, status));
    var updated := store.UpdateJob(id, BusyTimeoutPatch(elapsedSeconds));
    return true, Some(Entry(id, updated, DidBlockedBusyTimeout));
  }

  method HandleRunningJob(store: Store, smith: Smith, job: Listed) returns (result: Option<Entry>)
    requires job.id in store.jobs
    modifies store, smith
    ensures Agrees(HandleRunning(old(store.Contents()), job, old(smith.script)), store.Contents(), smith.script, result)
  {
    var id := job.id;
    var answer := Await(store, smith);
    if answer.None? { return None; }
    var status := answer.value;
    store.LogEvent(id, SmithStatus, Bounded(status));
    if !status.ok {
      store.RecordHeartbeat(id, StatusFailedBeat(job.alias, PhStatusFailed, BecauseStatusFailed, status));
      var updated := store.UpdateJob(id, StatusFailedPatch(status, SmithStatusFailed));
      return Some(Entry(id, updated, DidBlocked));
    }
    if !status.idle {
      var needed, longBusy := BlockLongBusyJob(store, smith, job, status);
      if needed { return longBusy; }
      store.RecordHeartbeat(id, BusyBeat(job.alias, PhSmithBusy, status));
      var _ := store.UpdateJob(id, STILL_BUSY_PATCH);
      return Some(Entry(id, Running, DidStillRunning));
    }
    answer := Await(store, smith);
    if answer.None? { return None; }
    var output := answer.value;
    store.LogEvent(id, SmithOutput, Bounded(output));
    store.RecordHeartbeat(id, ReviewBeat(job.alias, PhOutputReady, BecauseSmithIdle, output, status));
    var updated := store.UpdateJob(id, ReviewPatch(None));
    return Some(Entry(id, updated, DidReadyForReview));
  }

  method HandleQueuedJob(store: Store, smith: Smith, job: Listed) returns (result: Option<Entry>)
    requires job.id in store.jobs
    modifies store, smith
    ensures Agrees(HandleQueued(old(store.Contents()), job, old(smith.script)), store.Contents(), smith.script, result)
  {
    var id := job.id;
    var _ := store.UpdateJob(id, DISPATCH_PATCH);
    store.RecordHeartbeat(id, DispatchBeat(job.alias));
    var answer := Await(store, smith);
    if answer.None? { return None; }
    var sent := answer.value;
    store.LogEvent(id, SmithSend, Bounded(sent));
    if SendTimedOut(sent) {
      answer := Await(store, smith);
      if answer.None? { return None; }
      var status := answer.value;
      store.LogEvent(id, StatusAfterSendTimeout, Bounded(status));
      if status.ok && status.idle {
        answer := Await(store, smith);
        if answer.None? { return None; }
        var output := answer.value;
        store.LogEvent(id, OutputAfterSendTimeout, Bounded(output));
        store.RecordHeartbeat(id, ReviewBeat(job.alias, PhOutputReadyAfterSendTimeout,
                                             BecauseSmithIdleAfterSendTimeout, output, status));
        var updated := store.UpdateJob(id, ReviewPatch(Some(NoComplaint)));
        return Some(Entry(id, updated, DidHarvestedOutputAfterSendTimeout));
      }
      if status.ok && !status.idle {
        store.RecordHeartbeat(id, BusyBeat(job.alias, PhSmithBusyAfterSendTimeout, status));
        var _ := store.UpdateJob(id, BUSY_PATCH);
        return Some(Entry(id, Running, DidSendTimedOutButSmithBusy));
      }
    }
    store.RecordHeartbeat(id, SentBeat(job.alias, sent));
    var updated := store.UpdateJob(id, SentPatch(sent));
    return Some(Entry(id, updated, DidSentToSmith));
  }

  // The body of the loop over the listing.
  method HandleJob(store: Store, smith: Smith, job: Listed) returns (crashed: bool, entries: seq<Entry>)
    requires job.id in store.jobs
    modifies store, smith
    ensures Handle(old(store.Contents()), job, old(smith.script)) ==
      Outcome(store.Contents(), smith.script, crashed, entries)
  {
    var result: Option<Entry>;
    if job.status == NeedsReview {
      return false, [];
    } else if job.status == Stale {
      result := RecoverStaleJob(store, smith, job);
    } else if job.status == Queued {
      result := HandleQueuedJob(store, smith, job);
    } else if job.status == Running {
      result := HandleRunningJob(store, smith, job);
    } else {
      return false, [];
    }
    if result.None? { return true, []; }
    return false, [result.value];
  }

  method HandleListed(store: Store, smith: Smith, todo: seq<Listed>) returns (crashed: bool, results: seq<Entry>)
    requires AllKnown(store.Contents(), todo)
    modifies store, smith
    ensures HandleAll(old(store.Contents()), todo, old(smith.script)) ==
      Outcome(store.Contents(), smith.script, crashed, results)
  {
    ghost var db, script := store.Contents(), smith.script;
    crashed, results := false, [];
    var k := 0;
    while k < |todo| && !crashed
      invariant 0 <= k <= |todo|
      invariant store.jobs.Keys == db.jobs.Keys
      invariant HandleAll(db, todo[..k], script) == Outcome(store.Contents(), smith.script, crashed, results)
      decreases |todo| - k
    {
      ghost var before := Outcome(store.Contents(), smith.script, crashed, results);
      var entries;
      crashed, entries := HandleJob(store, smith, todo[k]);
      results := results + entries;
      HandleAllNext(db, todo, k, script, before, Outcome(store.Contents(), smith.script, crashed, entries));
      k := k + 1;
    }
    assert todo[..|todo|] == todo;
    HandleAllStops(db, todo, k, script);
  }

  method RunOnce(store: Store, smith: Smith) returns (crashed: bool, results: seq<Entry>)
    requires Valid(store.Contents())
    modifies store, smith
    ensures var o := Pass(old(store.Contents()), old(smith.script));
      store.Contents() == o.ledger && smith.script == o.rest && crashed == o.crashed && results == o.results
  {
    ActiveKnown(store.jobs, store.order);
    MarkAllFrame(store.Contents(), ListActive(store.Contents(), 50));
    var marked := store.MarkStaleRuns();
    var todo := store.List(PASS_LIMIT);
    ActiveKnown(store.jobs, store.order);
    crashed, results := HandleListed(store, smith, todo);
    results := StaleEntries(marked) + results;
  }

  lemma HandleAllNext(db: Ledger, todo: seq<Listed>, k: nat, script: seq<Reply>, o: Outcome, o': Outcome)
    requires AllKnown(db, todo) && k < |todo|
    requires HandleAll(db, todo[..k], script) == o && !o.crashed
    requires todo[k].id in o.ledger.jobs && Handle(o.ledger, todo[k], o.rest) == o'
    ensures HandleAll(db, todo[..k + 1], script) == o'.(results := o.results + o'.results)
  {
    assert todo[..k + 1][..k] == todo[..k];
  }

  lemma {:induction false} MarkAllFrame(db: Ledger, todo: seq<Listed>)
    requires AllKnown(db, todo)
    ensures var db' := MarkAll(db, todo).0;
      db'.order == db.order && db'.now == db.now && db'.jobs.Keys == db.jobs.Keys && db.beats.Keys == db'.beats.Keys
  {
    if todo != [] { MarkAllFrame(db, todo[..|todo| - 1]); }
  }

  // A crash part-way through the listing is the crash of the whole.
  lemma {:induction false} HandleAllStops(db: Ledger, todo: seq<Listed>, k: nat, script: seq<Reply>)
    requires AllKnown(db, todo) && k <= |todo|
    ensures HandleAll(db, todo[..k], script).crashed ==>
      HandleAll(db, todo, script) == HandleAll(db, todo[..k], script)
    decreases |todo|
  {
    if k == |todo| {
      assert todo[..k] == todo;
    } else {
      assert todo[..|todo| - 1][..k] == todo[..k];
      HandleAllStops(db, todo[..|todo| - 1], k, script);
    }
  }

  // The operator's stop. None is a KeyError, or a death while Smith is being stopped.
  method Stop(store: Store, smith: Smith, id: JobId) returns (result: Option<Entry>)
    modifies store, smith
    ensures Agrees(StopJob(old(store.Contents()), id, old(smith.script)),
                   store.Contents(), if id in old(store.jobs) then smith.script else [], result)
  {
    if id !in store.jobs { return None; }
    var alias := store.jobs[id].alias;
    var answer := Await(store, smith);
    if answer.None? { return None; }
    store.LogEvent(id, SmithStop, Bounded(answer.value));
    store.RecordHeartbeat(id, StopBeat(alias, answer.value));
    var updated := store.UpdateJob(id, STOP_PATCH);
    return Some(Entry(id, updated, DidStop));
  }
}
