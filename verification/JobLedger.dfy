/** The durable ledger of the Cloyd-Smith loop, as a value.
  *
  * Every operation of the job store is a function from ledger to ledger. The
  * class in JobStore.dfy implements these functions on mutable fields, and the
  * supervisor in Supervisor.dfy is a composition of them.
  */
module JobLedger {
  import opened Wrappers
  import opened TextOrder

  type JobId = string

  datatype Status = Queued | Running | NeedsReview | Blocked | Done | Stopped | Stale

  // The words the program stores, one constructor per word.
  datatype NextAction =
    | NextSendToSmith
    | NextAwaitSmithSendResult
    | NextCheckSmithOutput
    | NextNeedsUserOrOperatorReview
    | NextCloydReviewEvidence
    | NextFixRuntimeOrRetry
    | NextInspectOrQueueSuggestedReplacementAfterBusyTimeout
    | NextInspectOpencodeOutputOrRestart
    | NextStoppedBySupervisor

  datatype Phase =
    | PhSendingToSmith | PhOutputReadyAfterSendTimeout | PhSmithBusyAfterSendTimeout | PhSentToSmith | PhSendFailed
    | PhStatusFailed | PhSmithBusyTimeout | PhSmithBusy | PhOutputReady | PhSmithBusyAfterStale
    | PhOutputReadyAfterStale | PhStatusFailedAfterStale | PhStopped | PhStale

  datatype StopReason =
    | BecauseSmithIdleAfterSendTimeout | BecauseSendFailed | BecauseStatusFailed
    | BecauseSmithIdle | BecauseSmithBusyTimeout | BecauseSmithIdleAfterStale
    | BecauseStatusFailedAfterStale | BecauseStoppedBySupervisor | BecauseStaleTimeout

  datatype Complaint =
    | NoComplaint | SmithSaid(text: string)
    | SmithSendFailed | SmithStatusFailed | SmithStatusFailedAfterStale
    | NoProgress(seconds: int) | StayedBusy(seconds: int)

  datatype Job = Job(
    alias: string,
    status: Status,
    nextAction: Option<NextAction>,
    error: Option<Complaint>,
    createdAt: int,
    completedAt: Option<int>)

  // A partial update: None means "leave the column as it is".
  datatype Patch = Patch(status: Option<Status>, nextAction: Option<NextAction>, error: Option<Complaint>)

  datatype Heartbeat = Heartbeat(
    alias: string,
    session: Option<string>,
    state: Status,
    phase: Phase,
    directory: string,
    startedAt: int,
    updatedAt: int,
    staleAfter: int,
    stopReason: Option<StopReason>)

  // What a caller of _record_heartbeat passes.
  datatype Beat = Beat(
    alias: string,
    session: string,
    state: Status,
    phase: Phase,
    directory: string,
    stopReason: Option<StopReason>,
    resetStartedAt: bool)

  datatype EventKind =
    | RunStale | SmithSend | StatusAfterSendTimeout | OutputAfterSendTimeout
    | SmithStatus | SmithOutput | BusyTimeoutStop
    | StatusAfterStale | OutputAfterStale | SmithStop

  // What the log keeps: a worker's answer, the tail of one that was too long, or
  // the supervisor's own summary.
  datatype Payload = Whole(ok: bool, idle: bool) | Truncated | Summary

  datatype Event = Event(id: JobId, kind: EventKind, payload: Payload)

  // `order` lists the job ids by (created_at, job_id); `now` is the wall clock in microseconds.
  datatype Ledger = Ledger(
    jobs: map<JobId, Job>,
    order: seq<JobId>,
    beats: map<JobId, Heartbeat>,
    events: seq<Event>,
    now: int)

  datatype Listed = Listed(id: JobId, alias: string, status: Status)

  const SECOND: int := 1_000_000
  const STALE_AFTER_SECONDS: int := 300
  const MAX_BUSY_SECONDS: int := 180

  // int(timedelta.total_seconds()): truncation toward zero.
  function IntSeconds(micros: int): int {
    if micros >= 0 then micros / SECOND else -((-micros) / SECOND)
  }

  predicate Active(s: Status) {
    s.Queued? || s.Running? || s.NeedsReview? || s.Stale?
  }

  // The statuses for which the store sets completed_at.
  predicate Completes(s: Status) {
    s.Blocked? || s.Done? || s.Stopped? || s.Stale?
  }

  ghost predicate Valid(db: Ledger) {
    && Distinct(db.order)
    && (forall id :: id in db.order <==> id in db.jobs)
    && db.beats.Keys <= db.jobs.Keys
    && EventsKnown(db)
    && StartedBefore(db)
    && Chronological(db)
  }

  // No run starts in the future.
  ghost predicate StartedBefore(db: Ledger) {
    forall id :: id in db.beats ==> db.beats[id].startedAt <= db.now
  }

  // The foreign key from events to jobs.
  ghost predicate EventsKnown(db: Ledger) {
    forall e :: e in db.events ==> e.id in db.jobs
  }

  ghost predicate Chronological(db: Ledger)
    requires forall id :: id in db.order ==> id in db.jobs
  {
    forall i, j :: 0 <= i < j < |db.order| ==> Before(db.jobs, db.order[i], db.order[j])
  }

  // ORDER BY created_at ASC, job_id ASC.
  predicate Before(jobs: map<JobId, Job>, a: JobId, b: JobId)
    requires a in jobs && b in jobs
  {
    || jobs[a].createdAt < jobs[b].createdAt
    || (jobs[a].createdAt == jobs[b].createdAt && StrLt(a, b))
  }

  // ---- store operations ----------------------------------------------------

  function Tick(db: Ledger, elapsed: nat): Ledger {
    db.(now := db.now + elapsed)
  }

  function InsertInOrder(jobs: map<JobId, Job>, ids: seq<JobId>, id: JobId): (r: seq<JobId>)
    requires id in jobs && forall x :: x in ids ==> x in jobs
    ensures forall x :: x in r <==> x == id || x in ids
  {
    if ids == [] then [id]
    else
      var last := ids[|ids| - 1];
      assert ids == ids[..|ids| - 1] + [last];
      if Before(jobs, last, id) then ids + [id]
      else InsertInOrder(jobs, ids[..|ids| - 1], id) + [last]
  }

  function Create(db: Ledger, id: JobId, alias: string): Ledger
    requires id !in db.jobs && forall x :: x in db.order ==> x in db.jobs
  {
    var jobs := db.jobs[id := Job(alias, Queued, Some(NextSendToSmith), None, db.now, None)];
    db.(jobs := jobs, order := InsertInOrder(jobs, db.order, id))
  }

  function PatchJob(job: Job, patch: Patch, now: int): Job {
    var status := patch.status.GetOr(job.status);
    job.(status := status,
         nextAction := patch.nextAction.OrElse(job.nextAction),
         error := patch.error.OrElse(job.error),
         completedAt := if Completes(status) then Some(now)
                        else if Completes(job.status) then None
                        else job.completedAt)
  }

  function Update(db: Ledger, id: JobId, patch: Patch): Ledger
    requires id in db.jobs
  {
    db.(jobs := db.jobs[id := PatchJob(db.jobs[id], patch, db.now)])
  }

  function AddEvent(db: Ledger, id: JobId, kind: EventKind, payload: Payload): Ledger {
    db.(events := db.events + [Event(id, kind, payload)])
  }

  function GetBeat(db: Ledger, id: JobId): Option<Heartbeat> {
    if id in db.beats then Some(db.beats[id]) else None
  }

  // The heartbeat that _record_heartbeat builds from the caller's values and the
  // existing row, after the store has filled in a missing started_at.
  function MakeBeat(existing: Option<Heartbeat>, b: Beat, now: int): Heartbeat {
    Heartbeat(
      b.alias,
      if b.session != "" then Some(b.session) else if existing.Some? then existing.value.session else None,
      b.state,
      b.phase,
      if b.directory != "" then b.directory else if existing.Some? then existing.value.directory else "",
      if b.resetStartedAt || existing.None? then now else existing.value.startedAt,
      now,
      STALE_AFTER_SECONDS,
      b.stopReason)
  }

  function RecordBeat(db: Ledger, id: JobId, b: Beat): Ledger {
    db.(beats := db.beats[id := MakeBeat(GetBeat(db, id), b, db.now)])
  }

  // ---- listing -------------------------------------------------------------

  function ActiveAmong(jobs: map<JobId, Job>, ids: seq<JobId>): seq<Listed> {
    if ids == [] then []
    else
      var init := ActiveAmong(jobs, ids[..|ids| - 1]);
      var id := ids[|ids| - 1];
      if id in jobs && Active(jobs[id].status) then init + [Listed(id, jobs[id].alias, jobs[id].status)] else init
  }

  function Take<T>(s: seq<T>, limit: nat): seq<T> {
    if |s| <= limit then s else s[..limit]
  }

  function ListActive(db: Ledger, limit: nat): seq<Listed> {
    Take(ActiveAmong(db.jobs, db.order), limit)
  }

  // ---- staleness -----------------------------------------------------------

  predicate BeatIsStale(h: Heartbeat, now: int) {
    now - h.updatedAt > h.staleAfter * SECOND
  }

  predicate ShouldMark(db: Ledger, job: Listed) {
    job.status.Running? && job.id in db.beats && BeatIsStale(db.beats[job.id], db.now)
  }

  function StaleBeat(h: Heartbeat, now: int): Heartbeat {
    h.(state := Stale, phase := PhStale, updatedAt := now, stopReason := Some(BecauseStaleTimeout))
  }

  function StalePatch(h: Heartbeat): Patch {
    Patch(Some(Stale), Some(NextInspectOpencodeOutputOrRestart), Some(NoProgress(h.staleAfter)))
  }

  function MarkOne(db: Ledger, id: JobId): Ledger
    requires id in db.beats && id in db.jobs
  {
    var db1 := db.(beats := db.beats[id := StaleBeat(db.beats[id], db.now)]);
    AddEvent(Update(db1, id, StalePatch(db.beats[id])), id, RunStale, Summary)
  }

  // mark_stale_runs over a listing already taken, with the ids it marks.
  function MarkAll(db: Ledger, todo: seq<Listed>): (r: (Ledger, seq<JobId>))
    requires forall j :: j in todo ==> j.id in db.jobs
    ensures r.0.jobs.Keys == db.jobs.Keys
  {
    if todo == [] then (db, [])
    else
      var (db1, marked) := MarkAll(db, todo[..|todo| - 1]);
      var job := todo[|todo| - 1];
      if ShouldMark(db1, job) then (MarkOne(db1, job.id), marked + [job.id]) else (db1, marked)
  }

  // One more job of the listing.
  lemma MarkAllNext(db: Ledger, todo: seq<Listed>, k: nat)
    requires k < |todo| && forall j :: j in todo ==> j.id in db.jobs
    ensures todo[k].id in db.jobs
    ensures var (db1, marked) := MarkAll(db, todo[..k]);
      MarkAll(db, todo[..k + 1]) ==
        if ShouldMark(db1, todo[k]) then (MarkOne(db1, todo[k].id), marked + [todo[k].id]) else (db1, marked)
  {
    assert todo[..k + 1][..k] == todo[..k];
  }

  // A listing of one job.
  lemma MarkOnly(db: Ledger, job: Listed)
    requires job.id in db.jobs
    ensures MarkAll(db, [job]) == if ShouldMark(db, job) then (MarkOne(db, job.id), [job.id]) else (db, [])
  {
    assert [job][..0] == [];
    assert MarkAll(db, []) == (db, []);
    assert [] + [job.id] == [job.id];
  }

  function MarkStale(db: Ledger): (Ledger, seq<JobId>)
    requires Valid(db)
  {
    ActiveKnown(db.jobs, db.order);
    MarkAll(db, ListActive(db, 50))
  }

  // ---- facts about listings -------------------------------------------------

  // The listing holds exactly the active jobs, each once, with their current status.
  lemma {:induction false} ActiveKnown(jobs: map<JobId, Job>, ids: seq<JobId>)
    ensures forall j :: j in ActiveAmong(jobs, ids) ==>
      j.id in ids && j.id in jobs && Active(jobs[j.id].status) && j == Listed(j.id, jobs[j.id].alias, jobs[j.id].status)
    ensures forall id :: id in ids && id in jobs && Active(jobs[id].status) ==>
      Listed(id, jobs[id].alias, jobs[id].status) in ActiveAmong(jobs, ids)
  {
    if ids != [] {
      ActiveKnown(jobs, ids[..|ids| - 1]);
      assert ids == ids[..|ids| - 1] + [ids[|ids| - 1]];
    }
  }

  lemma {:induction false} InsertIsOnce(jobs: map<JobId, Job>, ids: seq<JobId>, id: JobId)
    requires id in jobs && id !in ids && Distinct(ids) && forall x :: x in ids ==> x in jobs
    ensures Distinct(InsertInOrder(jobs, ids, id))
  {
    if ids != [] {
      var init, last := ids[..|ids| - 1], ids[|ids| - 1];
      if !Before(jobs, last, id) {
        InsertIsOnce(jobs, init, id);
        assert last !in InsertInOrder(jobs, init, id);
      }
    }
  }

  // No other job is active.
  ghost predicate Alone(db: Ledger, id: JobId) {
    && Distinct(db.order) && id in db.order
    && forall x :: x in db.order && x != id ==> x in db.jobs && !Active(db.jobs[x].status)
  }

  lemma {:induction false} AloneAmong(jobs: map<JobId, Job>, ids: seq<JobId>, id: JobId)
    requires Distinct(ids) && id in jobs && Active(jobs[id].status)
    requires forall x :: x in ids && x != id ==> x in jobs && !Active(jobs[x].status)
    ensures ActiveAmong(jobs, ids) == if id in ids then [Listed(id, jobs[id].alias, jobs[id].status)] else []
  {
    if ids != [] {
      var init, last := ids[..|ids| - 1], ids[|ids| - 1];
      AloneAmong(jobs, init, id);
      assert ids == init + [last];
    }
  }

  // A job that is active alone is the whole listing.
  lemma AloneListed(db: Ledger, id: JobId)
    requires Alone(db, id) && id in db.jobs && Active(db.jobs[id].status)
    ensures forall limit: nat :: limit > 0 ==>
      ListActive(db, limit) == [Listed(id, db.jobs[id].alias, db.jobs[id].status)]
  {
    AloneAmong(db.jobs, db.order, id);
  }

  predicate DistinctIds(todo: seq<Listed>) {
    forall i, j :: 0 <= i < j < |todo| ==> todo[i].id != todo[j].id
  }

  lemma {:induction false} ActiveDistinct(jobs: map<JobId, Job>, ids: seq<JobId>)
    requires Distinct(ids)
    ensures DistinctIds(ActiveAmong(jobs, ids))
  {
    if ids != [] {
      var init := ids[..|ids| - 1];
      ActiveDistinct(jobs, init);
      ActiveKnown(jobs, init);
      assert ids[|ids| - 1] !in init;
    }
  }
}
