/** At most one send for each time a job becomes queued, in every interleaving. */
module SendAccounting {
  import opened Wrappers
  import opened JobLedger
  import opened Supervisor
  import opened SupervisorProtocol

  // ---- where a job stands in the pass in flight ------------------------------------

  ghost predicate QueuedWork(tasks: seq<Task>, id: JobId) {
    exists t :: t in tasks && t.Work? && t.job.id == id && t.job.status.Queued?
  }

  // The job is still to be dispatched: listed as queued and not yet marked running.
  ghost predicate Undispatched(l: Local, id: JobId) {
    QueuedWork(l.tasks, id) || (l.job.id == id && Ask(Send) in l.ops && |l.ops| >= 4)
  }

  // Marked running, and about to be sent.
  ghost predicate SendPending(l: Local, id: JobId) {
    l.job.id == id && Ask(Send) in l.ops && |l.ops| <= 3
  }

  // A partial update of the pass has read the row as queued and is about to write it back.
  ghost predicate WritesBackQueued(l: Local, id: JobId) {
    && l.job.id == id && l.ops != [] && l.ops[0].WriteJob? && l.ops[0].patch.status.None?
    && l.jobRow.Some? && l.jobRow.value.status.Queued?
  }

  ghost predicate MaySend(db: Ledger, cur: Option<Local>, id: JobId) {
    IsQueued(db, id) || (cur.Some? && (Undispatched(cur.value, id) || WritesBackQueued(cur.value, id)))
  }

  // The sends a job can still get without becoming queued once more from outside: one about
  // to be made, and one because it is queued, about to be dispatched, or about to be written
  // back as queued by the pass itself.
  ghost function Load(db: Ledger, cur: Option<Local>, id: JobId): nat {
    One(cur.Some? && SendPending(cur.value, id)) + One(MaySend(db, cur, id))
  }

  // ---- shapes -------------------------------------------------------------------------

  // The dispatch, counted down to its last operation, the send.
  function DispatchOp(job: Listed, left: nat): Op {
    if left <= 1 then Ask(Send)
    else if left == 2 then WriteBeat(DispatchBeat(job.alias))
    else if left == 3 then ReadBeat
    else if left == 4 then WriteJob(DISPATCH_PATCH)
    else ReadJob
  }

  function DispatchFrom(job: Listed, left: nat): seq<Op> {
    if left == 0 then [] else [DispatchOp(job, left)] + DispatchFrom(job, left - 1)
  }

  ghost predicate Dispatching(l: Local) {
    1 <= |l.ops| <= 5 && l.ops == DispatchFrom(l.job, |l.ops|) && (|l.ops| == 4 ==> l.jobRow.Some?)
  }

  ghost predicate TasksOk(db: Ledger, tasks: seq<Task>) {
    && (forall i, k ::
          0 <= i < k < |tasks| && tasks[i].Work? && tasks[k].Work? ==> tasks[i].job.id != tasks[k].job.id)
    && (forall i :: 0 <= i < |tasks| - 1 ==> !tasks[i].TakeListing?)
    && (forall i, k :: 0 <= i < |tasks| && 0 <= k < |tasks| && !tasks[i].Work? ==> !tasks[k].Work?)
    && (forall t :: t in tasks && !t.TakeListing? ==> t.job.id in db.jobs)
  }

  ghost predicate NeverQueues(ops: seq<Op>) {
    && (forall op :: op in ops && op.WriteJob? ==> op.patch.status != Some(Queued))
    && (forall i :: 0 < i < |ops| && ops[i].WriteJob? ==> ops[i - 1].ReadJob?)
  }

  ghost predicate PassOk(db: Ledger, l: Local) {
    && NeverQueues(l.ops)
    && (Ask(Send) in l.ops ==> Dispatching(l))
    && TasksOk(db, l.tasks)
    && (l.ops != [] ==> l.job.id in db.jobs && forall t :: t in l.tasks && t.Work? ==> t.job.id != l.job.id)
  }

  // A stop, a status query or an outside writer calls Smith only to stop, and lists no work.
  ghost predicate Quiet(l: Local) {
    && (forall op :: op in l.ops ==>
          !op.CheckBusy? && (op.Ask? ==> op.call.StopCall?) && (op.Await? ==> op.call.StopCall?))
    && forall t :: t in l.tasks ==> t.Consider?
  }

  ghost predicate OrderOk(db: Ledger) {
    Distinct(db.order) && forall id :: id in db.order ==> id in db.jobs
  }

  // ---- what follows an answer -----------------------------------------------------------

  // Operations that neither send nor say queued, and read a row before they write it.
  ghost predicate Plain(ops: seq<Op>) {
    NeverQueues(ops) && Ask(Send) !in ops && (ops != [] ==> !ops[0].WriteJob?)
  }

  lemma SettlePlain(b: Beat, patch: Patch)
    requires patch.status != Some(Queued)
    ensures Plain(SettleOps(b, patch))
  {
  }

  lemma LogThenPlain(kind: EventKind, payload: Payload, b: seq<Op>)
    requires Plain(b)
    ensures Plain([Log(kind, payload)] + b)
  {
    var c := [Log(kind, payload)] + b;
    forall i | 0 < i < |c| && c[i].WriteJob? ensures c[i - 1].ReadJob? {
      if i > 1 { assert c[i] == b[i - 1] && c[i - 1] == b[i - 2]; }
    }
  }

  lemma HarvestPlain(job: Listed, kind: EventKind, phase: Phase, stop: StopReason, error: Option<Complaint>,
                     status: Reply, output: Reply)
    ensures Plain(HarvestOps(job, kind, phase, stop, error, status, output))
  {
    var b := ReviewBeat(job.alias, phase, stop, output, status);
    SettlePlain(b, ReviewPatch(error));
    LogThenPlain(kind, Bounded(output), SettleOps(b, ReviewPatch(error)));
  }

  lemma SendAnswerPlain(job: Listed, r: Reply)
    ensures Plain(Resume(job, Send, r))
  {
    SettlePlain(SentBeat(job.alias, r), SentPatch(r));
    LogThenPlain(SmithSend, Bounded(r),
      if SendTimedOut(r) then [Ask(StatusAfterSend(r))] else SettleOps(SentBeat(job.alias, r), SentPatch(r)));
  }

  lemma TimeoutAnswerPlain(job: Listed, sent: Reply, r: Reply)
    ensures Plain(Resume(job, StatusAfterSend(sent), r))
  {
    var busy := BusyBeat(job.alias, PhSmithBusyAfterSendTimeout, r);
    SettlePlain(busy, BUSY_PATCH);
    SettlePlain(SentBeat(job.alias, sent), SentPatch(sent));
    LogThenPlain(StatusAfterSendTimeout, Bounded(r),
      if r.ok && r.idle then [Ask(OutputAfterSend(r))]
      else if r.ok then SettleOps(busy, BUSY_PATCH)
      else SettleOps(SentBeat(job.alias, sent), SentPatch(sent)));
  }

  lemma PollAnswerPlain(job: Listed, r: Reply)
    ensures Plain(Resume(job, Poll, r))
  {
    var failed := StatusFailedBeat(job.alias, PhStatusFailed, BecauseStatusFailed, r);
    SettlePlain(failed, StatusFailedPatch(r, SmithStatusFailed));
    LogThenPlain(SmithStatus, Bounded(r),
      if !r.ok then SettleOps(failed, StatusFailedPatch(r, SmithStatusFailed))
      else if r.idle then [Ask(Output(r))]
      else [CheckBusy(r)]);
  }

  lemma StaleAnswerPlain(job: Listed, r: Reply)
    ensures Plain(Resume(job, StatusStale, r))
  {
    var busy := BusyBeat(job.alias, PhSmithBusyAfterStale, r);
    var failed := StatusFailedBeat(job.alias, PhStatusFailedAfterStale, BecauseStatusFailedAfterStale, r);
    SettlePlain(busy, BUSY_PATCH);
    SettlePlain(failed, StatusFailedPatch(r, SmithStatusFailedAfterStale));
    LogThenPlain(StatusAfterStale, Bounded(r),
      if r.ok && !r.idle then SettleOps(busy, BUSY_PATCH)
      else if r.ok then [Ask(OutputStale(r))]
      else SettleOps(failed, StatusFailedPatch(r, SmithStatusFailedAfterStale)));
  }

  // No answer is followed by another send, or by a write that says queued.
  lemma ResumePlain(job: Listed, call: Call, r: Reply)
    ensures Plain(Resume(job, call, r)) && Resume(job, call, r) != [] && Resume(job, call, r)[0].Log?
  {
    match call
    case Send => SendAnswerPlain(job, r);
    case StatusAfterSend(sent) => TimeoutAnswerPlain(job, sent, r);
    case OutputAfterSend(status) =>
      HarvestPlain(job, OutputAfterSendTimeout, PhOutputReadyAfterSendTimeout, BecauseSmithIdleAfterSendTimeout,
                   Some(NoComplaint), status, r);
    case Poll => PollAnswerPlain(job, r);
    case Output(status) => HarvestPlain(job, SmithOutput, PhOutputReady, BecauseSmithIdle, None, status, r);
    case BusyStop(status, seconds) =>
      SettlePlain(BusyTimeoutBeat(job.alias, status), BusyTimeoutPatch(seconds));
      LogThenPlain(BusyTimeoutStop, Summary, SettleOps(BusyTimeoutBeat(job.alias, status), BusyTimeoutPatch(seconds)));
    case StatusStale => StaleAnswerPlain(job, r);
    case OutputStale(status) =>
      HarvestPlain(job, OutputAfterStale, PhOutputReadyAfterStale, BecauseSmithIdleAfterStale,
                   Some(NoComplaint), status, r);
    case StopCall =>
      SettlePlain(StopBeat(job.alias, r), STOP_PATCH);
      LogThenPlain(SmithStop, Bounded(r), SettleOps(StopBeat(job.alias, r), STOP_PATCH));
  }

  // ---- one step of the pass ------------------------------------------------------------

  // The pass stays well formed, and what it sends comes off what was left to send.
  ghost predicate StepAccounted(db: Ledger, l: Local, db': Ledger, l': Local, id: JobId, sent: nat) {
    && PassOk(db', l')
    && Load(db', Some(l'), id) + sent <= Load(db, Some(l), id)
  }

  lemma ConcatPlain(a: seq<Op>, b: seq<Op>)
    requires Plain(a) && Plain(b)
    ensures Plain(a + b)
  {
    var c := a + b;
    assert forall op :: op in c ==> op in a || op in b;
    forall i | 0 < i < |c| && c[i].WriteJob? ensures c[i - 1].ReadJob? {
      if i < |a| { assert c[i - 1] == a[i - 1]; }
      if i > |a| { assert c[i - 1] == b[i - 1 - |a|]; }
    }
  }

  lemma TailPlain(ops: seq<Op>)
    requires ops != [] && NeverQueues(ops) && Ask(Send) !in ops && !ops[0].ReadJob?
    ensures Plain(ops[1..])
  {
    TailNeverQueues(ops);
    assert |ops| > 1 ==> ops[1..][0] == ops[1];
  }

  lemma TailNeverQueues(ops: seq<Op>)
    requires ops != [] && NeverQueues(ops)
    ensures NeverQueues(ops[1..]) && forall op :: op in ops <==> op == ops[0] || op in ops[1..]
  {
    var rest := ops[1..];
    assert ops == [ops[0]] + rest;
    forall i | 0 < i < |rest| && rest[i].WriteJob? ensures rest[i - 1].ReadJob? { assert ops[i + 1].WriteJob?; }
  }

  lemma RestTasksOk(db: Ledger, tasks: seq<Task>)
    requires tasks != [] && TasksOk(db, tasks)
    ensures TasksOk(db, tasks[1..]) && forall t :: t in tasks[1..] ==> t in tasks
    ensures tasks[0].TakeListing? ==> tasks[1..] == []
    ensures tasks[0].Work? ==> forall t :: t in tasks[1..] && t.Work? ==> t.job.id != tasks[0].job.id
  {
    var rest := tasks[1..];
    assert forall i :: 0 <= i < |rest| ==> rest[i] == tasks[i + 1];
  }

  lemma FreshListing(db: Ledger, id: JobId)
    requires OrderOk(db)
    ensures var works := Works(ListActive(db, PASS_LIMIT));
      TasksOk(db, works) && (QueuedWork(works, id) ==> IsQueued(db, id))
  {
    var listed := ListActive(db, PASS_LIMIT);
    var works := Works(listed);
    ActiveKnown(db.jobs, db.order);
    ActiveDistinct(db.jobs, db.order);
    assert forall i :: 0 <= i < |works| ==> works[i] == Work(listed[i]) && listed[i] in listed;
  }

  lemma {:induction false} DispatchFromFacts(job: Listed, left: nat)
    ensures var d := DispatchFrom(job, left); |d| == left && NeverQueues(d) && (left >= 1 ==> Ask(Send) in d)
    ensures left >= 1 ==>
      DispatchFrom(job, left)[0] == DispatchOp(job, left) && DispatchFrom(job, left)[1..] == DispatchFrom(job, left - 1)
  {
    if left > 1 {
      DispatchFromFacts(job, left - 1);
      var d, e := DispatchFrom(job, left), DispatchFrom(job, left - 1);
      assert forall i :: 0 < i < |d| ==> d[i] == e[i - 1];
      assert Ask(Send) in d[1..];
      assert e[0] == DispatchOp(job, left - 1);
    }
  }

  lemma DispatchUnrolled(job: Listed)
    ensures DispatchOps(job) == DispatchFrom(job, 5)
  {
    assert DispatchFrom(job, 1) == [Ask(Send)];
    assert DispatchFrom(job, 2) == [WriteBeat(DispatchBeat(job.alias)), Ask(Send)];
    assert DispatchFrom(job, 3) == [ReadBeat, WriteBeat(DispatchBeat(job.alias)), Ask(Send)];
  }

  lemma OpeningFacts(job: Listed)
    ensures NeverQueues(Opening(job)) && (Opening(job) != [] ==> !Opening(job)[0].WriteJob?)
    ensures Ask(Send) in Opening(job) <==> job.status.Queued?
    ensures job.status.Queued? ==> Opening(job) == DispatchFrom(job, 5) && |Opening(job)| == 5
  {
    DispatchUnrolled(job);
    DispatchFromFacts(job, 5);
  }

  lemma MarkPlain(h: Heartbeat, now: int)
    ensures Plain(MarkOps(h, now))
  {
  }

  // A task is taken up: a queued job opens its dispatch, the listing is a fresh snapshot.
  lemma TaskStepAccounted(db: Ledger, l: Local, id: JobId)
    requires PassOk(db, l) && OrderOk(db) && l.ops == [] && l.tasks != []
    ensures StepAccounted(db, l, db, TaskStep(db, l), id, 0)
  {
    match l.tasks[0]
    case Consider(job) => ConsiderAccounted(db, l, id, job);
    case TakeListing => ListingAccounted(db, l, id);
    case Work(job) => WorkAccounted(db, l, id, job);
  }

  lemma ConsiderAccounted(db: Ledger, l: Local, id: JobId, job: Listed)
    requires PassOk(db, l) && l.ops == [] && l.tasks != [] && l.tasks[0] == Consider(job)
    ensures StepAccounted(db, l, db, TaskStep(db, l), id, 0)
  {
    RestTasksOk(db, l.tasks);
    HeadOrRest(l.tasks);
    if ShouldMark(db, job) { MarkPlain(db.beats[job.id], db.now); }
  }

  lemma ListingAccounted(db: Ledger, l: Local, id: JobId)
    requires PassOk(db, l) && OrderOk(db) && l.ops == [] && l.tasks != [] && l.tasks[0] == TakeListing
    ensures StepAccounted(db, l, db, TaskStep(db, l), id, 0)
  {
    RestTasksOk(db, l.tasks);
    FreshListing(db, id);
    assert Works(ListActive(db, PASS_LIMIT)) + [] == Works(ListActive(db, PASS_LIMIT));
  }

  lemma WorkAccounted(db: Ledger, l: Local, id: JobId, job: Listed)
    requires PassOk(db, l) && l.ops == [] && l.tasks != [] && l.tasks[0] == Work(job)
    ensures StepAccounted(db, l, db, TaskStep(db, l), id, 0)
  {
    RestTasksOk(db, l.tasks);
    HeadOrRest(l.tasks);
    OpeningFacts(job);
  }

  // The load of a dispatch, by its stage: before the job is marked running, or after.
  lemma DispatchLoad(db: Ledger, l: Local, id: JobId)
    requires Dispatching(l)
    ensures Ask(Send) in l.ops
    ensures Load(db, Some(l), id) ==
      One(l.job.id == id && |l.ops| <= 3) +
      One(IsQueued(db, id) || QueuedWork(l.tasks, id) || (l.job.id == id && |l.ops| >= 4))
    ensures NeverQueues(l.ops)
  {
    DispatchFromFacts(l.job, |l.ops|);
    assert l.ops[0].WriteJob? ==> l.ops[0].patch == DISPATCH_PATCH;
  }

  // Without a send in hand, a pass carries a job only in its tasks or its row.
  lemma PlainLoad(db: Ledger, l: Local, id: JobId)
    requires Ask(Send) !in l.ops
    ensures Load(db, Some(l), id) == One(IsQueued(db, id) || QueuedWork(l.tasks, id) || WritesBackQueued(l, id))
  {
  }

  lemma OpStepFrame(db: Ledger, l: Local)
    requires l.ops != []
    ensures var (db', l') := OpStep(db, l);
      && db'.jobs.Keys == db.jobs.Keys && db'.order == db.order && l'.tasks == l.tasks && l'.job == l.job
      && forall x :: x in db.jobs && x != l.job.id ==> db'.jobs[x] == db.jobs[x]
  {
  }

  lemma DispatchStepShape(db: Ledger, l: Local)
    requires Dispatching(l) && l.job.id in db.jobs
    ensures var (db', l') := OpStep(db, l);
      && (l.ops[0] == Ask(Send) <==> |l.ops| == 1)
      && (if |l.ops| == 1 then l'.ops == [Await(Send)] else Dispatching(l') && |l'.ops| == |l.ops| - 1)
      && (if |l.ops| == 4 then db'.jobs[l.job.id].status.Running? else db'.jobs == db.jobs)
  {
    DispatchHead(l.job, |l.ops|);
    assert l.ops[1..] == DispatchFrom(l.job, |l.ops| - 1);
  }

  lemma DispatchHead(job: Listed, left: nat)
    requires left >= 1
    ensures DispatchFrom(job, left) == [DispatchOp(job, left)] + DispatchFrom(job, left - 1)
    ensures DispatchFrom(job, left)[0] == DispatchOp(job, left) && |DispatchFrom(job, left - 1)| == left - 1
  {
    DispatchFromFacts(job, left - 1);
  }

  // One operation of a dispatch: it moves towards the send, and marks the job running on the way.
  lemma DispatchStepAccounted(db: Ledger, l: Local, id: JobId)
    requires PassOk(db, l) && l.ops != [] && Ask(Send) in l.ops
    ensures var (db', l') := OpStep(db, l);
      StepAccounted(db, l, db', l', id, One(l.ops[0] == Ask(Send) && l.job.id == id))
  {
    var (db', l') := OpStep(db, l);
    OpStepFrame(db, l);
    DispatchStepShape(db, l);
    DispatchLoad(db, l, id);
    assert QueuedWork(l.tasks, id) ==> id != l.job.id;
    if |l.ops| == 1 { PlainLoad(db', l', id); } else { DispatchLoad(db', l', id); }
  }

  // What any other operation leaves to do holds no send either.
  lemma OtherStepSends(db: Ledger, l: Local)
    requires l.ops != [] && Ask(Send) !in l.ops
    ensures Ask(Send) !in OpStep(db, l).1.ops
  {
    HeadOrRest(l.ops);
    if l.ops[0].CheckBusy? {
      SettlePlain(BusyBeat(l.job.alias, PhSmithBusy, l.ops[0].status), STILL_BUSY_PATCH);
      assert Ask(Send) !in AfterCheck(db, l.job, l.ops[0].status);
    }
  }

  lemma OtherStepAccounted(db: Ledger, l: Local, id: JobId)
    requires PassOk(db, l) && l.ops != [] && Ask(Send) !in l.ops
    ensures var (db', l') := OpStep(db, l); StepAccounted(db, l, db', l', id, 0)
  {
    var (db', l') := OpStep(db, l);
    OpStepFrame(db, l);
    OtherStepSends(db, l);
    OtherStepShape(db, l);
    PlainLoad(db, l, id);
    PlainLoad(db', l', id);
    assert l.ops[0] in l.ops;
  }

  // After anything but reading the row, the next operation is not writing it.
  lemma OtherStepShape(db: Ledger, l: Local)
    requires NeverQueues(l.ops) && l.ops != [] && Ask(Send) !in l.ops
    ensures var l' := OpStep(db, l).1;
      NeverQueues(l'.ops) && (!l.ops[0].ReadJob? && l'.ops != [] ==> !l'.ops[0].WriteJob?)
  {
    TailNeverQueues(l.ops);
    if !l.ops[0].ReadJob? {
      TailPlain(l.ops);
      if l.ops[0].CheckBusy? {
        SettlePlain(BusyBeat(l.job.alias, PhSmithBusy, l.ops[0].status), STILL_BUSY_PATCH);
        ConcatPlain(AfterCheck(db, l.job, l.ops[0].status), l.ops[1..]);
      } else if l.ops[0].Ask? {
        ConcatPlain([Await(l.ops[0].call)], l.ops[1..]);
      }
    }
  }

  lemma LocalStepAccounted(db: Ledger, l: Local, id: JobId)
    requires PassOk(db, l) && OrderOk(db) && (l.ops != [] || l.tasks != [])
    ensures var (db', l') := LocalStep(db, l);
      StepAccounted(db, l, db', l', id, One(l.ops != [] && l.ops[0] == Ask(Send) && l.job.id == id))
  {
    if l.ops == [] { TaskStepAccounted(db, l, id); }
    else if Ask(Send) in l.ops { DispatchStepAccounted(db, l, id); }
    else { OtherStepAccounted(db, l, id); assert l.ops[0] in l.ops; }
  }

  // A process that waits for an answer has no dispatch in hand, and gets none by it.
  lemma AnswerSends(l: Local, r: Reply)
    requires l.ops != [] && l.ops[0].Await? && (Ask(Send) in l.ops ==> Dispatching(l))
    ensures Ask(Send) !in l.ops && Ask(Send) !in Resume(l.job, l.ops[0].call, r) + l.ops[1..]
    ensures NeverQueues(l.ops) ==> Plain(Resume(l.job, l.ops[0].call, r) + l.ops[1..])
  {
    DispatchFromFacts(l.job, |l.ops|);
    HeadOrRest(l.ops);
    ResumePlain(l.job, l.ops[0].call, r);
    if NeverQueues(l.ops) {
      TailPlain(l.ops);
      ConcatPlain(Resume(l.job, l.ops[0].call, r), l.ops[1..]);
    }
  }

  // ---- the whole system -------------------------------------------------------------------

  // The pass of the process that holds the lock, if it is in one.
  ghost function InFlight(s: Sys, lockFile: string): Option<Local> {
    if lockFile in s.locks && s.locks[lockFile] in s.procs && s.procs[s.locks[lockFile]].Supervisor?
    then s.procs[s.locks[lockFile]].pass else None
  }

  ghost predicate ProcOk(s: Sys, pid: Pid, lockFile: string)
    requires pid in s.procs
  {
    match s.procs[pid]
    case Supervisor(f, holding, pass) =>
      && f == lockFile
      && (holding ==> f in s.locks && s.locks[f] == pid)
      && (pass.Some? ==> holding && PassOk(s.ledger, pass.value))
    case Stopper(l) => Quiet(l)
    case StatusQuery(l) => Quiet(l)
    case Writer(l) => Quiet(l)
  }

  // A lock is held by a living process: the kernel drops the lock of a dead one.
  ghost predicate HoldersAlive(s: Sys) {
    forall f :: f in s.locks ==>
      s.locks[f] in s.procs && s.procs[s.locks[f]].Supervisor? && s.procs[s.locks[f]].holding
  }

  ghost predicate WellFormed(s: Sys, lockFile: string) {
    && OrderOk(s.ledger) && HoldersAlive(s)
    && forall pid :: pid in s.procs ==> ProcOk(s, pid, lockFile)
  }

  // What a job can still be sent without becoming queued once more.
  ghost function SendsLeft(s: Sys, lockFile: string, id: JobId): nat {
    Load(s.ledger, InFlight(s, lockFile), id)
  }

  // Between two states: the sends made are covered by those that were left and by the times
  // the job has become queued since, less those still left.
  ghost predicate Spends(s: Sys, s': Sys, lockFile: string, id: JobId) {
    Count(s'.sends, id) + SendsLeft(s', lockFile, id) + Episodes(s, id) <=
    Count(s.sends, id) + SendsLeft(s, lockFile, id) + Episodes(s', id)
  }

  ghost predicate Kept(s: Sys, s': Sys, lockFile: string, id: JobId) {
    WellFormed(s', lockFile) && Spends(s, s', lockFile, id)
  }

  // Same jobs, same listing order: passes stay well formed.
  lemma PassOkKept(db: Ledger, db': Ledger, l: Local)
    requires PassOk(db, l) && db.jobs.Keys <= db'.jobs.Keys
    ensures PassOk(db', l)
  {
  }

  // A process other than the pass moves, by a step or an answer.
  lemma BystanderMoves(s: Sys, s': Sys, lockFile: string, pid: Pid, id: JobId)
    requires WellFormed(s, lockFile) && pid in s.procs && !s.procs[pid].Supervisor?
    requires s'.procs.Keys == s.procs.Keys && forall p :: p in s.procs && p != pid ==> s'.procs[p] == s.procs[p]
    requires !s'.procs[pid].Supervisor? && ProcOk(s', pid, lockFile)
    requires s'.locks == s.locks && Count(s'.sends, id) == Count(s.sends, id)
    requires s'.ledger.jobs.Keys == s.ledger.jobs.Keys && s'.ledger.order == s.ledger.order
    requires Episodes(s', id) == Episodes(s, id) + One(Requeues(s.ledger, s'.ledger, id))
    ensures Kept(s, s', lockFile, id)
  {
    assert InFlight(s', lockFile) == InFlight(s, lockFile);
    forall p | p in s'.procs ensures ProcOk(s', p, lockFile) {
      if p != pid {
        assert ProcOk(s, p, lockFile);
        if s.procs[p].Supervisor? && s.procs[p].pass.Some? { PassOkKept(s.ledger, s'.ledger, s.procs[p].pass.value); }
      }
    }
  }

  // The pass moves: what it sends comes off its load.
  lemma PassMoves(s: Sys, s': Sys, lockFile: string, pid: Pid, l: Local, l': Local, id: JobId)
    requires WellFormed(s, lockFile) && pid in s.procs && s.procs[pid].Supervisor? && s.procs[pid].pass == Some(l)
    requires s'.procs == s.procs[pid := s.procs[pid].(pass := Some(l'))] && s'.locks == s.locks
    requires s'.ledger.jobs.Keys == s.ledger.jobs.Keys && s'.ledger.order == s.ledger.order
    requires PassOk(s'.ledger, l')
    requires Count(s'.sends, id) + Load(s'.ledger, Some(l'), id) + Episodes(s, id) <=
             Count(s.sends, id) + Load(s.ledger, Some(l), id) + Episodes(s', id)
    ensures Kept(s, s', lockFile, id)
  {
    assert ProcOk(s, pid, lockFile);
    assert InFlight(s, lockFile) == Some(l) && InFlight(s', lockFile) == Some(l');
    forall p | p in s'.procs ensures ProcOk(s', p, lockFile) {
      assert ProcOk(s, p, lockFile);
      if p != pid && s.procs[p].Supervisor? { assert !s.procs[p].holding; }
    }
  }

  lemma QuietStep(db: Ledger, l: Local)
    requires Quiet(l)
    ensures Quiet(LocalStep(db, l).1) && (l.ops != [] ==> l.ops[0] != Ask(Send))
  {
    if l.ops != [] {
      HeadOrRest(l.ops);
    } else if l.tasks != [] {
      assert l.tasks[0] in l.tasks;
      assert forall t :: t in l.tasks[1..] ==> t in l.tasks;
      var job := l.tasks[0].job;
      if ShouldMark(db, job) { MarkPlain(db.beats[job.id], db.now); }
    }
  }

  // The counters of one step.
  lemma StepCounts(s: Sys, pid: Pid, l: Local, id: JobId)
    requires pid in s.procs && LocalOf(s.procs[pid]) == Some(l) && (l.ops != [] || l.tasks != [])
    ensures var s' := StepProc(s, pid);
      && s'.locks == s.locks && s'.ledger == LocalStep(s.ledger, l).0
      && s'.procs == s.procs[pid := WithLocal(s.procs[pid], LocalStep(s.ledger, l).1)]
      && Count(s'.sends, id) == Count(s.sends, id) + One(l.ops != [] && l.ops[0] == Ask(Send) && l.job.id == id)
      && (!s.procs[pid].Supervisor? ==> Episodes(s', id) == Episodes(s, id) + One(Requeues(s.ledger, s'.ledger, id)))
      && Episodes(s', id) >= Episodes(s, id)
      && s'.ledger.jobs.Keys == s.ledger.jobs.Keys && s'.ledger.order == s.ledger.order
  {
    if l.ops != [] { OpStepFrame(s.ledger, l); }
  }

  lemma StepKept(s: Sys, pid: Pid, lockFile: string, id: JobId)
    requires WellFormed(s, lockFile)
    ensures Kept(s, StepProc(s, pid), lockFile, id)
  {
    if pid !in s.procs || LocalOf(s.procs[pid]).None? { return; }
    var l := LocalOf(s.procs[pid]).value;
    var s' := StepProc(s, pid);
    assert ProcOk(s, pid, lockFile);
    if l.ops == [] && l.tasks == [] {
      IdleStepKept(s, pid, lockFile, id, l);
    } else {
      StepCounts(s, pid, l, id);
      if s.procs[pid].Supervisor? {
        LocalStepAccounted(s.ledger, l, id);
        PassMoves(s, s', lockFile, pid, l, LocalStep(s.ledger, l).1, id);
      } else {
        QuietStep(s.ledger, l);
        BystanderMoves(s, s', lockFile, pid, id);
      }
    }
  }

  lemma IdleStepKept(s: Sys, pid: Pid, lockFile: string, id: JobId, l: Local)
    requires WellFormed(s, lockFile) && pid in s.procs && LocalOf(s.procs[pid]) == Some(l) && l.ops == []
    requires l.tasks == []
    ensures Kept(s, StepProc(s, pid), lockFile, id)
  {
    if s.procs[pid].Supervisor? {
      PassEnds(s, pid, lockFile, id);
    } else {
      assert s.procs[pid := s.procs[pid]] == s.procs;
      assert StepProc(s, pid) == s;
    }
  }

  // A pass that ends, or is abandoned by an exception, gives up its claims.
  lemma PassEnds(s: Sys, pid: Pid, lockFile: string, id: JobId)
    requires WellFormed(s, lockFile) && pid in s.procs && s.procs[pid].Supervisor?
    ensures Kept(s, s.(procs := s.procs[pid := s.procs[pid].(pass := None)]), lockFile, id)
  {
    var s' := s.(procs := s.procs[pid := s.procs[pid].(pass := None)]);
    forall p | p in s'.procs ensures ProcOk(s', p, lockFile) { assert ProcOk(s, p, lockFile); }
  }

  lemma QuietAnswer(l: Local, r: Reply)
    requires Quiet(l) && l.ops != [] && l.ops[0].Await?
    ensures Quiet(l.(ops := Resume(l.job, l.ops[0].call, r) + l.ops[1..]))
  {
    HeadOrRest(l.ops);
    var ops := [Log(SmithStop, Bounded(r))] + SettleOps(StopBeat(l.job.alias, r), STOP_PATCH);
    assert Resume(l.job, l.ops[0].call, r) == ops;
    assert forall op :: op in ops + l.ops[1..] ==> op in ops || op in l.ops[1..];
  }

  lemma AnswerKept(s: Sys, pid: Pid, r: Reply, lockFile: string, id: JobId)
    requires WellFormed(s, lockFile)
    ensures Kept(s, AnswerProc(s, pid, r), lockFile, id)
  {
    var s' := AnswerProc(s, pid, r);
    if s' == s { return; }
    var l := LocalOf(s.procs[pid]).value;
    var l' := l.(ops := Resume(l.job, l.ops[0].call, r) + l.ops[1..]);
    assert ProcOk(s, pid, lockFile);
    AnswerSends(l, r);
    if s.procs[pid].Supervisor? {
      PlainLoad(s.ledger, l, id);
      PlainLoad(s'.ledger, l', id);
      PassMoves(s, s', lockFile, pid, l, l', id);
    } else {
      QuietAnswer(l, r);
      BystanderMoves(s, s', lockFile, pid, id);
    }
  }

  // ---- processes that come and go ------------------------------------------------------------

  lemma ConsidersTasks(db: Ledger)
    requires OrderOk(db)
    ensures TasksOk(db, Considers(ListActive(db, 50)) + [TakeListing])
    ensures forall t :: t in Considers(ListActive(db, 50)) ==> t.Consider?
  {
    ActiveKnown(db.jobs, db.order);
    var listed := ListActive(db, 50);
    var tasks := Considers(listed) + [TakeListing];
    assert forall i :: 0 <= i < |listed| ==> tasks[i] == Consider(listed[i]) && listed[i] in listed;
  }

  lemma BeginsWithoutClaims(db: Ledger, id: JobId)
    requires OrderOk(db)
    ensures PassOk(db, BeginLocal(db, [TakeListing])) && Quiet(BeginLocal(db, []))
    ensures Load(db, Some(BeginLocal(db, [TakeListing])), id) == Load(db, None, id)
  {
    ConsidersTasks(db);
    var tasks := Considers(ListActive(db, 50));
    assert tasks + [] == tasks;
    assert forall t :: t in tasks + [TakeListing] ==> t.TakeListing? || t.Consider?;
  }

  // A pass has no claim on a job that does not exist.
  lemma NoLoadForUnknown(db: Ledger, l: Local, id: JobId)
    requires PassOk(db, l) && id !in db.jobs
    ensures !SendPending(l, id) && !Undispatched(l, id) && !WritesBackQueued(l, id)
  {
  }

  lemma SubmitKept(s: Sys, newId: JobId, alias: string, lockFile: string, id: JobId)
    requires WellFormed(s, lockFile) && newId !in s.ledger.jobs
    ensures Kept(s, Next(s, SubmitJob(newId, alias)), lockFile, id)
  {
    var s' := Next(s, SubmitJob(newId, alias));
    InsertIsOnce(s'.ledger.jobs, s.ledger.order, newId);
    assert OrderOk(s'.ledger);
    forall p | p in s'.procs ensures ProcOk(s', p, lockFile) { SubmitProcOk(s, s', lockFile, p); }
    SubmitSpends(s, newId, alias, lockFile, id);
  }

  lemma SubmitProcOk(s: Sys, s': Sys, lockFile: string, p: Pid)
    requires WellFormed(s, lockFile) && p in s.procs
    requires s'.procs == s.procs && s'.locks == s.locks && s.ledger.jobs.Keys <= s'.ledger.jobs.Keys
    ensures ProcOk(s', p, lockFile)
  {
    assert ProcOk(s, p, lockFile);
    if s.procs[p].Supervisor? && s.procs[p].pass.Some? { PassOkKept(s.ledger, s'.ledger, s.procs[p].pass.value); }
  }

  lemma SubmitSpends(s: Sys, newId: JobId, alias: string, lockFile: string, id: JobId)
    requires WellFormed(s, lockFile) && newId !in s.ledger.jobs
    ensures Spends(s, Next(s, SubmitJob(newId, alias)), lockFile, id)
  {
    var cur := InFlight(s, lockFile);
    assert InFlight(Next(s, SubmitJob(newId, alias)), lockFile) == cur;
    if id == newId && cur.Some? {
      assert ProcOk(s, s.locks[lockFile], lockFile);
      NoLoadForUnknown(s.ledger, cur.value, id);
    }
  }

  lemma LockKept(s: Sys, pid: Pid, lockFile: string, id: JobId)
    requires WellFormed(s, lockFile)
    ensures Kept(s, Next(s, TryLock(pid)), lockFile, id)
  {
    var s' := Next(s, TryLock(pid));
    if s' == s { return; }
    assert ProcOk(s, pid, lockFile);
    forall p | p in s'.procs ensures ProcOk(s', p, lockFile) { assert ProcOk(s, p, lockFile); }
    assert InFlight(s', lockFile) == InFlight(s, lockFile);
  }

  lemma BeginKept(s: Sys, pid: Pid, lockFile: string, id: JobId)
    requires WellFormed(s, lockFile)
    ensures Kept(s, Next(s, BeginPass(pid)), lockFile, id)
  {
    var s' := Next(s, BeginPass(pid));
    if s' == s { return; }
    assert ProcOk(s, pid, lockFile);
    BeginsWithoutClaims(s.ledger, id);
    forall p | p in s'.procs ensures ProcOk(s', p, lockFile) { assert ProcOk(s, p, lockFile); }
    assert InFlight(s, lockFile) == None;
  }

  lemma DeathKept(s: Sys, pid: Pid, lockFile: string, id: JobId)
    requires WellFormed(s, lockFile)
    ensures Kept(s, Next(s, Die(pid)), lockFile, id)
  {
    var s' := Next(s, Die(pid));
    forall p | p in s'.procs ensures ProcOk(s', p, lockFile) { assert ProcOk(s, p, lockFile); }
  }

  // A new process has no claim. A process id is not reused while a dead holder's lock remains.
  lemma NewProcess(s: Sys, pid: Pid, proc: Proc, lockFile: string, id: JobId)
    requires WellFormed(s, lockFile) && pid !in s.procs
    requires proc == Supervisor(lockFile, false, None) || (!proc.Supervisor? && Quiet(LocalOf(proc).value))
    ensures Kept(s, s.(procs := s.procs[pid := proc]), lockFile, id)
  {
    var s' := s.(procs := s.procs[pid := proc]);
    assert InFlight(s', lockFile) == InFlight(s, lockFile);
    forall p | p in s'.procs ensures ProcOk(s', p, lockFile) { if p in s.procs { assert ProcOk(s, p, lockFile); } }
  }

  lemma StartKept(s: Sys, a: Action, lockFile: string, id: JobId)
    requires WellFormed(s, lockFile)
    requires a.StartStop? || a.StartStatusQuery? || a.StartWriter? || (a.StartSupervisor? && a.lockFile == lockFile)
    ensures Kept(s, Next(s, a), lockFile, id)
  {
    if Next(s, a) == s { return; }
    match a
    case StartSupervisor(pid, _) => NewProcess(s, pid, Supervisor(lockFile, false, None), lockFile, id);
    case StartStatusQuery(pid) =>
      BeginsWithoutClaims(s.ledger, id);
      NewProcess(s, pid, StatusQuery(BeginLocal(s.ledger, [])), lockFile, id);
    case StartStop(pid, _) => NewProcess(s, pid, Next(s, a).procs[pid], lockFile, id);
    case StartWriter(pid, _, patch, beat) =>
      WriterIsQuiet(Next(s, a).procs[pid].write.job, patch, beat);
      NewProcess(s, pid, Next(s, a).procs[pid], lockFile, id);
  }

  lemma WriterIsQuiet(job: Listed, patch: Patch, beat: Option<Heartbeat>)
    ensures Quiet(Local([], job, WriterOps(patch, beat), None, None))
  {
  }

  // ---- the theorem ------------------------------------------------------------------------------

  // Every supervisor is started with the same lock file.
  ghost predicate OneLockFile(actions: seq<Action>, lockFile: string) {
    forall a :: a in actions && a.StartSupervisor? ==> a.lockFile == lockFile
  }

  lemma TimeKept(s: Sys, micros: nat, lockFile: string, id: JobId)
    requires WellFormed(s, lockFile)
    ensures Kept(s, s.(ledger := Tick(s.ledger, micros)), lockFile, id)
  {
    var s' := s.(ledger := Tick(s.ledger, micros));
    forall p | p in s'.procs ensures ProcOk(s', p, lockFile) { SubmitProcOk(s, s', lockFile, p); }
    assert InFlight(s', lockFile) == InFlight(s, lockFile);
  }

  lemma NextKept(s: Sys, a: Action, lockFile: string, id: JobId)
    requires WellFormed(s, lockFile) && (a.StartSupervisor? ==> a.lockFile == lockFile)
    ensures Kept(s, Next(s, a), lockFile, id)
  {
    match a
    case SubmitJob(newId, alias) => if Next(s, a) != s { SubmitKept(s, newId, alias, lockFile, id); }
    case TimePasses(micros) => TimeKept(s, micros, lockFile, id);
    case TryLock(pid) => LockKept(s, pid, lockFile, id);
    case BeginPass(pid) => BeginKept(s, pid, lockFile, id);
    case Step(pid) => StepKept(s, pid, lockFile, id);
    case Answer(pid, r) => AnswerKept(s, pid, r, lockFile, id);
    case Raise(pid) => if pid in s.procs && s.procs[pid].Supervisor? { PassEnds(s, pid, lockFile, id); }
    case Die(pid) => DeathKept(s, pid, lockFile, id);
    case StartSupervisor(_, _) => StartKept(s, a, lockFile, id);
    case StartStop(_, _) => StartKept(s, a, lockFile, id);
    case StartStatusQuery(_) => StartKept(s, a, lockFile, id);
    case StartWriter(_, _, _, _) => StartKept(s, a, lockFile, id);
  }

  lemma {:induction false} RunKept(s: Sys, actions: seq<Action>, lockFile: string, id: JobId)
    requires WellFormed(s, lockFile) && OneLockFile(actions, lockFile)
    ensures Kept(s, Execute(s, actions), lockFile, id)
  {
    if actions == [] { return; }
    var init, last := actions[..|actions| - 1], actions[|actions| - 1];
    assert last in actions;
    RunKept(s, init, lockFile, id);
    NextKept(Execute(s, init), last, lockFile, id);
  }

  // Every reachable state is well formed: at most the holder of the lock is in a pass, and
  // every lock is held by a living process.
  lemma ReachableWellFormed(s: Sys, actions: seq<Action>, lockFile: string)
    requires Initial(s) && OneLockFile(actions, lockFile)
    ensures WellFormed(Execute(s, actions), lockFile)
  {
    RunKept(s, actions, lockFile, "");
  }

  // In every interleaving of any number of supervisors sharing a lock file, operator stops,
  // status queries and outside writers, with deaths and exceptions anywhere, and over every
  // interval of it: a job is sent at most as often as it became queued in the interval, plus
  // what was left to send at its beginning. So a job that nobody holds and that becomes
  // queued once in the interval is sent at most once in it.
  lemma AtMostOneSendPerEpisode(s: Sys, before: seq<Action>, during: seq<Action>, lockFile: string, id: JobId)
    requires Initial(s) && OneLockFile(before + during, lockFile)
    ensures var t := Execute(s, before); var u := Execute(t, during);
      && u == Execute(s, before + during)
      && Count(u.sends, id) - Count(t.sends, id) <= SendsLeft(t, lockFile, id) + Episodes(u, id) - Episodes(t, id)
      && (SendsLeft(t, lockFile, id) == 0 ==>
          Count(u.sends, id) - Count(t.sends, id) <= Episodes(u, id) - Episodes(t, id))
  {
    assert forall a :: a in before ==> a in before + during;
    assert forall a :: a in during ==> a in before + during;
    ReachableWellFormed(s, before, lockFile);
    RunKept(Execute(s, before), during, lockFile, id);
    ExecuteAppend(s, before, during);
  }

  // Nothing is left to send exactly when the job is not queued and the pass in flight does
  // not list it as queued, have it in hand on the way to its send, or write it back as queued.
  lemma NothingLeft(s: Sys, lockFile: string, id: JobId)
    ensures SendsLeft(s, lockFile, id) == 0 <==>
      && !IsQueued(s.ledger, id)
      && (InFlight(s, lockFile).Some? ==>
            var l := InFlight(s, lockFile).value;
            !QueuedWork(l.tasks, id) && !(l.job.id == id && Ask(Send) in l.ops) && !WritesBackQueued(l, id))
  {
  }

  // The lock admits one pass at a time.
  lemma OnePassAtATime(s: Sys, actions: seq<Action>, lockFile: string, p: Pid, q: Pid)
    requires Initial(s) && OneLockFile(actions, lockFile)
    requires var t := Execute(s, actions);
      && p in t.procs && t.procs[p].Supervisor? && t.procs[p].pass.Some?
      && q in t.procs && t.procs[q].Supervisor? && t.procs[q].pass.Some?
    ensures p == q
  {
    ReachableWellFormed(s, actions, lockFile);
    assert ProcOk(Execute(s, actions), p, lockFile) && ProcOk(Execute(s, actions), q, lockFile);
  }

  // ---- RUNNING is stored before the send ----------------------------------------------------------

  // Process p is in a pass that has marked the job running and is about to send it.
  ghost predicate AboutToSend(t: Sys, p: Pid, id: JobId) {
    p in t.procs && t.procs[p].Supervisor? && t.procs[p].pass.Some? && SendPending(t.procs[p].pass.value, id)
  }

  ghost predicate SendingAt(s: Sys, actions: seq<Action>, n: nat, p: Pid, id: JobId)
    requires n <= |actions|
  {
    AboutToSend(Execute(s, actions[..n]), p, id)
  }

  ghost predicate Runs(t: Sys, id: JobId) {
    id in t.ledger.jobs && t.ledger.jobs[id].status.Running?
  }

  // The k-th action is a step of p that stores the job as running, and from it on to the n-th
  // p has been about to send the job, without having been so before it.
  ghost predicate MarkedAt(s: Sys, actions: seq<Action>, n: nat, p: Pid, id: JobId, k: nat)
    requires k < n <= |actions|
  {
    && actions[k] == Step(p)
    && !SendingAt(s, actions, k, p, id) && Runs(Execute(s, actions[..k + 1]), id)
    && forall j :: k < j <= n ==> SendingAt(s, actions, j, p, id)
  }

  // A pass gets closer to its send only by its own steps.
  lemma OnlyOwnStepsDispatch(t: Sys, a: Action, p: Pid, lockFile: string)
    requires p in t.procs ==> ProcOk(t, p, lockFile)
    requires var t' := Next(t, a); p in t'.procs && t'.procs[p].Supervisor? && t'.procs[p].pass.Some?
    requires a != Step(p) && Ask(Send) in Next(t, a).procs[p].pass.value.ops
    ensures p in t.procs && t.procs[p].Supervisor? && t.procs[p].pass == Next(t, a).procs[p].pass
  {
    if a.Answer? && a.pid == p {
      if AnswerProc(t, p, a.reply) != t { AnswerSends(t.procs[p].pass.value, a.reply); }
    } else if a != BeginPass(p) {
      OthersLeavePass(t, a, p);
    }
  }

  // Only a step, an answer or the beginning of its own pass gives a process a new pass.
  lemma OthersLeavePass(t: Sys, a: Action, p: Pid)
    requires a != Step(p) && a != BeginPass(p) && !(a.Answer? && a.pid == p)
    requires var t' := Next(t, a); p in t'.procs && t'.procs[p].Supervisor? && t'.procs[p].pass.Some?
    ensures p in t.procs && t.procs[p].Supervisor? && t.procs[p].pass == Next(t, a).procs[p].pass
  {
  }

  // A step after which a send is pending finds it pending already, or stores the job as running.
  lemma SendPendingBefore(db: Ledger, l: Local, id: JobId)
    requires PassOk(db, l) && SendPending(LocalStep(db, l).1, id)
    ensures SendPending(l, id) || (id in LocalStep(db, l).0.jobs && LocalStep(db, l).0.jobs[id].status.Running?)
  {
    if l.ops != [] && Ask(Send) in l.ops {
      DispatchStepShape(db, l);
    } else if l.ops != [] {
      OtherStepSends(db, l);
    } else if l.tasks != [] {
      if l.tasks[0].Work? { OpeningFacts(l.tasks[0].job); }
    }
  }

  // The last action before a send is pending: it was pending already, or this action stored
  // the job as running.
  lemma PendingSince(t: Sys, a: Action, lockFile: string, p: Pid, id: JobId)
    requires WellFormed(t, lockFile) && AboutToSend(Next(t, a), p, id) && !AboutToSend(t, p, id)
    ensures a == Step(p) && Runs(Next(t, a), id)
  {
    if p in t.procs { assert ProcOk(t, p, lockFile); }
    if a != Step(p) {
      OnlyOwnStepsDispatch(t, a, p, lockFile);
    } else {
      SendPendingBefore(t.ledger, t.procs[p].pass.value, id);
    }
  }

  // Whenever a pass is about to send a job, the last step that brought it there, in the same
  // dispatch, has stored the job as running.
  lemma RunningIsStoredBeforeTheSend(s: Sys, actions: seq<Action>, lockFile: string, n: nat, p: Pid, id: JobId)
    returns (k: nat)
    requires Initial(s) && OneLockFile(actions, lockFile) && n <= |actions|
    requires SendingAt(s, actions, n, p, id)
    ensures k < n && MarkedAt(s, actions, n, p, id, k)
  {
    var sending := j requires 0 <= j <= |actions| => SendingAt(s, actions, j, p, id);
    NotAtFirst(s, actions, p, id);
    k := LastRise(sending, n);
    assert !sending(k) && sending(k + 1);
    MarkedNow(s, actions, lockFile, k, p, id);
    forall j | k < j <= n ensures SendingAt(s, actions, j, p, id) { assert sending(j); }
  }

  lemma NotAtFirst(s: Sys, actions: seq<Action>, p: Pid, id: JobId)
    requires Initial(s)
    ensures !SendingAt(s, actions, 0, p, id)
  {
    assert actions[..0] == [];
  }

  // What holds at n and did not at first has come to hold at some point for good.
  lemma {:induction false} LastRise(holds: int --> bool, n: nat) returns (k: nat)
    requires forall j :: 0 <= j <= n ==> holds.requires(j)
    requires !holds(0) && holds(n)
    ensures k < n && !holds(k) && forall j :: k < j <= n ==> holds(j)
  {
    if holds(n - 1) { k := LastRise(holds, n - 1); } else { k := n - 1; }
  }

  // The action with which a send comes to be pending.
  lemma MarkedNow(s: Sys, actions: seq<Action>, lockFile: string, k: nat, p: Pid, id: JobId)
    requires Initial(s) && OneLockFile(actions, lockFile) && k < |actions|
    requires SendingAt(s, actions, k + 1, p, id) && !SendingAt(s, actions, k, p, id)
    ensures actions[k] == Step(p) && Runs(Execute(s, actions[..k + 1]), id)
  {
    assert actions[..k + 1][..k] == actions[..k];
    ReachableWellFormed(s, actions[..k], lockFile);
    PendingSince(Execute(s, actions[..k]), actions[k], lockFile, p, id);
  }
}
