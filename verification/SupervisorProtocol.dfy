/** Supervisors, stops, status queries and other writers as interleaved processes on one ledger.
  *
  * A process is cut at every store call and at every await. An update of a job is
  * two steps, because the store reads the row in one statement and writes it in
  * another, whoever the caller is; so is a heartbeat. Between any two steps any other
  * process may run, any process may die, and jobs may be submitted.
  */
module SupervisorProtocol {
  import opened Wrappers
  import opened JobLedger
  import opened Supervisor

  type Pid = nat

  // The calls to Smith, with the earlier answers their continuation still needs.
  datatype Call =
    | Send | StatusAfterSend(sent: Reply) | OutputAfterSend(status: Reply)
    | Poll | Output(status: Reply) | BusyStop(status: Reply, seconds: int)
    | StatusStale | OutputStale(status: Reply)
    | StopCall

  datatype Op =
    | ReadJob | WriteJob(patch: Patch)
    | ReadBeat | WriteBeat(beat: Beat) | PutBeat(heartbeat: Heartbeat)
    | Log(kind: EventKind, payload: Payload)
    | CheckBusy(status: Reply)
    | Ask(call: Call)     // about to call Smith
    | Await(call: Call)   // waiting for the answer

  // What is left of a pass after the job in hand.
  datatype Task = Consider(job: Listed) | TakeListing | Work(job: Listed)

  datatype Local = Local(tasks: seq<Task>, job: Listed, ops: seq<Op>, jobRow: Option<Job>, beatRow: Option<Heartbeat>)

  datatype Proc =
    | Supervisor(lockFile: string, holding: bool, pass: Option<Local>)
    | Stopper(stop: Local)
    | StatusQuery(query: Local)
    | Writer(write: Local)       // a retry, follow-up, requeue or record from outside the daemon

  // `sends` counts the opencode_send calls of a job. The other two count how often its stored
  // status became queued from outside: by a submission or a write that says so, and by a write
  // that leaves the status alone but writes back a row it had read as queued.
  datatype Sys = Sys(
    ledger: Ledger,
    procs: map<Pid, Proc>,
    locks: map<string, Pid>,
    sends: map<JobId, nat>,
    asked: map<JobId, nat>,
    revived: map<JobId, nat>)

  // ---- the program of a pass, segment by segment ---------------------------------

  function SettleOps(b: Beat, patch: Patch): seq<Op> {
    [ReadBeat, WriteBeat(b), ReadJob, WriteJob(patch)]
  }

  function DispatchOps(job: Listed): seq<Op> {
    [ReadJob, WriteJob(DISPATCH_PATCH), ReadBeat, WriteBeat(DispatchBeat(job.alias)), Ask(Send)]
  }

  function Opening(job: Listed): seq<Op> {
    match job.status
    case Queued => DispatchOps(job)
    case Running => [Ask(Poll)]
    case Stale => [Ask(StatusStale)]
    case _ => []
  }

  function HarvestOps(job: Listed, kind: EventKind, phase: Phase, stop: StopReason, error: Option<Complaint>,
                      status: Reply, output: Reply): seq<Op> {
    [Log(kind, Bounded(output))] + SettleOps(ReviewBeat(job.alias, phase, stop, output, status), ReviewPatch(error))
  }

  // What follows an answer.
  function Resume(job: Listed, call: Call, r: Reply): seq<Op> {
    match call
    case Send =>
      [Log(SmithSend, Bounded(r))] +
      (if SendTimedOut(r) then [Ask(StatusAfterSend(r))] else SettleOps(SentBeat(job.alias, r), SentPatch(r)))
    case StatusAfterSend(sent) =>
      [Log(StatusAfterSendTimeout, Bounded(r))] +
      (if r.ok && r.idle then [Ask(OutputAfterSend(r))]
       else if r.ok then SettleOps(BusyBeat(job.alias, PhSmithBusyAfterSendTimeout, r), BUSY_PATCH)
       else SettleOps(SentBeat(job.alias, sent), SentPatch(sent)))
    case OutputAfterSend(status) =>
      HarvestOps(job, OutputAfterSendTimeout, PhOutputReadyAfterSendTimeout, BecauseSmithIdleAfterSendTimeout,
                 Some(NoComplaint), status, r)
    case Poll =>
      [Log(SmithStatus, Bounded(r))] +
      (if !r.ok then SettleOps(StatusFailedBeat(job.alias, PhStatusFailed, BecauseStatusFailed, r),
                               StatusFailedPatch(r, SmithStatusFailed))
       else if r.idle then [Ask(Output(r))]
       else [CheckBusy(r)])
    case Output(status) =>
      HarvestOps(job, SmithOutput, PhOutputReady, BecauseSmithIdle, None, status, r)
    case BusyStop(status, seconds) =>
      [Log(BusyTimeoutStop, Summary)] + SettleOps(BusyTimeoutBeat(job.alias, status), BusyTimeoutPatch(seconds))
    case StatusStale =>
      [Log(StatusAfterStale, Bounded(r))] +
      (if r.ok && !r.idle then SettleOps(BusyBeat(job.alias, PhSmithBusyAfterStale, r), BUSY_PATCH)
       else if r.ok then [Ask(OutputStale(r))]
       else SettleOps(StatusFailedBeat(job.alias, PhStatusFailedAfterStale, BecauseStatusFailedAfterStale, r),
                      StatusFailedPatch(r, SmithStatusFailedAfterStale)))
    case OutputStale(status) =>
      HarvestOps(job, OutputAfterStale, PhOutputReadyAfterStale, BecauseSmithIdleAfterStale, Some(NoComplaint), status,
                 r)
    case StopCall =>
      [Log(SmithStop, Bounded(r))] + SettleOps(StopBeat(job.alias, r), STOP_PATCH)
  }

  function AfterCheck(db: Ledger, job: Listed, status: Reply): seq<Op> {
    if BusyTooLong(db, job.id) then [Ask(BusyStop(status, BusySeconds(db, job.id)))]
    else SettleOps(BusyBeat(job.alias, PhSmithBusy, status), STILL_BUSY_PATCH)
  }

  function MarkOps(h: Heartbeat, now: int): seq<Op> {
    [PutBeat(StaleBeat(h, now)), ReadJob, WriteJob(StalePatch(h)), Log(RunStale, Summary)]
  }

  const NO_JOB := Listed("", "", Done)

  function Considers(listed: seq<Listed>): seq<Task> {
    seq(|listed|, i requires 0 <= i < |listed| => Consider(listed[i]))
  }

  function Works(listed: seq<Listed>): seq<Task> {
    seq(|listed|, i requires 0 <= i < |listed| => Work(listed[i]))
  }

  // ---- one step of a process --------------------------------------------------------

  // One store call or decision of the job in hand; an await does nothing by itself.
  function OpStep(db: Ledger, l: Local): (Ledger, Local)
    requires l.ops != []
  {
    var id, rest := l.job.id, l.ops[1..];
    match l.ops[0]
    case ReadJob => (db, l.(ops := rest, jobRow := if id in db.jobs then Some(db.jobs[id]) else None))
    case WriteJob(patch) =>
      (if l.jobRow.Some? && id in db.jobs
       then db.(jobs := db.jobs[id := PatchJob(l.jobRow.value, patch, db.now)]) else db,
       l.(ops := rest))
    case ReadBeat => (db, l.(ops := rest, beatRow := GetBeat(db, id)))
    case WriteBeat(b) => (db.(beats := db.beats[id := MakeBeat(l.beatRow, b, db.now)]), l.(ops := rest))
    case PutBeat(h) => (db.(beats := db.beats[id := h]), l.(ops := rest))
    case Log(kind, payload) => (AddEvent(db, id, kind, payload), l.(ops := rest))
    case CheckBusy(status) => (db, l.(ops := AfterCheck(db, l.job, status) + rest))
    case Ask(call) => (db, l.(ops := [Await(call)] + rest))
    case Await(_) => (db, l)
  }

  // Taking up the next task of the pass.
  function TaskStep(db: Ledger, l: Local): Local
    requires l.tasks != []
  {
    var rest := l.tasks[1..];
    match l.tasks[0]
    case Consider(job) =>
      if ShouldMark(db, job) then Local(rest, job, MarkOps(db.beats[job.id], db.now), None, None)
      else l.(tasks := rest)
    case TakeListing => l.(tasks := Works(ListActive(db, PASS_LIMIT)) + rest)
    case Work(job) => Local(rest, job, Opening(job), None, None)
  }

  function LocalStep(db: Ledger, l: Local): (Ledger, Local) {
    if l.ops != [] then OpStep(db, l)
    else if l.tasks != [] then (db, TaskStep(db, l))
    else (db, l)
  }

  function LocalOf(p: Proc): Option<Local> {
    match p
    case Supervisor(_, _, pass) => pass
    case Stopper(l) => Some(l)
    case StatusQuery(l) => Some(l)
    case Writer(l) => Some(l)
  }

  function WithLocal(p: Proc, l: Local): Proc {
    match p
    case Supervisor(_, _, _) => p.(pass := Some(l))
    case Stopper(_) => Stopper(l)
    case StatusQuery(_) => StatusQuery(l)
    case Writer(_) => Writer(l)
  }

  ghost predicate HasLocal(s: Sys, p: Pid) {
    p in s.procs && LocalOf(s.procs[p]).Some?
  }

  ghost predicate InHand(l: Local, id: JobId) {
    l.ops != [] && l.job.id == id
  }

  predicate Waiting(l: Local) {
    l.ops != [] && l.ops[0].Await?
  }

  // A process id above all those in use.
  lemma {:induction false} FreshPid(pids: set<Pid>) returns (q: Pid)
    ensures forall p :: p in pids ==> p < q
    decreases |pids|
  {
    if pids == {} { return 0; }
    var p :| p in pids;
    q := FreshPid(pids - {p});
    if q <= p { q := p + 1; }
    forall k | k in pids ensures k < q { assert k == p || k in pids - {p}; }
  }

  datatype Action =
    | SubmitJob(newId: JobId, alias: string)
    | TimePasses(micros: nat)
    | StartSupervisor(pid: Pid, lockFile: string)
    | TryLock(pid: Pid)
    | BeginPass(pid: Pid)
    | Step(pid: Pid)
    | Answer(pid: Pid, reply: Reply)
    | Raise(pid: Pid)                                // an exception ends the pass; the loop goes on
    | Die(pid: Pid)                                  // process exit or death: the kernel drops the lock
    | StartStop(pid: Pid, target: JobId)
    | StartStatusQuery(pid: Pid)
    | StartWriter(pid: Pid, target: JobId, patch: Patch, beat: Option<Heartbeat>)

  function Bump(m: map<JobId, nat>, id: JobId): map<JobId, nat> {
    m[id := (if id in m then m[id] else 0) + 1]
  }

  function Count(m: map<JobId, nat>, id: JobId): nat {
    if id in m then m[id] else 0
  }

  // The times the job's stored status became queued from outside the supervisors.
  function Episodes(s: Sys, id: JobId): nat {
    Count(s.asked, id) + Count(s.revived, id)
  }

  predicate IsQueued(db: Ledger, id: JobId) {
    id in db.jobs && db.jobs[id].status.Queued?
  }

  predicate Requeues(db: Ledger, db': Ledger, id: JobId) {
    !IsQueued(db, id) && IsQueued(db', id)
  }

  predicate SaysQueued(l: Local) {
    l.ops != [] && l.ops[0].WriteJob? && l.ops[0].patch.status == Some(Queued)
  }

  // An update from outside, and the heartbeat that some of these writers record after it.
  function WriterOps(patch: Patch, beat: Option<Heartbeat>): seq<Op> {
    [ReadJob, WriteJob(patch)] + (if beat.Some? then [PutBeat(beat.value)] else [])
  }

  function BeginLocal(db: Ledger, tail: seq<Task>): Local {
    Local(Considers(ListActive(db, 50)) + tail, NO_JOB, [], None, None)
  }

  // An action that is not enabled changes nothing.
  function Next(s: Sys, a: Action): Sys {
    match a
    case SubmitJob(id, alias) =>
      if id in s.ledger.jobs || !(forall x <- s.ledger.order :: x in s.ledger.jobs) then s
      else s.(ledger := Create(s.ledger, id, alias), asked := Bump(s.asked, id))
    case TimePasses(micros) => s.(ledger := Tick(s.ledger, micros))
    case StartSupervisor(pid, lockFile) =>
      if pid in s.procs then s else s.(procs := s.procs[pid := Supervisor(lockFile, false, None)])
    case TryLock(pid) =>
      if pid !in s.procs || !s.procs[pid].Supervisor? || s.procs[pid].holding then s
      else if s.procs[pid].lockFile in s.locks then s.(procs := s.procs - {pid})     // exit 75
      else s.(procs := s.procs[pid := s.procs[pid].(holding := true)], locks := s.locks[s.procs[pid].lockFile := pid])
    case BeginPass(pid) =>
      if pid !in s.procs || !s.procs[pid].Supervisor? || !s.procs[pid].holding || s.procs[pid].pass.Some? then s
      else s.(procs := s.procs[pid := s.procs[pid].(pass := Some(BeginLocal(s.ledger, [TakeListing])))])
    case Step(pid) => StepProc(s, pid)
    case Answer(pid, reply) => AnswerProc(s, pid, reply)
    case Raise(pid) =>
      if pid !in s.procs || !s.procs[pid].Supervisor? then s
      else s.(procs := s.procs[pid := s.procs[pid].(pass := None)])
    case Die(pid) =>
      s.(procs := s.procs - {pid}, locks := map f | f in s.locks && s.locks[f] != pid :: s.locks[f])
    case StartStop(pid, id) =>
      if pid in s.procs || id !in s.ledger.jobs then s
      else
        var job := Listed(id, s.ledger.jobs[id].alias, s.ledger.jobs[id].status);
        s.(procs := s.procs[pid := Stopper(Local([], job, [Ask(StopCall)], None, None))])
    case StartStatusQuery(pid) =>
      if pid in s.procs then s else s.(procs := s.procs[pid := StatusQuery(BeginLocal(s.ledger, []))])
    case StartWriter(pid, id, patch, beat) =>
      if pid in s.procs || id !in s.ledger.jobs then s
      else
        var job := Listed(id, s.ledger.jobs[id].alias, s.ledger.jobs[id].status);
        s.(procs := s.procs[pid := Writer(Local([], job, WriterOps(patch, beat), None, None))])
  }

  function StepProc(s: Sys, pid: Pid): Sys {
    if pid !in s.procs || LocalOf(s.procs[pid]).None? then s
    else
      var l := LocalOf(s.procs[pid]).value;
      if s.procs[pid].Supervisor? && l.ops == [] && l.tasks == [] then
        s.(procs := s.procs[pid := s.procs[pid].(pass := None)])                     // the pass is complete
      else
        var (db', l') := LocalStep(s.ledger, l);
        var again := Requeues(s.ledger, db', l.job.id);
        s.(ledger := db', procs := s.procs[pid := WithLocal(s.procs[pid], l')],
           sends := if l.ops != [] && l.ops[0] == Ask(Send) then Bump(s.sends, l.job.id) else s.sends,
           asked := if again && SaysQueued(l) then Bump(s.asked, l.job.id) else s.asked,
           revived := if again && !SaysQueued(l) && !s.procs[pid].Supervisor?
             then Bump(s.revived, l.job.id) else s.revived)
  }

  function AnswerProc(s: Sys, pid: Pid, reply: Reply): Sys {
    if pid !in s.procs || LocalOf(s.procs[pid]).None? then s
    else
      var l := LocalOf(s.procs[pid]).value;
      if l.ops == [] || !l.ops[0].Await? then s
      else
        s.(ledger := Tick(s.ledger, reply.elapsed),
           procs := s.procs[pid := WithLocal(s.procs[pid],
                                             l.(ops := Resume(l.job, l.ops[0].call, reply) + l.ops[1..]))])
  }

  ghost predicate Initial(s: Sys) {
    s.ledger.jobs == map[] && s.ledger.order == [] && s.ledger.beats == map[] && s.ledger.events == [] &&
    s.procs == map[] && s.locks == map[] && s.sends == map[] && s.asked == map[] && s.revived == map[]
  }

  function Execute(s: Sys, actions: seq<Action>): Sys {
    if actions == [] then s else Next(Execute(s, actions[..|actions| - 1]), actions[|actions| - 1])
  }

  lemma {:induction false} ExecuteAppend(s: Sys, a: seq<Action>, b: seq<Action>)
    ensures Execute(s, a + b) == Execute(Execute(s, a), b)
  {
    if b == [] {
      assert a + b == a;
    } else {
      assert (a + b)[..|a + b| - 1] == a + b[..|b| - 1];
      ExecuteAppend(s, a, b[..|b| - 1]);
    }
  }
}
