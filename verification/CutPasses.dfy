/** A pass that ends between any two of its store calls: by an exception, or with its process. */
module CutPasses {
  import opened Wrappers
  import opened JobLedger
  import opened Supervisor
  import opened SupervisorProtocol
  import opened PassRefinement

  function Start(db: Ledger, script: seq<Reply>): Config {
    Config(db, BeginLocal(db, [TakeListing]), script)
  }

  // ---- the tables stay well formed -----------------------------------------------------------

  ghost predicate Framed(db0: Ledger, db: Ledger) {
    && db.jobs.Keys == db0.jobs.Keys && db.order == db0.order && db.now >= db0.now
    && db.beats.Keys <= db.jobs.Keys && EventsKnown(db) && StartedBefore(db)
    && forall id :: id in db0.jobs ==> db.jobs[id].createdAt == db0.jobs[id].createdAt
  }

  lemma FramedValid(db0: Ledger, db: Ledger)
    requires Valid(db0) && Framed(db0, db)
    ensures Valid(db)
  {
    forall i, j | 0 <= i < j < |db.order| ensures Before(db.jobs, db.order[i], db.order[j]) {
      assert Before(db0.jobs, db0.order[i], db0.order[j]);
    }
  }

  // What a pass holds: rows that were read from these tables.
  ghost predicate HoldsRows(db: Ledger, l: Local) {
    && (l.ops != [] ==> l.job.id in db.jobs)
    && (forall t :: t in l.tasks && !t.TakeListing? ==> t.job.id in db.jobs)
    && (l.beatRow.Some? ==> l.beatRow.value.startedAt <= db.now)
    && (l.ops != [] && l.jobRow.Some? ==> l.jobRow.value.createdAt == db.jobs[l.job.id].createdAt)
    && PutsPast(db, l.ops)
  }

  ghost predicate PutsPast(db: Ledger, ops: seq<Op>) {
    forall op :: op in ops && op.PutBeat? ==> op.heartbeat.startedAt <= db.now
  }

  ghost predicate FrameOk(db0: Ledger, c: Config) {
    Valid(db0) && Framed(db0, c.ledger) && HoldsRows(c.ledger, c.pass)
  }

  lemma OpTables(db0: Ledger, db: Ledger, l: Local)
    requires Framed(db0, db) && HoldsRows(db, l) && l.ops != []
    ensures Framed(db0, OpStep(db, l).0)
  {
    assert l.ops[0] in l.ops;
  }

  lemma OpPuts(db: Ledger, l: Local)
    requires l.ops != [] && PutsPast(db, l.ops)
    ensures PutsPast(db, OpStep(db, l).1.ops)
  {
    HeadOrRest(l.ops);
    if l.ops[0].CheckBusy? { assert forall op :: op in AfterCheck(db, l.job, l.ops[0].status) ==> !op.PutBeat?; }
  }

  lemma OpRows(db: Ledger, l: Local)
    requires HoldsRows(db, l) && StartedBefore(db) && l.ops != []
    ensures HoldsRows(OpStep(db, l).0, OpStep(db, l).1)
  {
    OpPuts(db, l);
  }

  lemma OpFrames(db0: Ledger, c: Config)
    requires FrameOk(db0, c) && c.pass.ops != [] && !Waiting(c.pass)
    ensures FrameOk(db0, Move(c))
  {
    OpTables(db0, c.ledger, c.pass);
    OpRows(c.ledger, c.pass);
  }

  lemma TaskFrames(db0: Ledger, c: Config)
    requires FrameOk(db0, c) && c.pass.ops == [] && c.pass.tasks != []
    ensures FrameOk(db0, Move(c))
  {
    FramedValid(db0, c.ledger);
    TaskRows(c.ledger, c.pass);
  }

  lemma TaskRows(db: Ledger, l: Local)
    requires Valid(db) && HoldsRows(db, l) && l.ops == [] && l.tasks != []
    ensures HoldsRows(db, TaskStep(db, l))
  {
    HeadOrRest(l.tasks);
    match l.tasks[0]
    case Consider(job) =>
    case TakeListing => ListedOnce(db);
    case Work(job) => assert forall op :: op in Opening(job) ==> !op.PutBeat?;
  }

  lemma ResumePutsNothing(job: Listed, call: Call, r: Reply)
    ensures forall op :: op in Resume(job, call, r) ==> !op.PutBeat?
  {
  }

  lemma AnswerFrames(db0: Ledger, c: Config)
    requires FrameOk(db0, c) && Waiting(c.pass) && c.script != []
    ensures FrameOk(db0, Move(c))
  {
    HeadOrRest(c.pass.ops);
    ResumePutsNothing(c.pass.job, c.pass.ops[0].call, c.script[0]);
  }

  lemma MoveFrames(db0: Ledger, c: Config)
    requires FrameOk(db0, c)
    ensures FrameOk(db0, Move(c))
  {
    if Waiting(c.pass) {
      if c.script != [] { AnswerFrames(db0, c); }
    } else if c.pass.ops != [] {
      OpFrames(db0, c);
    } else if c.pass.tasks != [] {
      TaskFrames(db0, c);
    }
  }

  lemma StartFrames(db: Ledger, script: seq<Reply>)
    requires Valid(db)
    ensures FrameOk(db, Start(db, script))
  {
    ActiveKnown(db.jobs, db.order);
    var listed := ListActive(db, 50);
    assert forall i :: 0 <= i < |listed| ==> Considers(listed)[i] == Consider(listed[i]) && listed[i] in listed;
  }

  ghost predicate ClockKept(db: Ledger, db': Ledger, id: JobId) {
    && id in db.jobs && id in db'.jobs && db'.jobs[id] == db.jobs[id]
    && GetBeat(db', id) == GetBeat(db, id)
  }

  // ---- what is in hand ------------------------------------------------------------------------

  ghost predicate HasWork(l: Local, id: JobId) {
    exists t :: t in l.tasks && t.Work? && t.job.id == id
  }

  predicate RunCall(call: Call) {
    call.Poll? || call.Output? || call.BusyStop?
  }

  // The heartbeat and the job row that a running job is settled with.
  predicate GoodPair(b: Beat, patch: Patch) {
    !b.resetStartedAt &&
    (if patch.status.None? then b.state.Running?
     else patch.status.value == b.state && (b.state.Blocked? || b.state.NeedsReview?))
  }

  predicate Asking(ops: seq<Op>) {
    |ops| == 1 && (ops[0].CheckBusy? || ((ops[0].Ask? || ops[0].Await?) && RunCall(ops[0].call)))
  }

  predicate Pair(ops: seq<Op>) {
    && |ops| == 3 && ops[0].WriteBeat? && ops[1].ReadJob? && ops[2].WriteJob? && GoodPair(ops[0].beat, ops[2].patch)
  }

  predicate Calls(ops: seq<Op>) {
    Asking(ops) || (|ops| == 4 && ops[0].ReadBeat? && Pair(ops[1..]))
  }

  // A running job in hand, with nothing written to its heartbeat yet.
  predicate BeforeBeat(ops: seq<Op>) {
    Calls(ops) || Pair(ops) || (|ops| > 1 && ops[0].Log? && Calls(ops[1..]))
  }

  // Its heartbeat written and its row not: the point where a cut tears the two apart.
  predicate Torn(ops: seq<Op>) {
    || (|ops| == 2 && ops[0].ReadJob? && ops[1].WriteJob?)
    || (|ops| == 1 && ops[0].WriteJob?)
  }

  function PatchOf(ops: seq<Op>): Patch
    requires Torn(ops)
  {
    ops[|ops| - 1].patch
  }

  ghost predicate Marking(l: Local) {
    TakeListing in l.tasks
  }

  predicate MarkOp(op: Op) {
    op.PutBeat? || op.ReadJob? || op.WriteJob? || op.Log?
  }

  // Marks come first, one listing after them, and then work, each job once.
  ghost predicate Staged(db0: Ledger, c: Config) {
    && (Marking(c.pass) ==> c.ledger.now == db0.now && forall op :: op in c.pass.ops ==> MarkOp(op))
    && (Marking(c.pass) ==> forall t :: t in c.pass.tasks ==> !t.Work?)
    && (!Marking(c.pass) ==> forall t :: t in c.pass.tasks ==> t.Work?)
    && (forall i :: 0 <= i < |c.pass.tasks| - 1 ==> !c.pass.tasks[i].TakeListing?)
    && (forall i, k :: 0 <= i < k < |c.pass.tasks| && c.pass.tasks[i].Work? && c.pass.tasks[k].Work? ==>
          c.pass.tasks[i].job.id != c.pass.tasks[k].job.id)
    && (c.pass.ops != [] ==> !HasWork(c.pass, c.pass.job.id))
  }

  lemma TailStaged(tasks: seq<Task>)
    requires tasks != []
    ensures forall t :: t in tasks <==> t == tasks[0] || t in tasks[1..]
    ensures forall i :: 0 <= i < |tasks| - 1 ==> tasks[1..][i] == tasks[i + 1]
  {
    HeadOrRest(tasks);
  }

  lemma OpStaged(db0: Ledger, c: Config)
    requires Staged(db0, c) && c.pass.ops != [] && !Waiting(c.pass)
    ensures Staged(db0, Move(c))
  {
    HeadOrRest(c.pass.ops);
    assert c.pass.ops[0] in c.pass.ops;
  }

  lemma AnswerStaged(db0: Ledger, c: Config)
    requires Staged(db0, c) && Waiting(c.pass) && c.script != []
    ensures Staged(db0, Move(c))
  {
    assert c.pass.ops[0] in c.pass.ops;
  }

  lemma TaskStaged(db0: Ledger, c: Config)
    requires Staged(db0, c) && Valid(c.ledger) && c.pass.ops == [] && c.pass.tasks != []
    ensures Staged(db0, Move(c))
  {
    TailStaged(c.pass.tasks);
    match c.pass.tasks[0]
    case Consider(job) =>
    case TakeListing =>
      ListedOnce(c.ledger);
      assert c.pass.tasks[1..] == [];
      assert Works(ListActive(c.ledger, PASS_LIMIT)) + [] == Works(ListActive(c.ledger, PASS_LIMIT));
    case Work(job) =>
  }

  lemma ListedOnce(db: Ledger)
    requires Valid(db)
    ensures var works := Works(ListActive(db, PASS_LIMIT));
      && (forall t :: t in works ==> t.Work? && t.job.id in db.jobs && t.job.status == db.jobs[t.job.id].status)
      && forall i, k :: 0 <= i < k < |works| ==> works[i].job.id != works[k].job.id
  {
    ActiveKnown(db.jobs, db.order);
    ActiveDistinct(db.jobs, db.order);
    var listed := ListActive(db, PASS_LIMIT);
    assert forall i :: 0 <= i < |listed| ==> Works(listed)[i] == Work(listed[i]) && listed[i] in listed;
  }

  // ---- one running job -------------------------------------------------------------------------

  // The job is still running with a heartbeat written in this pass, which kept the start time.
  ghost predicate Rebeaten(db0: Ledger, db: Ledger, id: JobId, state: Status) {
    && id in db0.jobs && id in db.jobs && db.jobs[id].status.Running? && id in db.beats && db.beats[id].state == state
    && if id in db0.beats then db.beats[id].startedAt == db0.beats[id].startedAt else db0.now <= db.beats[id].startedAt
  }

  ghost predicate Looked(db0: Ledger, db: Ledger, id: JobId) {
    && id in db.jobs
    && (db.jobs[id].status.Blocked? || db.jobs[id].status.NeedsReview? || Rebeaten(db0, db, id, Running))
  }

  ghost predicate InCourse(db0: Ledger, c: Config, id: JobId) {
    var ops := c.pass.ops;
    || (BeforeBeat(ops) && ClockKept(db0, c.ledger, id) &&
        (|ops| == 3 && Pair(ops) ==> c.pass.beatRow == GetBeat(c.ledger, id)))
    || (Torn(ops) && (|ops| == 1 ==> c.pass.jobRow.Some? && c.pass.jobRow.value.status.Running?) &&
        (PatchOf(ops).status.Some? ==> PatchOf(ops).status.value.Blocked? || PatchOf(ops).status.value.NeedsReview?) &&
        Rebeaten(db0, c.ledger, id, PatchOf(ops).status.GetOr(Running)))
  }

  // Where a job that was running when the pass began stands: untouched, in hand, or done with.
  ghost predicate Track(db0: Ledger, c: Config, id: JobId) {
    && id in db0.jobs && db0.jobs[id].status.Running?
    && (id in db0.beats ==> !BeatIsStale(db0.beats[id], db0.now))
    && (if InHand(c.pass, id) then !Marking(c.pass) && InCourse(db0, c, id)
        else ClockKept(db0, c.ledger, id) || (Looked(db0, c.ledger, id) && !HasWork(c.pass, id) && !Marking(c.pass)))
    && (forall t :: t in c.pass.tasks && t.Work? && t.job.id == id ==> t.job.status.Running?)
  }

  lemma OtherOp(db: Ledger, l: Local, id: JobId)
    requires l.ops != [] && l.job.id != id && id in db.jobs
    ensures var db' := OpStep(db, l).0;
      id in db'.jobs && db'.jobs[id] == db.jobs[id] && GetBeat(db', id) == GetBeat(db, id) && db'.now == db.now
  {
  }

  lemma OtherOpTracks(db0: Ledger, c: Config, id: JobId)
    requires Track(db0, c, id) && c.pass.ops != [] && c.pass.job.id != id && !Waiting(c.pass)
    ensures Track(db0, Move(c), id)
  {
    OtherOp(c.ledger, c.pass, id);
  }

  // The job in hand, up to its heartbeat.
  lemma BeforeTracks(db0: Ledger, c: Config, id: JobId)
    requires Track(db0, c, id) && InHand(c.pass, id) && !Waiting(c.pass) && BeforeBeat(c.pass.ops)
    requires ClockKept(db0, c.ledger, id)
    requires |c.pass.ops| == 3 && Pair(c.pass.ops) ==> c.pass.beatRow == GetBeat(c.ledger, id)
    requires StartedBefore(c.ledger) && c.ledger.now >= db0.now
    ensures Track(db0, Move(c), id)
  {
    var ops := c.pass.ops;
    if ops[0].CheckBusy? {
      assert AfterCheck(c.ledger, c.pass.job, ops[0].status) + ops[1..] ==
        AfterCheck(c.ledger, c.pass.job, ops[0].status);
      CheckCourse(c.ledger, c.pass.job, ops[0].status);
    } else if ops[0].Ask? {
      assert [Await(ops[0].call)] + ops[1..] == [Await(ops[0].call)];
    }
  }

  lemma CheckCourse(db: Ledger, job: Listed, status: Reply)
    ensures Calls(AfterCheck(db, job, status))
  {
    var b := BusyBeat(job.alias, PhSmithBusy, status);
    assert SettleOps(b, STILL_BUSY_PATCH)[1..] == [WriteBeat(b), ReadJob, WriteJob(STILL_BUSY_PATCH)];
  }

  // The job in hand, after its heartbeat.
  lemma AfterTracks(db0: Ledger, c: Config, id: JobId)
    requires Track(db0, c, id) && InHand(c.pass, id) && Torn(c.pass.ops)
    requires |c.pass.ops| == 1 ==> c.pass.jobRow.Some? && c.pass.jobRow.value.status.Running?
    requires var patch := PatchOf(c.pass.ops);
      && (patch.status.Some? ==> patch.status.value.Blocked? || patch.status.value.NeedsReview?)
      && Rebeaten(db0, c.ledger, id, patch.status.GetOr(Running))
    requires !HasWork(c.pass, id)
    ensures Track(db0, Move(c), id)
  {
  }

  lemma SettleCourse(log: Op, b: Beat, patch: Patch)
    requires log.Log? && GoodPair(b, patch)
    ensures BeforeBeat([log] + SettleOps(b, patch)) && |[log] + SettleOps(b, patch)| == 5
  {
    assert SettleOps(b, patch)[1..] == [WriteBeat(b), ReadJob, WriteJob(patch)];
    assert ([log] + SettleOps(b, patch))[1..] == SettleOps(b, patch);
  }

  lemma ResumeCourse(job: Listed, call: Call, r: Reply)
    requires RunCall(call)
    ensures BeforeBeat(Resume(job, call, r)) && !Pair(Resume(job, call, r))
  {
    var log := Resume(job, call, r)[0];
    match call
    case Poll =>
      var failed := StatusFailedBeat(job.alias, PhStatusFailed, BecauseStatusFailed, r);
      SettleCourse(log, failed, StatusFailedPatch(r, SmithStatusFailed));
      assert r.ok && r.idle ==> Resume(job, call, r)[1..] == [Ask(Output(r))];
      assert r.ok && !r.idle ==> Resume(job, call, r)[1..] == [CheckBusy(r)];
    case Output(status) =>
      SettleCourse(log, ReviewBeat(job.alias, PhOutputReady, BecauseSmithIdle, r, status), ReviewPatch(None));
    case BusyStop(status, seconds) =>
      SettleCourse(log, BusyTimeoutBeat(job.alias, status), BusyTimeoutPatch(seconds));
  }

  lemma AnswerTracks(db0: Ledger, c: Config, id: JobId)
    requires Track(db0, c, id) && Waiting(c.pass) && c.script != []
    ensures Track(db0, Move(c), id)
  {
    if c.pass.job.id == id {
      assert Asking(c.pass.ops);
      ResumeCourse(c.pass.job, c.pass.ops[0].call, c.script[0]);
      var ops := Resume(c.pass.job, c.pass.ops[0].call, c.script[0]);
      assert ops + c.pass.ops[1..] == ops;
    }
  }

  lemma TaskTracks(db0: Ledger, c: Config, id: JobId)
    requires Track(db0, c, id) && Staged(db0, c) && Valid(c.ledger) && c.pass.ops == [] && c.pass.tasks != []
    ensures Track(db0, Move(c), id)
  {
    TailStaged(c.pass.tasks);
    assert c.pass.tasks[0] in c.pass.tasks;
    match c.pass.tasks[0]
    case Consider(job) =>
      if job.id == id { assert !ShouldMark(c.ledger, job); }
    case TakeListing =>
      ListedOnce(c.ledger);
      assert c.pass.tasks[1..] == [];
      assert Works(ListActive(c.ledger, PASS_LIMIT)) + [] == Works(ListActive(c.ledger, PASS_LIMIT));
    case Work(job) => WorkTracks(db0, c, id, job);
  }

  lemma WorkTracks(db0: Ledger, c: Config, id: JobId, job: Listed)
    requires Track(db0, c, id) && Staged(db0, c) && c.pass.ops == [] && c.pass.tasks != []
    requires c.pass.tasks[0] == Work(job)
    ensures Track(db0, Move(c), id)
  {
    TailStaged(c.pass.tasks);
    if job.id == id {
      assert HasWork(c.pass, id) && !Marking(c.pass);
      assert Opening(job) == [Ask(Poll)];
    }
  }

  ghost predicate Tracked(db0: Ledger, c: Config, id: JobId) {
    FrameOk(db0, c) && Staged(db0, c) && Track(db0, c, id)
  }

  lemma MoveTracked(db0: Ledger, c: Config, id: JobId)
    requires Tracked(db0, c, id)
    ensures Tracked(db0, Move(c), id)
  {
    MoveFrames(db0, c);
    FramedValid(db0, c.ledger);
    if Waiting(c.pass) {
      if c.script != [] {
        AnswerStaged(db0, c);
        AnswerTracks(db0, c, id);
      }
    } else if c.pass.ops != [] {
      OpStaged(db0, c);
      if c.pass.job.id != id { OtherOpTracks(db0, c, id); }
      else if Torn(c.pass.ops) { AfterTracks(db0, c, id); }
      else { BeforeTracks(db0, c, id); }
    } else if c.pass.tasks != [] {
      TaskStaged(db0, c);
      TaskTracks(db0, c, id);
    }
  }

  lemma StartTracked(db: Ledger, script: seq<Reply>, id: JobId)
    requires Valid(db) && id in db.jobs && db.jobs[id].status.Running?
    requires id in db.beats ==> !BeatIsStale(db.beats[id], db.now)
    ensures Tracked(db, Start(db, script), id)
  {
    StartFrames(db, script);
    StartStaged(db, script);
  }

  lemma StartStaged(db: Ledger, script: seq<Reply>)
    ensures Staged(db, Start(db, script)) && forall t :: t in Start(db, script).pass.tasks ==> !t.Work?
  {
    var listed := ListActive(db, 50);
    assert forall i :: 0 <= i < |listed| ==> Considers(listed)[i] == Consider(listed[i]);
    assert Start(db, script).pass.tasks[|listed|] == TakeListing;
  }

  // A running job with a fresh heartbeat is tracked through any number of moves.
  lemma MovesTracked(db0: Ledger, c: Config, id: JobId, n: nat)
    requires Tracked(db0, c, id)
    ensures Tracked(db0, Moves(c, n), id)
  {
    forall d: Config | Tracked(db0, d, id) ensures Tracked(db0, Move(d), id) { MoveTracked(db0, d, id); }
    IterateKeeps(Move, d => Tracked(db0, d, id), c, n);
  }

  lemma MovesFramed(db0: Ledger, c: Config, n: nat)
    requires FrameOk(db0, c)
    ensures FrameOk(db0, Moves(c, n))
  {
    forall d: Config | FrameOk(db0, d) ensures FrameOk(db0, Move(d)) { MoveFrames(db0, d); }
    IterateKeeps(Move, d => FrameOk(db0, d), c, n);
  }

  // ---- a job that is settled --------------------------------------------------------------------

  // Blocked or in review when the pass began: nobody takes it in hand.
  ghost predicate Rests(db0: Ledger, c: Config, id: JobId) {
    FrameOk(db0, c) && id in db0.jobs && Unhandled(c, id, db0.jobs[id])
  }

  ghost predicate Unhandled(c: Config, id: JobId, row: Job) {
    && (row.status.Blocked? || row.status.NeedsReview?)
    && id in c.ledger.jobs && c.ledger.jobs[id] == row && !InHand(c.pass, id)
    && forall t :: t in c.pass.tasks && !t.TakeListing? && t.job.id == id ==> t.job.status == row.status
  }

  lemma TaskUnhandled(c: Config, id: JobId, row: Job)
    requires Unhandled(c, id, row) && Valid(c.ledger) && c.pass.ops == [] && c.pass.tasks != []
    ensures Unhandled(Move(c), id, row)
  {
    TailStaged(c.pass.tasks);
    if c.pass.tasks[0].TakeListing? { ListedOnce(c.ledger); }
  }

  lemma MoveUnhandled(c: Config, id: JobId, row: Job)
    requires Unhandled(c, id, row) && Valid(c.ledger)
    ensures Unhandled(Move(c), id, row)
  {
    if !Waiting(c.pass) {
      if c.pass.ops != [] { OtherOp(c.ledger, c.pass, id); }
      else if c.pass.tasks != [] { TaskUnhandled(c, id, row); }
    }
  }

  lemma MoveRests(db0: Ledger, c: Config, id: JobId)
    requires Rests(db0, c, id)
    ensures Rests(db0, Move(c), id)
  {
    MoveFrames(db0, c);
    FramedValid(db0, c.ledger);
    MoveUnhandled(c, id, db0.jobs[id]);
  }

  lemma MovesRest(db0: Ledger, c: Config, id: JobId, n: nat)
    requires Rests(db0, c, id)
    ensures Rests(db0, Moves(c, n), id)
  {
    forall d: Config | Rests(db0, d, id) ensures Rests(db0, Move(d), id) { MoveRests(db0, d, id); }
    IterateKeeps(Move, d => Rests(db0, d, id), c, n);
  }

  lemma StartRests(db: Ledger, script: seq<Reply>, id: JobId)
    requires Valid(db) && id in db.jobs && (db.jobs[id].status.Blocked? || db.jobs[id].status.NeedsReview?)
    ensures Rests(db, Start(db, script), id)
  {
    StartFrames(db, script);
    ActiveKnown(db.jobs, db.order);
    var listed := ListActive(db, 50);
    assert forall i :: 0 <= i < |listed| ==> Considers(listed)[i] == Consider(listed[i]) && listed[i] in listed;
  }
}
