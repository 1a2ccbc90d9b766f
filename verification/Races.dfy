/** Races that the code allows: a stop that is overwritten, and jobs that are sent twice. */
module Races {
  import opened Wrappers
  import opened JobLedger
  import opened Supervisor
  import opened SupervisorProtocol
  import opened PassRefinement

  // ---- a stop that is lost ------------------------------------------------------------------

  function StepTimes(s: Sys, p: Pid, n: nat): Sys {
    Iterate((t: Sys) => Next(t, Step(p)), s, n)
  }

  // A path of steps leads from its first state to its last.
  lemma {:induction false} PathLeads<T(!new)>(f: T -> T, path: seq<T>, n: nat)
    requires |path| == n + 1 && forall i :: 0 <= i < n ==> f(path[i]) == path[i + 1]
    ensures Iterate(f, path[0], n) == path[n]
    decreases n
  {
    if n > 0 {
      var rest := path[1..];
      assert forall i :: 0 <= i < n ==> rest[i] == path[i + 1];
      PathLeads(f, rest, n - 1);
    }
  }

  // The system with process p at a given point of its work.
  function At(s: Sys, p: Pid, db: Ledger, l: Local, sends: map<JobId, nat>): Sys
    requires p in s.procs
  {
    s.(ledger := db, procs := s.procs[p := WithLocal(s.procs[p], l)], sends := sends)
  }

  // One store call that neither sends nor requeues the job in hand.
  lemma OneStep(s: Sys, p: Pid, db: Ledger, l: Local, db': Ledger, l': Local, sends: map<JobId, nat>)
    requires HasLocal(s, p) && l.ops != [] && OpStep(db, l) == (db', l')
    requires l.ops[0] != Ask(Send) && !Requeues(db, db', l.job.id)
    ensures Next(At(s, p, db, l, sends), Step(p)) == At(s, p, db', l', sends)
  {
    var now, after := At(s, p, db, l, sends), At(s, p, db', l', sends);
    assert LocalOf(now.procs[p]) == Some(l);
    assert Next(now, Step(p)).procs == after.procs;
  }

  lemma SendStep(s: Sys, p: Pid, db: Ledger, l: Local, sends: map<JobId, nat>)
    requires HasLocal(s, p) && l.ops == [Ask(Send)]
    ensures Next(At(s, p, db, l, sends), Step(p)) ==
      At(s, p, db, l.(ops := [Await(Send)]), Bump(sends, l.job.id))
  {
    var now, after := At(s, p, db, l, sends), At(s, p, db, l.(ops := [Await(Send)]), Bump(sends, l.job.id));
    assert LocalOf(now.procs[p]) == Some(l);
    assert [Await(Send)] + l.ops[1..] == [Await(Send)];
    assert Next(now, Step(p)).procs == after.procs;
  }

  function BeatRead(db: Ledger, l: Local, b: Beat, rest: seq<Op>): Local {
    l.(ops := [WriteBeat(b)] + rest, beatRow := GetBeat(db, l.job.id))
  }

  function BeatWritten(db: Ledger, l: Local, rest: seq<Op>): Local {
    l.(ops := rest, beatRow := GetBeat(db, l.job.id))
  }

  lemma BeatOps(db: Ledger, l: Local, b: Beat, rest: seq<Op>)
    requires l.ops == [ReadBeat, WriteBeat(b)] + rest
    ensures OpStep(db, l) == (db, BeatRead(db, l, b, rest))
    ensures OpStep(db, BeatRead(db, l, b, rest)) == (RecordBeat(db, l.job.id, b), BeatWritten(db, l, rest))
  {
    assert l.ops[1..] == [WriteBeat(b)] + rest;
    assert ([WriteBeat(b)] + rest)[1..] == rest;
  }

  lemma BeatStores(s: Sys, p: Pid, db: Ledger, l: Local, sends: map<JobId, nat>, b: Beat, rest: seq<Op>)
    requires HasLocal(s, p) && l.ops == [ReadBeat, WriteBeat(b)] + rest
    ensures Next(At(s, p, db, l, sends), Step(p)) == At(s, p, db, BeatRead(db, l, b, rest), sends)
    ensures Next(At(s, p, db, BeatRead(db, l, b, rest), sends), Step(p)) ==
      At(s, p, RecordBeat(db, l.job.id, b), BeatWritten(db, l, rest), sends)
  {
    BeatOps(db, l, b, rest);
    OneStep(s, p, db, l, db, BeatRead(db, l, b, rest), sends);
    OneStep(s, p, db, BeatRead(db, l, b, rest), RecordBeat(db, l.job.id, b), BeatWritten(db, l, rest), sends);
  }

  function JobRead(db: Ledger, l: Local, patch: Patch, rest: seq<Op>): Local
    requires l.job.id in db.jobs
  {
    l.(ops := [WriteJob(patch)] + rest, jobRow := Some(db.jobs[l.job.id]))
  }

  function JobWritten(db: Ledger, l: Local, rest: seq<Op>): Local
    requires l.job.id in db.jobs
  {
    l.(ops := rest, jobRow := Some(db.jobs[l.job.id]))
  }

  lemma JobOps(db: Ledger, l: Local, patch: Patch, rest: seq<Op>)
    requires l.ops == [ReadJob, WriteJob(patch)] + rest && l.job.id in db.jobs
    ensures OpStep(db, l) == (db, JobRead(db, l, patch, rest))
    ensures OpStep(db, JobRead(db, l, patch, rest)) == (Update(db, l.job.id, patch), JobWritten(db, l, rest))
  {
    assert l.ops[1..] == [WriteJob(patch)] + rest;
    assert ([WriteJob(patch)] + rest)[1..] == rest;
  }

  lemma JobStores(s: Sys, p: Pid, db: Ledger, l: Local, sends: map<JobId, nat>, patch: Patch, rest: seq<Op>)
    requires HasLocal(s, p) && l.ops == [ReadJob, WriteJob(patch)] + rest && l.job.id in db.jobs
    requires patch.status.Some? && !patch.status.value.Queued?
    ensures Next(At(s, p, db, l, sends), Step(p)) == At(s, p, db, JobRead(db, l, patch, rest), sends)
    ensures Next(At(s, p, db, JobRead(db, l, patch, rest), sends), Step(p)) ==
      At(s, p, Update(db, l.job.id, patch), JobWritten(db, l, rest), sends)
  {
    JobOps(db, l, patch, rest);
    OneStep(s, p, db, l, db, JobRead(db, l, patch, rest), sends);
    OneStep(s, p, db, JobRead(db, l, patch, rest), Update(db, l.job.id, patch), JobWritten(db, l, rest), sends);
  }

  lemma LogStores(s: Sys, p: Pid, l: Local, kind: EventKind, payload: Payload, rest: seq<Op>)
    requires p in s.procs && LocalOf(s.procs[p]) == Some(l) && l.ops == [Log(kind, payload)] + rest
    ensures Next(s, Step(p)) == At(s, p, AddEvent(s.ledger, l.job.id, kind, payload), l.(ops := rest), s.sends)
  {
    assert l.ops[1..] == rest;
    assert s == At(s, p, s.ledger, l, s.sends);
    OneStep(s, p, s.ledger, l, AddEvent(s.ledger, l.job.id, kind, payload), l.(ops := rest), s.sends);
  }

  // Logging an answer and settling the job: five store calls, after which the job has the
  // status of the patch, and only process p and the ledger have changed.
  lemma SettleStores(s: Sys, p: Pid, l: Local, kind: EventKind, payload: Payload, b: Beat, patch: Patch, n: nat)
    requires n == 5 && p in s.procs && LocalOf(s.procs[p]) == Some(l) && l.job.id in s.ledger.jobs
    requires l.ops == [Log(kind, payload)] + SettleOps(b, patch) && patch.status.Some? && !patch.status.value.Queued?
    ensures var t := StepTimes(s, p, n);
      && t.ledger == Settle(AddEvent(s.ledger, l.job.id, kind, payload), l.job.id, b, patch)
      && p in t.procs && t.procs == s.procs[p := t.procs[p]]
  {
    var db1, l1 := AddEvent(s.ledger, l.job.id, kind, payload), l.(ops := SettleOps(b, patch));
    LogStores(s, p, l, kind, payload, l1.ops);
    var tail := [ReadJob, WriteJob(patch)];
    assert l1.ops == [ReadBeat, WriteBeat(b)] + tail;
    BeatStores(s, p, db1, l1, s.sends, b, tail);
    var db2, l2 := RecordBeat(db1, l.job.id, b), BeatWritten(db1, l1, tail);
    assert tail == tail + [];
    JobStores(s, p, db2, l2, s.sends, patch, []);
    PathLeads((t: Sys) => Next(t, Step(p)),
      [s, At(s, p, db1, l1, s.sends), At(s, p, db1, BeatRead(db1, l1, b, tail), s.sends),
       At(s, p, db2, l2, s.sends), At(s, p, db2, JobRead(db2, l2, patch, []), s.sends),
       At(s, p, Update(db2, l.job.id, patch), JobWritten(db2, l2, []), s.sends)], n);
  }

  const YES := Reply(true, false, false, "", "", "", false, 0)

  function StopWrites(job: Listed): seq<Op> {
    [Log(SmithStop, Bounded(YES))] + SettleOps(StopBeat(job.alias, YES), STOP_PATCH)
  }

  // Stops take no lock. If a pass is waiting for the answer to its send when an operator
  // stops the job, the stop is stored and then overwritten: the job ends up running.
  lemma LostStop(s: Sys, p: Pid, q: Pid, l: Local, id: JobId)
    requires p in s.procs && s.procs[p].Supervisor? && s.procs[p].pass == Some(l) && q !in s.procs
    requires l.job.id == id && l.ops == [Await(Send)] && id in s.ledger.jobs
    ensures var stopped := StepTimes(Next(Next(Next(s, StartStop(q, id)), Step(q)), Answer(q, YES)), q, 5);
      && id in stopped.ledger.jobs && stopped.ledger.jobs[id].status.Stopped?
      && id in StepTimes(Next(stopped, Answer(p, YES)), p, 5).ledger.jobs
      && StepTimes(Next(stopped, Answer(p, YES)), p, 5).ledger.jobs[id].status.Running?
  {
    var job := Listed(id, s.ledger.jobs[id].alias, s.ledger.jobs[id].status);
    var s3 := Next(Next(Next(s, StartStop(q, id)), Step(q)), Answer(q, YES));
    var l3 := Local([], job, StopWrites(job), None, None);
    StopAsked(s, q, id);
    SettleStores(s3, q, l3, SmithStop, Bounded(YES), StopBeat(job.alias, YES), STOP_PATCH, 5);
    var s4 := StepTimes(s3, q, 5);
    SendAnswered(s4, p, l);
  }

  // The stop call made and answered: five store calls are left.
  lemma StopAsked(s: Sys, q: Pid, id: JobId)
    requires q !in s.procs && id in s.ledger.jobs
    ensures var job := Listed(id, s.ledger.jobs[id].alias, s.ledger.jobs[id].status);
      Next(Next(Next(s, StartStop(q, id)), Step(q)), Answer(q, YES)) ==
        s.(procs := s.procs[q := Stopper(Local([], job, StopWrites(job), None, None))])
  {
    var job := Listed(id, s.ledger.jobs[id].alias, s.ledger.jobs[id].status);
    var l3 := Local([], job, StopWrites(job), None, None);
    var s1 := Next(s, StartStop(q, id));
    var s2 := Next(s1, Step(q));
    assert [Ask(StopCall)][1..] == [] && [Await(StopCall)][1..] == [];
    assert s2.procs[q] == Stopper(Local([], job, [Await(StopCall)], None, None));
    assert Resume(job, StopCall, YES) + [] == l3.ops;
    assert Next(s2, Answer(q, YES)).procs[q] == Stopper(l3);
    assert Next(s2, Answer(q, YES)).procs == s.procs[q := Stopper(l3)];
  }

  // The answer to a send, stored: the job is running again.
  lemma SendAnswered(s: Sys, p: Pid, l: Local)
    requires p in s.procs && s.procs[p].Supervisor? && s.procs[p].pass == Some(l)
    requires l.ops == [Await(Send)] && l.job.id in s.ledger.jobs
    ensures var t := StepTimes(Next(s, Answer(p, YES)), p, 5);
      l.job.id in t.ledger.jobs && t.ledger.jobs[l.job.id].status.Running?
  {
    var s' := Next(s, Answer(p, YES));
    var l' := l.(ops := [Log(SmithSend, Bounded(YES))] + SettleOps(SentBeat(l.job.alias, YES), SentPatch(YES)));
    assert l.ops[1..] == [];
    assert Resume(l.job, Send, YES) + [] == l'.ops;
    assert s'.procs[p].pass == Some(l');
    SettleStores(s', p, l', SmithSend, Bounded(YES), SentBeat(l.job.alias, YES), SentPatch(YES), 5);
  }

  // ---- two lock files -------------------------------------------------------------------------

  // The steps of a dispatch, from taking up the job to waiting for Smith.
  lemma DispatchStores(s: Sys, p: Pid, job: Listed, l: Local, n: nat)
    requires n == 6 && p in s.procs && s.procs[p].Supervisor? && s.procs[p].pass == Some(l) && l.ops == []
    requires l.tasks == [Work(job)]
    requires job.status.Queued? && job.id in s.ledger.jobs
    ensures var t := StepTimes(s, p, n);
      && t.sends == Bump(s.sends, job.id) && t.asked == s.asked && t.revived == s.revived && t.locks == s.locks
      && t.ledger == Dispatch(s.ledger, job) && p in t.procs && t.procs == s.procs[p := t.procs[p]]
  {
    var waiting := DispatchLeads(s, p, job, l, n);
  }

  lemma DispatchLeads(s: Sys, p: Pid, job: Listed, l: Local, n: nat) returns (waiting: Local)
    requires n == 6 && p in s.procs && s.procs[p].Supervisor? && s.procs[p].pass == Some(l) && l.ops == []
    requires l.tasks == [Work(job)]
    requires job.status.Queued? && job.id in s.ledger.jobs
    ensures StepTimes(s, p, n) == At(s, p, Dispatch(s.ledger, job), waiting, Bump(s.sends, job.id))
  {
    var half := n - 3;
    var marked := MarkLeads(s, p, job, l, half);
    waiting := SendLeads(s, p, Update(s.ledger, job.id, DISPATCH_PATCH), marked, s.sends, half);
    IterateAdd((t: Sys) => Next(t, Step(p)), s, half, half);
  }

  // The job taken up and marked running.
  lemma MarkLeads(s: Sys, p: Pid, job: Listed, l: Local, n: nat) returns (marked: Local)
    requires n == 3 && p in s.procs && s.procs[p].Supervisor? && s.procs[p].pass == Some(l) && l.ops == []
    requires l.tasks == [Work(job)]
    requires job.status.Queued? && job.id in s.ledger.jobs
    ensures StepTimes(s, p, n) == At(s, p, Update(s.ledger, job.id, DISPATCH_PATCH), marked, s.sends)
    ensures marked.job == job && marked.ops == [ReadBeat, WriteBeat(DispatchBeat(job.alias)), Ask(Send)]
  {
    var db, taken := s.ledger, Local([], job, DispatchOps(job), None, None);
    TakesUpWork(s, p, job, l);
    var tail := [ReadBeat, WriteBeat(DispatchBeat(job.alias)), Ask(Send)];
    assert taken.ops == [ReadJob, WriteJob(DISPATCH_PATCH)] + tail;
    JobStores(s, p, db, taken, s.sends, DISPATCH_PATCH, tail);
    marked := JobWritten(db, taken, tail);
    PathLeads((t: Sys) => Next(t, Step(p)),
      [s, At(s, p, db, taken, s.sends), At(s, p, db, JobRead(db, taken, DISPATCH_PATCH, tail), s.sends),
       At(s, p, Update(db, job.id, DISPATCH_PATCH), marked, s.sends)], n);
  }

  // The heartbeat recorded and the job sent.
  lemma SendLeads(s: Sys, p: Pid, db: Ledger, l: Local, sends: map<JobId, nat>, n: nat) returns (waiting: Local)
    requires n == 3 && HasLocal(s, p) && l.ops == [ReadBeat, WriteBeat(DispatchBeat(l.job.alias)), Ask(Send)]
    ensures StepTimes(At(s, p, db, l, sends), p, n) ==
      At(s, p, RecordBeat(db, l.job.id, DispatchBeat(l.job.alias)), waiting, Bump(sends, l.job.id))
  {
    var b := DispatchBeat(l.job.alias);
    assert l.ops == [ReadBeat, WriteBeat(b)] + [Ask(Send)];
    BeatStores(s, p, db, l, sends, b, [Ask(Send)]);
    var beaten, written := RecordBeat(db, l.job.id, b), BeatWritten(db, l, [Ask(Send)]);
    SendStep(s, p, beaten, written, sends);
    waiting := written.(ops := [Await(Send)]);
    PathLeads((t: Sys) => Next(t, Step(p)),
      [At(s, p, db, l, sends), At(s, p, db, BeatRead(db, l, b, [Ask(Send)]), sends),
       At(s, p, beaten, written, sends), At(s, p, beaten, waiting, Bump(sends, l.job.id))], n);
  }

  lemma TakesUpWork(s: Sys, p: Pid, job: Listed, l: Local)
    requires p in s.procs && s.procs[p].Supervisor? && s.procs[p].pass == Some(l) && l.ops == []
    requires l.tasks == [Work(job)] && job.status.Queued?
    ensures Next(s, Step(p)) == At(s, p, s.ledger, Local([], job, DispatchOps(job), None, None), s.sends)
  {
    assert [Work(job)][1..] == [];
  }

  // A queued job, and no other active one.
  ghost predicate OneQueued(db: Ledger, id: JobId) {
    Alone(db, id) && IsQueued(db, id)
  }

  // A pass begun, and taken to its listing: the queued job is now on it.
  function Begin(s: Sys, p: Pid): Sys {
    StepTimes(Next(s, BeginPass(p)), p, 2)
  }

  function EnterPass(s: Sys, p: Pid): Sys {
    Begin(Next(s, TryLock(p)), p)
  }

  function ToDo(job: Listed): Local {
    Local([Work(job)], NO_JOB, [], None, None)
  }

  function InPass(s: Sys, p: Pid, f: string, tasks: seq<Task>): Sys {
    s.(procs := s.procs[p := Supervisor(f, true, Some(Local(tasks, NO_JOB, [], None, None)))])
  }

  lemma Begins(s: Sys, p: Pid, f: string, id: JobId)
    requires OneQueued(s.ledger, id) && p in s.procs && s.procs[p] == Supervisor(f, true, None)
    ensures var job := Listed(id, s.ledger.jobs[id].alias, Queued); Begin(s, p) == InPass(s, p, f, [Work(job)])
  {
    var job := Listed(id, s.ledger.jobs[id].alias, Queued);
    AloneListed(s.ledger, id);
    ListsToConsider(s, p, f, job);
    ConsidersQueued(s, p, f, job);
    TakesUpListing(s, p, f, job);
    PathLeads((t: Sys) => Next(t, Step(p)),
      [Next(s, BeginPass(p)), InPass(s, p, f, [TakeListing]), InPass(s, p, f, [Work(job)])], 2);
  }

  lemma ListsToConsider(s: Sys, p: Pid, f: string, job: Listed)
    requires p in s.procs && s.procs[p] == Supervisor(f, true, None) && ListActive(s.ledger, 50) == [job]
    ensures Next(s, BeginPass(p)) == InPass(s, p, f, [Consider(job), TakeListing])
  {
    assert Considers([job]) + [TakeListing] == [Consider(job), TakeListing];
  }

  lemma ConsidersQueued(s: Sys, p: Pid, f: string, job: Listed)
    requires p in s.procs && job.status.Queued?
    ensures Next(InPass(s, p, f, [Consider(job), TakeListing]), Step(p)) == InPass(s, p, f, [TakeListing])
  {
    var t := InPass(s, p, f, [Consider(job), TakeListing]);
    assert [Consider(job), TakeListing][1..] == [TakeListing];
    assert Next(t, Step(p)).procs == InPass(s, p, f, [TakeListing]).procs;
  }

  lemma TakesUpListing(s: Sys, p: Pid, f: string, job: Listed)
    requires p in s.procs && ListActive(s.ledger, PASS_LIMIT) == [job]
    ensures Next(InPass(s, p, f, [TakeListing]), Step(p)) == InPass(s, p, f, [Work(job)])
  {
    var t := InPass(s, p, f, [TakeListing]);
    assert Works([job]) + [TakeListing][1..] == [Work(job)];
    assert Next(t, Step(p)).procs == InPass(s, p, f, [Work(job)]).procs;
  }

  lemma Enters(s: Sys, p: Pid, f: string, id: JobId)
    requires OneQueued(s.ledger, id) && p in s.procs && s.procs[p] == Supervisor(f, false, None) && f !in s.locks
    ensures var job := Listed(id, s.ledger.jobs[id].alias, Queued);
      EnterPass(s, p) == InPass(s.(locks := s.locks[f := p]), p, f, [Work(job)])
  {
    var s1, job := Next(s, TryLock(p)), Listed(id, s.ledger.jobs[id].alias, Queued);
    Begins(s1, p, f, id);
    assert InPass(s1, p, f, [Work(job)]).procs == InPass(s, p, f, [Work(job)]).procs;
  }

  // Two supervisors with different lock files both see the job queued before either marks
  // it running, and both send it: two sends in one queued episode.
  function TwoDispatches(s: Sys, p: Pid, q: Pid): Sys {
    StepTimes(StepTimes(EnterPass(EnterPass(s, p), q), p, 6), q, 6)
  }

  lemma TwoLockFilesSendTwice(s: Sys, p: Pid, q: Pid, f: string, g: string, id: JobId)
    requires OneQueued(s.ledger, id) && p != q && f != g && f !in s.locks && g !in s.locks
    requires p in s.procs && s.procs[p] == Supervisor(f, false, None)
    requires q in s.procs && s.procs[q] == Supervisor(g, false, None)
    ensures Count(TwoDispatches(s, p, q).sends, id) == Count(s.sends, id) + 2
    ensures Episodes(TwoDispatches(s, p, q), id) == Episodes(s, id)
  {
    var job := Listed(id, s.ledger.jobs[id].alias, Queued);
    Enters(s, p, f, id);
    var s1 := EnterPass(s, p);
    Enters(s1, q, g, id);
    var s2 := EnterPass(s1, q);
    DispatchStores(s2, p, job, ToDo(job), 6);
    var s3 := StepTimes(s2, p, 6);
    assert s3.procs[q].pass == Some(ToDo(job));
    DispatchStores(s3, q, job, ToDo(job), 6);
  }

  // ---- a record written back ---------------------------------------------------------------------

  // An outside writer that leaves the status alone reads the row while the job is queued and
  // writes it back when the job has been sent: the job is queued again, and sent again.
  function WriteBackSends(s: Sys, p: Pid, w: Pid, id: JobId, patch: Patch): Sys {
    var sent := StepTimes(EnterPass(RowRead(s, w, id, patch), p), p, 6);
    StepTimes(Begin(Next(Next(sent, Raise(p)), Step(w)), p), p, 6)
  }

  function RowRead(s: Sys, w: Pid, id: JobId, patch: Patch): Sys {
    Next(Next(s, StartWriter(w, id, patch, None)), Step(w))
  }

  lemma ReadsRow(s: Sys, w: Pid, id: JobId, patch: Patch)
    requires w !in s.procs && id in s.ledger.jobs
    ensures var job := Listed(id, s.ledger.jobs[id].alias, s.ledger.jobs[id].status);
      RowRead(s, w, id, patch) ==
        s.(procs := s.procs[w := Writer(Local([], job, [WriteJob(patch)], Some(s.ledger.jobs[id]), None))])
  {
    var t := RowRead(s, w, id, patch);
    assert WriterOps(patch, None)[1..] == [WriteJob(patch)];
    assert t.procs == s.procs[w := t.procs[w]];
  }

  lemma WritesBack(s: Sys, w: Pid, l: Local, patch: Patch)
    requires w in s.procs && s.procs[w] == Writer(l) && l.ops != [] && l.ops[0] == WriteJob(patch) && patch.status.None?
    requires l.job.id in s.ledger.jobs && !IsQueued(s.ledger, l.job.id)
    requires l.jobRow.Some? && l.jobRow.value.status.Queued?
    ensures var s' := Next(s, Step(w));
      && IsQueued(s'.ledger, l.job.id) && (Alone(s.ledger, l.job.id) ==> Alone(s'.ledger, l.job.id))
      && s' == s.(ledger := s'.ledger, procs := s.procs[w := s'.procs[w]], revived := Bump(s.revived, l.job.id))
  {
  }

  lemma FirstSend(s: Sys, p: Pid, f: string, id: JobId, n: nat)
    requires n == 6 && OneQueued(s.ledger, id) && f !in s.locks
    requires p in s.procs && s.procs[p] == Supervisor(f, false, None)
    ensures var t := StepTimes(EnterPass(s, p), p, n);
      && t.sends == Bump(s.sends, id) && t.asked == s.asked && t.revived == s.revived
      && Alone(t.ledger, id) && id in t.ledger.jobs && t.ledger.jobs[id].status.Running?
      && p in t.procs && t.procs == s.procs[p := t.procs[p]]
      && t.procs[p].Supervisor? && t.procs[p].lockFile == f && t.procs[p].holding
  {
    var job := Listed(id, s.ledger.jobs[id].alias, Queued);
    Enters(s, p, f, id);
    var s2 := EnterPass(s, p);
    DispatchStores(s2, p, job, ToDo(job), n);
    assert StepTimes(s2, p, n).procs == s.procs[p := StepTimes(s2, p, n).procs[p]];
    KindKept(s2, p, n);
  }

  // A supervisor stays one, with its lock, whatever it stores.
  lemma {:induction false} KindKept(s: Sys, p: Pid, n: nat)
    requires p in s.procs && s.procs[p].Supervisor?
    ensures var t := StepTimes(s, p, n);
      && p in t.procs && t.procs[p].Supervisor?
      && t.procs[p].lockFile == s.procs[p].lockFile && t.procs[p].holding == s.procs[p].holding
    decreases n
  {
    if n > 0 { KindKept(Next(s, Step(p)), p, n - 1); }
  }

  lemma WriteBackSendsTwice(s: Sys, p: Pid, w: Pid, f: string, id: JobId, patch: Patch)
    requires OneQueued(s.ledger, id) && patch.status.None? && f !in s.locks
    requires p in s.procs && s.procs[p] == Supervisor(f, false, None) && w !in s.procs
    ensures var t := WriteBackSends(s, p, w, id, patch);
      && Count(t.sends, id) == Count(s.sends, id) + 2
      && Count(t.asked, id) == Count(s.asked, id) && Count(t.revived, id) == Count(s.revived, id) + 1
  {
    ReadsRow(s, w, id, patch);
    var s1 := RowRead(s, w, id, patch);
    FirstSend(s1, p, f, id, 6);
    RestOfWriteBack(StepTimes(EnterPass(s1, p), p, 6), p, w, f, id, patch, LocalOf(s1.procs[w]).value, 6);
  }

  lemma RestOfWriteBack(s: Sys, p: Pid, w: Pid, f: string, id: JobId, patch: Patch, l: Local, n: nat)
    requires n == 6 && patch.status.None? && Alone(s.ledger, id) && id in s.ledger.jobs
    requires s.ledger.jobs[id].status.Running?
    requires p in s.procs && s.procs[p].Supervisor? && s.procs[p].lockFile == f && s.procs[p].holding
    requires w != p && w in s.procs && s.procs[w] == Writer(l) && l.job.id == id
    requires l.ops != [] && l.ops[0] == WriteJob(patch)
    requires l.jobRow.Some? && l.jobRow.value.status.Queued?
    ensures var t := StepTimes(Begin(Next(Next(s, Raise(p)), Step(w)), p), p, n);
      t.sends == Bump(s.sends, id) && t.asked == s.asked && t.revived == Bump(s.revived, id)
  {
    var s4 := Next(s, Raise(p));
    WritesBack(s4, w, l, patch);
    SecondSend(Next(s4, Step(w)), p, f, id, n);
  }

  lemma SecondSend(s: Sys, p: Pid, f: string, id: JobId, n: nat)
    requires n == 6 && OneQueued(s.ledger, id) && p in s.procs && s.procs[p] == Supervisor(f, true, None)
    ensures var t := StepTimes(Begin(s, p), p, n);
      t.sends == Bump(s.sends, id) && t.asked == s.asked && t.revived == s.revived
  {
    var job := Listed(id, s.ledger.jobs[id].alias, Queued);
    Begins(s, p, f, id);
    DispatchStores(Begin(s, p), p, job, ToDo(job), n);
  }
}
