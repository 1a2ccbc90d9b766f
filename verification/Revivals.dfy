/** When submissions and requests alone bound the sends of a job: exactly when no outside writer
  * in progress can bring it back to queued by writing back a row it has read. */
module Revivals {
  import opened Wrappers
  import opened JobLedger
  import opened Supervisor
  import opened SupervisorProtocol
  import opened SendAccounting
  import opened Races
  import Stops

  predicate WritesRow(op: Op) {
    op.WriteJob? && op.patch.status.None?
  }

  // It holds the row as queued and is about to write it back, or is still to read and write it.
  ghost predicate MayRevive(l: Local, id: JobId) {
    WritesBackQueued(l, id) || (l.job.id == id && exists i :: 0 < i < |l.ops| && WritesRow(l.ops[i]))
  }

  // No stop, status query or outside writer in progress can bring the job back.
  ghost predicate NoneRevives(s: Sys, id: JobId) {
    forall p :: p in s.procs && !s.procs[p].Supervisor? ==> !MayRevive(LocalOf(s.procs[p]).value, id)
  }

  // The supervisors share the lock file, and no outside writer begins that leaves the job's
  // status alone.
  predicate Permitted(a: Action, lockFile: string, id: JobId) {
    && (a.StartSupervisor? ==> a.lockFile == lockFile)
    && !(a.StartWriter? && a.target == id && a.patch.status.None?)
  }

  ghost predicate Allowed(actions: seq<Action>, lockFile: string, id: JobId) {
    forall a :: a in actions ==> Permitted(a, lockFile, id)
  }

  // ---- without such a writer nothing comes back --------------------------------------------------

  // A step brings the job back to queued without saying so exactly when an outside writer
  // writes a row read as queued, leaving the status alone, over one that is no longer queued.
  lemma RevivesExactly(s: Sys, pid: Pid, l: Local)
    requires pid in s.procs && LocalOf(s.procs[pid]) == Some(l) && l.job.id in s.ledger.jobs
    ensures Count(StepProc(s, pid).revived, l.job.id) > Count(s.revived, l.job.id) <==>
      !s.procs[pid].Supervisor? && WritesBackQueued(l, l.job.id) && !IsQueued(s.ledger, l.job.id)
  {
  }

  ghost predicate NoRevival(s: Sys, s': Sys, id: JobId) {
    Count(s'.revived, id) == Count(s.revived, id) && NoneRevives(s', id)
  }

  lemma MoverRevives(s: Sys, s': Sys, p: Pid, id: JobId)
    requires NoneRevives(s, id) && p in s.procs && p in s'.procs && s'.procs == s.procs[p := s'.procs[p]]
    requires s.procs[p].Supervisor? <==> s'.procs[p].Supervisor?
    requires !s'.procs[p].Supervisor? ==> !MayRevive(LocalOf(s'.procs[p]).value, id)
    requires Count(s'.revived, id) == Count(s.revived, id)
    ensures NoRevival(s, s', id)
  {
  }

  // A quiet process that cannot bring the job back does not come to be able to.
  lemma QuietStepRevives(db: Ledger, l: Local, id: JobId)
    requires Quiet(l) && !MayRevive(l, id)
    ensures !MayRevive(LocalStep(db, l).1, id)
  {
    var l' := LocalStep(db, l).1;
    if l.ops != [] {
      assert l.ops[0] in l.ops;
      forall i | 0 <= i < |l'.ops| && l.job.id == id ensures !WritesRow(l'.ops[i]) {
        if i + 1 < |l.ops| { assert !WritesRow(l.ops[i + 1]); }
        if i > 0 && l.ops[0].Ask? { assert !WritesRow(l.ops[i]); }
      }
    } else if l.tasks != [] {
      assert l.tasks[0] in l.tasks;
    }
  }

  lemma QuietAnswerRevives(l: Local, r: Reply, id: JobId)
    requires Quiet(l) && l.ops != [] && l.ops[0].Await? && !MayRevive(l, id)
    ensures !MayRevive(l.(ops := Resume(l.job, l.ops[0].call, r) + l.ops[1..]), id)
  {
    assert l.ops[0] in l.ops;
    var stop := [Log(SmithStop, Bounded(r))] + SettleOps(StopBeat(l.job.alias, r), STOP_PATCH);
    assert Resume(l.job, l.ops[0].call, r) == stop && |stop| == 5;
    var ops := stop + l.ops[1..];
    forall i | 0 <= i < |ops| && l.job.id == id ensures !WritesRow(ops[i]) {
      if i >= 5 { assert ops[i] == l.ops[i - 4] && !WritesRow(l.ops[i - 4]); }
    }
  }

  lemma StepRevives(s: Sys, p: Pid, lockFile: string, id: JobId)
    requires WellFormed(s, lockFile) && NoneRevives(s, id)
    ensures NoRevival(s, StepProc(s, p), id)
  {
    if p !in s.procs || LocalOf(s.procs[p]).None? { return; }
    var l := LocalOf(s.procs[p]).value;
    assert ProcOk(s, p, lockFile);
    if !s.procs[p].Supervisor? { QuietStepRevives(s.ledger, l, id); }
    if l.job.id in s.ledger.jobs { RevivesExactly(s, p, l); }
    MoverRevives(s, StepProc(s, p), p, id);
  }

  lemma AnswerRevives(s: Sys, p: Pid, r: Reply, lockFile: string, id: JobId)
    requires WellFormed(s, lockFile) && NoneRevives(s, id)
    ensures NoRevival(s, AnswerProc(s, p, r), id)
  {
    if AnswerProc(s, p, r) == s { return; }
    assert ProcOk(s, p, lockFile);
    if !s.procs[p].Supervisor? { QuietAnswerRevives(LocalOf(s.procs[p]).value, r, id); }
    MoverRevives(s, AnswerProc(s, p, r), p, id);
  }

  lemma OtherRevives(s: Sys, a: Action, p: Pid, lockFile: string, id: JobId)
    requires NoneRevives(s, id) && !a.Step? && !a.Answer? && Permitted(a, lockFile, id)
    requires p in Next(s, a).procs && !Next(s, a).procs[p].Supervisor?
    ensures !MayRevive(LocalOf(Next(s, a).procs[p]).value, id)
  {
  }

  lemma NextRevives(s: Sys, a: Action, lockFile: string, id: JobId)
    requires WellFormed(s, lockFile) && NoneRevives(s, id) && Permitted(a, lockFile, id)
    ensures NoRevival(s, Next(s, a), id)
  {
    if a.Step? {
      StepRevives(s, a.pid, lockFile, id);
    } else if a.Answer? {
      AnswerRevives(s, a.pid, a.reply, lockFile, id);
    } else {
      forall p | p in Next(s, a).procs && !Next(s, a).procs[p].Supervisor?
        ensures !MayRevive(LocalOf(Next(s, a).procs[p]).value, id)
      {
        OtherRevives(s, a, p, lockFile, id);
      }
    }
  }

  lemma {:induction false} RunRevives(s: Sys, actions: seq<Action>, lockFile: string, id: JobId)
    requires WellFormed(s, lockFile) && Allowed(actions, lockFile, id) && NoneRevives(s, id)
    ensures NoRevival(s, Execute(s, actions), id)
  {
    if actions == [] { return; }
    var init, last := actions[..|actions| - 1], actions[|actions| - 1];
    assert last in actions && forall a :: a in init ==> a in actions;
    RunRevives(s, init, lockFile, id);
    RunKept(s, init, lockFile, id);
    NextRevives(Execute(s, init), last, lockFile, id);
  }

  // Counting only the submissions and the writes that say queued, the bound holds over every
  // interval unless an outside writer that leaves the job's status alone begins in it, or is
  // in progress at its beginning and can still bring the job back.
  lemma SendsWithinRequests(s: Sys, during: seq<Action>, lockFile: string, id: JobId)
    requires WellFormed(s, lockFile) && Allowed(during, lockFile, id) && NoneRevives(s, id)
    ensures var u := Execute(s, during);
      Count(u.sends, id) - Count(s.sends, id) <= SendsLeft(s, lockFile, id) + Count(u.asked, id) - Count(s.asked, id)
  {
    RunKept(s, during, lockFile, id);
    RunRevives(s, during, lockFile, id);
  }

  // ---- the shapes of the other processes ------------------------------------------------------------

  predicate WriterLeft(ops: seq<Op>) {
    || ops == []
    || (|ops| == 1 && (ops[0].WriteJob? || ops[0].PutBeat?))
    || (|ops| == 2 && ops[0].ReadJob? && ops[1].WriteJob?)
    || (|ops| == 2 && ops[0].WriteJob? && ops[1].PutBeat?)
    || (|ops| == 3 && ops[0].ReadJob? && ops[1].WriteJob? && ops[2].PutBeat?)
  }

  ghost predicate SaysStatus(ops: seq<Op>) {
    forall op :: op in ops ==> !WritesRow(op)
  }

  ghost predicate Shaped(db: Ledger, p: Proc) {
    match p
    case Supervisor(_, _, _) => true
    case Stopper(l) => SaysStatus(l.ops)
    case StatusQuery(l) => SaysStatus(l.ops)
    case Writer(l) => l.tasks == [] && WriterLeft(l.ops) && l.job.id in db.jobs
  }

  ghost predicate AllShaped(s: Sys) {
    && (forall x :: x in s.ledger.jobs ==> x in s.ledger.order)
    && forall p :: p in s.procs ==> Shaped(s.ledger, s.procs[p])
  }

  lemma LocalShaped(db: Ledger, p: Proc)
    requires !p.Supervisor? && Quiet(LocalOf(p).value) && Shaped(db, p)
    ensures Shaped(db, WithLocal(p, LocalStep(db, LocalOf(p).value).1))
  {
    var l := LocalOf(p).value;
    if l.ops != [] {
      HeadOrRest(l.ops);
    } else if l.tasks != [] {
      assert l.tasks[0] in l.tasks;
    }
  }

  lemma StepShaped(s: Sys, p: Pid, lockFile: string)
    requires WellFormed(s, lockFile) && AllShaped(s)
    ensures AllShaped(StepProc(s, p))
  {
    if p !in s.procs || LocalOf(s.procs[p]).None? { return; }
    var l := LocalOf(s.procs[p]).value;
    assert ProcOk(s, p, lockFile);
    if l.ops != [] { OpStepFrame(s.ledger, l); }
    if !s.procs[p].Supervisor? { LocalShaped(s.ledger, s.procs[p]); }
  }

  lemma AnswerShaped(s: Sys, p: Pid, r: Reply, lockFile: string)
    requires WellFormed(s, lockFile) && AllShaped(s)
    ensures AllShaped(AnswerProc(s, p, r))
  {
    if AnswerProc(s, p, r) == s { return; }
    assert ProcOk(s, p, lockFile);
    var l := LocalOf(s.procs[p]).value;
    HeadOrRest(l.ops);
    if !s.procs[p].Supervisor? {
      var stop := [Log(SmithStop, Bounded(r))] + SettleOps(StopBeat(l.job.alias, r), STOP_PATCH);
      assert SaysStatus(stop) && Resume(l.job, l.ops[0].call, r) == stop;
    }
  }

  lemma NextShaped(s: Sys, a: Action, lockFile: string)
    requires WellFormed(s, lockFile) && AllShaped(s)
    ensures AllShaped(Next(s, a))
  {
    if a.Step? {
      StepShaped(s, a.pid, lockFile);
    } else if a.Answer? {
      AnswerShaped(s, a.pid, a.reply, lockFile);
    } else {
      RestShaped(s, a);
    }
  }

  lemma RestShaped(s: Sys, a: Action)
    requires AllShaped(s) && !a.Step? && !a.Answer?
    ensures AllShaped(Next(s, a))
  {
    forall p | p in Next(s, a).procs ensures Shaped(Next(s, a).ledger, Next(s, a).procs[p]) { OneShaped(s, a, p); }
  }

  lemma OneShaped(s: Sys, a: Action, p: Pid)
    requires AllShaped(s) && !a.Step? && !a.Answer? && p in Next(s, a).procs
    ensures Shaped(Next(s, a).ledger, Next(s, a).procs[p])
  {
    if p in s.procs && Next(s, a).procs[p] == s.procs[p] {
      StillShaped(s.ledger, Next(s, a).ledger, s.procs[p]);
    } else {
      ChangedShaped(s, a, p);
    }
  }

  lemma StillShaped(db: Ledger, db': Ledger, p: Proc)
    requires Shaped(db, p) && db.jobs.Keys <= db'.jobs.Keys
    ensures Shaped(db', p)
  {
  }

  lemma ChangedShaped(s: Sys, a: Action, p: Pid)
    requires !a.Step? && !a.Answer? && p in Next(s, a).procs
    requires !(p in s.procs && Next(s, a).procs[p] == s.procs[p])
    ensures Shaped(Next(s, a).ledger, Next(s, a).procs[p])
  {
  }

  lemma {:induction false} RunShaped(s: Sys, actions: seq<Action>, lockFile: string)
    requires WellFormed(s, lockFile) && AllShaped(s) && OneLockFile(actions, lockFile)
    ensures AllShaped(Execute(s, actions))
  {
    if actions == [] { return; }
    var init, last := actions[..|actions| - 1], actions[|actions| - 1];
    RunShaped(s, init, lockFile);
    RunKept(s, init, lockFile, "");
    NextShaped(Execute(s, init), last, lockFile);
  }

  // ---- bringing a state about ---------------------------------------------------------------------

  ghost predicate Brings(t: Sys, u: Sys, lockFile: string, id: JobId) {
    exists actions :: Allowed(actions, lockFile, id) && Execute(t, actions) == u
  }

  lemma BringsHere(t: Sys, lockFile: string, id: JobId)
    ensures Brings(t, t, lockFile, id)
  {
    assert Execute(t, []) == t;
  }

  lemma BringsNext(t: Sys, u: Sys, a: Action, lockFile: string, id: JobId)
    requires Brings(t, u, lockFile, id) && Permitted(a, lockFile, id)
    ensures Brings(t, Next(u, a), lockFile, id)
  {
    var actions :| Allowed(actions, lockFile, id) && Execute(t, actions) == u;
    ExecuteSnoc(t, actions, a);
    AllowedSnoc(actions, a, lockFile, id);
  }

  lemma ExecuteSnoc(t: Sys, actions: seq<Action>, a: Action)
    ensures Execute(t, actions + [a]) == Next(Execute(t, actions), a)
  {
    assert (actions + [a])[..|actions|] == actions;
  }

  lemma AllowedSnoc(actions: seq<Action>, a: Action, lockFile: string, id: JobId)
    requires Allowed(actions, lockFile, id) && Permitted(a, lockFile, id)
    ensures Allowed(actions + [a], lockFile, id)
  {
  }

  lemma {:induction false} BringsSteps(t: Sys, u: Sys, p: Pid, n: nat, lockFile: string, id: JobId)
    requires Brings(t, u, lockFile, id)
    ensures Brings(t, StepTimes(u, p, n), lockFile, id)
    decreases n
  {
    if n > 0 {
      BringsNext(t, u, Step(p), lockFile, id);
      BringsSteps(t, Next(u, Step(p)), p, n - 1, lockFile, id);
    }
  }

  lemma BringsBegin(t: Sys, u: Sys, p: Pid, lockFile: string, id: JobId)
    requires Brings(t, u, lockFile, id)
    ensures Brings(t, Begin(u, p), lockFile, id)
  {
    BringsNext(t, u, BeginPass(p), lockFile, id);
    BringsSteps(t, Next(u, BeginPass(p)), p, 2, lockFile, id);
  }

  lemma WriterWrites(u: Sys, q: Pid, x: JobId, patch: Patch)
    requires q !in u.procs && x in u.ledger.jobs && patch.status.Some?
    ensures var db, v := Update(u.ledger, x, patch), Next(RowRead(u, q, x, patch), Step(q));
      && v.procs == u.procs[q := v.procs[q]]
      && v == u.(ledger := db, procs := v.procs,
                 asked := if Requeues(u.ledger, db, x) then Bump(u.asked, x) else u.asked)
  {
    ReadsRow(u, q, x, patch);
    var read := RowRead(u, q, x, patch);
    WritesOne(read, q, read.procs[q].write, patch);
  }

  lemma WritesOne(s: Sys, q: Pid, l: Local, patch: Patch)
    requires q in s.procs && s.procs[q] == Writer(l) && l.ops == [WriteJob(patch)] && patch.status.Some?
    requires l.job.id in s.ledger.jobs && l.jobRow == Some(s.ledger.jobs[l.job.id])
    ensures var db, v := Update(s.ledger, l.job.id, patch), Next(s, Step(q));
      && v.procs == s.procs[q := v.procs[q]]
      && v == s.(ledger := db, procs := v.procs,
                 asked := if Requeues(s.ledger, db, l.job.id) then Bump(s.asked, l.job.id) else s.asked)
  {
  }

  lemma WriterGoes(v: Sys, procs: map<Pid, Proc>, q: Pid)
    requires q in v.procs && q !in procs && v.procs == procs[q := v.procs[q]]
    requires forall f :: f in v.locks ==> v.locks[f] != q
    ensures Next(v, Die(q)) == v.(procs := procs)
  {
    assert Next(v, Die(q)).procs == procs && Next(v, Die(q)).locks == v.locks;
  }

  // An outside writer that sets a status comes, writes and is gone.
  lemma SetsStatus(t: Sys, u: Sys, q: Pid, x: JobId, status: Status, lockFile: string, id: JobId) returns (v: Sys)
    requires Brings(t, u, lockFile, id) && q !in u.procs && HoldersAlive(u) && x in u.ledger.jobs
    ensures Brings(t, v, lockFile, id)
    ensures var db := Update(u.ledger, x, Patch(Some(status), None, None));
      v == u.(ledger := db, asked := if Requeues(u.ledger, db, x) then Bump(u.asked, x) else u.asked)
  {
    var patch := Patch(Some(status), None, None);
    var start := StartWriter(q, x, patch, None);
    BringsNext(t, u, start, lockFile, id);
    BringsNext(t, Next(u, start), Step(q), lockFile, id);
    var written := Next(RowRead(u, q, x, patch), Step(q));
    BringsNext(t, RowRead(u, q, x, patch), Step(q), lockFile, id);
    BringsNext(t, written, Die(q), lockFile, id);
    WriterWrites(u, q, x, patch);
    WriterGoes(written, u.procs, q);
    v := Next(written, Die(q));
  }

  // Every other job is taken off the listing by writers from outside.
  lemma {:induction false} Clears(t: Sys, u: Sys, ids: seq<JobId>, q: Pid, lockFile: string, id: JobId)
    returns (v: Sys)
    requires Brings(t, u, lockFile, id) && q !in u.procs && HoldersAlive(u)
    requires forall x :: x in ids ==> x in u.ledger.jobs
    ensures Brings(t, v, lockFile, id) && v == u.(ledger := v.ledger)
    ensures v.ledger.order == u.ledger.order && v.ledger.jobs.Keys == u.ledger.jobs.Keys
    ensures id in u.ledger.jobs ==> v.ledger.jobs[id] == u.ledger.jobs[id]
    ensures forall x :: x in ids && x != id ==> v.ledger.jobs[x].status.Done?
  {
    if ids == [] { return u; }
    var init, last := ids[..|ids| - 1], ids[|ids| - 1];
    assert ids == init + [last];
    v := Clears(t, u, init, q, lockFile, id);
    if last != id { v := SetsStatus(t, v, q, last, Done, lockFile, id); }
  }

  // ---- the exact condition ------------------------------------------------------------------------

  // From a state without the lock, where the job is the only active one or not active: a
  // writer with a queued row in hand brings one send more than was asked for.
  lemma HeldRowSends(t: Sys, u: Sys, q: Pid, w: Pid, lockFile: string, id: JobId) returns (v: Sys)
    requires Brings(t, u, lockFile, id) && q !in u.procs && lockFile !in u.locks
    requires Alone(u.ledger, id) && id in u.ledger.jobs && !IsQueued(u.ledger, id)
    requires w in u.procs && u.procs[w].Writer? && WritesBackQueued(u.procs[w].write, id)
    ensures Brings(t, v, lockFile, id) && v.sends == Bump(u.sends, id) && v.asked == u.asked
  {
    var l := u.procs[w].write;
    BringsNext(t, u, Step(w), lockFile, id);
    WritesBack(u, w, l, l.ops[0].patch);
    var back := Next(u, Step(w));
    v := StartsAndSends(t, back, q, lockFile, id);
  }

  // A new supervisor takes the lock and sends the job.
  lemma StartsAndSends(t: Sys, u: Sys, q: Pid, lockFile: string, id: JobId) returns (v: Sys)
    requires Brings(t, u, lockFile, id) && q !in u.procs && lockFile !in u.locks && OneQueued(u.ledger, id)
    ensures Brings(t, v, lockFile, id) && v.sends == Bump(u.sends, id) && v.asked == u.asked && v.revived == u.revived
    ensures Alone(v.ledger, id) && id in v.ledger.jobs && v.ledger.jobs[id].status.Running?
    ensures q in v.procs && v.procs == u.procs[q := v.procs[q]]
    ensures v.procs[q].Supervisor? && v.procs[q].lockFile == lockFile && v.procs[q].holding
  {
    var n, start := 6, StartSupervisor(q, lockFile);
    BringsNext(t, u, start, lockFile, id);
    BringsPass(t, Next(u, start), q, n, lockFile, id);
    v := StepTimes(EnterPass(Next(u, start), q), q, n);
    NewSupervisorSends(u, q, lockFile, id, n);
  }

  lemma BringsPass(t: Sys, u: Sys, q: Pid, n: nat, lockFile: string, id: JobId)
    requires Brings(t, u, lockFile, id)
    ensures Brings(t, StepTimes(EnterPass(u, q), q, n), lockFile, id)
  {
    BringsNext(t, u, TryLock(q), lockFile, id);
    BringsBegin(t, Next(u, TryLock(q)), q, lockFile, id);
    BringsSteps(t, EnterPass(u, q), q, n, lockFile, id);
  }

  lemma NewSupervisorSends(u: Sys, q: Pid, lockFile: string, id: JobId, n: nat)
    requires n == 6 && q !in u.procs && lockFile !in u.locks && OneQueued(u.ledger, id)
    ensures var v := StepTimes(EnterPass(Next(u, StartSupervisor(q, lockFile)), q), q, n);
      && v.sends == Bump(u.sends, id) && v.asked == u.asked && v.revived == u.revived
      && Alone(v.ledger, id) && id in v.ledger.jobs && v.ledger.jobs[id].status.Running?
      && q in v.procs && v.procs == u.procs[q := v.procs[q]]
      && v.procs[q].Supervisor? && v.procs[q].lockFile == lockFile && v.procs[q].holding
  {
    var started := Next(u, StartSupervisor(q, lockFile));
    FirstSend(started, q, lockFile, id, n);
    var v := StepTimes(EnterPass(started, q), q, n);
    assert started.procs[q := v.procs[q]] == u.procs[q := v.procs[q]];
  }

  // A writer that is still to read the row: a request, and two sends.
  lemma UnreadRowSends(t: Sys, u: Sys, q: Pid, w: Pid, lockFile: string, id: JobId) returns (v: Sys)
    requires Brings(t, u, lockFile, id) && q !in u.procs && lockFile !in u.locks && HoldersAlive(u)
    requires Alone(u.ledger, id) && id in u.ledger.jobs && !IsQueued(u.ledger, id)
    requires w in u.procs && u.procs[w].Writer? && u.procs[w].write.job.id == id
    requires var ops := u.procs[w].write.ops; |ops| > 1 && ops[0].ReadJob? && WritesRow(ops[1])
    ensures Brings(t, v, lockFile, id)
    ensures v.sends == Bump(Bump(u.sends, id), id) && v.asked == Bump(u.asked, id)
  {
    var asked := SetsStatus(t, u, q, id, Queued, lockFile, id);
    BringsNext(t, asked, Step(w), lockFile, id);
    ReadsRowOf(asked, w, u.procs[w].write);
    v := SendsTwice(t, Next(asked, Step(w)), q, w, lockFile, id);
  }

  lemma ReadsRowOf(u: Sys, w: Pid, l: Local)
    requires w in u.procs && u.procs[w] == Writer(l) && l.ops != [] && l.ops[0].ReadJob? && l.job.id in u.ledger.jobs
    ensures var read := l.(ops := l.ops[1..], jobRow := Some(u.ledger.jobs[l.job.id]));
      Next(u, Step(w)) == u.(procs := u.procs[w := Writer(read)])
  {
  }

  // A queued job whose row a writer holds as queued is sent, brought back, and sent again.
  lemma SendsTwice(t: Sys, u: Sys, q: Pid, w: Pid, lockFile: string, id: JobId) returns (v: Sys)
    requires Brings(t, u, lockFile, id) && q !in u.procs && lockFile !in u.locks && OneQueued(u.ledger, id)
    requires w in u.procs && u.procs[w].Writer? && WritesBackQueued(u.procs[w].write, id)
    ensures Brings(t, v, lockFile, id)
    ensures v.sends == Bump(Bump(u.sends, id), id) && v.asked == u.asked
  {
    var n, l := 6, u.procs[w].write;
    var sent := StartsAndSends(t, u, q, lockFile, id);
    var back := Next(Next(sent, Raise(q)), Step(w));
    BringsNext(t, sent, Raise(q), lockFile, id);
    BringsNext(t, Next(sent, Raise(q)), Step(w), lockFile, id);
    BringsBegin(t, back, q, lockFile, id);
    BringsSteps(t, Begin(back, q), q, n, lockFile, id);
    RestOfWriteBack(sent, q, w, lockFile, id, l.ops[0].patch, l, n);
    v := StepTimes(Begin(back, q), q, n);
  }

  // The holder of the lock dies, if there is one.
  lemma Unlocks(t: Sys, u: Sys, lockFile: string, id: JobId) returns (v: Sys)
    requires Brings(t, u, lockFile, id) && WellFormed(u, lockFile)
    ensures Brings(t, v, lockFile, id) && lockFile !in v.locks && HoldersAlive(v)
    ensures v == u.(procs := v.procs, locks := v.locks) && v.procs.Keys <= u.procs.Keys
    ensures forall w :: w in u.procs && u.procs[w].Writer? ==> w in v.procs && v.procs[w] == u.procs[w]
  {
    if lockFile !in u.locks { return u; }
    var holder := u.locks[lockFile];
    BringsNext(t, u, Die(holder), lockFile, id);
    NextKept(u, Die(holder), lockFile, id);
    v := Next(u, Die(holder));
  }

  // The holder of the lock dies, and every other job is taken off the listing.
  lemma Prepares(t: Sys, u: Sys, q: Pid, lockFile: string, id: JobId) returns (v: Sys)
    requires Brings(t, u, lockFile, id) && WellFormed(u, lockFile) && AllShaped(u)
    requires q !in u.procs && id in u.ledger.jobs
    ensures Brings(t, v, lockFile, id) && q !in v.procs && lockFile !in v.locks && HoldersAlive(v)
    ensures Alone(v.ledger, id) && id in v.ledger.jobs && v.ledger.jobs[id] == u.ledger.jobs[id]
    ensures v.sends == u.sends && v.asked == u.asked && v.revived == u.revived
    ensures forall w :: w in u.procs && u.procs[w].Writer? ==> w in v.procs && v.procs[w] == u.procs[w]
  {
    v := Unlocks(t, u, lockFile, id);
    v := Clears(t, v, v.ledger.order, q, lockFile, id);
  }

  lemma OnlyWritersRevive(t: Sys, w: Pid, id: JobId)
    requires AllShaped(t) && w in t.procs && !t.procs[w].Supervisor? && MayRevive(LocalOf(t.procs[w]).value, id)
    ensures t.procs[w].Writer? && id in t.ledger.jobs && t.procs[w].write.job.id == id
    ensures var l := t.procs[w].write;
      WritesBackQueued(l, id) || (|l.ops| > 1 && l.ops[0].ReadJob? && WritesRow(l.ops[1]))
  {
    var l := LocalOf(t.procs[w]).value;
    assert Shaped(t.ledger, t.procs[w]);
    if !WritesBackQueued(l, id) {
      var i :| 0 < i < |l.ops| && WritesRow(l.ops[i]);
      assert l.ops[i] in l.ops;
    } else {
      assert l.ops[0] in l.ops;
    }
  }

  // With nothing left to send, such a writer brings about more sends than were asked for.
  lemma RevivalExceeds(t: Sys, u: Sys, w: Pid, lockFile: string, id: JobId) returns (v: Sys)
    requires Brings(t, u, lockFile, id) && WellFormed(u, lockFile) && AllShaped(u)
    requires SendsLeft(u, lockFile, id) == 0
    requires w in u.procs && !u.procs[w].Supervisor? && MayRevive(LocalOf(u.procs[w]).value, id)
    ensures Brings(t, v, lockFile, id)
    ensures Count(v.sends, id) - Count(u.sends, id) > Count(v.asked, id) - Count(u.asked, id)
  {
    OnlyWritersRevive(u, w, id);
    NothingLeft(u, lockFile, id);
    var q := FreshPid(u.procs.Keys);
    var ready := Prepares(t, u, q, lockFile, id);
    if WritesBackQueued(LocalOf(u.procs[w]).value, id) {
      v := HeldRowSends(t, ready, q, w, lockFile, id);
    } else {
      v := UnreadRowSends(t, ready, q, w, lockFile, id);
    }
  }

  // ---- what is left to send can be sent -------------------------------------------------------------

  ghost predicate Good(s: Sys, lockFile: string) {
    WellFormed(s, lockFile) && AllShaped(s) && Stops.AllReady(s)
  }

  lemma BringsKeeps(t: Sys, u: Sys, lockFile: string, id: JobId)
    requires Good(t, lockFile) && Brings(t, u, lockFile, id)
    ensures Good(u, lockFile) && Kept(t, u, lockFile, id)
  {
    var actions :| Allowed(actions, lockFile, id) && Execute(t, actions) == u;
    RunKept(t, actions, lockFile, id);
    RunShaped(t, actions, lockFile);
    Stops.RunReady(t, actions);
  }

  // Brought about without a request or a revival, and without the writer having moved.
  ghost predicate Unasked(t: Sys, u: Sys, w: Pid, lockFile: string, id: JobId) {
    && Good(t, lockFile) && Brings(t, u, lockFile, id)
    && Count(u.asked, id) == Count(t.asked, id) && Count(u.revived, id) == Count(t.revived, id)
    && w in t.procs && t.procs[w].Writer? && w in u.procs && u.procs[w] == t.procs[w]
  }

  ghost predicate PassOf(s: Sys, p: Pid, l: Local) {
    p in s.procs && s.procs[p].Supervisor? && s.procs[p].pass == Some(l)
  }

  // A step or an answer of a pass asks for nothing and revives nothing.
  lemma PassGoes(u: Sys, p: Pid, l: Local, lockFile: string, id: JobId)
    requires WellFormed(u, lockFile) && PassOf(u, p, l) && Stops.Busy(l)
    ensures var v := Next(u, Stops.GoAction(u, p));
      && v.asked == u.asked && v.revived == u.revived && Count(v.sends, id) >= Count(u.sends, id)
      && p in v.procs && v.procs == u.procs[p := v.procs[p]] && v.locks == u.locks
      && PassOf(v, p, Stops.Go(u.ledger, l).1)
  {
    assert ProcOk(u, p, lockFile);
    if Waiting(l) { PassAnswered(u, p, l); } else { PassSteps(u, p, l, id); }
  }

  lemma PassAnswered(u: Sys, p: Pid, l: Local)
    requires PassOf(u, p, l) && Waiting(l)
    ensures Next(u, Answer(p, Stops.NO)) ==
      u.(procs := u.procs[p := u.procs[p].(pass := Some(Stops.Go(u.ledger, l).1))])
  {
    Stops.AnswerGoes(u, p);
  }

  lemma PassSteps(u: Sys, p: Pid, l: Local, id: JobId)
    requires PassOf(u, p, l) && Stops.Busy(l) && !Waiting(l) && NeverQueues(l.ops)
    ensures var v := Next(u, Step(p));
      && v.asked == u.asked && v.revived == u.revived && Count(v.sends, id) >= Count(u.sends, id)
      && v.locks == u.locks && v.procs == u.procs[p := u.procs[p].(pass := Some(Stops.Go(u.ledger, l).1))]
  {
    Stops.StepGoes(u, p);
    if l.ops != [] { assert l.ops[0] in l.ops; }
  }

  lemma UnaskedGoes(t: Sys, u: Sys, p: Pid, l: Local, w: Pid, lockFile: string, id: JobId)
    requires Unasked(t, u, w, lockFile, id) && PassOf(u, p, l) && Stops.Busy(l)
    ensures var v := Next(u, Stops.GoAction(u, p));
      && Unasked(t, v, w, lockFile, id) && Count(v.sends, id) >= Count(u.sends, id)
      && PassOf(v, p, Stops.Go(u.ledger, l).1)
  {
    BringsKeeps(t, u, lockFile, id);
    PassGoes(u, p, l, lockFile, id);
    BringsNext(t, u, Stops.GoAction(u, p), lockFile, id);
  }

  // One step of a dispatch.
  lemma DispatchGoes(u: Sys, p: Pid, l: Local, lockFile: string, id: JobId)
    requires WellFormed(u, lockFile) && PassOf(u, p, l) && l.job.id == id && Ask(Send) in l.ops
    ensures Stops.GoAction(u, p) == Step(p) && Stops.Go(u.ledger, l) == OpStep(u.ledger, l)
    ensures |l.ops| == 1 ==> Count(Next(u, Step(p)).sends, id) > Count(u.sends, id)
    ensures var next := OpStep(u.ledger, l).1;
      |l.ops| > 1 ==> next.job.id == id && Ask(Send) in next.ops && |next.ops| == |l.ops| - 1
    ensures |l.ops| <= 3 ==> Next(u, Step(p)).ledger.jobs == u.ledger.jobs
  {
    assert ProcOk(u, p, lockFile);
    DispatchStepShape(u.ledger, l);
    if |l.ops| > 1 { DispatchNext(u.ledger, l); }
    Stops.StepGoes(u, p);
  }

  lemma DispatchNext(db: Ledger, l: Local)
    requires Dispatching(l) && l.job.id in db.jobs && |l.ops| > 1
    ensures var next := OpStep(db, l).1;
      next.job == l.job && Ask(Send) in next.ops && |next.ops| == |l.ops| - 1
  {
    DispatchStepShape(db, l);
    var next := OpStep(db, l).1;
    DispatchFromFacts(next.job, |next.ops|);
  }

  // The dispatch in hand is carried to its send.
  lemma {:induction false} Dispatches(t: Sys, u: Sys, p: Pid, l: Local, w: Pid, lockFile: string, id: JobId)
    returns (v: Sys)
    requires Unasked(t, u, w, lockFile, id) && PassOf(u, p, l) && l.job.id == id && Ask(Send) in l.ops
    ensures Unasked(t, v, w, lockFile, id) && Count(v.sends, id) > Count(u.sends, id)
    ensures |l.ops| <= 3 ==> v.ledger.jobs == u.ledger.jobs
    decreases |l.ops|
  {
    BringsKeeps(t, u, lockFile, id);
    DispatchGoes(u, p, l, lockFile, id);
    UnaskedGoes(t, u, p, l, w, lockFile, id);
    v := Next(u, Step(p));
    if |l.ops| > 1 { v := Dispatches(t, v, p, OpStep(u.ledger, l).1, w, lockFile, id); }
  }

  // A pass that lists the job as queued is carried on until it sends it.
  lemma {:induction false} Drives(t: Sys, u: Sys, p: Pid, l: Local, w: Pid, lockFile: string, id: JobId)
    returns (v: Sys)
    requires Unasked(t, u, w, lockFile, id) && PassOf(u, p, l) && QueuedWork(l.tasks, id)
    ensures Unasked(t, v, w, lockFile, id) && Count(v.sends, id) > Count(u.sends, id)
    decreases Stops.Weight(l)
  {
    BringsKeeps(t, u, lockFile, id);
    assert ProcOk(u, p, lockFile);
    var next := Stops.Go(u.ledger, l).1;
    UnaskedGoes(t, u, p, l, w, lockFile, id);
    v := Next(u, Stops.GoAction(u, p));
    if l.ops == [] && l.tasks[0].Work? && l.tasks[0].job.id == id {
      WorkTaken(u.ledger, l, id);
      v := Dispatches(t, v, p, next, w, lockFile, id);
    } else {
      Stops.GoesDown(u.ledger, l);
      StillListed(u.ledger, l, id);
      v := Drives(t, v, p, next, w, lockFile, id);
    }
  }

  lemma WorkTaken(db: Ledger, l: Local, id: JobId)
    requires TasksOk(db, l.tasks) && QueuedWork(l.tasks, id) && l.ops == []
    requires l.tasks[0].Work? && l.tasks[0].job.id == id
    ensures var next := Stops.Go(db, l).1; next.job.id == id && Ask(Send) in next.ops
  {
    var t :| t in l.tasks && t.Work? && t.job.id == id && t.job.status.Queued?;
    var k :| 0 <= k < |l.tasks| && l.tasks[k] == t;
    assert k == 0;
    OpeningFacts(t.job);
  }

  lemma StillListed(db: Ledger, l: Local, id: JobId)
    requires TasksOk(db, l.tasks) && QueuedWork(l.tasks, id)
    requires l.ops == [] ==> !(l.tasks[0].Work? && l.tasks[0].job.id == id)
    ensures QueuedWork(Stops.Go(db, l).1.tasks, id)
  {
    var t :| t in l.tasks && t.Work? && t.job.id == id && t.job.status.Queued?;
    var k :| 0 <= k < |l.tasks| && l.tasks[k] == t;
    assert l.tasks[0].Work?;
    if l.ops == [] { assert l.tasks[1..][k - 1] == t && t in l.tasks[1..]; }
  }

  // A queued job is sent by a new supervisor when the old one has died.
  lemma QueuedIsSent(t: Sys, u: Sys, w: Pid, lockFile: string, id: JobId) returns (v: Sys)
    requires Unasked(t, u, w, lockFile, id) && IsQueued(u.ledger, id)
    ensures Unasked(t, v, w, lockFile, id) && Count(v.sends, id) > Count(u.sends, id)
  {
    BringsKeeps(t, u, lockFile, id);
    var q := FreshPid(u.procs.Keys);
    v := Prepares(t, u, q, lockFile, id);
    v := StartsAndSends(t, v, q, lockFile, id);
  }

  // The pass itself writes the row back as queued, and the job is sent.
  lemma WrittenBackIsSent(t: Sys, u: Sys, p: Pid, l: Local, w: Pid, lockFile: string, id: JobId) returns (v: Sys)
    requires Unasked(t, u, w, lockFile, id) && PassOf(u, p, l) && WritesBackQueued(l, id) && id in u.ledger.jobs
    ensures Unasked(t, v, w, lockFile, id) && Count(v.sends, id) > Count(u.sends, id)
  {
    UnaskedGoes(t, u, p, l, w, lockFile, id);
    v := QueuedIsSent(t, Next(u, Step(p)), w, lockFile, id);
  }

  // A send that is about to be made leaves one more exactly when the job is queued again.
  lemma PendingLeft(u: Sys, p: Pid, l: Local, lockFile: string, id: JobId)
    requires WellFormed(u, lockFile) && PassOf(u, p, l) && InFlight(u, lockFile) == Some(l) && SendPending(l, id)
    ensures SendsLeft(u, lockFile, id) <= 1 + One(IsQueued(u.ledger, id))
  {
    assert ProcOk(u, p, lockFile);
    assert l.ops != [] && PassOk(u.ledger, l);
    DispatchHead(l.job, |l.ops|);
  }

  // One of the sends that are left.
  lemma SpendsOne(t: Sys, u: Sys, w: Pid, lockFile: string, id: JobId) returns (v: Sys)
    requires Unasked(t, u, w, lockFile, id) && SendsLeft(u, lockFile, id) > 0
    ensures Unasked(t, v, w, lockFile, id) && Count(v.sends, id) > Count(u.sends, id)
    ensures SendsLeft(v, lockFile, id) + 1 >= SendsLeft(u, lockFile, id)
  {
    if InFlight(u, lockFile).None? {
      v := QueuedIsSent(t, u, w, lockFile, id);
    } else {
      v := SpendsInFlight(t, u, u.locks[lockFile], InFlight(u, lockFile).value, w, lockFile, id);
    }
  }

  lemma SpendsInFlight(t: Sys, u: Sys, p: Pid, l: Local, w: Pid, lockFile: string, id: JobId) returns (v: Sys)
    requires Unasked(t, u, w, lockFile, id) && SendsLeft(u, lockFile, id) > 0
    requires PassOf(u, p, l) && InFlight(u, lockFile) == Some(l)
    ensures Unasked(t, v, w, lockFile, id) && Count(v.sends, id) > Count(u.sends, id)
    ensures SendsLeft(v, lockFile, id) + 1 >= SendsLeft(u, lockFile, id)
  {
    BringsKeeps(t, u, lockFile, id);
    if l.job.id == id && Ask(Send) in l.ops {
      v := Dispatches(t, u, p, l, w, lockFile, id);
      if SendPending(l, id) { PendingLeft(u, p, l, lockFile, id); }
    } else if QueuedWork(l.tasks, id) {
      v := Drives(t, u, p, l, w, lockFile, id);
    } else if IsQueued(u.ledger, id) {
      v := QueuedIsSent(t, u, w, lockFile, id);
    } else {
      assert ProcOk(u, p, lockFile);
      v := WrittenBackIsSent(t, u, p, l, w, lockFile, id);
    }
  }

  // All of the sends that are left.
  lemma {:induction false} SpendsAll(t: Sys, u: Sys, w: Pid, lockFile: string, id: JobId) returns (v: Sys)
    requires Unasked(t, u, w, lockFile, id)
    ensures Unasked(t, v, w, lockFile, id) && SendsLeft(v, lockFile, id) == 0
    ensures Count(v.sends, id) >= Count(u.sends, id) + SendsLeft(u, lockFile, id)
    decreases Count(t.sends, id) + SendsLeft(t, lockFile, id) - Count(u.sends, id)
  {
    BringsKeeps(t, u, lockFile, id);
    if SendsLeft(u, lockFile, id) == 0 { return u; }
    v := SpendsOne(t, u, w, lockFile, id);
    v := SpendsAll(t, v, w, lockFile, id);
  }

  // ---- the exact condition, proved ------------------------------------------------------------------

  // In every continuation without new writers of the kind, the sends are at most what was left
  // and the requests.
  ghost predicate RequestsBound(t: Sys, lockFile: string, id: JobId) {
    forall during: seq<Action> :: Allowed(during, lockFile, id) ==>
      Count(Execute(t, during).sends, id) - Count(t.sends, id) <=
        SendsLeft(t, lockFile, id) + Count(Execute(t, during).asked, id) - Count(t.asked, id)
  }

  lemma RevivalBreaksBound(t: Sys, w: Pid, lockFile: string, id: JobId)
    requires Good(t, lockFile) && w in t.procs && !t.procs[w].Supervisor?
    requires MayRevive(LocalOf(t.procs[w]).value, id)
    ensures !RequestsBound(t, lockFile, id)
  {
    OnlyWritersRevive(t, w, id);
    BringsHere(t, lockFile, id);
    var u := SpendsAll(t, t, w, lockFile, id);
    BringsKeeps(t, u, lockFile, id);
    var v := RevivalExceeds(t, u, w, lockFile, id);
    var during :| Allowed(during, lockFile, id) && Execute(t, during) == v;
    assert Count(Execute(t, during).sends, id) - Count(t.sends, id) >
      SendsLeft(t, lockFile, id) + Count(Execute(t, during).asked, id) - Count(t.asked, id);
  }

  // In every reachable state: submissions and requests, with what is left to send, bound the
  // sends of a job from there on if and only if no outside writer in progress can bring it back.
  lemma RequestsBoundSendsExactly(s: Sys, before: seq<Action>, lockFile: string, id: JobId)
    requires Initial(s) && OneLockFile(before, lockFile)
    ensures RequestsBound(Execute(s, before), lockFile, id) <==> NoneRevives(Execute(s, before), id)
  {
    var t := Execute(s, before);
    ReachableGood(s, before, lockFile);
    if NoneRevives(t, id) {
      forall during: seq<Action> | Allowed(during, lockFile, id)
        ensures Count(Execute(t, during).sends, id) - Count(t.sends, id) <=
          SendsLeft(t, lockFile, id) + Count(Execute(t, during).asked, id) - Count(t.asked, id)
      {
        SendsWithinRequests(t, during, lockFile, id);
      }
    } else {
      var w :| w in t.procs && !t.procs[w].Supervisor? && MayRevive(LocalOf(t.procs[w]).value, id);
      RevivalBreaksBound(t, w, lockFile, id);
    }
  }

  lemma ReachableGood(s: Sys, actions: seq<Action>, lockFile: string)
    requires Initial(s) && OneLockFile(actions, lockFile)
    ensures Good(Execute(s, actions), lockFile)
  {
    ReachableWellFormed(s, actions, lockFile);
    RunShaped(s, actions, lockFile);
    Stops.RunReady(s, actions);
  }
}
