/** When a stored stop holds: exactly when no process in progress threatens it. */
module Stops {
  import opened Wrappers
  import opened JobLedger
  import opened Supervisor
  import opened SupervisorProtocol
  import SendAccounting

  // ---- shapes that every reachable process has, whatever the lock files ------------------

  // A row is read just before it is written, and a call or a decision comes last.
  ghost predicate Orderly(ops: seq<Op>) {
    && (forall i :: 0 < i < |ops| && ops[i].WriteJob? ==> ops[i - 1].ReadJob?)
    && (forall i :: 0 <= i < |ops| - 1 ==> !ops[i].Ask? && !ops[i].Await? && !ops[i].CheckBusy?)
    && (forall i, k :: 0 <= i < |ops| && 0 <= k < |ops| && ops[i].CheckBusy? ==> ops[k].CheckBusy? || ops[k].Log?)
  }

  ghost predicate Ready(db: Ledger, l: Local) {
    && Orderly(l.ops)
    && (l.ops != [] ==> l.job.id in db.jobs)
    && (l.ops != [] && l.ops[0].WriteJob? ==> l.jobRow.Some?)
    && forall t :: t in l.tasks && !t.TakeListing? ==> t.job.id in db.jobs
  }

  ghost predicate AllReady(s: Sys) {
    && SendAccounting.OrderOk(s.ledger)
    && forall pid :: pid in s.procs && LocalOf(s.procs[pid]).Some? ==> Ready(s.ledger, LocalOf(s.procs[pid]).value)
  }

  lemma TailOrderly(ops: seq<Op>)
    requires Orderly(ops) && ops != []
    ensures Orderly(ops[1..]) && (!ops[0].ReadJob? && ops[1..] != [] ==> !ops[1..][0].WriteJob?)
    ensures (ops[0].Ask? || ops[0].Await? || ops[0].CheckBusy?) ==> ops[1..] == []
  {
    var rest := ops[1..];
    assert forall i :: 0 <= i < |rest| ==> rest[i] == ops[i + 1];
    forall i | 0 < i < |rest| && rest[i].WriteJob? ensures rest[i - 1].ReadJob? { assert ops[i + 1].WriteJob?; }
    forall i | 0 <= i < |rest| - 1 ensures !rest[i].Ask? && !rest[i].Await? && !rest[i].CheckBusy? {
      assert rest[i] == ops[i + 1];
    }
  }

  lemma SettleOrderly(log: Op, b: Beat, patch: Patch)
    requires log.Log?
    ensures Orderly(SettleOps(b, patch)) && Orderly([log] + SettleOps(b, patch))
  {
  }

  // What follows the log of an answer: one more call or decision, or the final writes.
  ghost predicate Closing(ops: seq<Op>) {
    || (|ops| == 1 && (ops[0].Ask? || ops[0].CheckBusy?))
    || (|ops| == 4 && ops[0].ReadBeat? && ops[1].WriteBeat? && ops[2].ReadJob? && ops[3].WriteJob?)
  }

  lemma ClosingOrderly(log: Op, ops: seq<Op>)
    requires log.Log? && Closing(ops)
    ensures Orderly([log] + ops)
  {
  }

  lemma ResumeOrderly(job: Listed, call: Call, r: Reply)
    ensures var ops := Resume(job, call, r); Orderly(ops) && ops != [] && ops[0].Log?
  {
    var ops := Resume(job, call, r);
    assert ops == [ops[0]] + ops[1..];
    ClosingOrderly(ops[0], ops[1..]);
  }

  lemma OpStepReady(db: Ledger, l: Local)
    requires Ready(db, l) && l.ops != []
    ensures var (db', l') := OpStep(db, l); Ready(db', l') && db'.jobs.Keys == db.jobs.Keys && db'.order == db.order
  {
    TailOrderly(l.ops);
    if l.ops[0].CheckBusy? {
      var status := l.ops[0].status;
      SettleOrderly(Log(SmithStatus, Summary), BusyBeat(l.job.alias, PhSmithBusy, status), STILL_BUSY_PATCH);
      assert AfterCheck(db, l.job, status) + [] == AfterCheck(db, l.job, status);
    }
  }

  lemma TaskStepReady(db: Ledger, l: Local)
    requires Ready(db, l) && l.ops == [] && l.tasks != [] && SendAccounting.OrderOk(db)
    ensures Ready(db, TaskStep(db, l))
  {
    assert l.tasks[0] in l.tasks;
    assert forall t :: t in l.tasks[1..] ==> t in l.tasks;
    if l.tasks[0].TakeListing? {
      ActiveKnown(db.jobs, db.order);
      var listed := ListActive(db, PASS_LIMIT);
      assert forall i :: 0 <= i < |listed| ==> Works(listed)[i] == Work(listed[i]) && listed[i] in listed;
    }
  }

  lemma LocalStepReady(db: Ledger, l: Local)
    requires Ready(db, l) && SendAccounting.OrderOk(db)
    ensures var (db', l') := LocalStep(db, l); Ready(db', l') && db'.jobs.Keys == db.jobs.Keys && db'.order == db.order
  {
    if l.ops != [] { OpStepReady(db, l); } else if l.tasks != [] { TaskStepReady(db, l); }
  }

  lemma ReadyKept(db: Ledger, db': Ledger, l: Local)
    requires Ready(db, l) && db.jobs.Keys <= db'.jobs.Keys
    ensures Ready(db', l)
  {
  }

  lemma BeginReady(db: Ledger, tail: seq<Task>)
    requires SendAccounting.OrderOk(db) && (tail == [] || tail == [TakeListing])
    ensures Ready(db, BeginLocal(db, tail))
  {
    ActiveKnown(db.jobs, db.order);
    var listed := ListActive(db, 50);
    assert forall i :: 0 <= i < |listed| ==> Considers(listed)[i] == Consider(listed[i]) && listed[i] in listed;
  }

  // A step of one process, and what it leaves of the system.
  ghost predicate Moves(s: Sys, s': Sys, p: Pid) {
    && p in s.procs && p in s'.procs && s'.procs == s.procs[p := s'.procs[p]]
    && s'.ledger.jobs.Keys == s.ledger.jobs.Keys && s'.ledger.order == s.ledger.order
  }

  lemma MoverReady(s: Sys, s': Sys, p: Pid)
    requires AllReady(s) && Moves(s, s', p)
    requires LocalOf(s'.procs[p]).Some? ==> Ready(s'.ledger, LocalOf(s'.procs[p]).value)
    ensures AllReady(s')
  {
    forall q | q in s'.procs && LocalOf(s'.procs[q]).Some? ensures Ready(s'.ledger, LocalOf(s'.procs[q]).value) {
      if q != p { ReadyKept(s.ledger, s'.ledger, LocalOf(s.procs[q]).value); }
    }
  }

  lemma StepReady(s: Sys, p: Pid)
    requires AllReady(s)
    ensures AllReady(StepProc(s, p))
  {
    if p in s.procs && LocalOf(s.procs[p]).Some? {
      LocalStepReady(s.ledger, LocalOf(s.procs[p]).value);
      MoverReady(s, StepProc(s, p), p);
    }
  }

  lemma AnswerReady(s: Sys, p: Pid, r: Reply)
    requires AllReady(s)
    ensures AllReady(AnswerProc(s, p, r))
  {
    var s' := AnswerProc(s, p, r);
    if s' == s { return; }
    ResumeReady(s.ledger, LocalOf(s.procs[p]).value, r);
    MoverReady(s, s', p);
  }

  lemma ResumeReady(db: Ledger, l: Local, r: Reply)
    requires Ready(db, l) && l.ops != [] && l.ops[0].Await?
    ensures Ready(db, l.(ops := Resume(l.job, l.ops[0].call, r) + l.ops[1..]))
  {
    var ops := Resume(l.job, l.ops[0].call, r);
    TailOrderly(l.ops);
    ResumeOrderly(l.job, l.ops[0].call, r);
    assert ops + l.ops[1..] == ops;
  }

  lemma NewReady(s: Sys, s': Sys)
    requires AllReady(s) && s.ledger.jobs.Keys <= s'.ledger.jobs.Keys && SendAccounting.OrderOk(s'.ledger)
    requires forall q :: q in s'.procs && !(q in s.procs && s.procs[q] == s'.procs[q]) ==>
      LocalOf(s'.procs[q]).None? || Ready(s'.ledger, LocalOf(s'.procs[q]).value)
    ensures AllReady(s')
  {
    forall q | q in s'.procs && LocalOf(s'.procs[q]).Some? ensures Ready(s'.ledger, LocalOf(s'.procs[q]).value) {
      if q in s.procs && s.procs[q] == s'.procs[q] { ReadyKept(s.ledger, s'.ledger, LocalOf(s.procs[q]).value); }
    }
  }

  lemma SubmitReady(s: Sys, id: JobId, alias: string)
    requires AllReady(s)
    ensures AllReady(Next(s, SubmitJob(id, alias)))
  {
    var s' := Next(s, SubmitJob(id, alias));
    if s' != s {
      InsertIsOnce(s'.ledger.jobs, s.ledger.order, id);
      NewReady(s, s');
    }
  }

  lemma OneReady(s: Sys, pid: Pid, proc: Proc)
    requires AllReady(s) && (LocalOf(proc).Some? ==> Ready(s.ledger, LocalOf(proc).value))
    ensures AllReady(s.(procs := s.procs[pid := proc]))
  {
    NewReady(s, s.(procs := s.procs[pid := proc]));
  }

  // A process that starts, or begins a pass, is ready.
  lemma StartReady(s: Sys, a: Action)
    requires AllReady(s) && (a.BeginPass? || a.StartStop? || a.StartStatusQuery? || a.StartWriter?)
    ensures AllReady(Next(s, a))
  {
    if Next(s, a) == s { return; }
    match a
    case BeginPass(pid) =>
      BeginReady(s.ledger, [TakeListing]);
      OneReady(s, pid, s.procs[pid].(pass := Some(BeginLocal(s.ledger, [TakeListing]))));
    case StartStatusQuery(pid) =>
      BeginReady(s.ledger, []);
      OneReady(s, pid, StatusQuery(BeginLocal(s.ledger, [])));
    case StartStop(pid, _) => OneReady(s, pid, Next(s, a).procs[pid]);
    case StartWriter(pid, _, _, _) => OneReady(s, pid, Next(s, a).procs[pid]);
  }

  lemma NextReady(s: Sys, a: Action)
    requires AllReady(s)
    ensures AllReady(Next(s, a))
  {
    match a
    case Step(pid) => StepReady(s, pid);
    case Answer(pid, reply) => AnswerReady(s, pid, reply);
    case SubmitJob(id, alias) => SubmitReady(s, id, alias);
    case BeginPass(_) => StartReady(s, a);
    case StartStop(_, _) => StartReady(s, a);
    case StartStatusQuery(_) => StartReady(s, a);
    case StartWriter(_, _, _, _) => StartReady(s, a);
    case _ => RestReady(s, a);
  }

  // The clock, the locks, and processes that start idle, give up or die.
  lemma RestReady(s: Sys, a: Action)
    requires AllReady(s)
    requires a.TimePasses? || a.StartSupervisor? || a.TryLock? || a.Raise? || a.Die?
    ensures AllReady(Next(s, a))
  {
    NewReady(s, Next(s, a));
  }

  lemma {:induction false} RunReady(s: Sys, actions: seq<Action>)
    requires AllReady(s)
    ensures AllReady(Execute(s, actions))
  {
    if actions == [] { return; }
    RunReady(s, actions[..|actions| - 1]);
    NextReady(Execute(s, actions[..|actions| - 1]), actions[|actions| - 1]);
  }

  // ---- threats ---------------------------------------------------------------------------------

  // Every answer to a call other than a stop settles the job somewhere else.
  predicate Unstops(op: Op) {
    || (op.Ask? && !op.call.StopCall?) || (op.Await? && !op.call.StopCall?)
    || (op.WriteJob? && op.patch.status.Some? && !op.patch.status.value.Stopped?)
  }

  ghost predicate OpsThreaten(l: Local, id: JobId) {
    InHand(l, id) && (
      || (exists op :: op in l.ops && Unstops(op))
      || (l.ops[0].WriteJob? && l.jobRow.Some? && !l.jobRow.value.status.Stopped? && l.ops[0].patch.status.None?))
  }

  // Listed for work as queued, running or stale, or to be looked at as running.
  predicate TaskThreatens(t: Task, id: JobId) {
    || (t.Work? && t.job.id == id && (t.job.status.Queued? || t.job.status.Running? || t.job.status.Stale?))
    || (t.Consider? && t.job.id == id && t.job.status.Running?)
  }

  ghost predicate TasksThreaten(l: Local, id: JobId) {
    exists t :: t in l.tasks && TaskThreatens(t, id)
  }

  ghost predicate Checks(l: Local, id: JobId) {
    InHand(l, id) && exists op :: op in l.ops && op.CheckBusy?
  }

  predicate BeatsRunning(op: Op) {
    op.CheckBusy? || (op.WriteBeat? && op.beat.state.Running?) || (op.PutBeat? && op.heartbeat.state.Running?)
  }

  // The process may still record a running heartbeat for the job.
  ghost predicate MayBeat(l: Local, id: JobId) {
    InHand(l, id) && exists op :: op in l.ops && BeatsRunning(op)
  }

  predicate HeartRuns(db: Ledger, id: JobId) {
    id in db.beats && db.beats[id].state.Running?
  }

  ghost function LocalAt(s: Sys, p: Pid): Local
    requires HasLocal(s, p)
  {
    LocalOf(s.procs[p]).value
  }

  // The busy limit can still block the job: the heartbeat is running, or may become so.
  ghost predicate CheckThreatens(s: Sys, p: Pid, id: JobId)
    requires HasLocal(s, p)
  {
    Checks(LocalAt(s, p), id) &&
    (HeartRuns(s.ledger, id) || exists q :: HasLocal(s, q) && q != p && MayBeat(LocalAt(s, q), id))
  }

  ghost predicate Threatens(s: Sys, p: Pid, id: JobId)
    requires HasLocal(s, p)
  {
    OpsThreaten(LocalAt(s, p), id) || TasksThreaten(LocalAt(s, p), id) || CheckThreatens(s, p, id)
  }

  ghost predicate Threatened(s: Sys, id: JobId) {
    exists p :: HasLocal(s, p) && Threatens(s, p, id)
  }

  // No writer from outside says otherwise about the job.
  ghost predicate Undisturbed(actions: seq<Action>, id: JobId) {
    forall a :: a in actions ==> Leaves(a, id)
  }

  predicate Leaves(a: Action, id: JobId) {
    a.StartWriter? && a.target == id ==>
      (a.patch.status.None? || a.patch.status.value.Stopped?) && (a.beat.None? || !a.beat.value.state.Running?)
  }

  ghost predicate IsStopped(s: Sys, id: JobId) {
    id in s.ledger.jobs && s.ledger.jobs[id].status.Stopped?
  }

  // ---- without a threat it holds --------------------------------------------------------------

  ghost predicate Safe(s: Sys, id: JobId) {
    AllReady(s) && IsStopped(s, id) && !Threatened(s, id)
  }

  // A process that threatens nothing, after a step of its own: the stop is kept, and it
  // threatens nothing by itself.
  ghost predicate Calm(l: Local, id: JobId) {
    !OpsThreaten(l, id) && !TasksThreaten(l, id)
  }

  lemma CalmOpStep(db: Ledger, l: Local, id: JobId)
    requires Ready(db, l) && Calm(l, id) && l.ops != [] && id in db.jobs && db.jobs[id].status.Stopped?
    requires Checks(l, id) ==> !HeartRuns(db, id)
    ensures var (db', l') := OpStep(db, l);
      && Calm(l', id) && id in db'.jobs && db'.jobs[id].status.Stopped?
      && (Checks(l', id) ==> Checks(l, id))
      && (MayBeat(l', id) ==> MayBeat(l, id))
      && (HeartRuns(db', id) ==> HeartRuns(db, id) || (MayBeat(l, id) && !Checks(l', id)))
  {
    HeadOrRest(l.ops);
    TailOrderly(l.ops);
    assert l.ops[0] in l.ops;
    if l.ops[0].CheckBusy? && l.job.id == id {
      assert Checks(l, id);
      CalmCheck(db, l);
    }
  }

  lemma CalmCheck(db: Ledger, l: Local)
    requires l.ops != [] && l.ops[0].CheckBusy? && l.ops[1..] == [] && !HeartRuns(db, l.job.id)
    ensures var b := BusyBeat(l.job.alias, PhSmithBusy, l.ops[0].status);
      OpStep(db, l) == (db, l.(ops := SettleOps(b, STILL_BUSY_PATCH)))
  {
    assert AfterCheck(db, l.job, l.ops[0].status) + [] == AfterCheck(db, l.job, l.ops[0].status);
  }

  lemma StoppedNotListed(db: Ledger, limit: nat, id: JobId)
    requires id in db.jobs && db.jobs[id].status.Stopped?
    ensures forall j :: j in ListActive(db, limit) ==> j.id != id
  {
    ActiveKnown(db.jobs, db.order);
  }

  lemma CalmTaskStep(db: Ledger, l: Local, id: JobId)
    requires Calm(l, id) && l.ops == [] && l.tasks != [] && id in db.jobs && db.jobs[id].status.Stopped?
    ensures Calm(TaskStep(db, l), id) && !MayBeat(TaskStep(db, l), id)
  {
    assert l.tasks[0] in l.tasks;
    assert forall t :: t in l.tasks[1..] ==> t in l.tasks;
    if l.tasks[0].TakeListing? {
      StoppedNotListed(db, PASS_LIMIT, id);
      var listed := ListActive(db, PASS_LIMIT);
      assert forall i :: 0 <= i < |listed| ==> Works(listed)[i] == Work(listed[i]);
    }
  }

  lemma BeginCalm(db: Ledger, tail: seq<Task>, id: JobId)
    requires id in db.jobs && db.jobs[id].status.Stopped? && (tail == [] || tail == [TakeListing])
    ensures Calm(BeginLocal(db, tail), id) && !MayBeat(BeginLocal(db, tail), id)
  {
    StoppedNotListed(db, 50, id);
    var listed := ListActive(db, 50);
    assert forall i :: 0 <= i < |listed| ==> Considers(listed)[i] == Consider(listed[i]);
  }

  lemma CalmAnswer(l: Local, r: Reply, id: JobId)
    requires Orderly(l.ops) && Calm(l, id) && l.ops != [] && l.ops[0].Await?
    ensures var l' := l.(ops := Resume(l.job, l.ops[0].call, r) + l.ops[1..]); Calm(l', id) && !MayBeat(l', id)
  {
    TailOrderly(l.ops);
    assert l.ops[0] in l.ops;
    if l.job.id == id {
      assert Resume(l.job, StopCall, r) + [] ==
        [Log(SmithStop, Bounded(r))] + SettleOps(StopBeat(l.job.alias, r), STOP_PATCH);
    }
  }

  // What a move of process p must keep for the stop to hold.
  lemma MoverSafe(s: Sys, s': Sys, p: Pid, id: JobId)
    requires Safe(s, id) && AllReady(s') && IsStopped(s', id) && HasLocal(s, p)
    requires p in s'.procs && s'.procs == s.procs[p := s'.procs[p]]
    requires HasLocal(s', p) ==>
      && Calm(LocalAt(s', p), id)
      && (Checks(LocalAt(s', p), id) ==> Checks(LocalAt(s, p), id))
        && (MayBeat(LocalAt(s', p), id) ==> MayBeat(LocalAt(s, p), id))
    requires HeartRuns(s'.ledger, id) ==>
      HeartRuns(s.ledger, id) || (MayBeat(LocalAt(s, p), id) && !(HasLocal(s', p) && Checks(LocalAt(s', p), id)))
    ensures Safe(s', id)
  {
    forall r | HasLocal(s', r) ensures !Threatens(s', r, id) {
      assert HasLocal(s, r) && !Threatens(s, r, id);
      if r != p { assert LocalAt(s', r) == LocalAt(s, r); }
      if Checks(LocalAt(s', r), id) {
        assert !CheckThreatens(s, r, id);
        forall q | HasLocal(s', q) && q != r ensures !MayBeat(LocalAt(s', q), id) {
          assert HasLocal(s, q);
          if q != p { assert LocalAt(s', q) == LocalAt(s, q); }
        }
      }
    }
  }

  lemma StepSafe(s: Sys, p: Pid, id: JobId)
    requires Safe(s, id)
    ensures Safe(StepProc(s, p), id)
  {
    if !HasLocal(s, p) { return; }
    var l, s' := LocalAt(s, p), StepProc(s, p);
    assert !Threatens(s, p, id);
    StepReady(s, p);
    if Busy(l) {
      Steps(s, p);
      if l.ops != [] { CalmOpStep(s.ledger, l, id); } else { CalmTaskStep(s.ledger, l, id); }
    }
    MoverSafe(s, s', p, id);
  }

  predicate Busy(l: Local) {
    l.ops != [] || l.tasks != []
  }

  lemma Steps(s: Sys, p: Pid)
    requires HasLocal(s, p) && Busy(LocalAt(s, p))
    ensures var s' := StepProc(s, p);
      && s'.ledger == LocalStep(s.ledger, LocalAt(s, p)).0 && s'.procs == s.procs[p := s'.procs[p]]
      && HasLocal(s', p) && LocalAt(s', p) == LocalStep(s.ledger, LocalAt(s, p)).1
  {
  }

  lemma AnswerSafe(s: Sys, p: Pid, r: Reply, id: JobId)
    requires Safe(s, id)
    ensures Safe(AnswerProc(s, p, r), id)
  {
    var s' := AnswerProc(s, p, r);
    if s' == s { return; }
    AnswerReady(s, p, r);
    assert !Threatens(s, p, id);
    CalmAnswer(LocalAt(s, p), r, id);
    MoverSafe(s, s', p, id);
  }

  // Processes appear or end, or time passes, or a job is submitted.
  lemma ArrivalSafe(s: Sys, s': Sys, id: JobId)
    requires Safe(s, id) && AllReady(s') && OnlyCalmArrive(s, s', id)
    ensures Safe(s', id)
  {
    forall r | HasLocal(s', r) ensures !Threatens(s', r, id) {
      if HasLocal(s, r) { assert !Threatens(s, r, id); }
      if Checks(LocalAt(s', r), id) {
        assert MayBeat(LocalAt(s', r), id);
        assert HasLocal(s, r) && !CheckThreatens(s, r, id);
      }
    }
  }

  lemma NextSafe(s: Sys, a: Action, id: JobId)
    requires Safe(s, id) && Leaves(a, id)
    ensures Safe(Next(s, a), id)
  {
    if a.Step? {
      StepSafe(s, a.pid, id);
    } else if a.Answer? {
      AnswerSafe(s, a.pid, a.reply, id);
    } else if Next(s, a) != s {
      NextReady(s, a);
      OtherCalm(s, a, id);
      ArrivalSafe(s, Next(s, a), id);
    }
  }

  ghost predicate OnlyCalmArrive(s: Sys, s': Sys, id: JobId) {
    && IsStopped(s', id) && (HeartRuns(s'.ledger, id) ==> HeartRuns(s.ledger, id))
    && forall r :: HasLocal(s', r) ==>
      (HasLocal(s, r) && LocalAt(s', r) == LocalAt(s, r)) || (Calm(LocalAt(s', r), id) && !MayBeat(LocalAt(s', r), id))
  }

  // One process gets new work, or appears with it, and nothing else changes.
  lemma NewWorkCalm(s: Sys, s': Sys, p: Pid, id: JobId)
    requires IsStopped(s, id) && s'.ledger == s.ledger && p in s'.procs && s'.procs == s.procs[p := s'.procs[p]]
    requires HasLocal(s', p) && Calm(LocalAt(s', p), id) && !MayBeat(LocalAt(s', p), id)
    ensures OnlyCalmArrive(s, s', id)
  {
    assert forall r :: r != p && HasLocal(s', r) ==> HasLocal(s, r) && LocalAt(s', r) == LocalAt(s, r);
  }

  // Nobody gets new work.
  lemma NoWorkCalm(s: Sys, a: Action, id: JobId)
    requires IsStopped(s, id)
    requires a.SubmitJob? || a.TimePasses? || a.StartSupervisor? || a.TryLock? || a.Raise? || a.Die?
    ensures OnlyCalmArrive(s, Next(s, a), id)
  {
    forall r | HasLocal(Next(s, a), r) ensures HasLocal(s, r) && LocalAt(Next(s, a), r) == LocalAt(s, r) {
      LocalsKept(s, a, r);
    }
  }

  lemma LocalsKept(s: Sys, a: Action, r: Pid)
    requires a.SubmitJob? || a.TimePasses? || a.StartSupervisor? || a.TryLock? || a.Raise? || a.Die?
    requires HasLocal(Next(s, a), r)
    ensures HasLocal(s, r) && LocalAt(Next(s, a), r) == LocalAt(s, r)
  {
  }

  lemma OtherCalm(s: Sys, a: Action, id: JobId)
    requires IsStopped(s, id) && Leaves(a, id) && !a.Step? && !a.Answer? && Next(s, a) != s
    ensures OnlyCalmArrive(s, Next(s, a), id)
  {
    match a
    case StartStop(pid, target) => NewWorkCalm(s, Next(s, a), pid, id);
    case StartWriter(pid, target, patch, beat) => WriterCalm(s, a, id);
    case BeginPass(pid) =>
      BeginCalm(s.ledger, [TakeListing], id);
      NewWorkCalm(s, Next(s, a), pid, id);
    case StartStatusQuery(pid) =>
      BeginCalm(s.ledger, [], id);
      NewWorkCalm(s, Next(s, a), pid, id);
    case SubmitJob(_, _) => NoWorkCalm(s, a, id);
    case TimePasses(_) => NoWorkCalm(s, a, id);
    case StartSupervisor(_, _) => NoWorkCalm(s, a, id);
    case TryLock(_) => NoWorkCalm(s, a, id);
    case Raise(_) => NoWorkCalm(s, a, id);
    case Die(_) => NoWorkCalm(s, a, id);
  }

  lemma WriterCalm(s: Sys, a: Action, id: JobId)
    requires IsStopped(s, id) && a.StartWriter? && Leaves(a, id) && Next(s, a) != s
    ensures OnlyCalmArrive(s, Next(s, a), id)
  {
    var l := LocalAt(Next(s, a), a.pid);
    assert l.ops == WriterOps(a.patch, a.beat) && l.job.id == a.target;
    NewWorkCalm(s, Next(s, a), a.pid, id);
  }

  lemma {:induction false} RunSafe(s: Sys, actions: seq<Action>, id: JobId)
    requires Safe(s, id) && Undisturbed(actions, id)
    ensures Safe(Execute(s, actions), id)
  {
    if actions == [] { return; }
    var init, last := actions[..|actions| - 1], actions[|actions| - 1];
    assert last in actions && forall a :: a in init ==> a in actions;
    RunSafe(s, init, id);
    NextSafe(Execute(s, init), last, id);
  }

  // ---- a threat can always be carried out ---------------------------------------------------------

  const NO := Reply(false, false, false, "", "", "", false, 0)

  // How many steps an operation can still cost when every answer is NO.
  function OpWeight(op: Op): nat {
    match op
    case Ask(_) => 7
    case Await(_) => 6
    case CheckBusy(_) => 8
    case _ => 1
  }

  function OpsWeight(ops: seq<Op>): nat {
    if ops == [] then 0 else OpWeight(ops[0]) + OpsWeight(ops[1..])
  }

  function TaskWeight(t: Task): nat {
    match t
    case Consider(_) => 5
    case Work(_) => 12
    case TakeListing => 241
  }

  function TasksWeight(tasks: seq<Task>): nat {
    if tasks == [] then 0 else TaskWeight(tasks[0]) + TasksWeight(tasks[1..])
  }

  function Weight(l: Local): nat {
    OpsWeight(l.ops) + TasksWeight(l.tasks)
  }

  lemma FirstWeight(op: Op, rest: seq<Op>)
    ensures OpsWeight([op] + rest) == OpWeight(op) + OpsWeight(rest)
  {
    assert ([op] + rest)[1..] == rest;
  }

  lemma FourWeight(a: Op, b: Op, c: Op, d: Op)
    ensures OpsWeight([a, b, c, d]) == OpWeight(a) + OpWeight(b) + OpWeight(c) + OpWeight(d)
  {
    FirstWeight(d, []);
    FirstWeight(c, [d]);
    FirstWeight(b, [c, d]);
    FirstWeight(a, [b, c, d]);
    assert [d] + [] == [d] && [c] + [d] == [c, d] && [b] + [c, d] == [b, c, d] && [a] + [b, c, d] == [a, b, c, d];
  }

  // A settlement after a log entry.
  lemma SettleWeight(log: Op, b: Beat, patch: Patch)
    requires log.Log?
    ensures OpsWeight(SettleOps(b, patch)) == 4 && OpsWeight([log] + SettleOps(b, patch)) == 5
  {
    FourWeight(ReadBeat, WriteBeat(b), ReadJob, WriteJob(patch));
    FirstWeight(log, SettleOps(b, patch));
  }

  // Refused, every call settles the job: to stopped after a stop, and elsewhere otherwise.
  lemma RefusedSettles(job: Listed, call: Call) returns (log: Op, b: Beat, patch: Patch)
    ensures log.Log? && patch.status.Some? && Resume(job, call, NO) == [log] + SettleOps(b, patch)
    ensures patch.status.value.Stopped? <==> call.StopCall?
  {
    log := Resume(job, call, NO)[0];
    match call
    case Send => b, patch := SentBeat(job.alias, NO), SentPatch(NO);
    case StatusAfterSend(sent) => b, patch := SentBeat(job.alias, sent), SentPatch(sent);
    case OutputAfterSend(status) =>
      b := ReviewBeat(job.alias, PhOutputReadyAfterSendTimeout, BecauseSmithIdleAfterSendTimeout, NO, status);
      patch := ReviewPatch(Some(NoComplaint));
    case Poll =>
      b := StatusFailedBeat(job.alias, PhStatusFailed, BecauseStatusFailed, NO);
      patch := StatusFailedPatch(NO, SmithStatusFailed);
    case Output(status) =>
      b := ReviewBeat(job.alias, PhOutputReady, BecauseSmithIdle, NO, status);
      patch := ReviewPatch(None);
    case BusyStop(status, seconds) => b, patch := BusyTimeoutBeat(job.alias, status), BusyTimeoutPatch(seconds);
    case StatusStale =>
      b := StatusFailedBeat(job.alias, PhStatusFailedAfterStale, BecauseStatusFailedAfterStale, NO);
      patch := StatusFailedPatch(NO, SmithStatusFailedAfterStale);
    case OutputStale(status) =>
      b := ReviewBeat(job.alias, PhOutputReadyAfterStale, BecauseSmithIdleAfterStale, NO, status);
      patch := ReviewPatch(Some(NoComplaint));
    case StopCall => b, patch := StopBeat(job.alias, NO), STOP_PATCH;
  }

  // A process moves on: by a step of its own or, if it waits, by a refusal.
  function Go(db: Ledger, l: Local): (Ledger, Local) {
    if Waiting(l) then (db, l.(ops := Resume(l.job, l.ops[0].call, NO) + l.ops[1..])) else LocalStep(db, l)
  }

  ghost function GoAction(s: Sys, p: Pid): Action
    requires HasLocal(s, p)
  {
    if Waiting(LocalAt(s, p)) then Answer(p, NO) else Step(p)
  }

  lemma Goes(s: Sys, p: Pid)
    requires HasLocal(s, p) && Busy(LocalAt(s, p))
    ensures var s' := Next(s, GoAction(s, p));
      && s'.ledger == Go(s.ledger, LocalAt(s, p)).0
      && HasLocal(s', p) && LocalAt(s', p) == Go(s.ledger, LocalAt(s, p)).1
      && forall q :: q != p && HasLocal(s, q) ==> HasLocal(s', q) && LocalAt(s', q) == LocalAt(s, q)
  {
    if Waiting(LocalAt(s, p)) { AnswerGoes(s, p); } else { StepGoes(s, p); }
  }

  lemma AnswerGoes(s: Sys, p: Pid)
    requires HasLocal(s, p) && Waiting(LocalAt(s, p))
    ensures var s' := Next(s, Answer(p, NO));
      s' == s.(procs := s.procs[p := WithLocal(s.procs[p], Go(s.ledger, LocalAt(s, p)).1)])
  {
    assert Tick(s.ledger, 0) == s.ledger;
  }

  lemma StepGoes(s: Sys, p: Pid)
    requires HasLocal(s, p) && Busy(LocalAt(s, p)) && !Waiting(LocalAt(s, p))
    ensures var s' := Next(s, Step(p));
      && s'.ledger == Go(s.ledger, LocalAt(s, p)).0
      && s'.procs == s.procs[p := WithLocal(s.procs[p], Go(s.ledger, LocalAt(s, p)).1)]
  {
  }

  lemma {:induction false} WorksWeight(listed: seq<Listed>)
    ensures TasksWeight(Works(listed)) == 12 * |listed|
  {
    if listed != [] {
      assert Works(listed)[1..] == Works(listed[1..]);
      WorksWeight(listed[1..]);
    }
  }

  lemma {:induction false} TasksWeightConcat(a: seq<Task>, b: seq<Task>)
    ensures TasksWeight(a + b) == TasksWeight(a) + TasksWeight(b)
  {
    if a == [] {
      assert a + b == b;
    } else {
      assert (a + b)[1..] == a[1..] + b;
      TasksWeightConcat(a[1..], b);
    }
  }

  lemma OpeningWeight(job: Listed)
    ensures OpsWeight(Opening(job)) <= 11
  {
    if job.status.Queued? {
      FourWeight(WriteJob(DISPATCH_PATCH), ReadBeat, WriteBeat(DispatchBeat(job.alias)), Ask(Send));
      assert DispatchOps(job)[1..] ==
        [WriteJob(DISPATCH_PATCH), ReadBeat, WriteBeat(DispatchBeat(job.alias)), Ask(Send)];
    } else if Opening(job) != [] {
      assert Opening(job)[1..] == [];
    }
  }

  lemma TaskGoesDown(db: Ledger, l: Local)
    requires l.ops == [] && l.tasks != []
    ensures Weight(TaskStep(db, l)) < Weight(l)
  {
    match l.tasks[0]
    case Consider(job) =>
      if ShouldMark(db, job) {
        var h := db.beats[job.id];
        FourWeight(PutBeat(StaleBeat(h, db.now)), ReadJob, WriteJob(StalePatch(h)), Log(RunStale, Summary));
      }
    case TakeListing =>
      WorksWeight(ListActive(db, PASS_LIMIT));
      TasksWeightConcat(Works(ListActive(db, PASS_LIMIT)), l.tasks[1..]);
    case Work(job) => OpeningWeight(job);
  }

  lemma OpGoesDown(db: Ledger, l: Local)
    requires Ready(db, l) && l.ops != []
    ensures Weight(Go(db, l).1) < Weight(l)
  {
    TailOrderly(l.ops);
    var op, rest := l.ops[0], l.ops[1..];
    if op.Await? {
      var log, b, patch := RefusedSettles(l.job, op.call);
      SettleWeight(log, b, patch);
      assert Resume(l.job, op.call, NO) + [] == Resume(l.job, op.call, NO);
    } else if op.Ask? {
      FirstWeight(Await(op.call), rest);
    } else if op.CheckBusy? {
      CheckGoesDown(db, l.job, op.status);
      assert AfterCheck(db, l.job, op.status) + [] == AfterCheck(db, l.job, op.status);
    }
  }

  lemma CheckGoesDown(db: Ledger, job: Listed, status: Reply)
    ensures OpsWeight(AfterCheck(db, job, status)) <= 7
  {
    SettleWeight(Log(SmithStatus, Summary), BusyBeat(job.alias, PhSmithBusy, status), STILL_BUSY_PATCH);
    if BusyTooLong(db, job.id) { FirstWeight(AfterCheck(db, job, status)[0], []); }
  }

  lemma GoesDown(db: Ledger, l: Local)
    requires Ready(db, l) && Busy(l)
    ensures Weight(Go(db, l).1) < Weight(l)
  {
    if l.ops != [] { OpGoesDown(db, l); } else { TaskGoesDown(db, l); }
  }

  // An operation that unstops the job does so, or is still ahead.
  lemma OpsThreatGoes(db: Ledger, l: Local, id: JobId)
    requires Ready(db, l) && OpsThreaten(l, id)
    ensures var (db', l') := Go(db, l); id in db'.jobs && (!db'.jobs[id].status.Stopped? || OpsThreaten(l', id))
  {
    HeadOrRest(l.ops);
    TailOrderly(l.ops);
    var op := l.ops[0];
    if op.Await? {
      var log, b, patch := RefusedSettles(l.job, op.call);
      assert WriteJob(patch) in SettleOps(b, patch);
      assert WriteJob(patch) in Go(db, l).1.ops && Unstops(WriteJob(patch));
    } else if op.Ask? {
      assert Await(op.call) in Go(db, l).1.ops && Unstops(Await(op.call));
    }
  }

  lemma TasksThreatGoes(db: Ledger, l: Local, id: JobId)
    requires TasksThreaten(l, id) && (l.ops == [] ==> !TaskThreatens(l.tasks[0], id))
    ensures TasksThreaten(Go(db, l).1, id)
  {
    var t :| t in l.tasks && TaskThreatens(t, id);
    if l.ops == [] {
      assert l.tasks == [l.tasks[0]] + l.tasks[1..];
      assert t in l.tasks[1..];
    }
  }

  lemma WorkFires(db: Ledger, l: Local, id: JobId)
    requires l.ops == [] && l.tasks != [] && l.tasks[0].Work? && TaskThreatens(l.tasks[0], id)
    ensures OpsThreaten(Go(db, l).1, id)
  {
    var ops := Opening(l.tasks[0].job);
    if l.tasks[0].job.status.Queued? {
      assert ops[1] == WriteJob(DISPATCH_PATCH) && Unstops(ops[1]);
    } else {
      assert Unstops(ops[0]);
    }
  }

  lemma ConsiderFires(db: Ledger, l: Local, id: JobId)
    requires l.ops == [] && l.tasks != [] && l.tasks[0].Consider? && TaskThreatens(l.tasks[0], id)
    requires id in db.beats && BeatIsStale(db.beats[id], db.now)
    ensures OpsThreaten(Go(db, l).1, id)
  {
    var ops := MarkOps(db.beats[id], db.now);
    assert ops[2] == WriteJob(StalePatch(db.beats[id])) && Unstops(ops[2]);
  }

  // A check comes nearer, and blocks the job if it has been running for too long.
  lemma CheckGoes(db: Ledger, l: Local, id: JobId)
    requires Ready(db, l) && Checks(l, id)
    ensures var (db', l') := Go(db, l);
      if l.ops[0].CheckBusy? then BusyTooLong(db, id) ==> OpsThreaten(l', id)
      else Checks(l', id) && db'.beats == db.beats && db'.jobs == db.jobs
  {
    HeadOrRest(l.ops);
    TailOrderly(l.ops);
    var op :| op in l.ops && op.CheckBusy?;
    var k :| 0 <= k < |l.ops| && l.ops[k] == op;
    assert l.ops[0].CheckBusy? || l.ops[0].Log?;
    if l.ops[0].CheckBusy? && BusyTooLong(db, id) {
      var ask := AfterCheck(db, l.job, l.ops[0].status)[0];
      assert ask in Go(db, l).1.ops && Unstops(ask);
    }
  }

  // A running heartbeat is recorded, or is still ahead.
  lemma BeatGoes(db: Ledger, l: Local, id: JobId)
    requires Ready(db, l) && MayBeat(l, id) && !HeartRuns(db, id)
    ensures var (db', l') := Go(db, l); HeartRuns(db', id) || MayBeat(l', id)
  {
    HeadOrRest(l.ops);
    TailOrderly(l.ops);
    var op :| op in l.ops && BeatsRunning(op);
    if l.ops[0].CheckBusy? { CheckBeats(db, l, id); }
  }

  lemma CheckBeats(db: Ledger, l: Local, id: JobId)
    requires Ready(db, l) && InHand(l, id) && l.ops[0].CheckBusy? && l.ops[1..] == [] && !HeartRuns(db, id)
    ensures MayBeat(Go(db, l).1, id)
  {
    CalmCheck(db, l);
    assert WriteBeat(BusyBeat(l.job.alias, PhSmithBusy, l.ops[0].status)) in Go(db, l).1.ops;
  }

  // ---- carrying it out -----------------------------------------------------------------------------

  // Actions that no writer takes part in, after which the job is no longer stopped.
  ghost predicate Undoes(s: Sys, actions: seq<Action>, id: JobId) {
    Undisturbed(actions, id) && !IsStopped(Execute(s, actions), id)
  }

  lemma Prepend(s: Sys, a: Action, rest: seq<Action>, id: JobId)
    requires Leaves(a, id) && Undoes(Next(s, a), rest, id)
    ensures Undoes(s, [a] + rest, id)
  {
    assert [a][..0] == [];
    assert Execute(s, [a]) == Next(s, a);
    ExecuteAppend(s, [a], rest);
  }

  lemma UndoneByOps(s: Sys, p: Pid, id: JobId) returns (actions: seq<Action>)
    requires AllReady(s) && HasLocal(s, p) && OpsThreaten(LocalAt(s, p), id)
    ensures Undoes(s, actions, id)
    decreases Weight(LocalAt(s, p))
  {
    if !IsStopped(s, id) { return []; }
    var a := GoAction(s, p);
    Goes(s, p);
    NextReady(s, a);
    GoesDown(s.ledger, LocalAt(s, p));
    OpsThreatGoes(s.ledger, LocalAt(s, p), id);
    var rest := [];
    if IsStopped(Next(s, a), id) { rest := UndoneByOps(Next(s, a), p, id); }
    actions := [a] + rest;
    Prepend(s, a, rest, id);
  }

  // Time enough for the heartbeat to be stale and for the busy limit to have passed.
  function LongEnough(db: Ledger, id: JobId): nat
    requires id in db.beats
  {
    var h := db.beats[id];
    var stale, busy := h.updatedAt + h.staleAfter * SECOND + 1, h.startedAt + (MAX_BUSY_SECONDS + 1) * SECOND;
    var due := if stale >= busy then stale else busy;
    if due >= db.now then due - db.now else 0
  }

  lemma LateEnough(db: Ledger, id: JobId)
    requires id in db.beats
    ensures var db' := Tick(db, LongEnough(db, id));
      BeatIsStale(db'.beats[id], db'.now) && (HeartRuns(db, id) ==> BusyTooLong(db', id))
  {
    var db' := Tick(db, LongEnough(db, id));
    var elapsed := db'.now - db'.beats[id].startedAt;
    assert elapsed >= (MAX_BUSY_SECONDS + 1) * SECOND;
    assert elapsed / SECOND >= MAX_BUSY_SECONDS + 1;
  }

  lemma UndoneByCheck(s: Sys, p: Pid, id: JobId) returns (actions: seq<Action>)
    requires AllReady(s) && HasLocal(s, p) && Checks(LocalAt(s, p), id) && HeartRuns(s.ledger, id)
    ensures Undoes(s, actions, id)
    decreases Weight(LocalAt(s, p))
  {
    if !IsStopped(s, id) { return []; }
    var a := GoAction(s, p);
    CheckGoes(s.ledger, LocalAt(s, p), id);
    if LocalAt(s, p).ops[0].CheckBusy? {
      actions := UndoneByDueCheck(s, p, id);
    } else {
      Goes(s, p);
      NextReady(s, a);
      GoesDown(s.ledger, LocalAt(s, p));
      var rest := UndoneByCheck(Next(s, a), p, id);
      actions := [a] + rest;
      Prepend(s, a, rest, id);
    }
  }

  lemma UndoneByDueCheck(s: Sys, p: Pid, id: JobId) returns (actions: seq<Action>)
    requires AllReady(s) && HasLocal(s, p) && Checks(LocalAt(s, p), id) && LocalAt(s, p).ops[0].CheckBusy?
    requires HeartRuns(s.ledger, id)
    ensures Undoes(s, actions, id)
  {
    var later := TimePasses(LongEnough(s.ledger, id));
    LateEnough(s.ledger, id);
    NextReady(s, later);
    var s1 := Next(s, later);
    var a := GoAction(s1, p);
    CheckGoes(s1.ledger, LocalAt(s1, p), id);
    Goes(s1, p);
    NextReady(s1, a);
    var rest := UndoneByOps(Next(s1, a), p, id);
    Prepend(s1, a, rest, id);
    Prepend(s, later, [a] + rest, id);
    actions := [later] + ([a] + rest);
  }

  lemma UndoneByBeat(s: Sys, p: Pid, q: Pid, id: JobId) returns (actions: seq<Action>)
    requires AllReady(s) && p != q && HasLocal(s, p) && HasLocal(s, q) && Checks(LocalAt(s, p), id)
    requires HeartRuns(s.ledger, id) || MayBeat(LocalAt(s, q), id)
    ensures Undoes(s, actions, id)
    decreases Weight(LocalAt(s, q))
  {
    if HeartRuns(s.ledger, id) {
      actions := UndoneByCheck(s, p, id);
    } else {
      var a := GoAction(s, q);
      Goes(s, q);
      NextReady(s, a);
      GoesDown(s.ledger, LocalAt(s, q));
      BeatGoes(s.ledger, LocalAt(s, q), id);
      var rest := UndoneByBeat(Next(s, a), p, q, id);
      actions := [a] + rest;
      Prepend(s, a, rest, id);
    }
  }

  // The process will record a heartbeat for the job.
  ghost predicate WillBeat(l: Local, id: JobId) {
    InHand(l, id) && exists op :: op in l.ops && (op.Ask? || op.Await? || op.WriteBeat?)
  }

  lemma WillBeatGoes(db: Ledger, l: Local, id: JobId)
    requires Ready(db, l) && WillBeat(l, id)
    ensures var (db', l') := Go(db, l); id in db'.beats || WillBeat(l', id)
  {
    HeadOrRest(l.ops);
    TailOrderly(l.ops);
    var op := l.ops[0];
    if op.Await? {
      var log, b, patch := RefusedSettles(l.job, op.call);
      assert WriteBeat(b) in SettleOps(b, patch);
      assert WriteBeat(b) in Go(db, l).1.ops;
    } else if op.Ask? {
      assert Await(op.call) in Go(db, l).1.ops;
    }
  }

  // A listing of the job as running can be turned into a mark: with a heartbeat that has
  // become stale, which a fresh stop provides if there is none.
  lemma UndoneByTasks(s: Sys, p: Pid, id: JobId) returns (actions: seq<Action>)
    requires AllReady(s) && HasLocal(s, p) && TasksThreaten(LocalAt(s, p), id)
    ensures Undoes(s, actions, id)
    decreases Weight(LocalAt(s, p)), if id in s.ledger.beats then 0 else 2, 0
  {
    if !IsStopped(s, id) { return []; }
    var l, a := LocalAt(s, p), GoAction(s, p);
    if l.ops != [] || !TaskThreatens(l.tasks[0], id) {
      Goes(s, p);
      NextReady(s, a);
      GoesDown(s.ledger, l);
      TasksThreatGoes(s.ledger, l, id);
      var rest := UndoneByTasks(Next(s, a), p, id);
      actions := [a] + rest;
      Prepend(s, a, rest, id);
    } else if l.tasks[0].Work? {
      actions := UndoneByWork(s, p, id);
    } else if id in s.ledger.beats {
      actions := UndoneByMark(s, p, id);
    } else {
      var q := FreshPid(s.procs.Keys);
      assert q !in s.procs;
      var start := StartStop(q, id);
      var s1 := Next(s, start);
      NextReady(s, start);
      assert Ask(StopCall) in LocalAt(s1, q).ops;
      assert LocalAt(s1, p) == l;
      var rest := UndoneWithStop(s1, p, q, id);
      actions := [start] + rest;
      Prepend(s, start, rest, id);
    }
  }

  lemma UndoneWithStop(s: Sys, p: Pid, q: Pid, id: JobId) returns (actions: seq<Action>)
    requires AllReady(s) && p != q && HasLocal(s, p) && HasLocal(s, q) && TasksThreaten(LocalAt(s, p), id)
    requires id in s.ledger.beats || WillBeat(LocalAt(s, q), id)
    ensures Undoes(s, actions, id)
    decreases Weight(LocalAt(s, p)), 1, Weight(LocalAt(s, q))
  {
    if id in s.ledger.beats {
      actions := UndoneByTasks(s, p, id);
    } else {
      var a := GoAction(s, q);
      Goes(s, q);
      NextReady(s, a);
      GoesDown(s.ledger, LocalAt(s, q));
      WillBeatGoes(s.ledger, LocalAt(s, q), id);
      var rest := UndoneWithStop(Next(s, a), p, q, id);
      actions := [a] + rest;
      Prepend(s, a, rest, id);
    }
  }

  lemma UndoneByWork(s: Sys, p: Pid, id: JobId) returns (actions: seq<Action>)
    requires AllReady(s) && HasLocal(s, p) && LocalAt(s, p).ops == [] && LocalAt(s, p).tasks != []
    requires LocalAt(s, p).tasks[0].Work? && TaskThreatens(LocalAt(s, p).tasks[0], id)
    ensures Undoes(s, actions, id)
  {
    var a := GoAction(s, p);
    Goes(s, p);
    NextReady(s, a);
    WorkFires(s.ledger, LocalAt(s, p), id);
    var rest := UndoneByOps(Next(s, a), p, id);
    actions := [a] + rest;
    Prepend(s, a, rest, id);
  }

  lemma UndoneByMark(s: Sys, p: Pid, id: JobId) returns (actions: seq<Action>)
    requires AllReady(s) && HasLocal(s, p) && LocalAt(s, p).ops == [] && LocalAt(s, p).tasks != []
    requires LocalAt(s, p).tasks[0].Consider? && TaskThreatens(LocalAt(s, p).tasks[0], id) && id in s.ledger.beats
    ensures Undoes(s, actions, id)
  {
    var later := TimePasses(LongEnough(s.ledger, id));
    LateEnough(s.ledger, id);
    NextReady(s, later);
    var s1 := Next(s, later);
    var a := GoAction(s1, p);
    Goes(s1, p);
    NextReady(s1, a);
    ConsiderFires(s1.ledger, LocalAt(s1, p), id);
    var rest := UndoneByOps(Next(s1, a), p, id);
    Prepend(s1, a, rest, id);
    Prepend(s, later, [a] + rest, id);
    actions := [later] + ([a] + rest);
  }

  lemma ThreatUndoes(s: Sys, p: Pid, id: JobId) returns (actions: seq<Action>)
    requires AllReady(s) && HasLocal(s, p) && Threatens(s, p, id)
    ensures Undoes(s, actions, id)
  {
    if OpsThreaten(LocalAt(s, p), id) {
      actions := UndoneByOps(s, p, id);
    } else if TasksThreaten(LocalAt(s, p), id) {
      actions := UndoneByTasks(s, p, id);
    } else if HeartRuns(s.ledger, id) {
      actions := UndoneByCheck(s, p, id);
    } else {
      var q :| HasLocal(s, q) && q != p && MayBeat(LocalAt(s, q), id);
      actions := UndoneByBeat(s, p, q, id);
    }
  }

  // ---- the theorem -------------------------------------------------------------------------------

  ghost predicate StaysStopped(s: Sys, id: JobId) {
    forall more: seq<Action> :: Undisturbed(more, id) ==> IsStopped(Execute(s, more), id)
  }

  // In every reachable state, with any number of supervisors and lock files: a stored stop
  // holds in every continuation in which no outside writer says otherwise if and only if no
  // process in progress threatens it.
  lemma StopHoldsExactly(s: Sys, actions: seq<Action>, id: JobId)
    requires Initial(s) && IsStopped(Execute(s, actions), id)
    ensures StaysStopped(Execute(s, actions), id) <==> !Threatened(Execute(s, actions), id)
  {
    var t := Execute(s, actions);
    RunReady(s, actions);
    if Threatened(t, id) {
      var p :| HasLocal(t, p) && Threatens(t, p, id);
      var more := ThreatUndoes(t, p, id);
      assert Undisturbed(more, id) && !IsStopped(Execute(t, more), id);
    } else {
      forall more: seq<Action> | Undisturbed(more, id) ensures IsStopped(Execute(t, more), id) {
        RunSafe(t, more, id);
      }
    }
  }
}
