/** A pass that nobody interrupts, run store call by store call, is the pass of Supervisor.dfy.
  *
  * The interleaved machine and the sequential functions describe the same program.
  */
module PassRefinement {
  import opened Wrappers
  import opened JobLedger
  import opened Supervisor
  import opened SupervisorRuns
  import opened SupervisorSafety
  import opened SupervisorProtocol

  // The pass alone with the ledger and Smith's answers.
  datatype Config = Config(ledger: Ledger, pass: Local, script: seq<Reply>)

  function Move(c: Config): Config {
    if Waiting(c.pass) then
      if c.script == [] then c
      else Config(Tick(c.ledger, c.script[0].elapsed),
                  c.pass.(ops := Resume(c.pass.job, c.pass.ops[0].call, c.script[0]) + c.pass.ops[1..]), c.script[1..])
    else
      var (db', l') := LocalStep(c.ledger, c.pass);
      Config(db', l', c.script)
  }

  function Iterate<T>(f: T -> T, x: T, n: nat): T
    decreases n
  {
    if n == 0 then x else Iterate(f, f(x), n - 1)
  }

  lemma {:induction false} IterateAdd<T>(f: T -> T, x: T, m: nat, n: nat)
    ensures Iterate(f, x, m + n) == Iterate(f, Iterate(f, x, m), n)
    decreases m
  {
    if m > 0 { IterateAdd(f, f(x), m - 1, n); }
  }

  lemma {:induction false} IterateKeeps<T(!new)>(f: T -> T, holds: T -> bool, x: T, n: nat)
    requires holds(x) && forall y: T :: holds(y) ==> holds(f(y))
    ensures holds(Iterate(f, x, n))
    decreases n
  {
    if n > 0 { IterateKeeps(f, holds, f(x), n - 1); }
  }

  function Moves(c: Config, n: nat): Config {
    Iterate(Move, c, n)
  }

  ghost predicate Leads(c: Config, d: Config) {
    exists n: nat :: Moves(c, n) == d
  }

  lemma LeadsTransitive(a: Config, b: Config, c: Config)
    requires Leads(a, b) && Leads(b, c)
    ensures Leads(a, c)
  {
    var m: nat :| Moves(a, m) == b;
    var n: nat :| Moves(b, n) == c;
    IterateAdd(Move, a, m, n);
    assert Moves(a, m + n) == c;
  }

  lemma LeadsHere(c: Config)
    ensures Leads(c, c)
  {
    assert Moves(c, 0) == c;
  }

  lemma LeadsMove(c: Config, d: Config)
    requires Leads(Move(c), d)
    ensures Leads(c, d)
  {
    var n: nat :| Moves(Move(c), n) == d;
    assert Moves(c, n + 1) == d;
  }

  // The job in hand is finished: nothing left to do but the remaining tasks.
  ghost predicate Done(c: Config, db: Ledger, tasks: seq<Task>, script: seq<Reply>) {
    c.ledger == db && c.pass.tasks == tasks && c.pass.ops == [] && c.script == script
  }

  ghost predicate LeadsDone(c: Config, db: Ledger, tasks: seq<Task>, script: seq<Reply>) {
    exists d :: Leads(c, d) && Done(d, db, tasks, script)
  }

  // The process waits for an answer that never comes.
  ghost predicate LeadsStuck(c: Config, db: Ledger) {
    exists d :: Leads(c, d) && d.ledger == db && Waiting(d.pass) && d.script == []
  }

  // The outcome of a handler, as the machine reaches it.
  ghost predicate LeadsTo(c: Config, o: Outcome, tasks: seq<Task>) {
    if o.crashed then LeadsStuck(c, o.ledger) else LeadsDone(c, o.ledger, tasks, o.rest)
  }

  lemma LeadsToAfter(c: Config, d: Config, o: Outcome, tasks: seq<Task>)
    requires Leads(c, d) && LeadsTo(d, o, tasks)
    ensures LeadsTo(c, o, tasks)
  {
    if o.crashed {
      var e :| Leads(d, e) && e.ledger == o.ledger && Waiting(e.pass) && e.script == [];
      LeadsTransitive(c, d, e);
    } else {
      var e :| Leads(d, e) && Done(e, o.ledger, tasks, o.rest);
      LeadsTransitive(c, d, e);
    }
  }

  lemma LeadsToMove(c: Config, o: Outcome, tasks: seq<Task>)
    requires LeadsTo(Move(c), o, tasks)
    ensures LeadsTo(c, o, tasks)
  {
    LeadsHere(Move(c));
    LeadsMove(c, Move(c));
    LeadsToAfter(c, Move(c), o, tasks);
  }

  // ---- segments ---------------------------------------------------------------------------

  // Reading and writing the heartbeat with nothing in between is recording it.
  lemma BeatSegment(c: Config, b: Beat, rest: seq<Op>)
    requires c.pass.ops == [ReadBeat, WriteBeat(b)] + rest
    ensures var d := Move(Move(c));
      && d.ledger == RecordBeat(c.ledger, c.pass.job.id, b) && d.script == c.script
      && d.pass.tasks == c.pass.tasks && d.pass.job == c.pass.job && d.pass.ops == rest
  {
    assert c.pass.ops[1..] == [WriteBeat(b)] + rest;
    assert Move(c).pass.ops[1..] == rest;
  }

  // Reading and writing the job with nothing in between is updating it.
  lemma JobSegment(c: Config, patch: Patch, rest: seq<Op>)
    requires c.pass.ops == [ReadJob, WriteJob(patch)] + rest && c.pass.job.id in c.ledger.jobs
    ensures var d := Move(Move(c));
      && d.ledger == Update(c.ledger, c.pass.job.id, patch) && d.script == c.script
      && d.pass.tasks == c.pass.tasks && d.pass.job == c.pass.job && d.pass.ops == rest
  {
    assert c.pass.ops[1..] == [WriteJob(patch)] + rest;
    assert Move(c).pass.ops[1..] == rest;
  }

  lemma SettleSegment(c: Config, b: Beat, patch: Patch)
    requires c.pass.ops == SettleOps(b, patch) && c.pass.job.id in c.ledger.jobs
    ensures LeadsDone(c, Settle(c.ledger, c.pass.job.id, b, patch), c.pass.tasks, c.script)
  {
    assert SettleOps(b, patch) == [ReadBeat, WriteBeat(b)] + [ReadJob, WriteJob(patch)];
    BeatSegment(c, b, [ReadJob, WriteJob(patch)]);
    var d := Move(Move(c));
    assert d.pass.ops == [ReadJob, WriteJob(patch)] + [];
    JobSegment(d, patch, []);
    var e := Move(Move(d));
    LeadsHere(e);
    LeadsMove(Move(d), e);
    LeadsMove(d, e);
    LeadsMove(Move(c), e);
    LeadsMove(c, e);
    assert Done(e, Settle(c.ledger, c.pass.job.id, b, patch), c.pass.tasks, c.script);
  }

  lemma LogSegment(c: Config, kind: EventKind, payload: Payload, rest: seq<Op>)
    requires c.pass.ops == [Log(kind, payload)] + rest
    ensures Move(c) == Config(AddEvent(c.ledger, c.pass.job.id, kind, payload), c.pass.(ops := rest), c.script)
  {
    assert c.pass.ops[1..] == rest;
  }

  // An answer, the log entry about it, and what the handler does next.
  lemma AnsweredSegment(c: Config, call: Call, kind: EventKind, payload: Payload, next: seq<Op>)
    requires c.pass.ops == [Await(call)] && c.script != []
    requires Resume(c.pass.job, call, c.script[0]) == [Log(kind, payload)] + next
    ensures Move(Move(c)) ==
      Config(AddEvent(Tick(c.ledger, c.script[0].elapsed), c.pass.job.id, kind, payload), c.pass.(ops := next),
             c.script[1..])
  {
    assert c.pass.ops[1..] == [];
    assert Resume(c.pass.job, call, c.script[0]) + [] == [Log(kind, payload)] + next;
    LogSegment(Move(c), kind, payload, next);
  }

  lemma AskSegment(c: Config, call: Call)
    requires c.pass.ops == [Ask(call)]
    ensures Move(c) == c.(pass := c.pass.(ops := [Await(call)]))
  {
    assert c.pass.ops[1..] == [];
  }

  lemma StuckHere(c: Config)
    requires Waiting(c.pass) && c.script == []
    ensures LeadsStuck(c, c.ledger)
  {
    LeadsHere(c);
  }

  // ---- handlers ------------------------------------------------------------------------------

  // One answer that settles the job.
  lemma AnswerSettles(c: Config, call: Call, kind: EventKind, payload: Payload, b: Beat, patch: Patch, o: Outcome)
    requires c.pass.ops == [Await(call)] && c.script != [] && c.pass.job.id in c.ledger.jobs && !o.crashed
    requires o.rest == c.script[1..]
    requires Resume(c.pass.job, call, c.script[0]) == [Log(kind, payload)] + SettleOps(b, patch)
    requires o.ledger == Settle(AddEvent(Tick(c.ledger, c.script[0].elapsed), c.pass.job.id, kind, payload),
                                c.pass.job.id, b, patch)
    ensures LeadsTo(c, o, c.pass.tasks)
  {
    AnsweredSegment(c, call, kind, payload, SettleOps(b, patch));
    SettleSegment(Move(Move(c)), b, patch);
    LeadsToMove(Move(c), o, c.pass.tasks);
    LeadsToMove(c, o, c.pass.tasks);
  }

  // One answer that leads to another question.
  lemma AnswerAsks(c: Config, call: Call, kind: EventKind, payload: Payload, next: Call, o: Outcome)
    requires c.pass.ops == [Await(call)] && c.script != []
    requires Resume(c.pass.job, call, c.script[0]) == [Log(kind, payload)] + [Ask(next)]
    requires LeadsTo(Config(AddEvent(Tick(c.ledger, c.script[0].elapsed), c.pass.job.id, kind, payload),
                            c.pass.(ops := [Await(next)]), c.script[1..]), o, c.pass.tasks)
    ensures LeadsTo(c, o, c.pass.tasks)
  {
    AnsweredSegment(c, call, kind, payload, [Ask(next)]);
    var d := Move(Move(c));
    AskSegment(d, next);
    LeadsToMove(d, o, c.pass.tasks);
    LeadsToMove(Move(c), o, c.pass.tasks);
    LeadsToMove(c, o, c.pass.tasks);
  }

  lemma HarvestMachine(c: Config, call: Call, status: Reply, kind: EventKind, phase: Phase, stop: StopReason,
                       error: Option<Complaint>, deed: Deed)
    requires c.pass.ops == [Await(call)] && c.pass.job.id in c.ledger.jobs
    requires forall r :: Resume(c.pass.job, call, r) == HarvestOps(c.pass.job, kind, phase, stop, error, status, r)
    ensures LeadsTo(c, Harvest(c.ledger, c.pass.job, status, c.script, kind, phase, stop, error, deed), c.pass.tasks)
  {
    var o := Harvest(c.ledger, c.pass.job, status, c.script, kind, phase, stop, error, deed);
    if c.script == [] {
      StuckHere(c);
    } else {
      var output := c.script[0];
      assert Resume(c.pass.job, call, output) == HarvestOps(c.pass.job, kind, phase, stop, error, status, output);
      AnswerSettles(c, call, kind, Bounded(output), ReviewBeat(c.pass.job.alias, phase, stop, output, status),
                    ReviewPatch(error), o);
    }
  }

  lemma StaleMachine(c: Config)
    requires c.pass.ops == [Await(StatusStale)] && c.pass.job.id in c.ledger.jobs
    ensures LeadsTo(c, RecoverStale(c.ledger, c.pass.job, c.script), c.pass.tasks)
  {
    var o := RecoverStale(c.ledger, c.pass.job, c.script);
    if c.script == [] { StuckHere(c); return; }
    var r, job := c.script[0], c.pass.job;
    if r.ok && !r.idle {
      AnswerSettles(c, StatusStale, StatusAfterStale, Bounded(r), BusyBeat(job.alias, PhSmithBusyAfterStale, r),
                    BUSY_PATCH, o);
    } else if r.ok {
      var d := Config(AddEvent(Tick(c.ledger, r.elapsed), job.id, StatusAfterStale, Bounded(r)),
                      c.pass.(ops := [Await(OutputStale(r))]), c.script[1..]);
      HarvestMachine(d, OutputStale(r), r, OutputAfterStale, PhOutputReadyAfterStale, BecauseSmithIdleAfterStale,
                     Some(NoComplaint), DidHarvestedOutputAfterStale);
      AnswerAsks(c, StatusStale, StatusAfterStale, Bounded(r), OutputStale(r), o);
    } else {
      AnswerSettles(c, StatusStale, StatusAfterStale, Bounded(r),
        StatusFailedBeat(job.alias, PhStatusFailedAfterStale, BecauseStatusFailedAfterStale, r),
          StatusFailedPatch(r, SmithStatusFailedAfterStale), o);
    }
  }

  lemma BusyStopMachine(c: Config, status: Reply, seconds: int)
    requires c.pass.ops == [Await(BusyStop(status, seconds))] && c.pass.job.id in c.ledger.jobs
    ensures LeadsTo(c, BlockLongBusy(c.ledger, c.pass.job, status, seconds, c.script), c.pass.tasks)
  {
    if c.script == [] { StuckHere(c); return; }
    AnswerSettles(c, BusyStop(status, seconds), BusyTimeoutStop, Summary, BusyTimeoutBeat(c.pass.job.alias, status),
                  BusyTimeoutPatch(seconds),
      BlockLongBusy(c.ledger, c.pass.job, status, seconds, c.script));
  }

  // The decision on a busy answer, once the answer is logged.
  lemma CheckMachine(c: Config, status: Reply, o: Outcome)
    requires c.pass.ops == [CheckBusy(status)] && c.pass.job.id in c.ledger.jobs
    requires o == if BusyTooLong(c.ledger, c.pass.job.id)
                  then BlockLongBusy(c.ledger, c.pass.job, status, BusySeconds(c.ledger, c.pass.job.id), c.script)
                  else Finish(Settle(c.ledger, c.pass.job.id, BusyBeat(c.pass.job.alias, PhSmithBusy, status),
                                     STILL_BUSY_PATCH),
                              c.script, c.pass.job.id, Running, DidStillRunning)
    ensures LeadsTo(c, o, c.pass.tasks)
  {
    var d := Move(c);
    assert c.pass.ops[1..] == [];
    assert d == c.(pass := c.pass.(ops := AfterCheck(c.ledger, c.pass.job, status) + []));
    if BusyTooLong(c.ledger, c.pass.job.id) {
      var call := BusyStop(status, BusySeconds(c.ledger, c.pass.job.id));
      assert d.pass.ops == [Ask(call)];
      AskSegment(d, call);
      BusyStopMachine(Move(d), status, BusySeconds(c.ledger, c.pass.job.id));
      LeadsToMove(d, o, c.pass.tasks);
    } else {
      assert d.pass.ops == SettleOps(BusyBeat(c.pass.job.alias, PhSmithBusy, status), STILL_BUSY_PATCH);
      SettleSegment(d, BusyBeat(c.pass.job.alias, PhSmithBusy, status), STILL_BUSY_PATCH);
    }
    LeadsToMove(c, o, c.pass.tasks);
  }

  lemma RunningMachine(c: Config)
    requires c.pass.ops == [Await(Poll)] && c.pass.job.id in c.ledger.jobs
    ensures LeadsTo(c, HandleRunning(c.ledger, c.pass.job, c.script), c.pass.tasks)
  {
    var o := HandleRunning(c.ledger, c.pass.job, c.script);
    if c.script == [] { StuckHere(c); return; }
    var r, job := c.script[0], c.pass.job;
    var db1 := AddEvent(Tick(c.ledger, r.elapsed), job.id, SmithStatus, Bounded(r));
    if !r.ok {
      AnswerSettles(c, Poll, SmithStatus, Bounded(r),
                    StatusFailedBeat(job.alias, PhStatusFailed, BecauseStatusFailed, r),
        StatusFailedPatch(r, SmithStatusFailed), o);
    } else if r.idle {
      var d := Config(db1, c.pass.(ops := [Await(Output(r))]), c.script[1..]);
      HarvestMachine(d, Output(r), r, SmithOutput, PhOutputReady, BecauseSmithIdle, None, DidReadyForReview);
      AnswerAsks(c, Poll, SmithStatus, Bounded(r), Output(r), o);
    } else {
      AnsweredSegment(c, Poll, SmithStatus, Bounded(r), [CheckBusy(r)]);
      CheckMachine(Move(Move(c)), r, o);
      LeadsToMove(Move(c), o, c.pass.tasks);
      LeadsToMove(c, o, c.pass.tasks);
    }
  }

  lemma TimeoutMachine(c: Config, sent: Reply)
    requires c.pass.ops == [Await(StatusAfterSend(sent))] && c.pass.job.id in c.ledger.jobs
    ensures LeadsTo(c, AfterTimeout(c.ledger, c.pass.job, sent, c.script), c.pass.tasks)
  {
    var o := AfterTimeout(c.ledger, c.pass.job, sent, c.script);
    if c.script == [] { StuckHere(c); return; }
    var r, job := c.script[0], c.pass.job;
    var call := StatusAfterSend(sent);
    if r.ok && r.idle {
      var d := Config(AddEvent(Tick(c.ledger, r.elapsed), job.id, StatusAfterSendTimeout, Bounded(r)),
                      c.pass.(ops := [Await(OutputAfterSend(r))]), c.script[1..]);
      HarvestMachine(d, OutputAfterSend(r), r, OutputAfterSendTimeout, PhOutputReadyAfterSendTimeout,
                     BecauseSmithIdleAfterSendTimeout, Some(NoComplaint), DidHarvestedOutputAfterSendTimeout);
      AnswerAsks(c, call, StatusAfterSendTimeout, Bounded(r), OutputAfterSend(r), o);
    } else if r.ok {
      AnswerSettles(c, call, StatusAfterSendTimeout, Bounded(r), BusyBeat(job.alias, PhSmithBusyAfterSendTimeout, r),
                    BUSY_PATCH, o);
    } else {
      AnswerSettles(c, call, StatusAfterSendTimeout, Bounded(r), SentBeat(job.alias, sent), SentPatch(sent), o);
    }
  }

  lemma SentMachine(c: Config)
    requires c.pass.ops == [Await(Send)] && c.pass.job.id in c.ledger.jobs && c.script != []
    ensures var r := c.script[0]; var db := AddEvent(Tick(c.ledger, r.elapsed), c.pass.job.id, SmithSend, Bounded(r));
      LeadsTo(c, if SendTimedOut(r) then AfterTimeout(db, c.pass.job, r, c.script[1..])
              else AfterSend(db, c.pass.job, r, c.script[1..]), c.pass.tasks)
  {
    var r := c.script[0];
    var db := AddEvent(Tick(c.ledger, r.elapsed), c.pass.job.id, SmithSend, Bounded(r));
    if SendTimedOut(r) {
      TimeoutMachine(Config(db, c.pass.(ops := [Await(StatusAfterSend(r))]), c.script[1..]), r);
      AnswerAsks(c, Send, SmithSend, Bounded(r), StatusAfterSend(r), AfterTimeout(db, c.pass.job, r, c.script[1..]));
    } else {
      AnswerSettles(c, Send, SmithSend, Bounded(r), SentBeat(c.pass.job.alias, r), SentPatch(r),
                    AfterSend(db, c.pass.job, r, c.script[1..]));
    }
  }

  lemma QueuedMachine(c: Config)
    requires c.pass.ops == DispatchOps(c.pass.job) && c.pass.job.id in c.ledger.jobs
    ensures LeadsTo(c, HandleQueued(c.ledger, c.pass.job, c.script), c.pass.tasks)
  {
    var o := HandleQueued(c.ledger, c.pass.job, c.script);
    var job := c.pass.job;
    var b := DispatchBeat(job.alias);
    assert c.pass.ops == [ReadJob, WriteJob(DISPATCH_PATCH)] + [ReadBeat, WriteBeat(b), Ask(Send)];
    JobSegment(c, DISPATCH_PATCH, [ReadBeat, WriteBeat(b), Ask(Send)]);
    var d := Move(Move(c));
    assert d.pass.ops == [ReadBeat, WriteBeat(b)] + [Ask(Send)];
    BeatSegment(d, b, [Ask(Send)]);
    var e := Move(Move(d));
    AskSegment(e, Send);
    var f := Move(e);
    if c.script == [] { StuckHere(f); } else { SentMachine(f); }
    LeadsToMove(e, o, c.pass.tasks);
    LeadsToMove(Move(d), o, c.pass.tasks);
    LeadsToMove(d, o, c.pass.tasks);
    LeadsToMove(Move(c), o, c.pass.tasks);
    LeadsToMove(c, o, c.pass.tasks);
  }

  // A listed job, from taking it up to the end of its handler.
  lemma WorkMachine(c: Config, job: Listed, rest: seq<Task>)
    requires c.pass.ops == [] && c.pass.tasks == [Work(job)] + rest && job.id in c.ledger.jobs
    ensures LeadsTo(c, Handle(c.ledger, job, c.script), rest)
  {
    var o := Handle(c.ledger, job, c.script);
    assert c.pass.tasks[1..] == rest;
    var d := Move(c);
    assert d == Config(c.ledger, Local(rest, job, Opening(job), None, None), c.script);
    match job.status {
      case Queued => QueuedMachine(d);
      case Running =>
        AskSegment(d, Poll);
        RunningMachine(Move(d));
        LeadsToMove(d, o, rest);
      case Stale =>
        AskSegment(d, StatusStale);
        StaleMachine(Move(d));
        LeadsToMove(d, o, rest);
      case _ =>
        LeadsHere(d);
        assert Done(d, o.ledger, rest, o.rest);
    }
    LeadsToMove(c, o, rest);
  }

  // ---- the whole pass --------------------------------------------------------------------------

  lemma LeadsDoneMove(c: Config, db: Ledger, tasks: seq<Task>, script: seq<Reply>)
    requires LeadsDone(Move(c), db, tasks, script)
    ensures LeadsDone(c, db, tasks, script)
  {
    LeadsToMove(c, Outcome(db, script, false, []), tasks);
  }

  // One listed job considered for staleness.
  lemma ConsiderMachine(c: Config, job: Listed, rest: seq<Task>)
    requires c.pass.ops == [] && c.pass.tasks == [Consider(job)] + rest && job.id in c.ledger.jobs
    ensures LeadsDone(c, if ShouldMark(c.ledger, job) then MarkOne(c.ledger, job.id) else c.ledger, rest, c.script)
  {
    assert c.pass.tasks[1..] == rest;
    var d := Move(c);
    if ShouldMark(c.ledger, job) {
      var h := c.ledger.beats[job.id];
      var log := [Log(RunStale, Summary)];
      assert d.pass.ops == [PutBeat(StaleBeat(h, c.ledger.now)), ReadJob, WriteJob(StalePatch(h))] + log;
      assert d.pass.ops[1..] == [ReadJob, WriteJob(StalePatch(h))] + log;
      var e := Move(d);
      JobSegment(e, StalePatch(h), log);
      var f := Move(Move(e));
      assert f.pass.ops == log + [];
      LogSegment(f, RunStale, Summary, []);
      var g := Move(f);
      LeadsHere(g);
      assert Done(g, MarkOne(c.ledger, job.id), rest, c.script);
      LeadsDoneMove(f, MarkOne(c.ledger, job.id), rest, c.script);
      LeadsDoneMove(Move(e), MarkOne(c.ledger, job.id), rest, c.script);
      LeadsDoneMove(e, MarkOne(c.ledger, job.id), rest, c.script);
      LeadsDoneMove(d, MarkOne(c.ledger, job.id), rest, c.script);
      LeadsDoneMove(c, MarkOne(c.ledger, job.id), rest, c.script);
    } else {
      LeadsHere(d);
      assert Done(d, c.ledger, rest, c.script);
      LeadsDoneMove(c, c.ledger, rest, c.script);
    }
  }

  lemma LeadsDoneTransitive(c: Config, d: Config, db: Ledger, tasks: seq<Task>, script: seq<Reply>)
    requires Leads(c, d) && LeadsDone(d, db, tasks, script)
    ensures LeadsDone(c, db, tasks, script)
  {
    LeadsToAfter(c, d, Outcome(db, script, false, []), tasks);
  }

  // After k listed jobs have been considered.
  lemma {:induction false} MarkMachine(c: Config, listed: seq<Listed>, k: nat, tail: seq<Task>)
    requires c.pass.ops == [] && c.pass.tasks == Considers(listed) + tail && k <= |listed| && AllKnown(c.ledger, listed)
    ensures AllKnown(c.ledger, listed[..k])
    ensures LeadsDone(c, MarkAll(c.ledger, listed[..k]).0, Considers(listed)[k..] + tail, c.script)
    decreases k
  {
    if k == 0 {
      LeadsHere(c);
      assert Considers(listed)[0..] + tail == c.pass.tasks;
      assert Done(c, c.ledger, c.pass.tasks, c.script);
    } else {
      MarkMachine(c, listed, k - 1, tail);
      var db1 := MarkAll(c.ledger, listed[..k - 1]).0;
      var d :| Leads(c, d) && Done(d, db1, Considers(listed)[k - 1..] + tail, c.script);
      assert Considers(listed)[k - 1..] + tail == [Consider(listed[k - 1])] + (Considers(listed)[k..] + tail);
      assert listed[k - 1] in listed;
      ConsiderMachine(d, listed[k - 1], Considers(listed)[k..] + tail);
      assert listed[..k][..k - 1] == listed[..k - 1];
      LeadsDoneTransitive(c, d, MarkAll(c.ledger, listed[..k]).0, Considers(listed)[k..] + tail, c.script);
    }
  }

  // After k listed jobs have been worked on, or stuck in one of them.
  lemma {:induction false} WorksMachine(c: Config, listed: seq<Listed>, k: nat)
    requires c.pass.ops == [] && c.pass.tasks == Works(listed) && k <= |listed| && AllKnown(c.ledger, listed)
    ensures AllKnown(c.ledger, listed[..k])
    ensures LeadsTo(c, HandleAll(c.ledger, listed[..k], c.script), Works(listed)[k..])
    decreases k
  {
    if k == 0 {
      LeadsHere(c);
      assert Done(c, c.ledger, Works(listed)[0..], c.script);
    } else {
      WorksMachine(c, listed, k - 1);
      assert listed[..k][..k - 1] == listed[..k - 1];
      var o := HandleAll(c.ledger, listed[..k - 1], c.script);
      var o' := HandleAll(c.ledger, listed[..k], c.script);
      if !o.crashed {
        var d :| Leads(c, d) && Done(d, o.ledger, Works(listed)[k - 1..], o.rest);
        assert Works(listed)[k - 1..] == [Work(listed[k - 1])] + Works(listed)[k..];
        assert listed[k - 1] in listed;
        WorkMachine(d, listed[k - 1], Works(listed)[k..]);
        LeadsToAfter(c, d, o', Works(listed)[k..]);
      }
    }
  }

  lemma MarkPhase(db: Ledger, script: seq<Reply>)
    requires Valid(db)
    ensures Valid(MarkStale(db).0)
    ensures LeadsDone(Config(db, BeginLocal(db, [TakeListing]), script), MarkStale(db).0, [TakeListing], script)
  {
    var listed := ListActive(db, 50);
    ListingFacts(db, 50);
    MarkMachine(Config(db, BeginLocal(db, [TakeListing]), script), listed, |listed|, [TakeListing]);
    assert listed[..|listed|] == listed;
    assert Considers(listed)[|listed|..] + [TakeListing] == [TakeListing];
    MarkAllTables(db, listed);
    SameTablesValid(db, MarkStale(db).0);
  }

  lemma WorkPhase(c: Config)
    requires Valid(c.ledger) && c.pass.ops == [] && c.pass.tasks == [TakeListing]
    ensures AllKnown(c.ledger, ListActive(c.ledger, PASS_LIMIT))
    ensures LeadsTo(c, HandleAll(c.ledger, ListActive(c.ledger, PASS_LIMIT), c.script), [])
  {
    var todo := ListActive(c.ledger, PASS_LIMIT);
    ListingFacts(c.ledger, PASS_LIMIT);
    assert [TakeListing][1..] == [] && Works(todo) + [] == Works(todo);
    WorksMachine(Move(c), todo, |todo|);
    assert todo[..|todo|] == todo && Works(todo)[|todo|..] == [];
    LeadsToMove(c, HandleAll(c.ledger, todo, c.script), []);
  }

  // A pass begun by a process that nobody interrupts does exactly what Pass says: it ends
  // with the same ledger and unread answers, or waits for good at the same await.
  lemma PassIsUninterruptedRun(db: Ledger, script: seq<Reply>)
    requires Valid(db)
    ensures LeadsTo(Config(db, BeginLocal(db, [TakeListing]), script), Pass(db, script), [])
  {
    var c := Config(db, BeginLocal(db, [TakeListing]), script);
    MarkPhase(db, script);
    var db1 := MarkStale(db).0;
    var d :| Leads(c, d) && Done(d, db1, [TakeListing], script);
    WorkPhase(d);
    LeadsToAfter(c, d, HandleAll(db1, ListActive(db1, PASS_LIMIT), script), []);
  }

  // ---- the same moves as actions of the system ---------------------------------------------------

  ghost predicate Holds(s: Sys, p: Pid, c: Config) {
    p in s.procs && s.procs[p].Supervisor? && s.procs[p].pass == Some(c.pass) && s.ledger == c.ledger
  }

  // Only process p acts, by its own steps and the answers it receives.
  ghost predicate ActionsOf(actions: seq<Action>, p: Pid) {
    forall a :: a in actions ==> a == Step(p) || (a.Answer? && a.pid == p)
  }

  lemma MoveIsAction(s: Sys, p: Pid, c: Config) returns (actions: seq<Action>)
    requires Holds(s, p, c)
    ensures |actions| <= 1 && ActionsOf(actions, p)
    ensures Holds(Execute(s, actions), p, Move(c))
  {
    if Waiting(c.pass) {
      if c.script == [] {
        actions := [];
      } else {
        actions := [Answer(p, c.script[0])];
        assert actions[..0] == [];
      }
    } else if c.pass.ops == [] && c.pass.tasks == [] {
      actions := [];
    } else {
      actions := [Step(p)];
      assert actions[..0] == [];
    }
  }

  lemma {:induction false} MovesAreActions(s: Sys, p: Pid, c: Config, n: nat) returns (actions: seq<Action>)
    requires Holds(s, p, c)
    ensures ActionsOf(actions, p) && Holds(Execute(s, actions), p, Moves(c, n))
    decreases n
  {
    if n == 0 { return []; }
    var first := MoveIsAction(s, p, c);
    var rest := MovesAreActions(Execute(s, first), p, Move(c), n - 1);
    actions := first + rest;
    MovesFirst(c, n);
    ThenHolds(s, p, first, rest, Moves(c, n));
  }

  lemma MovesFirst(c: Config, n: nat)
    requires n > 0
    ensures Moves(c, n) == Moves(Move(c), n - 1)
  {
  }

  lemma ThenHolds(s: Sys, p: Pid, first: seq<Action>, rest: seq<Action>, c: Config)
    requires ActionsOf(first, p) && ActionsOf(rest, p) && Holds(Execute(Execute(s, first), rest), p, c)
    ensures ActionsOf(first + rest, p) && Holds(Execute(s, first + rest), p, c)
  {
    ExecuteAppend(s, first, rest);
  }

  // So in the interleaved system a supervisor that has just begun a pass can carry it out
  // alone, and the ledger is then the one Pass computes.
  lemma SystemRunsPass(s: Sys, p: Pid, script: seq<Reply>) returns (actions: seq<Action>)
    requires Valid(s.ledger) && p in s.procs && s.procs[p].Supervisor?
    requires s.procs[p].pass == Some(BeginLocal(s.ledger, [TakeListing]))
    ensures ActionsOf(actions, p) && Execute(s, actions).ledger == Pass(s.ledger, script).ledger
  {
    var c := Config(s.ledger, BeginLocal(s.ledger, [TakeListing]), script);
    PassIsUninterruptedRun(s.ledger, script);
    var d: Config;
    if Pass(s.ledger, script).crashed {
      d :| Leads(c, d) && d.ledger == Pass(s.ledger, script).ledger && Waiting(d.pass) && d.script == [];
    } else {
      d :| Leads(c, d) && Done(d, Pass(s.ledger, script).ledger, [], Pass(s.ledger, script).rest);
    }
    var n: nat :| Moves(c, n) == d;
    actions := MovesAreActions(s, p, c, n);
  }
}
