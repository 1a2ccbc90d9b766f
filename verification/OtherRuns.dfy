/** Stops, status queries and outside writers, each left alone; and what the counters count. */
module OtherRuns {
  import opened Wrappers
  import opened JobLedger
  import opened Supervisor
  import opened SupervisorSafety
  import opened SupervisorProtocol
  import opened PassRefinement

  // ---- uninterrupted runs ------------------------------------------------------------------

  // A stop that nobody interrupts does exactly what StopJob says, or waits for good.
  lemma StopIsUninterruptedRun(s: Sys, p: Pid, id: JobId, script: seq<Reply>)
    requires p !in s.procs && id in s.ledger.jobs
    ensures var t := Next(s, StartStop(p, id));
      && p in t.procs && t.procs[p].Stopper? && t == s.(procs := s.procs[p := t.procs[p]])
      && LeadsTo(Config(s.ledger, t.procs[p].stop, script), StopJob(s.ledger, id, script), [])
  {
    var c := Config(s.ledger, Next(s, StartStop(p, id)).procs[p].stop, script);
    var o := StopJob(s.ledger, id, script);
    AskSegment(c, StopCall);
    var d := Move(c);
    if script == [] {
      StuckHere(d);
    } else {
      AnswerSettles(d, StopCall, SmithStop, Bounded(script[0]), StopBeat(c.pass.job.alias, script[0]), STOP_PATCH, o);
    }
    LeadsToMove(c, o, []);
  }

  // A status query that nobody interrupts marks the overdue runs, and nothing else.
  lemma QueryIsMarking(s: Sys, p: Pid, script: seq<Reply>)
    requires p !in s.procs && Valid(s.ledger)
    ensures var t := Next(s, StartStatusQuery(p));
      && p in t.procs && t.procs[p].StatusQuery? && t == s.(procs := s.procs[p := t.procs[p]])
      && LeadsDone(Config(s.ledger, t.procs[p].query, script), MarkStale(s.ledger).0, [], script)
  {
    var listed := ListActive(s.ledger, 50);
    ListingFacts(s.ledger, 50);
    MarkMachine(Config(s.ledger, BeginLocal(s.ledger, []), script), listed, |listed|, []);
    assert listed[..|listed|] == listed;
    assert Considers(listed)[|listed|..] + [] == [];
  }

  function WithBeat(db: Ledger, id: JobId, beat: Option<Heartbeat>): Ledger {
    match beat
    case None => db
    case Some(h) => db.(beats := db.beats[id := h])
  }

  // An outside writer that nobody interrupts is one update, and its heartbeat if it records one.
  lemma WriterIsUpdate(s: Sys, p: Pid, id: JobId, patch: Patch, beat: Option<Heartbeat>, script: seq<Reply>)
    requires p !in s.procs && id in s.ledger.jobs
    ensures var t := Next(s, StartWriter(p, id, patch, beat));
      && p in t.procs && t.procs[p].Writer? && t == s.(procs := s.procs[p := t.procs[p]])
      && LeadsDone(Config(s.ledger, t.procs[p].write, script), WithBeat(Update(s.ledger, id, patch), id, beat), [],
                   script)
  {
    var c := Config(s.ledger, Next(s, StartWriter(p, id, patch, beat)).procs[p].write, script);
    var rest := if beat.Some? then [PutBeat(beat.value)] else [];
    var after := WithBeat(Update(s.ledger, id, patch), id, beat);
    JobSegment(c, patch, rest);
    var d := Move(Move(c));
    if beat.Some? {
      assert d.pass.ops[1..] == [];
      LeadsHere(Move(d));
      assert PassRefinement.Done(Move(d), after, [], script);
      LeadsDoneMove(d, after, [], script);
    } else {
      LeadsHere(d);
      assert PassRefinement.Done(d, after, [], script);
    }
    LeadsDoneMove(Move(c), after, [], script);
    LeadsDoneMove(c, after, [], script);
  }

  // ---- who gets the lock ----------------------------------------------------------------------

  // A supervisor that is started gets the lock if nobody holds it; otherwise it exits, and the
  // system is as if it had never been started.
  lemma OneGetsTheLock(s: Sys, p: Pid, f: string)
    requires p !in s.procs
    ensures Next(Next(s, StartSupervisor(p, f)), TryLock(p)) ==
      if f in s.locks then s else s.(procs := s.procs[p := Supervisor(f, true, None)], locks := s.locks[f := p])
  {
    var started := Next(s, StartSupervisor(p, f));
    assert started.procs - {p} == s.procs;
    assert s.procs[p := Supervisor(f, false, None)][p := Supervisor(f, true, None)] ==
      s.procs[p := Supervisor(f, true, None)];
  }

  // An exception ends the pass and nothing else: the process lives on and keeps its lock. A death
  // gives the locks back.
  lemma RaiseKeepsAndDeathFrees(s: Sys, p: Pid)
    requires p in s.procs && s.procs[p].Supervisor?
    ensures Next(s, Raise(p)) == s.(procs := s.procs[p := Supervisor(s.procs[p].lockFile, s.procs[p].holding, None)])
    ensures var dead := Next(s, Die(p));
      && dead == s.(procs := s.procs - {p}, locks := dead.locks)
      && forall f :: (f in dead.locks <==> f in s.locks && s.locks[f] != p) &&
                     (f in dead.locks ==> dead.locks[f] == s.locks[f])
  {
  }

  // ---- the counters ---------------------------------------------------------------------------

  // The operation that a step of the process is about to carry out on the job.
  ghost predicate NextOp(s: Sys, a: Action, id: JobId, op: Op) {
    && a.Step? && HasLocal(s, a.pid)
    && LocalOf(s.procs[a.pid]).value.ops != [] && LocalOf(s.procs[a.pid]).value.ops[0] == op
    && LocalOf(s.procs[a.pid]).value.job.id == id
  }

  // The stored status of the job becomes queued.
  ghost predicate BecomesQueued(s: Sys, s': Sys, id: JobId) {
    && id in s'.ledger.jobs && s'.ledger.jobs[id].status == Queued
    && !(id in s.ledger.jobs && s.ledger.jobs[id].status == Queued)
  }

  // The action asks for the job to be queued.
  ghost predicate Requests(s: Sys, a: Action, id: JobId) {
    a.SubmitJob? || exists patch: Patch :: patch.status == Some(Queued) && NextOp(s, a, id, WriteJob(patch))
  }

  lemma StepCounts(s: Sys, p: Pid, id: JobId)
    requires HasLocal(s, p)
    ensures var s', l := Next(s, Step(p)), LocalOf(s.procs[p]).value;
      var queued := l.job.id == id && Requeues(s.ledger, s'.ledger, id);
      && Count(s'.sends, id) == Count(s.sends, id) + One(NextOp(s, Step(p), id, Ask(Send)))
      && Count(s'.asked, id) == Count(s.asked, id) + One(queued && SaysQueued(l))
      && Count(s'.revived, id) == Count(s.revived, id) + One(queued && !SaysQueued(l) && !s.procs[p].Supervisor?)
  {
  }

  // A step changes the row of the job in hand only, and only by writing it.
  lemma StepRequeues(s: Sys, p: Pid, id: JobId)
    requires HasLocal(s, p)
    ensures var l := LocalOf(s.procs[p]).value;
      id != l.job.id || l.ops == [] || !l.ops[0].WriteJob? ==> !Requeues(s.ledger, Next(s, Step(p)).ledger, id)
  {
  }

  lemma SubmitCounts(s: Sys, newId: JobId, alias: string, id: JobId)
    ensures var s' := Next(s, SubmitJob(newId, alias));
      && s'.sends == s.sends && s'.revived == s.revived
      && Count(s'.asked, id) == Count(s.asked, id) + One(Requeues(s.ledger, s'.ledger, id))
  {
  }

  ghost predicate Counted(s: Sys, a: Action, id: JobId) {
    var s' := Next(s, a);
    var queued, requested := BecomesQueued(s, s', id), Requests(s, a, id);
    && Count(s'.sends, id) == Count(s.sends, id) + One(NextOp(s, a, id, Ask(Send)))
    && Count(s'.asked, id) == Count(s.asked, id) + One(queued && requested)
    && Count(s'.revived, id) ==
         Count(s.revived, id) +
         One(queued && !requested && a.Step? && a.pid in s.procs && !s.procs[a.pid].Supervisor?)
  }

  // The step of a process asks for the job to be queued exactly when its next operation says so.
  lemma StepRequests(s: Sys, p: Pid, id: JobId)
    requires HasLocal(s, p)
    ensures var l := LocalOf(s.procs[p]).value; Requests(s, Step(p), id) <==> l.job.id == id && SaysQueued(l)
  {
    var l := LocalOf(s.procs[p]).value;
    if l.job.id == id && SaysQueued(l) { assert NextOp(s, Step(p), id, WriteJob(l.ops[0].patch)); }
  }

  lemma StepCounted(s: Sys, p: Pid, id: JobId)
    requires HasLocal(s, p)
    ensures Counted(s, Step(p), id)
  {
    StepCounts(s, p, id);
    StepRequeues(s, p, id);
    StepRequests(s, p, id);
  }

  // A send is counted when the prompt goes out; a request when a submission or a write that says
  // so queues the job; a revival when a process that is not a supervisor queues it otherwise.
  lemma CountersCount(s: Sys, a: Action, id: JobId)
    ensures Counted(s, a, id)
  {
    if a.SubmitJob? {
      SubmitCounts(s, a.newId, a.alias, id);
    } else if a.Step? && HasLocal(s, a.pid) {
      StepCounted(s, a.pid, id);
    }
  }
}
