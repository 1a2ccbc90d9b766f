/** When the limit on busy time applies, exactly, and when it never does. */
module BusyLimit {
  import opened Wrappers
  import opened JobLedger
  import opened Supervisor
  import opened SupervisorRuns
  import opened SupervisorSafety
  import opened SupervisorBounds
  import opened CutPasses
  import opened BusyTime

  // What comes after a job in the listing does not touch it.
  lemma {:induction false} HandleAllTail(db: Ledger, todo: seq<Listed>, k: nat, script: seq<Reply>, id: JobId)
    requires Current(db, todo) && DistinctIds(todo) && k <= |todo| && id in db.jobs
    requires forall i :: k <= i < |todo| ==> todo[i].id != id
    ensures AllKnown(db, todo[..k])
    ensures SameJob(HandleAll(db, todo[..k], script).ledger, HandleAll(db, todo, script).ledger, id)
    decreases |todo|
  {
    if k == |todo| {
      assert todo[..k] == todo;
      return;
    }
    var init, last := todo[..|todo| - 1], todo[|todo| - 1];
    CurrentInit(db, todo);
    assert init[..k] == todo[..k];
    HandleAllTail(db, init, k, script, id);
    var o1 := HandleAll(db, init, script);
    if o1.crashed { return; }
    NamesInit(todo, last.id);
    HandleAllEffect(db, init, script, last.id);
    HandleEffect(o1.ledger, last, o1.rest);
    assert SameJob(o1.ledger, HandleAll(db, todo, script).ledger, id);
  }

  lemma RunningBusyHandled(db: Ledger, job: Listed, script: seq<Reply>)
    requires job.id in db.jobs && db.jobs[job.id].status.Running? && BusyAnswered(script)
    ensures var s := HandleRunning(db, job, script).ledger.jobs[job.id].status;
      if |script| >= 2 && BusyTooLong(Tick(db, script[0].elapsed), job.id) then s.Blocked? else s.Running?
  {
  }

  lemma StaleBusyHandled(db: Ledger, job: Listed, script: seq<Reply>)
    requires job.id in db.jobs && BusyAnswered(script)
    ensures RecoverStale(db, job, script).ledger.jobs[job.id].status.Running?
  {
  }

  // The state of the pass when it comes to the k-th listed job.
  function ComesTo(db: Ledger, k: nat, script: seq<Reply>): Outcome
    requires Valid(db) && k <= |ListActive(db, PASS_LIMIT)|
  {
    MarkingKeepsListing(db, PASS_LIMIT);
    ListingFacts(MarkStale(db).0, PASS_LIMIT);
    HandleAll(MarkStale(db).0, ListActive(MarkStale(db).0, PASS_LIMIT)[..k], script)
  }

  ghost predicate LimitApplies(db: Ledger, o: Outcome, id: JobId)
    requires BusyAnswered(o.rest)
  {
    Fresh(db, id) && BusyTooLong(db.(now := o.ledger.now + o.rest[0].elapsed), id) && |o.rest| >= 2
  }

  // The limit, exactly. When Smith says busy, a running job is blocked if and only if its
  // heartbeat is running, was fresh when the pass began, more than 180 whole seconds have
  // gone by since dispatch, and the pass survives stopping Smith; otherwise it is running.
  // In particular a job whose heartbeat went stale between passes is not blocked.
  lemma BusyLimitFiresIff(db: Ledger, k: nat, id: JobId, script: seq<Reply>, o: Outcome)
    requires Valid(db) && k < |ListActive(db, PASS_LIMIT)| && ListActive(db, PASS_LIMIT)[k].id == id
    requires id in db.jobs && db.jobs[id].status.Running?
    requires o == ComesTo(db, k, script) && !o.crashed && BusyAnswered(o.rest)
    ensures id in Pass(db, script).ledger.jobs
    ensures var s := Pass(db, script).ledger.jobs[id].status;
      if LimitApplies(db, o, id) then s.Blocked? else s.Running?
  {
    var db1 := MarkStale(db).0;
    var todo := ListActive(db1, PASS_LIMIT);
    KthListed(db, k, id);
    ListingFacts(db1, PASS_LIMIT);
    BusyLimitOnListing(db1, todo, k, script, o, Pass(db, script).ledger);
    VerdictFromStart(db, db1, o, todo[k], Pass(db, script).ledger.jobs[id].status);
  }

  // The verdict in terms of the heartbeat the pass began with.
  lemma VerdictFromStart(db: Ledger, db1: Ledger, o: Outcome, job: Listed, s: Status)
    requires job.id in db.jobs && job.id in db1.jobs && db.jobs[job.id].status.Running?
    requires job.status == db1.jobs[job.id].status
    requires if Fresh(db, job.id) then ClockKept(db, db1, job.id) else job.status.Stale?
    requires SameJob(db1, o.ledger, job.id) && BusyAnswered(o.rest) && BusyVerdict(o.ledger, job, o.rest, s)
    ensures if LimitApplies(db, o, job.id) then s.Blocked? else s.Running?
  {
  }

  // After marking, the k-th job is still listed k-th: stale if its heartbeat was, else unchanged.
  lemma KthListed(db: Ledger, k: nat, id: JobId)
    requires Valid(db) && k < |ListActive(db, PASS_LIMIT)| && ListActive(db, PASS_LIMIT)[k].id == id
    requires id in db.jobs && db.jobs[id].status.Running?
    ensures var db1 := MarkStale(db).0; var todo := ListActive(db1, PASS_LIMIT);
      && Valid(db1) && k < |todo| && todo[k].id == id && id in db1.jobs && todo[k].status == db1.jobs[id].status
      && (if Fresh(db, id) then ClockKept(db, db1, id) else db1.jobs[id].status.Stale?)
  {
    MarkingKeepsListing(db, PASS_LIMIT);
    var todo := ListActive(MarkStale(db).0, PASS_LIMIT);
    ListingFacts(MarkStale(db).0, PASS_LIMIT);
    assert todo[k] in todo;
    ListedEarly(db, k);
    ListingFacts(db, 50);
    MarkAllEffect(db, ListActive(db, 50), id);
  }

  // Smith says that it is busy.
  ghost predicate BusyAnswered(script: seq<Reply>) {
    script != [] && script[0].ok && !script[0].idle
  }

  // The verdict on a busy answer, from the ledger at that moment and the listed status.
  ghost predicate BusyVerdict(db: Ledger, job: Listed, script: seq<Reply>, s: Status)
    requires BusyAnswered(script)
  {
    if job.status.Running? && |script| >= 2 && BusyTooLong(Tick(db, script[0].elapsed), job.id) then s.Blocked?
    else s.Running?
  }

  lemma BusyHandled(db: Ledger, job: Listed, script: seq<Reply>)
    requires job.id in db.jobs && job.status == db.jobs[job.id].status && BusyAnswered(script)
    requires job.status.Running? || job.status.Stale?
    ensures BusyVerdict(db, job, script, Handle(db, job, script).ledger.jobs[job.id].status)
  {
    if job.status.Running? { RunningBusyHandled(db, job, script); } else { StaleBusyHandled(db, job, script); }
  }

  lemma BusyLimitOnListing(db: Ledger, todo: seq<Listed>, k: nat, script: seq<Reply>, o: Outcome, db': Ledger)
    requires Current(db, todo) && DistinctIds(todo) && k < |todo| && AllKnown(db, todo[..k])
    requires todo[k].status.Running? || todo[k].status.Stale?
    requires o == HandleAll(db, todo[..k], script) && !o.crashed && BusyAnswered(o.rest)
    requires db' == HandleAll(db, todo, script).ledger
    ensures todo[k].id in db'.jobs && SameJob(db, o.ledger, todo[k].id)
    ensures BusyVerdict(o.ledger, todo[k], o.rest, db'.jobs[todo[k].id].status)
  {
    KthHandled(db, todo, k, script);
    BusyHandled(o.ledger, todo[k], o.rest);
  }

  // The k-th listed job is reached as it was listed, and keeps what its handler did.
  lemma KthHandled(db: Ledger, todo: seq<Listed>, k: nat, script: seq<Reply>)
    requires Current(db, todo) && DistinctIds(todo) && k < |todo| && AllKnown(db, todo[..k])
    requires !HandleAll(db, todo[..k], script).crashed
    ensures todo[k].id in db.jobs
    ensures var o := HandleAll(db, todo[..k], script); var id := todo[k].id;
      && SameJob(db, o.ledger, id)
      && SameJob(Handle(o.ledger, todo[k], o.rest).ledger, HandleAll(db, todo, script).ledger, id)
  {
    PrefixFacts(db, todo, k);
    HandleAllEffect(db, todo[..k], script, todo[k].id);
    var o := HandleAll(db, todo[..k], script);
    HandleAllNext(db, todo, k, script, o, Handle(o.ledger, todo[k], o.rest));
    HandleAllTail(db, todo, k + 1, script, todo[k].id);
  }

  lemma PrefixFacts(db: Ledger, todo: seq<Listed>, k: nat)
    requires Current(db, todo) && DistinctIds(todo) && k < |todo|
    ensures Current(db, todo[..k]) && DistinctIds(todo[..k]) && !Names(todo[..k], todo[k].id) && AllKnown(db, todo[..k])
    ensures todo[k] in todo && todo[k].id in db.jobs
  {
  }

  lemma ListedEarly(db: Ledger, k: nat)
    requires k < |ListActive(db, PASS_LIMIT)|
    ensures Names(ListActive(db, 50), ListActive(db, PASS_LIMIT)[k].id)
  {
    assert ListActive(db, 50)[k] == ListActive(db, PASS_LIMIT)[k];
    assert ListActive(db, 50)[k] in ListActive(db, 50);
  }

  // ---- the limit that never fires ----------------------------------------------------------

  // Every heartbeat was written by the helper, at some time in the past.
  ghost predicate Heard(db: Ledger) {
    forall id :: id in db.beats ==> db.beats[id].updatedAt <= db.now && db.beats[id].staleAfter == STALE_AFTER_SECONDS
  }

  // The log grew by events of which none is a busy timeout.
  ghost predicate NoTimeout(db: Ledger, db': Ledger) {
    && |db.events| <= |db'.events| && db'.events[..|db.events|] == db.events
    && forall i :: |db.events| <= i < |db'.events| ==> !db'.events[i].kind.BusyTimeoutStop?
  }

  ghost predicate QuietStep(db: Ledger, db': Ledger) {
    NoTimeout(db, db') && (Heard(db) ==> Heard(db'))
  }

  lemma QuietTransitive(db0: Ledger, db1: Ledger, db2: Ledger)
    requires QuietStep(db0, db1) && QuietStep(db1, db2)
    ensures QuietStep(db0, db2)
  {
    var n := |db0.events|;
    assert db2.events[..n] == db2.events[..|db1.events|][..n];
    forall i | n <= i < |db2.events| ensures !db2.events[i].kind.BusyTimeoutStop? {
      if i < |db1.events| { assert db2.events[i] == db2.events[..|db1.events|][i]; }
    }
  }

  lemma LogIsQuiet(db: Ledger, id: JobId, kind: EventKind, payload: Payload, elapsed: nat)
    requires !kind.BusyTimeoutStop?
    ensures QuietStep(db, AddEvent(Tick(db, elapsed), id, kind, payload))
  {
  }

  lemma SettleIsQuiet(db: Ledger, id: JobId, b: Beat, patch: Patch)
    requires id in db.jobs
    ensures QuietStep(db, Settle(db, id, b, patch))
  {
  }

  lemma HarvestIsQuiet(db: Ledger, job: Listed, status: Reply, script: seq<Reply>, kind: EventKind, phase: Phase,
                       stop: StopReason, error: Option<Complaint>, action: Deed)
    requires job.id in db.jobs && !kind.BusyTimeoutStop?
    ensures QuietStep(db, Harvest(db, job, status, script, kind, phase, stop, error, action).ledger)
  {
    if script != [] {
      var output := script[0];
      var db1 := AddEvent(Tick(db, output.elapsed), job.id, kind, Bounded(output));
      LogIsQuiet(db, job.id, kind, Bounded(output), output.elapsed);
      SettleIsQuiet(db1, job.id, ReviewBeat(job.alias, phase, stop, output, status), ReviewPatch(error));
      QuietTransitive(db, db1, Harvest(db, job, status, script, kind, phase, stop, error, action).ledger);
    }
  }

  lemma RecoverIsQuiet(db: Ledger, job: Listed, script: seq<Reply>)
    requires job.id in db.jobs
    ensures QuietStep(db, RecoverStale(db, job, script).ledger)
  {
    if script == [] { return; }
    var status := script[0];
    var db1 := AddEvent(Tick(db, status.elapsed), job.id, StatusAfterStale, Bounded(status));
    LogIsQuiet(db, job.id, StatusAfterStale, Bounded(status), status.elapsed);
    if status.ok && status.idle {
      HarvestIsQuiet(db1, job, status, script[1..], OutputAfterStale, PhOutputReadyAfterStale,
                     BecauseSmithIdleAfterStale, Some(NoComplaint), DidHarvestedOutputAfterStale);
    } else if status.ok {
      SettleIsQuiet(db1, job.id, BusyBeat(job.alias, PhSmithBusyAfterStale, status), BUSY_PATCH);
    } else {
      SettleIsQuiet(db1, job.id,
                    StatusFailedBeat(job.alias, PhStatusFailedAfterStale, BecauseStatusFailedAfterStale, status),
                    StatusFailedPatch(status, SmithStatusFailedAfterStale));
    }
    QuietTransitive(db, db1, RecoverStale(db, job, script).ledger);
  }

  // A running job without a heartbeat has no busy time to limit.
  lemma RunningIsQuiet(db: Ledger, job: Listed, script: seq<Reply>)
    requires job.id in db.jobs && job.id !in db.beats
    ensures QuietStep(db, HandleRunning(db, job, script).ledger)
  {
    if script == [] { return; }
    var status := script[0];
    var db1 := AddEvent(Tick(db, status.elapsed), job.id, SmithStatus, Bounded(status));
    LogIsQuiet(db, job.id, SmithStatus, Bounded(status), status.elapsed);
    if !status.ok {
      SettleIsQuiet(db1, job.id, StatusFailedBeat(job.alias, PhStatusFailed, BecauseStatusFailed, status),
                    StatusFailedPatch(status, SmithStatusFailed));
    } else if status.idle {
      HarvestIsQuiet(db1, job, status, script[1..], SmithOutput, PhOutputReady, BecauseSmithIdle, None,
                     DidReadyForReview);
    } else {
      SettleIsQuiet(db1, job.id, BusyBeat(job.alias, PhSmithBusy, status), STILL_BUSY_PATCH);
    }
    QuietTransitive(db, db1, HandleRunning(db, job, script).ledger);
  }

  lemma TimeoutIsQuiet(db: Ledger, job: Listed, sent: Reply, script: seq<Reply>)
    requires job.id in db.jobs
    ensures QuietStep(db, AfterTimeout(db, job, sent, script).ledger)
  {
    if script == [] { return; }
    var status := script[0];
    var db1 := AddEvent(Tick(db, status.elapsed), job.id, StatusAfterSendTimeout, Bounded(status));
    LogIsQuiet(db, job.id, StatusAfterSendTimeout, Bounded(status), status.elapsed);
    if status.ok && status.idle {
      HarvestIsQuiet(db1, job, status, script[1..], OutputAfterSendTimeout, PhOutputReadyAfterSendTimeout,
                     BecauseSmithIdleAfterSendTimeout, Some(NoComplaint), DidHarvestedOutputAfterSendTimeout);
    } else if status.ok {
      SettleIsQuiet(db1, job.id, BusyBeat(job.alias, PhSmithBusyAfterSendTimeout, status), BUSY_PATCH);
    } else {
      SettleIsQuiet(db1, job.id, SentBeat(job.alias, sent), SentPatch(sent));
    }
    QuietTransitive(db, db1, AfterTimeout(db, job, sent, script).ledger);
  }

  lemma QueuedIsQuiet(db: Ledger, job: Listed, script: seq<Reply>)
    requires job.id in db.jobs
    ensures QuietStep(db, HandleQueued(db, job, script).ledger)
  {
    var db1 := Dispatch(db, job);
    assert QuietStep(db, db1);
    if script == [] { return; }
    var sent := script[0];
    var db2 := AddEvent(Tick(db1, sent.elapsed), job.id, SmithSend, Bounded(sent));
    LogIsQuiet(db1, job.id, SmithSend, Bounded(sent), sent.elapsed);
    QuietTransitive(db, db1, db2);
    if SendTimedOut(sent) {
      TimeoutIsQuiet(db2, job, sent, script[1..]);
    } else {
      SettleIsQuiet(db2, job.id, SentBeat(job.alias, sent), SentPatch(sent));
    }
    QuietTransitive(db, db2, HandleQueued(db, job, script).ledger);
  }

  lemma HandleIsQuiet(db: Ledger, job: Listed, script: seq<Reply>)
    requires job.id in db.jobs && (job.status.Running? ==> job.id !in db.beats)
    ensures QuietStep(db, Handle(db, job, script).ledger)
  {
    match job.status
    case Stale => RecoverIsQuiet(db, job, script);
    case Queued => QueuedIsQuiet(db, job, script);
    case Running => RunningIsQuiet(db, job, script);
    case _ =>
  }

  // No running job on the list has a heartbeat: those that had one have been marked stale.
  ghost predicate NoneTimed(db: Ledger, todo: seq<Listed>) {
    forall j :: j in todo && j.status.Running? ==> j.id !in db.beats
  }

  lemma {:induction false} HandleAllIsQuiet(db: Ledger, todo: seq<Listed>, script: seq<Reply>)
    requires Current(db, todo) && DistinctIds(todo) && NoneTimed(db, todo)
    ensures QuietStep(db, HandleAll(db, todo, script).ledger)
  {
    if todo == [] { return; }
    var init, last := todo[..|todo| - 1], todo[|todo| - 1];
    CurrentInit(db, todo);
    HandleAllIsQuiet(db, init, script);
    var o := HandleAll(db, init, script);
    if o.crashed { return; }
    NamesInit(todo, last.id);
    HandleAllEffect(db, init, script, last.id);
    assert GetBeat(db, last.id) == GetBeat(o.ledger, last.id);
    HandleIsQuiet(o.ledger, last, o.rest);
    QuietTransitive(db, o.ledger, Handle(o.ledger, last, o.rest).ledger);
  }

  lemma {:induction false} MarkAllIsQuiet(db: Ledger, todo: seq<Listed>)
    requires AllKnown(db, todo)
    ensures QuietStep(db, MarkAll(db, todo).0)
  {
    if todo == [] { return; }
    MarkAllIsQuiet(db, todo[..|todo| - 1]);
    var db1, last := MarkAll(db, todo[..|todo| - 1]).0, todo[|todo| - 1];
    if ShouldMark(db1, last) {
      assert QuietStep(db1, MarkOne(db1, last.id));
      QuietTransitive(db, db1, MarkOne(db1, last.id));
    }
  }

  // A pass that begins with every heartbeat too old.
  ghost predicate AllOverdue(db: Ledger) {
    forall id :: id in db.beats ==> BeatIsStale(db.beats[id], db.now)
  }

  lemma MarkingLeavesNoneTimed(db: Ledger)
    requires Valid(db) && AllOverdue(db)
    ensures Valid(MarkStale(db).0) && NoneTimed(MarkStale(db).0, ListActive(MarkStale(db).0, PASS_LIMIT))
  {
    var db1 := MarkStale(db).0;
    var todo := ListActive(db1, PASS_LIMIT);
    MarkingKeepsListing(db, PASS_LIMIT);
    ListingFacts(db, 50);
    ListingFacts(db1, PASS_LIMIT);
    forall j | j in todo && j.status.Running? ensures j.id !in db1.beats {
      assert Names(todo, j.id);
      NamedEarly(db, j.id);
      MarkAllEffect(db, ListActive(db, 50), j.id);
    }
  }

  lemma NamedEarly(db: Ledger, id: JobId)
    requires Names(ListActive(db, PASS_LIMIT), id)
    ensures Names(ListActive(db, 50), id)
  {
    var j :| j in ListActive(db, PASS_LIMIT) && j.id == id;
    var k :| 0 <= k < |ListActive(db, PASS_LIMIT)| && ListActive(db, PASS_LIMIT)[k] == j;
    ListedEarly(db, k);
  }

  lemma OverduePassIsQuiet(db: Ledger, script: seq<Reply>)
    requires Valid(db) && AllOverdue(db)
    ensures QuietStep(db, Pass(db, script).ledger)
  {
    var db1 := MarkStale(db).0;
    ListingFacts(db, 50);
    MarkAllIsQuiet(db, ListActive(db, 50));
    MarkingLeavesNoneTimed(db);
    ListingFacts(db1, PASS_LIMIT);
    HandleAllIsQuiet(db1, ListActive(db1, PASS_LIMIT), script);
    QuietTransitive(db, db1, Pass(db, script).ledger);
  }

  // Passes further apart than the time after which a heartbeat is stale.
  ghost predicate Slow(rounds: seq<Round>) {
    forall r :: r in rounds ==> SlowRound(r)
  }

  predicate SlowRound(r: Round) {
    r.gap > STALE_AFTER_SECONDS * SECOND
  }

  lemma SlowTurnIsQuiet(db: Ledger, r: Round)
    requires Valid(db) && Heard(db) && SlowRound(r)
    ensures Valid(Tick(db, r.gap)) && AllOverdue(Tick(db, r.gap))
    ensures QuietStep(db, Turn(db, r).ledger)
  {
    OverduePassIsQuiet(Tick(db, r.gap), r.script);
    assert QuietStep(db, Tick(db, r.gap));
    QuietTransitive(db, Tick(db, r.gap), Turn(db, r).ledger);
  }

  // With passes more than 300 seconds apart the limit never fires: whatever jobs there are,
  // whatever Smith answers and wherever passes crash, no busy timeout is ever logged.
  lemma {:induction false} SlowPassesNeverBlock(db: Ledger, rounds: seq<Round>)
    requires Valid(db) && Heard(db) && Slow(rounds)
    ensures NoTimeout(db, Rounds(db, rounds)) && Heard(Rounds(db, rounds))
    decreases |rounds|
  {
    if rounds == [] { return; }
    assert rounds[0] in rounds;
    SlowTurnIsQuiet(db, rounds[0]);
    SlowPassesNeverBlock(Turn(db, rounds[0]).ledger, rounds[1..]);
    QuietTransitive(db, Turn(db, rounds[0]).ledger, Rounds(db, rounds));
  }

  // The pass comes to the job and Smith says busy.
  ghost predicate AnswersBusy(db: Ledger, script: seq<Reply>, id: JobId)
    requires Valid(db)
  {
    exists k: nat ::
      && k < |ListActive(db, PASS_LIMIT)| && ListActive(db, PASS_LIMIT)[k].id == id
      && !ComesTo(db, k, script).crashed && BusyAnswered(ComesTo(db, k, script).rest)
  }

  ghost predicate AlwaysBusy(db: Ledger, rounds: seq<Round>, id: JobId)
    requires Valid(db)
    decreases |rounds|
  {
    rounds == [] || (
      && AnswersBusy(Tick(db, rounds[0].gap), rounds[0].script, id)
      && AlwaysBusy(Turn(db, rounds[0]).ledger, rounds[1..], id))
  }

  lemma OverdueBusyStaysRunning(db: Ledger, script: seq<Reply>, id: JobId)
    requires Valid(db) && AllOverdue(db) && id in db.jobs && db.jobs[id].status.Running?
    requires AnswersBusy(db, script, id)
    ensures id in Pass(db, script).ledger.jobs && Pass(db, script).ledger.jobs[id].status.Running?
  {
    var k: nat :|
      && k < |ListActive(db, PASS_LIMIT)| && ListActive(db, PASS_LIMIT)[k].id == id
      && !ComesTo(db, k, script).crashed && BusyAnswered(ComesTo(db, k, script).rest);
    BusyLimitFiresIff(db, k, id, script, ComesTo(db, k, script));
  }

  // So a job that Smith reports as busy pass after pass stays running for ever.
  lemma {:induction false} SlowBusyJobRunsForever(db: Ledger, rounds: seq<Round>, id: JobId)
    requires Valid(db) && Heard(db) && Slow(rounds) && AlwaysBusy(db, rounds, id)
    requires id in db.jobs && db.jobs[id].status.Running?
    ensures id in Rounds(db, rounds).jobs && Rounds(db, rounds).jobs[id].status.Running?
    decreases |rounds|
  {
    if rounds == [] { return; }
    assert rounds[0] in rounds;
    SlowTurnIsQuiet(db, rounds[0]);
    OverdueBusyStaysRunning(Tick(db, rounds[0].gap), rounds[0].script, id);
    SlowBusyJobRunsForever(Turn(db, rounds[0]).ledger, rounds[1..], id);
  }
}
