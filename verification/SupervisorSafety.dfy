/** Theorems about whole passes and whole runs of the supervisor. */
module SupervisorSafety {
  import opened Wrappers
  import opened TextOrder
  import opened JobLedger
  import opened Supervisor
  import opened SupervisorRuns

  lemma ListingFacts(db: Ledger, limit: nat)
    requires Valid(db)
    ensures Current(db, ListActive(db, limit)) && DistinctIds(ListActive(db, limit))
    ensures forall id :: Names(ListActive(db, limit), id) ==> id in db.jobs && Active(db.jobs[id].status)
  {
    ActiveKnown(db.jobs, db.order);
    ActiveDistinct(db.jobs, db.order);
  }

  lemma SameTablesValid(db: Ledger, db': Ledger)
    requires Valid(db) && SameTables(db, db')
    ensures Valid(db')
  {
    forall i, j | 0 <= i < j < |db'.order| ensures Before(db'.jobs, db'.order[i], db'.order[j]) {
      assert Before(db.jobs, db.order[i], db.order[j]);
    }
  }

  // Marking keeps the tables well formed, and both listings of a pass tell the truth.
  lemma MarkedValid(db: Ledger)
    requires Valid(db)
    ensures Current(db, ListActive(db, 50)) && DistinctIds(ListActive(db, 50))
    ensures var db1 := MarkStale(db).0;
      && Valid(db1) && SameTables(db, db1)
      && Current(db1, ListActive(db1, PASS_LIMIT)) && DistinctIds(ListActive(db1, PASS_LIMIT))
  {
    var db1 := MarkStale(db).0;
    ListingFacts(db, 50);
    MarkAllTables(db, ListActive(db, 50));
    SameTablesValid(db, db1);
    ListingFacts(db1, PASS_LIMIT);
  }

  lemma PassTables(db: Ledger, script: seq<Reply>)
    requires Valid(db)
    ensures SameTables(db, Pass(db, script).ledger) && Valid(Pass(db, script).ledger)
  {
    var db1 := MarkStale(db).0;
    MarkedValid(db);
    HandleAllTables(db1, ListActive(db1, PASS_LIMIT), script);
    SameTablesTransitive(db, db1, Pass(db, script).ledger);
    SameTablesValid(db, Pass(db, script).ledger);
  }

  lemma SameJobTransitive(db0: Ledger, db1: Ledger, db2: Ledger, id: JobId)
    requires SameJob(db0, db1, id) && SameJob(db1, db2, id)
    ensures SameJob(db0, db2, id)
  {
  }

  lemma MarkingLeavesAlone(db: Ledger, id: JobId)
    requires Valid(db) && id in db.jobs && !db.jobs[id].status.Running?
    ensures SameJob(db, MarkStale(db).0, id) && LastEntry(StaleEntries(MarkStale(db).1), id).None?
  {
    MarkedValid(db);
    MarkAllEffect(db, ListActive(db, 50), id);
  }

  // Reviewed, blocked, done and stopped jobs are out of the supervisor's reach: a pass
  // changes nothing about them and does not report them, wherever it crashes.
  lemma PassLeavesOthersAlone(db: Ledger, script: seq<Reply>, id: JobId)
    requires Valid(db) && id in db.jobs
    requires db.jobs[id].status.NeedsReview? || db.jobs[id].status.Blocked? || db.jobs[id].status.Done?
      || db.jobs[id].status.Stopped?
    ensures var o := Pass(db, script); SameJob(db, o.ledger, id) && LastEntry(o.results, id).None?
  {
    var (db1, marked) := MarkStale(db);
    MarkedValid(db);
    MarkingLeavesAlone(db, id);
    HandleAllEffect(db1, ListActive(db1, PASS_LIMIT), script, id);
    SameJobTransitive(db, db1, Pass(db, script).ledger, id);
    LastEntryAppend(StaleEntries(marked), HandleAll(db1, ListActive(db1, PASS_LIMIT), script).results, id);
  }

  // A completed pass reports exactly the jobs it changed: the last entry about a job gives
  // the status now stored and the action that led to it, and a job with no entry is as it was.
  lemma PassReportsStoredStatus(db: Ledger, script: seq<Reply>, id: JobId)
    requires Valid(db) && id in db.jobs && !Pass(db, script).crashed
    ensures var o := Pass(db, script);
      if LastEntry(o.results, id).None? then SameJob(db, o.ledger, id) else Settled(o.ledger, o.results, id)
  {
    var (db1, marked) := MarkStale(db);
    MarkedValid(db);
    MarkAllEffect(db, ListActive(db, 50), id);
    var o := HandleAll(db1, ListActive(db1, PASS_LIMIT), script);
    HandleAllEffect(db1, ListActive(db1, PASS_LIMIT), script, id);
    LastEntryAppend(StaleEntries(marked), o.results, id);
    if SameJob(db1, o.ledger, id) { SameJobKeeps(db1, o.ledger, id); }
  }

  lemma PassAgreement(db: Ledger, script: seq<Reply>)
    requires Valid(db) && Agreement(db) && !Pass(db, script).crashed
    ensures Agreement(Pass(db, script).ledger)
  {
    var o := Pass(db, script);
    PassTables(db, script);
    forall id | id in o.ledger.jobs
      ensures BeatAgrees(o.ledger, id) && LogAgrees(o.ledger, id) && CompletionAgrees(o.ledger, id)
    {
      PassReportsStoredStatus(db, script, id);
      if SameJob(db, o.ledger, id) { SameJobKeeps(db, o.ledger, id); }
    }
  }

  // ---- runs ---------------------------------------------------------------------

  datatype Command =
    | Submit(id: JobId, alias: string)
    | Wait(micros: nat)
    | RunPass(script: seq<Reply>)
    | OperatorStop(id: JobId, script: seq<Reply>)

  // Passes and stops that finish; a new job needs a new id.
  ghost predicate Admissible(db: Ledger, a: Command)
    requires Valid(db)
  {
    match a
    case Submit(id, _) => id !in db.jobs
    case Wait(_) => true
    case RunPass(script) => !Pass(db, script).crashed
    case OperatorStop(id, script) => !StopJob(db, id, script).crashed
  }

  ghost function Act(db: Ledger, a: Command): Ledger
    requires Valid(db) && Admissible(db, a)
  {
    match a
    case Submit(id, alias) => Create(db, id, alias)
    case Wait(micros) => Tick(db, micros)
    case RunPass(script) => Pass(db, script).ledger
    case OperatorStop(id, script) => StopJob(db, id, script).ledger
  }

  // A run is the ledgers it goes through and the actions between them.
  ghost predicate IsRun(states: seq<Ledger>, actions: seq<Command>) {
    && |states| == |actions| + 1
    && (exists now :: states[0] == Ledger(map[], [], map[], [], now))
    && forall i :: 0 <= i < |actions| ==>
         Valid(states[i]) && Admissible(states[i], actions[i]) && states[i + 1] == Act(states[i], actions[i])
  }

  lemma {:induction false} InsertKeepsOrder(jobs: map<JobId, Job>, ids: seq<JobId>, id: JobId)
    requires id in jobs && id !in ids && forall x :: x in ids ==> x in jobs
    requires Distinct(ids)
    requires forall i, j :: 0 <= i < j < |ids| ==> Before(jobs, ids[i], ids[j])
    ensures var r := InsertInOrder(jobs, ids, id);
      Distinct(r) && forall i, j :: 0 <= i < j < |r| ==> Before(jobs, r[i], r[j])
  {
    InsertIsOnce(jobs, ids, id);
    if ids == [] { return; }
    var init, last := ids[..|ids| - 1], ids[|ids| - 1];
    var r := InsertInOrder(jobs, ids, id);
    if Before(jobs, last, id) {
      assert r == ids + [id];
      forall i | 0 <= i < |ids| ensures Before(jobs, ids[i], id) {
        if i < |ids| - 1 { BeforeTransitive(jobs, ids[i], last, id); }
      }
    } else {
      InsertKeepsOrder(jobs, init, id);
      var r1 := InsertInOrder(jobs, init, id);
      assert r == r1 + [last];
      forall i | 0 <= i < |r1| ensures Before(jobs, r1[i], last) {
        assert r1[i] in r1;
        if r1[i] == id {
          StrLeTotal(id, last);
        } else {
          var k :| 0 <= k < |init| && init[k] == r1[i];
          assert Before(jobs, ids[k], ids[|ids| - 1]);
        }
      }
    }
  }

  lemma BeforeTransitive(jobs: map<JobId, Job>, a: JobId, b: JobId, c: JobId)
    requires a in jobs && b in jobs && c in jobs && Before(jobs, a, b) && Before(jobs, b, c)
    ensures Before(jobs, a, c)
  {
    if jobs[a].createdAt == jobs[c].createdAt {
      StrLeTransitive(a, b, c);
      if a == c { StrLeAntisymmetric(a, b); }
    }
  }

  // Submitting keeps the listing in (created_at, job_id) order.
  lemma CreateValid(db: Ledger, id: JobId, alias: string)
    requires Valid(db) && id !in db.jobs
    ensures Valid(Create(db, id, alias))
  {
    var db' := Create(db, id, alias);
    forall i, j | 0 <= i < j < |db.order| ensures Before(db'.jobs, db.order[i], db.order[j]) {
      assert db.order[i] in db.jobs && db.order[j] in db.jobs;
      assert Before(db.jobs, db.order[i], db.order[j]);
    }
    InsertKeepsOrder(db'.jobs, db.order, id);
  }

  lemma StopEffect(db: Ledger, id: JobId, script: seq<Reply>)
    requires id in db.jobs && script != []
    ensures var o := StopJob(db, id, script);
      && OnlyTouches(db, o.ledger, id) && Finished(o, id) && o.ledger.jobs[id].status.Stopped?
  {
    var stopped := script[0];
    var db1 := AddEvent(Tick(db, stopped.elapsed), id, SmithStop, Bounded(stopped));
    assert db1.events[..|db.events|] == db.events;
    LogTouches(db, id, SmithStop, Bounded(stopped), stopped.elapsed);
    FinishOne(db1, id, SmithStop, Bounded(stopped), StopBeat(db.jobs[id].alias, stopped), STOP_PATCH, script[1..],
              Stopped, DidStop);
    OnlyTouchesTransitive(db, db1, StopJob(db, id, script).ledger, id);
  }

  lemma StopAgreement(db: Ledger, id: JobId, script: seq<Reply>)
    requires Valid(db) && Agreement(db) && !StopJob(db, id, script).crashed
    ensures Valid(StopJob(db, id, script).ledger) && Agreement(StopJob(db, id, script).ledger)
  {
    var db' := StopJob(db, id, script).ledger;
    StopEffect(db, id, script);
    TouchedTables(db, db', id);
    SameTablesValid(db, db');
    forall x | x in db'.jobs ensures BeatAgrees(db', x) && LogAgrees(db', x) && CompletionAgrees(db', x) {
      if x != id {
        assert SameJob(db, db', x);
        SameJobKeeps(db, db', x);
      }
    }
  }

  lemma {:induction false} NoEventsOf(events: seq<Event>, id: JobId)
    requires forall e :: e in events ==> e.id != id
    ensures EventsOf(events, id) == []
  {
    if events != [] { NoEventsOf(events[..|events| - 1], id); }
  }

  lemma CreateAgreement(db: Ledger, id: JobId, alias: string)
    requires Valid(db) && Agreement(db) && id !in db.jobs
    ensures Agreement(Create(db, id, alias))
  {
    var db' := Create(db, id, alias);
    NoEventsOf(db.events, id);
    forall x | x in db'.jobs ensures BeatAgrees(db', x) && LogAgrees(db', x) && CompletionAgrees(db', x) {
      if x != id { SameJobKeeps(db, db', x); }
    }
  }

  // Over every run, whatever Smith answers: for every job the heartbeat, the record and the
  // last log entry tell the same story, the log (when nothing in it was cut short) replays
  // to the stored status, and completed_at is set exactly for blocked, done, stopped and
  // stale jobs.
  lemma {:induction false} RunsAgree(states: seq<Ledger>, actions: seq<Command>, n: nat)
    requires IsRun(states, actions) && n < |states|
    ensures Valid(states[n]) && Agreement(states[n])
  {
    if n == 0 { return; }
    RunsAgree(states, actions, n - 1);
    var db := states[n - 1];
    assert states[n] == Act(db, actions[n - 1]) && Admissible(db, actions[n - 1]);
    match actions[n - 1]
    case Submit(id, alias) =>
      CreateValid(db, id, alias);
      CreateAgreement(db, id, alias);
    case Wait(micros) =>
      forall x | x in db.jobs { SameJobKeeps(db, Tick(db, micros), x); }
      SameTablesValid(db, Tick(db, micros));
    case RunPass(script) =>
      PassTables(db, script);
      PassAgreement(db, script);
    case OperatorStop(id, script) =>
      StopAgreement(db, id, script);
  }

  // ---- evidence for a review -------------------------------------------------------

  // The log's last two entries are a status answer that was ok and idle, and the output
  // read because of it.
  ghost predicate HarvestLogged(log: seq<Event>, script: seq<Reply>) {
    && |log| >= 2
    && (exists r :: r in script && r.ok && r.idle && log[|log| - 2].payload == Bounded(r))
    && match log[|log| - 1].kind
       case SmithOutput => log[|log| - 2].kind.SmithStatus?
       case OutputAfterSendTimeout => log[|log| - 2].kind.StatusAfterSendTimeout?
       case OutputAfterStale => log[|log| - 2].kind.StatusAfterStale?
       case _ => false
  }

  lemma HarvestLogs(db: Ledger, job: Listed, status: Reply, script: seq<Reply>, all: seq<Reply>, kind: EventKind,
                    phase: Phase, stop: StopReason, error: Option<Complaint>, action: Deed, before: EventKind)
    requires job.id in db.jobs && status in all && status.ok && status.idle && db.events != []
    requires db.events[|db.events| - 1] == Event(job.id, before, Bounded(status))
    requires match kind
      case SmithOutput => before.SmithStatus?
      case OutputAfterSendTimeout => before.StatusAfterSendTimeout?
      case OutputAfterStale => before.StatusAfterStale?
      case _ => false
    ensures var o := Harvest(db, job, status, script, kind, phase, stop, error, action);
      if o.crashed then o.ledger.jobs == db.jobs else HarvestLogged(EventsOf(o.ledger.events, job.id), all)
  {
    if script == [] { return; }
    LastTwo(db.events, Event(job.id, kind, Bounded(script[0])));
  }

  lemma LastTwo(events: seq<Event>, e: Event)
    requires events != [] && events[|events| - 1].id == e.id
    ensures var log := EventsOf(events + [e], e.id);
      |log| >= 2 && log[|log| - 2] == events[|events| - 1] && log[|log| - 1] == e
  {
    var init, last := events[..|events| - 1], events[|events| - 1];
    EventsOfSnoc(init, last, e.id);
    assert events == init + [last];
    EventsOfSnoc(events, e, e.id);
  }

  // A handler moves a job to review only by harvesting: an ok-and-idle answer, then the output.
  lemma HandleReview(db: Ledger, job: Listed, script: seq<Reply>)
    requires job.id in db.jobs && job.status == db.jobs[job.id].status && Handleable(job.status)
    ensures var o := Handle(db, job, script);
      o.ledger.jobs[job.id].status.NeedsReview? ==> HarvestLogged(EventsOf(o.ledger.events, job.id), script)
  {
    match job.status
    case Stale => StaleReview(db, job, script);
    case Running => RunningReview(db, job, script);
    case Queued => QueuedReview(db, job, script);
  }

  ghost predicate ReviewLogged(o: Outcome, id: JobId, script: seq<Reply>)
    requires id in o.ledger.jobs
  {
    o.ledger.jobs[id].status.NeedsReview? ==> HarvestLogged(EventsOf(o.ledger.events, id), script)
  }

  lemma StaleReview(db: Ledger, job: Listed, script: seq<Reply>)
    requires job.id in db.jobs && !db.jobs[job.id].status.NeedsReview?
    ensures ReviewLogged(RecoverStale(db, job, script), job.id, script)
  {
    if script != [] && script[0].ok && script[0].idle {
      var r := script[0];
      var db1 := AddEvent(Tick(db, r.elapsed), job.id, StatusAfterStale, Bounded(r));
      HarvestLogs(db1, job, r, script[1..], script, OutputAfterStale, PhOutputReadyAfterStale,
                  BecauseSmithIdleAfterStale, Some(NoComplaint), DidHarvestedOutputAfterStale, StatusAfterStale);
    }
  }

  lemma RunningReview(db: Ledger, job: Listed, script: seq<Reply>)
    requires job.id in db.jobs && !db.jobs[job.id].status.NeedsReview?
    ensures ReviewLogged(HandleRunning(db, job, script), job.id, script)
  {
    if script != [] && script[0].ok && script[0].idle {
      var r := script[0];
      var db1 := AddEvent(Tick(db, r.elapsed), job.id, SmithStatus, Bounded(r));
      HarvestLogs(db1, job, r, script[1..], script, SmithOutput, PhOutputReady, BecauseSmithIdle, None,
                  DidReadyForReview, SmithStatus);
    }
  }

  lemma QueuedReview(db: Ledger, job: Listed, script: seq<Reply>)
    requires job.id in db.jobs
    ensures ReviewLogged(HandleQueued(db, job, script), job.id, script)
  {
    if script != [] && SendTimedOut(script[0]) {
      var db1 := AddEvent(Tick(Dispatch(db, job), script[0].elapsed), job.id, SmithSend, Bounded(script[0]));
      TimeoutReview(db1, job, script[0], script[1..], script);
    }
  }

  lemma TimeoutReview(db: Ledger, job: Listed, sent: Reply, rest: seq<Reply>, script: seq<Reply>)
    requires job.id in db.jobs && !db.jobs[job.id].status.NeedsReview? && forall r :: r in rest ==> r in script
    ensures ReviewLogged(AfterTimeout(db, job, sent, rest), job.id, script)
  {
    if rest != [] && rest[0].ok && rest[0].idle {
      var r := rest[0];
      assert r in rest;
      var db1 := AddEvent(Tick(db, r.elapsed), job.id, StatusAfterSendTimeout, Bounded(r));
      HarvestLogs(db1, job, r, rest[1..], script, OutputAfterSendTimeout, PhOutputReadyAfterSendTimeout,
                  BecauseSmithIdleAfterSendTimeout, Some(NoComplaint), DidHarvestedOutputAfterSendTimeout,
                  StatusAfterSendTimeout);
    }
  }

  lemma HandleRest(db: Ledger, job: Listed, script: seq<Reply>)
    requires job.id in db.jobs
    ensures forall r :: r in Handle(db, job, script).rest ==> r in script
  {
  }

  // Only the step that harvests can move a listed job to review, so the evidence is
  // the end of its log even if the pass crashes later.
  lemma {:induction false} HandleAllReview(db: Ledger, todo: seq<Listed>, script: seq<Reply>, id: JobId)
    requires Current(db, todo) && DistinctIds(todo) && id in db.jobs && !db.jobs[id].status.NeedsReview?
    ensures var o := HandleAll(db, todo, script);
      && (o.ledger.jobs[id].status.NeedsReview? ==> HarvestLogged(EventsOf(o.ledger.events, id), script))
      && (forall r :: r in o.rest ==> r in script)
  {
    if todo == [] { return; }
    var init, last := todo[..|todo| - 1], todo[|todo| - 1];
    CurrentInit(db, todo);
    NamesInit(todo, id);
    NamesInit(todo, last.id);
    HandleAllReview(db, init, script, id);
    var o1 := HandleAll(db, init, script);
    if o1.crashed { return; }
    HandleAllEffect(db, init, script, last.id);
    HandleAllEffect(db, init, script, id);
    HandleRest(o1.ledger, last, o1.rest);
    HandleEffect(o1.ledger, last, o1.rest);
    if id != last.id {
      assert SameJob(o1.ledger, Handle(o1.ledger, last, o1.rest).ledger, id);
    } else if Handleable(last.status) {
      HandleReview(o1.ledger, last, o1.rest);
    }
  }

  // In every pass, crashed or not, a job that becomes reviewable has just logged an
  // ok-and-idle answer of this pass followed by Smith's output.
  lemma ReviewOnlyOnEvidence(db: Ledger, script: seq<Reply>, id: JobId)
    requires Valid(db) && id in db.jobs && !db.jobs[id].status.NeedsReview?
    ensures var o := Pass(db, script);
      o.ledger.jobs[id].status.NeedsReview? ==> HarvestLogged(EventsOf(o.ledger.events, id), script)
  {
    var db1 := MarkStale(db).0;
    MarkedValid(db);
    MarkAllEffect(db, ListActive(db, 50), id);
    HandleAllReview(db1, ListActive(db1, PASS_LIMIT), script, id);
  }
}
