/** Which jobs a pass reaches at all, and what it does with those it does not reach. */
module SupervisorBounds {
  import opened JobLedger
  import opened Supervisor
  import opened SupervisorRuns
  import opened SupervisorSafety

  // ---- which jobs a pass reaches ---------------------------------------------------

  ghost predicate Visible(db: Ledger, id: JobId) {
    Names(ListActive(db, PASS_LIMIT), id)
  }

  ghost predicate SameActivity(jobs: map<JobId, Job>, jobs': map<JobId, Job>, ids: seq<JobId>) {
    forall id :: id in ids ==> id in jobs && id in jobs' && Active(jobs[id].status) == Active(jobs'[id].status)
  }

  lemma {:induction false} ActivityFixesListing(jobs: map<JobId, Job>, jobs': map<JobId, Job>, ids: seq<JobId>)
    requires SameActivity(jobs, jobs', ids)
    ensures |ActiveAmong(jobs, ids)| == |ActiveAmong(jobs', ids)|
    ensures forall k :: 0 <= k < |ActiveAmong(jobs, ids)| ==>
      ActiveAmong(jobs, ids)[k].id == ActiveAmong(jobs', ids)[k].id
  {
    if ids != [] {
      var init := ids[..|ids| - 1];
      assert ids == init + [ids[|ids| - 1]];
      ActivityFixesListing(jobs, jobs', init);
    }
  }

  ghost predicate SameIds(a: seq<Listed>, b: seq<Listed>) {
    |a| == |b| && forall k :: 0 <= k < |a| ==> a[k].id == b[k].id
  }

  lemma SameIdsSameNames(a: seq<Listed>, b: seq<Listed>, id: JobId)
    requires SameIds(a, b) && Names(a, id)
    ensures Names(b, id)
  {
    var k :| 0 <= k < |a| && a[k].id == id;
    assert b[k].id == id;
  }

  lemma MarkingKeepsActivity(db: Ledger)
    requires Valid(db)
    ensures Valid(MarkStale(db).0) && MarkStale(db).0.order == db.order && MarkStale(db).0.now == db.now
    ensures SameActivity(db.jobs, MarkStale(db).0.jobs, db.order)
  {
    var db1 := MarkStale(db).0;
    ListingFacts(db, 50);
    MarkAllTables(db, ListActive(db, 50));
    SameTablesValid(db, db1);
    forall id | id in db.order ensures Active(db.jobs[id].status) == Active(db1.jobs[id].status) {
      MarkAllEffect(db, ListActive(db, 50), id);
    }
  }

  // Marking runs stale does not change who is listed, or in which order.
  lemma MarkingKeepsListing(db: Ledger, limit: nat)
    requires Valid(db)
    ensures Valid(MarkStale(db).0)
    ensures SameIds(ListActive(db, limit), ListActive(MarkStale(db).0, limit))
    ensures forall id :: Names(ListActive(MarkStale(db).0, limit), id) <==> Names(ListActive(db, limit), id)
  {
    MarkingKeepsActivity(db);
    ActivityFixesListing(db.jobs, MarkStale(db).0.jobs, db.order);
    var a, b := ListActive(db, limit), ListActive(MarkStale(db).0, limit);
    assert SameIds(a, b);
    forall id ensures Names(b, id) <==> Names(a, id) {
      if Names(a, id) { SameIdsSameNames(a, b, id); }
      if Names(b, id) { SameIdsSameNames(b, a, id); }
    }
  }

  // A pass leaves alone, crash or not, every job outside the first twenty active ones,
  // except that it may mark a running one stale.
  lemma PassSkipsInvisible(db: Ledger, script: seq<Reply>, id: JobId)
    requires Valid(db) && id in db.jobs && !Visible(db, id) && !db.jobs[id].status.Running?
    ensures SameJob(db, Pass(db, script).ledger, id)
  {
    var db1 := MarkStale(db).0;
    MarkingKeepsListing(db, PASS_LIMIT);
    ListingFacts(db, 50);
    MarkAllEffect(db, ListActive(db, 50), id);
    ListingFacts(db1, PASS_LIMIT);
    HandleAllEffect(db1, ListActive(db1, PASS_LIMIT), script, id);
    SameJobTransitive(db, db1, Pass(db, script).ledger, id);
  }

  // Starvation, exactly: a completed pass dispatches a queued job if and only if the job is
  // among the first twenty active ones.
  lemma DispatchedIffVisible(db: Ledger, script: seq<Reply>, id: JobId)
    requires Valid(db) && id in db.jobs && db.jobs[id].status.Queued? && !Pass(db, script).crashed
    ensures id in Pass(db, script).ledger.jobs
    ensures !Pass(db, script).ledger.jobs[id].status.Queued? <==> Visible(db, id)
  {
    var db1 := MarkStale(db).0;
    MarkingKeepsListing(db, PASS_LIMIT);
    ListingFacts(db, 50);
    MarkAllEffect(db, ListActive(db, 50), id);
    ListingFacts(db1, PASS_LIMIT);
    HandleAllEffect(db1, ListActive(db1, PASS_LIMIT), script, id);
    if Visible(db, id) {
      var db' := Pass(db, script).ledger;
      assert StoryAgrees(db'.beats[id], db'.jobs[id], EventsOf(db'.events, id));
    }
  }

  datatype Round = Round(gap: nat, script: seq<Reply>)

  // One turn of the loop in main, as a step from ledger to outcome.
  ghost function Turn(db: Ledger, r: Round): (o: Outcome)
    requires Valid(db)
    ensures Valid(o.ledger) && o.ledger.jobs.Keys == db.jobs.Keys
  {
    PassTables(Tick(db, r.gap), r.script);
    Pass(Tick(db, r.gap), r.script)
  }

  // The loop in main: sleep, then a pass, over and over.
  ghost function Rounds(db: Ledger, rounds: seq<Round>): Ledger
    requires Valid(db)
    decreases |rounds|
  {
    if rounds == [] then db else Rounds(Turn(db, rounds[0]).ledger, rounds[1..])
  }

  // The first twenty active jobs all await review.
  ghost predicate ReviewBacklog(db: Ledger) {
    && |ListActive(db, PASS_LIMIT)| == PASS_LIMIT
    && forall j :: j in ListActive(db, PASS_LIMIT) ==> j.status.NeedsReview?
  }

  lemma BacklogPersists(db: Ledger, script: seq<Reply>)
    requires Valid(db) && ReviewBacklog(db)
    ensures ReviewBacklog(Pass(db, script).ledger)
    ensures forall id :: id in db.jobs && db.jobs[id].status.Queued? ==> SameJob(db, Pass(db, script).ledger, id)
    ensures forall id :: id in db.jobs && db.jobs[id].status.Queued? ==> !Visible(db, id)
  {
    var db' := Pass(db, script).ledger;
    BacklogListing(db, script);
    forall id | id in db.jobs && db.jobs[id].status.Queued? ensures SameJob(db, db', id) && !Visible(db, id) {
      OnlyReviewsVisible(db, id);
      PassSkipsInvisible(db, script, id);
    }
  }

  lemma BacklogListing(db: Ledger, script: seq<Reply>)
    requires Valid(db) && ReviewBacklog(db)
    ensures ReviewBacklog(Pass(db, script).ledger)
  {
    var db' := Pass(db, script).ledger;
    PassTables(db, script);
    BacklogSameActivity(db, script);
    ActivityFixesListing(db.jobs, db'.jobs, db.order);
    var listed, listed' := ListActive(db, PASS_LIMIT), ListActive(db', PASS_LIMIT);
    assert SameIds(listed, listed');
    forall k | 0 <= k < |listed'| ensures listed'[k].status.NeedsReview? {
      StillInReview(db, script, listed[k], listed'[k]);
    }
  }

  lemma StillInReview(db: Ledger, script: seq<Reply>, before: Listed, after: Listed)
    requires Valid(db) && before in ListActive(db, PASS_LIMIT) && before.status.NeedsReview?
    requires Valid(Pass(db, script).ledger) && after in ListActive(Pass(db, script).ledger, PASS_LIMIT)
    requires after.id == before.id
    ensures after.status.NeedsReview?
  {
    ListingFacts(db, PASS_LIMIT);
    ListingFacts(Pass(db, script).ledger, PASS_LIMIT);
    PassLeavesOthersAlone(db, script, before.id);
  }

  lemma OnlyReviewsVisible(db: Ledger, id: JobId)
    requires Valid(db) && ReviewBacklog(db) && id in db.jobs && !db.jobs[id].status.NeedsReview?
    ensures !Visible(db, id)
  {
    ListingFacts(db, PASS_LIMIT);
  }

  lemma BacklogKeepsActivity(db: Ledger, script: seq<Reply>, id: JobId)
    requires Valid(db) && ReviewBacklog(db) && id in db.jobs && id in Pass(db, script).ledger.jobs
    ensures Active(Pass(db, script).ledger.jobs[id].status) == Active(db.jobs[id].status)
  {
    if db.jobs[id].status.NeedsReview? || !Active(db.jobs[id].status) {
      PassLeavesOthersAlone(db, script, id);
    } else {
      OnlyReviewsVisible(db, id);
      if db.jobs[id].status.Running? { InvisibleRunning(db, script, id); } else { PassSkipsInvisible(db, script, id); }
    }
  }

  lemma BacklogSameActivity(db: Ledger, script: seq<Reply>)
    requires Valid(db) && ReviewBacklog(db)
    ensures SameActivity(db.jobs, Pass(db, script).ledger.jobs, db.order)
  {
    PassTables(db, script);
    forall id | id in db.order ensures Active(Pass(db, script).ledger.jobs[id].status) == Active(db.jobs[id].status) {
      BacklogKeepsActivity(db, script, id);
    }
  }

  lemma InvisibleRunning(db: Ledger, script: seq<Reply>, id: JobId)
    requires Valid(db) && id in db.jobs && db.jobs[id].status.Running? && !Visible(db, id)
    ensures Active(Pass(db, script).ledger.jobs[id].status)
  {
    var db1 := MarkStale(db).0;
    MarkingKeepsListing(db, PASS_LIMIT);
    ListingFacts(db, 50);
    MarkAllEffect(db, ListActive(db, 50), id);
    ListingFacts(db1, PASS_LIMIT);
    HandleAllEffect(db1, ListActive(db1, PASS_LIMIT), script, id);
  }

  // Starvation: behind twenty jobs awaiting review, no queued job is ever dispatched,
  // however long the supervisor runs.
  lemma {:induction false} BacklogStarvesQueue(db: Ledger, rounds: seq<Round>, id: JobId)
    requires Valid(db) && ReviewBacklog(db) && id in db.jobs && db.jobs[id].status.Queued?
    ensures id in Rounds(db, rounds).jobs && Rounds(db, rounds).jobs[id] == db.jobs[id]
    decreases |rounds|
  {
    if rounds != [] {
      var db0 := Tick(db, rounds[0].gap);
      BacklogPersists(db0, rounds[0].script);
      PassTables(db0, rounds[0].script);
      assert SameJob(db0, Pass(db0, rounds[0].script).ledger, id);
      BacklogStarvesQueue(Pass(db0, rounds[0].script).ledger, rounds[1..], id);
    }
  }
}
