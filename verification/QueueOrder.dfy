/** Who comes first: the order of submission, and whom a pass reaches because of it. */
module QueueOrder {
  import opened Wrappers
  import opened TextOrder
  import opened JobLedger
  import opened Supervisor
  import opened SupervisorRuns
  import opened SupervisorSafety
  import opened SupervisorBounds

  // ---- submission ------------------------------------------------------------------

  lemma {:induction false} InsertsLast(jobs: map<JobId, Job>, ids: seq<JobId>, id: JobId)
    requires id in jobs && forall x :: x in ids ==> x in jobs && jobs[x].createdAt < jobs[id].createdAt
    ensures InsertInOrder(jobs, ids, id) == ids + [id]
  {
    if ids != [] { assert ids[|ids| - 1] in ids; }
  }

  // A new job is stamped with the clock, and waits to be sent.
  lemma CreateStamps(db: Ledger, id: JobId, alias: string)
    requires Valid(db) && id !in db.jobs
    ensures var db' := Create(db, id, alias);
      && db'.jobs == db.jobs[id := Job(alias, Queued, Some(NextSendToSmith), None, db.now, None)]
      && db'.beats == db.beats && db'.events == db.events && db'.now == db.now
      && ((forall x :: x in db.jobs ==> db.jobs[x].createdAt < db.now) ==> db'.order == db.order + [id])
  {
    var db' := Create(db, id, alias);
    if forall x :: x in db.jobs ==> db.jobs[x].createdAt < db.now {
      InsertsLast(db'.jobs, db.order, id);
    }
  }

  lemma CreatedInOrder(db: Ledger)
    requires Valid(db)
    ensures forall i, j :: 0 <= i < j < |db.order| ==>
      db.jobs[db.order[i]].createdAt <= db.jobs[db.order[j]].createdAt
  {
    forall i, j | 0 <= i < j < |db.order|
      ensures db.jobs[db.order[i]].createdAt <= db.jobs[db.order[j]].createdAt
    {
      assert Before(db.jobs, db.order[i], db.order[j]);
    }
  }

  lemma OlderStandsBefore(db: Ledger, a: JobId, b: JobId)
    requires Valid(db) && a in db.jobs && b in db.jobs && db.jobs[a].createdAt < db.jobs[b].createdAt
    ensures Precedes(db.order, a, b)
  {
    var i :| 0 <= i < |db.order| && db.order[i] == a;
    var j :| 0 <= j < |db.order| && db.order[j] == b;
    CreatedInOrder(db);
    assert i < j;
  }

  lemma ActKeepsCreation(db: Ledger, action: Command, id: JobId)
    requires Valid(db) && Admissible(db, action) && id in db.jobs
    ensures id in Act(db, action).jobs && Act(db, action).jobs[id].createdAt == db.jobs[id].createdAt
  {
    match action
    case Submit(_, _) =>
    case Wait(_) =>
    case RunPass(script) => PassTables(db, script);
    case OperatorStop(x, script) =>
      StopEffect(db, x, script);
      TouchedTables(db, StopJob(db, x, script).ledger, x);
  }

  lemma StepKeepsCreation(states: seq<Ledger>, actions: seq<Command>, i: nat, id: JobId)
    requires IsRun(states, actions) && i < |actions| && id in states[i].jobs
    ensures id in states[i + 1].jobs && states[i + 1].jobs[id].createdAt == states[i].jobs[id].createdAt
  {
    ActKeepsCreation(states[i], actions[i], id);
  }

  // No action changes when a job was created.
  lemma {:induction false} CreationKept(states: seq<Ledger>, actions: seq<Command>, id: JobId, from: nat, n: nat)
    requires IsRun(states, actions) && from <= n < |states| && id in states[from].jobs
    ensures id in states[n].jobs && states[n].jobs[id].createdAt == states[from].jobs[id].createdAt
  {
    if from < n {
      CreationKept(states, actions, id, from, n - 1);
      StepKeepsCreation(states, actions, n - 1, id);
    }
  }

  ghost predicate SubmitsAt(actions: seq<Command>, i: nat, id: JobId) {
    i < |actions| && actions[i].Submit? && actions[i].id == id
  }

  lemma SubmittedThen(states: seq<Ledger>, actions: seq<Command>, i: nat, id: JobId, n: nat)
    requires IsRun(states, actions) && SubmitsAt(actions, i, id) && i < n < |states|
    ensures id in states[n].jobs && states[n].jobs[id].createdAt == states[i].now
  {
    assert states[i + 1] == Act(states[i], actions[i]);
    CreationKept(states, actions, id, i + 1, n);
  }

  // Over every run: of two jobs submitted at different times the earlier one stands first, whatever
  // their ids, and it stays first.
  lemma EarlierFirst(states: seq<Ledger>, actions: seq<Command>, i: nat, a: JobId, j: nat, b: JobId, n: nat)
    requires IsRun(states, actions) && SubmitsAt(actions, i, a) && SubmitsAt(actions, j, b)
    requires i < n < |states| && j < n && states[i].now < states[j].now
    ensures Precedes(states[n].order, a, b)
  {
    SubmittedThen(states, actions, i, a, n);
    SubmittedThen(states, actions, j, b, n);
    RunsAgree(states, actions, n);
    OlderStandsBefore(states[n], a, b);
  }

  // ---- whom a pass reaches -----------------------------------------------------------

  // The jobs that are not over and were created before this one, or at the same time under a
  // smaller id.
  ghost function Ahead(db: Ledger, id: JobId): set<JobId>
    requires id in db.jobs
  {
    set x | x in db.jobs
      && !(db.jobs[x].status in {Blocked, Done, Stopped})
      && (db.jobs[x].createdAt < db.jobs[id].createdAt ||
          (db.jobs[x].createdAt == db.jobs[id].createdAt && x != id && StrLe(x, id)))
  }

  ghost function ActiveIn(jobs: map<JobId, Job>, ids: seq<JobId>): set<JobId> {
    set x | x in ids && x in jobs && Active(jobs[x].status)
  }

  lemma {:induction false} AmongCount(jobs: map<JobId, Job>, ids: seq<JobId>)
    requires Distinct(ids)
    ensures |ActiveAmong(jobs, ids)| == |ActiveIn(jobs, ids)|
  {
    if ids == [] {
      assert ActiveIn(jobs, ids) == {};
    } else {
      var init, last := ids[..|ids| - 1], ids[|ids| - 1];
      assert ids == init + [last] && last !in init;
      AmongCount(jobs, init);
      if last in jobs && Active(jobs[last].status) {
        assert ActiveIn(jobs, ids) == ActiveIn(jobs, init) + {last};
      } else {
        assert ActiveIn(jobs, ids) == ActiveIn(jobs, init);
      }
    }
  }

  // The active jobs among the first ones are the first of the active jobs.
  lemma {:induction false} AmongPrefix(jobs: map<JobId, Job>, ids: seq<JobId>, k: nat)
    requires k <= |ids|
    ensures ActiveAmong(jobs, ids[..k]) <= ActiveAmong(jobs, ids)
    decreases |ids|
  {
    if k == |ids| {
      assert ids[..k] == ids;
    } else {
      assert ids[..|ids| - 1][..k] == ids[..k];
      AmongPrefix(jobs, ids[..|ids| - 1], k);
    }
  }

  lemma AheadIsPrefix(db: Ledger, k: nat)
    requires Valid(db) && k < |db.order| && db.order[k] in db.jobs
    ensures Ahead(db, db.order[k]) == ActiveIn(db.jobs, db.order[..k])
  {
    var id := db.order[k];
    forall x ensures x in Ahead(db, id) <==> x in ActiveIn(db.jobs, db.order[..k]) {
      if x in db.jobs && x != id {
        var i :| 0 <= i < |db.order| && db.order[i] == x;
        if i < k {
          assert Before(db.jobs, x, id);
          assert x == db.order[..k][i];
        } else {
          assert Before(db.jobs, id, x);
          if StrLe(x, id) && StrLe(id, x) { StrLeAntisymmetric(x, id); }
        }
      }
    }
  }

  lemma NextAmong(jobs: map<JobId, Job>, ids: seq<JobId>, k: nat)
    requires k < |ids| && ids[k] in jobs && Active(jobs[ids[k]].status)
    ensures |ActiveAmong(jobs, ids[..k])| < |ActiveAmong(jobs, ids)|
    ensures ActiveAmong(jobs, ids)[|ActiveAmong(jobs, ids[..k])|].id == ids[k]
  {
    assert ids[..k + 1][..k] == ids[..k];
    AmongPrefix(jobs, ids, k + 1);
  }

  // The place of an active job among the active ones is the number of those ahead of it.
  lemma PlaceIsAhead(db: Ledger, id: JobId)
    requires Valid(db) && id in db.jobs && Active(db.jobs[id].status)
    ensures |Ahead(db, id)| < |ActiveAmong(db.jobs, db.order)|
    ensures ActiveAmong(db.jobs, db.order)[|Ahead(db, id)|].id == id
  {
    var k :| 0 <= k < |db.order| && db.order[k] == id;
    AheadIsPrefix(db, k);
    AmongCount(db.jobs, db.order[..k]);
    NextAmong(db.jobs, db.order, k);
  }

  lemma TakenIffEarly(all: seq<Listed>, k: nat, limit: nat)
    requires DistinctIds(all) && k < |all|
    ensures Names(Take(all, limit), all[k].id) <==> k < limit
  {
    var taken := Take(all, limit);
    if k < limit {
      assert taken[k] in taken;
    } else {
      assert forall i :: 0 <= i < |taken| ==> taken[i].id != all[k].id;
    }
  }

  lemma ListedIffEarly(db: Ledger, id: JobId, limit: nat)
    requires Valid(db) && id in db.jobs && Active(db.jobs[id].status)
    ensures Names(ListActive(db, limit), id) <==> |Ahead(db, id)| < limit
  {
    PlaceIsAhead(db, id);
    ActiveDistinct(db.jobs, db.order);
    TakenIffEarly(ActiveAmong(db.jobs, db.order), |Ahead(db, id)|, limit);
  }

  // Starvation in terms of the rows: a completed pass sends a queued job if and only if fewer than
  // twenty jobs that are not over were submitted before it.
  lemma DispatchedIffEarly(db: Ledger, script: seq<Reply>, id: JobId)
    requires Valid(db) && id in db.jobs && db.jobs[id].status.Queued? && !Pass(db, script).crashed
    ensures id in Pass(db, script).ledger.jobs
    ensures !Pass(db, script).ledger.jobs[id].status.Queued? <==> |Ahead(db, id)| < 20
  {
    DispatchedIffVisible(db, script, id);
    ListedIffEarly(db, id, PASS_LIMIT);
  }

  // And a running job is marked if and only if its heartbeat is overdue and fewer than fifty such
  // jobs were submitted before it.
  lemma MarkedIffEarly(db: Ledger, id: JobId)
    requires Valid(db) && id in db.jobs && db.jobs[id].status.Running?
    ensures id in MarkStale(db).0.jobs
    ensures MarkStale(db).0.jobs[id].status.Stale? <==>
      id in db.beats && db.now - db.beats[id].updatedAt > db.beats[id].staleAfter * 1_000_000 && |Ahead(db, id)| < 50
  {
    MarkedValid(db);
    MarkAllEffect(db, ListActive(db, 50), id);
    ListedIffEarly(db, id, 50);
  }
}
