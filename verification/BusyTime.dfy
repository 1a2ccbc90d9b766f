/** How long a dispatched job can stay running, whatever Smith answers and wherever passes end. */
module BusyTime {
  import opened Wrappers
  import opened JobLedger
  import opened Supervisor
  import opened SupervisorRuns
  import opened SupervisorSafety
  import opened SupervisorBounds
  import opened SupervisorProtocol
  import opened PassRefinement
  import opened CutPasses

  function Max(a: int, b: int): int {
    if a >= b then a else b
  }

  // How many further passes can look at a running job and leave it running. A run
  // whose heartbeat was lost, or left in another state, by a crash between two writes
  // costs one pass more, the one that repairs the heartbeat.
  function PassesLeft(db: Ledger, id: JobId): int {
    if id !in db.beats then MAX_BUSY_SECONDS + 1
    else if db.beats[id].state.Running? then Max(0, MAX_BUSY_SECONDS - BusySeconds(db, id))
    else 1 + Max(0, MAX_BUSY_SECONDS - BusySeconds(db, id))
  }

  // One second later, one second more has elapsed.
  lemma ElapsedGrows(earlier: int, later: int)
    requires 0 <= earlier && earlier + SECOND <= later
    ensures IntSeconds(earlier) + 1 <= IntSeconds(later)
  {
    assert later / SECOND >= (earlier + SECOND) / SECOND == earlier / SECOND + 1;
  }

  ghost predicate WithinLimit(startedAt: int, t: int) {
    IntSeconds(t - startedAt) <= MAX_BUSY_SECONDS
  }

  // At some moment between db and db' the job was looked at, found busy within the
  // limit, and its heartbeat written as running with the start time it already had.
  ghost predicate HandledBetween(db: Ledger, db': Ledger, id: JobId) {
    && id in db'.beats && db'.beats[id].state.Running?
    && (if id in db.beats then db'.beats[id].startedAt == db.beats[id].startedAt else db.now <= db'.beats[id].startedAt)
    && (id in db.beats && db.beats[id].state.Running? ==>
        exists t: int :: db.now <= t <= db'.now && WithinLimit(db.beats[id].startedAt, t))
  }

  // What may have become of a running job: settled, untouched, or looked at again.
  ghost predicate RunningFate(db: Ledger, db': Ledger, id: JobId, mustLook: bool) {
    && id in db'.jobs
    && (db'.jobs[id].status.Running? || db'.jobs[id].status.Blocked? || db'.jobs[id].status.NeedsReview?)
    && (db'.jobs[id].status.Running? ==> (!mustLook && ClockKept(db, db', id)) || HandledBetween(db, db', id))
  }

  lemma RunningClock(db: Ledger, job: Listed, script: seq<Reply>)
    requires job.id in db.jobs && db.jobs[job.id].status.Running?
    ensures var o := HandleRunning(db, job, script); RunningFate(db, o.ledger, job.id, !o.crashed)
  {
    if script == [] || !script[0].ok || script[0].idle { return; }
    BusyClock(db, job, script);
  }

  // A busy answer within the limit renews the heartbeat; over the limit, the job is blocked.
  lemma BusyClock(db: Ledger, job: Listed, script: seq<Reply>)
    requires job.id in db.jobs && db.jobs[job.id].status.Running?
    requires script != [] && script[0].ok && !script[0].idle
    ensures var o := HandleRunning(db, job, script); RunningFate(db, o.ledger, job.id, !o.crashed)
  {
    var o := HandleRunning(db, job, script);
    if job.id in db.beats && !BusyTooLong(Tick(db, script[0].elapsed), job.id) && db.beats[job.id].state.Running? {
      assert WithinLimit(db.beats[job.id].startedAt, o.ledger.now);
    }
  }

  lemma FateAfterKept(db: Ledger, db1: Ledger, db2: Ledger, id: JobId, mustLook: bool)
    requires ClockKept(db, db1, id) && db.now <= db1.now && RunningFate(db1, db2, id, mustLook)
    ensures RunningFate(db, db2, id, mustLook)
  {
    if db2.jobs[id].status.Running? && HandledBetween(db1, db2, id) && id in db.beats && db.beats[id].state.Running? {
      var t: int :| db1.now <= t <= db2.now && WithinLimit(db1.beats[id].startedAt, t);
      assert WithinLimit(db.beats[id].startedAt, t);
    }
  }

  lemma FateThenSame(db: Ledger, db1: Ledger, db2: Ledger, id: JobId, mustLook: bool)
    requires RunningFate(db, db1, id, mustLook) && ClockKept(db1, db2, id) && db1.now <= db2.now
    ensures RunningFate(db, db2, id, mustLook)
  {
    if db1.jobs[id].status.Running? && HandledBetween(db, db1, id) && id in db.beats && db.beats[id].state.Running? {
      var t: int :| db.now <= t <= db1.now && WithinLimit(db.beats[id].startedAt, t);
      assert db.now <= t <= db2.now && WithinLimit(db.beats[id].startedAt, t);
    }
  }

  lemma {:induction false} HandleAllClock(db: Ledger, todo: seq<Listed>, script: seq<Reply>, id: JobId)
    requires Current(db, todo) && DistinctIds(todo) && id in db.jobs && db.jobs[id].status.Running?
    ensures var o := HandleAll(db, todo, script); RunningFate(db, o.ledger, id, !o.crashed && Names(todo, id))
  {
    if todo == [] { return; }
    var init, last := todo[..|todo| - 1], todo[|todo| - 1];
    CurrentInit(db, todo);
    NamesInit(todo, id);
    NamesInit(todo, last.id);
    var o1 := HandleAll(db, init, script);
    HandleAllEffect(db, init, script, last.id);
    HandleAllTables(db, init, script);
    HandleAllClock(db, init, script, id);
    if o1.crashed { return; }
    HandleEffect(o1.ledger, last, o1.rest);
    var o2 := Handle(o1.ledger, last, o1.rest);
    if id == last.id {
      RunningClock(o1.ledger, last, o1.rest);
      FateAfterKept(db, o1.ledger, o2.ledger, id, !o2.crashed);
    } else {
      assert SameJob(o1.ledger, o2.ledger, id);
      FateThenSame(db, o1.ledger, o2.ledger, id, Names(init, id));
    }
  }

  ghost predicate Fresh(db: Ledger, id: JobId) {
    id in db.beats ==> !BeatIsStale(db.beats[id], db.now)
  }

  lemma PassClock(db: Ledger, script: seq<Reply>, id: JobId)
    requires Valid(db) && id in db.jobs && db.jobs[id].status.Running? && Fresh(db, id)
    ensures var o := Pass(db, script);
      RunningFate(db, o.ledger, id, !o.crashed && Visible(db, id)) && db.now <= o.ledger.now && StartedBefore(o.ledger)
  {
    var db1 := MarkStale(db).0;
    ListingFacts(db, 50);
    MarkAllEffect(db, ListActive(db, 50), id);
    MarkingKeepsActivity(db);
    MarkingKeepsListing(db, PASS_LIMIT);
    ListingFacts(db1, PASS_LIMIT);
    HandleAllClock(db1, ListActive(db1, PASS_LIMIT), script, id);
    PassTables(db, script);
    var o := Pass(db, script);
    FateAfterKept(db, db1, o.ledger, id, !o.crashed && Visible(db, id));
  }

  // A second or more later, what a look at the job has left of its passes.
  lemma FateSpends(db: Ledger, db0: Ledger, db': Ledger, id: JobId, looked: bool)
    requires RunningFate(db0, db', id, looked) && db'.jobs[id].status.Running?
    requires ClockKept(db, db0, id) && db.now + SECOND <= db0.now <= db'.now
    requires StartedBefore(db) && StartedBefore(db')
    ensures PassesLeft(db', id) <= PassesLeft(db, id) - (if looked then 1 else 0)
  {
    if id in db.beats {
      var s := db.beats[id].startedAt;
      ElapsedGrows(db.now - s, db'.now - s);
      if HandledBetween(db0, db', id) && db.beats[id].state.Running? {
        var t: int :| db0.now <= t <= db'.now && WithinLimit(s, t);
        ElapsedGrows(db.now - s, t - s);
      }
    }
  }

  // The heartbeat written says that the job has ended, and the row that is left to write too.
  ghost predicate TearsApart(l: Local, id: JobId) {
    InHand(l, id) && Torn(l.ops) && PatchOf(l.ops).status.Some?
  }

  // A cut pass: what it can cost is one pass more, if the cut tore an ended heartbeat from the row.
  lemma CutSpends(db: Ledger, db0: Ledger, c: Config, id: JobId)
    requires Tracked(db0, c, id) && ClockKept(db, db0, id) && db.now + SECOND <= db0.now && StartedBefore(db)
    ensures var s := c.ledger.jobs[id].status;
      SettledAt(s) || (s.Running? &&
        PassesLeft(c.ledger, id) <= PassesLeft(db, id) + One(TearsApart(c.pass, id)))
  {
    if id in db.beats {
      var start := db.beats[id].startedAt;
      ElapsedGrows(db.now - start, c.ledger.now - start);
    }
  }

  // ---- attempts -------------------------------------------------------------------------------

  // One turn of the loop in main: sleep, then a pass, which may be cut after so many moves of
  // its process, by an exception from a store call or because the process ends.
  datatype Attempt = Attempt(gap: nat, script: seq<Reply>, cut: Option<nat>)

  ghost function CutState(db: Ledger, a: Attempt): Config
    requires a.cut.Some?
  {
    Moves(Start(Tick(db, a.gap), a.script), a.cut.value)
  }

  ghost function After(db: Ledger, a: Attempt): (db': Ledger)
    requires Valid(db)
    ensures Valid(db') && db'.jobs.Keys == db.jobs.Keys
  {
    var db0 := Tick(db, a.gap);
    if a.cut.None? then
      PassTables(db0, a.script);
      Pass(db0, a.script).ledger
    else
      StartFrames(db0, a.script);
      MovesFramed(db0, Start(db0, a.script), a.cut.value);
      FramedValid(db0, CutState(db, a).ledger);
      CutState(db, a).ledger
  }

  ghost function AfterAll(db: Ledger, attempts: seq<Attempt>): (db': Ledger)
    requires Valid(db)
    ensures Valid(db')
    decreases |attempts|
  {
    if attempts == [] then db else AfterAll(After(db, attempts[0]), attempts[1..])
  }

  // The pass was completed, and the job was on its list.
  ghost predicate Looks(db: Ledger, a: Attempt, id: JobId)
    requires Valid(db)
  {
    a.cut.None? && !Pass(Tick(db, a.gap), a.script).crashed && Visible(db, id)
  }

  // The pass was cut between a heartbeat that ends the job's run and its row. A cut behind a
  // heartbeat that only says the job is still busy is none.
  ghost predicate Tears(db: Ledger, a: Attempt, id: JobId) {
    a.cut.Some? && TearsApart(CutState(db, a).pass, id)
  }

  ghost function Seen(db: Ledger, attempts: seq<Attempt>, id: JobId): nat
    requires Valid(db)
    decreases |attempts|
  {
    if attempts == [] then 0
    else One(Looks(db, attempts[0], id)) + Seen(After(db, attempts[0]), attempts[1..], id)
  }

  ghost function TornTimes(db: Ledger, attempts: seq<Attempt>, id: JobId): nat
    requires Valid(db)
    decreases |attempts|
  {
    if attempts == [] then 0
    else One(Tears(db, attempts[0], id)) + TornTimes(After(db, attempts[0]), attempts[1..], id)
  }

  // Every pass finds the heartbeat fresh, so none of them marks the job stale.
  ghost predicate FreshThroughout(db: Ledger, attempts: seq<Attempt>, id: JobId)
    requires Valid(db)
    decreases |attempts|
  {
    attempts == [] || (
      && attempts[0].gap >= SECOND && Fresh(Tick(db, attempts[0].gap), id)
      && FreshThroughout(After(db, attempts[0]), attempts[1..], id))
  }

  ghost predicate SettledAt(s: Status) {
    s.Blocked? || s.NeedsReview?
  }

  lemma WholeSpends(db: Ledger, a: Attempt, id: JobId)
    requires Valid(db) && id in db.jobs && db.jobs[id].status.Running? && a.gap >= SECOND && a.cut.None?
    requires Fresh(Tick(db, a.gap), id)
    ensures var s := After(db, a).jobs[id].status;
      SettledAt(s) || (s.Running? && PassesLeft(After(db, a), id) + One(Looks(db, a, id)) <= PassesLeft(db, id))
  {
    var db0 := Tick(db, a.gap);
    PassClock(db0, a.script, id);
    var o := Pass(db0, a.script);
    assert Visible(db0, id) == Visible(db, id);
    if o.ledger.jobs[id].status.Running? { FateSpends(db, db0, o.ledger, id, !o.crashed && Visible(db, id)); }
  }

  // One attempt: if the job is still running afterwards, a pass that completed and could see
  // it has used up one of its passes; only a cut that tears the job has given it one more.
  lemma AttemptSpends(db: Ledger, a: Attempt, id: JobId)
    requires Valid(db) && id in db.jobs && db.jobs[id].status.Running? && a.gap >= SECOND
    requires Fresh(Tick(db, a.gap), id)
    ensures var s := After(db, a).jobs[id].status;
      SettledAt(s) || (s.Running? &&
        PassesLeft(After(db, a), id) + One(Looks(db, a, id)) <= PassesLeft(db, id) + One(Tears(db, a, id)))
  {
    if a.cut.None? {
      WholeSpends(db, a, id);
    } else {
      var db0 := Tick(db, a.gap);
      StartTracked(db0, a.script, id);
      MovesTracked(db0, Start(db0, a.script), id, a.cut.value);
      CutSpends(db, db0, CutState(db, a), id);
    }
  }

  // Blocked and reviewed jobs stay as they are, wherever passes end.
  lemma RestsThrough(db: Ledger, a: Attempt, id: JobId)
    requires Valid(db) && id in db.jobs && SettledAt(db.jobs[id].status)
    ensures After(db, a).jobs[id] == db.jobs[id]
  {
    var db0 := Tick(db, a.gap);
    if a.cut.None? {
      PassLeavesOthersAlone(db0, a.script, id);
    } else {
      StartRests(db0, a.script, id);
      MovesRest(db0, Start(db0, a.script), id, a.cut.value);
    }
  }

  lemma {:induction false} SettledStays(db: Ledger, attempts: seq<Attempt>, id: JobId)
    requires Valid(db) && id in db.jobs && SettledAt(db.jobs[id].status)
    ensures id in AfterAll(db, attempts).jobs && AfterAll(db, attempts).jobs[id] == db.jobs[id]
    decreases |attempts|
  {
    if attempts != [] {
      RestsThrough(db, attempts[0], id);
      SettledStays(After(db, attempts[0]), attempts[1..], id);
    }
  }

  // Bounded busy time: with passes at least a second apart and the heartbeat never stale, a
  // job still running has been looked at by at most PassesLeft completed passes, and one more
  // for each pass that was cut between a heartbeat that ends its run and its row, whatever Smith
  // answers and wherever passes end; once it stops running it stays settled.
  lemma {:induction false} BusyTimeIsBounded(db: Ledger, attempts: seq<Attempt>, id: JobId)
    requires Valid(db) && id in db.jobs && db.jobs[id].status.Running?
    requires FreshThroughout(db, attempts, id)
    ensures id in AfterAll(db, attempts).jobs
    ensures var s := AfterAll(db, attempts).jobs[id].status;
      SettledAt(s) || (s.Running? && Seen(db, attempts, id) <= PassesLeft(db, id) + TornTimes(db, attempts, id))
    decreases |attempts|
  {
    if attempts == [] { return; }
    AttemptSpends(db, attempts[0], id);
    var db' := After(db, attempts[0]);
    assert AfterAll(db, attempts) == AfterAll(db', attempts[1..]);
    if db'.jobs[id].status.Running? {
      BusyTimeIsBounded(db', attempts[1..], id);
    } else {
      SettledStays(db', attempts[1..], id);
    }
  }

  // From the moment a completed pass has dispatched a job, at most 180 completed passes can
  // see it and leave it running, and one more for each time it was torn: it is gone by the
  // 181st. A job left running by a crash inside the dispatch, without a heartbeat or with one
  // in another state, may take one pass more.
  lemma DispatchedJobIsBounded(db: Ledger, attempts: seq<Attempt>, id: JobId)
    requires Valid(db) && id in db.jobs && db.jobs[id].status.Running?
    requires FreshThroughout(db, attempts, id)
    requires Seen(db, attempts, id) > MAX_BUSY_SECONDS + TornTimes(db, attempts, id) +
      (if id in db.beats && db.beats[id].state.Running? then 0 else 1)
    ensures id in AfterAll(db, attempts).jobs && SettledAt(AfterAll(db, attempts).jobs[id].status)
  {
    BusyTimeIsBounded(db, attempts, id);
    AtMostPassesLeft(db, id);
  }

  lemma AtMostPassesLeft(db: Ledger, id: JobId)
    requires StartedBefore(db) && id in db.jobs && db.jobs[id].status.Running?
    ensures PassesLeft(db, id) <= MAX_BUSY_SECONDS + (if id in db.beats && db.beats[id].state.Running? then 0 else 1)
  {
    if id in db.beats { ElapsedNotNegative(db, id); }
  }

  lemma ElapsedNotNegative(db: Ledger, id: JobId)
    requires StartedBefore(db) && id in db.beats
    ensures BusySeconds(db, id) >= 0
  {
  }
}
