/** What a cut between a heartbeat and a row costs: a run that loses a pass to each of them. */
module TornPasses {
  import opened Wrappers
  import opened JobLedger
  import opened Supervisor
  import opened SupervisorProtocol
  import opened PassRefinement
  import opened CutPasses
  import opened BusyTime

  predicate SaysBusy(r: Reply) {
    r.ok && !r.idle
  }

  // The only active job is running and has been for too long.
  ghost predicate OutOfTime(db: Ledger, id: JobId) {
    && Valid(db) && Alone(db, id) && id in db.jobs && db.jobs[id].status.Running?
    && id in db.beats && db.beats[id].state.Running? && PassesLeft(db, id) == 0
  }

  // The same, with the heartbeat of a job that was blocked.
  ghost predicate TornOff(db: Ledger, id: JobId) {
    && Valid(db) && Alone(db, id) && id in db.jobs && db.jobs[id].status.Running?
    && id in db.beats && db.beats[id].state.Blocked? && BusySeconds(db, id) >= MAX_BUSY_SECONDS
  }

  // The heartbeat was written just now.
  ghost predicate JustHeard(db: Ledger, id: JobId) {
    id in db.beats && db.beats[id].updatedAt == db.now && db.beats[id].staleAfter == STALE_AFTER_SECONDS
  }

  lemma SameListed(db: Ledger, id: JobId, gap: nat)
    requires Alone(db, id) && id in db.jobs && db.jobs[id].status.Running?
    ensures var db0, job := Tick(db, gap), Listed(id, db.jobs[id].alias, Running);
      Alone(db0, id) && ListActive(db0, 50) == [job] && ListActive(db0, PASS_LIMIT) == [job]
  {
    AloneListed(Tick(db, gap), id);
  }

  // ---- the cut ------------------------------------------------------------------------------

  lemma MovesThrough(c: Config, d: Config, e: Config, m: nat, n: nat)
    requires Moves(c, m) == d && Moves(d, n) == e
    ensures Moves(c, m + n) == e
  {
    IterateAdd(Move, c, m, n);
  }

  lemma OneMove(c: Config, n: nat)
    requires n == 1
    ensures Moves(c, n) == Move(c)
  {
    assert Moves(Move(c), 0) == Move(c);
  }

  lemma TwoMoves(c: Config, n: nat)
    requires n == 2
    ensures Moves(c, n) == Move(Move(c))
  {
    OneMove(Move(c), n - 1);
  }

  // The fresh job is not marked, is listed, and is taken in hand.
  lemma TakenInHand(db: Ledger, script: seq<Reply>, job: Listed, n: nat)
    requires n == 3 && ListActive(db, 50) == [job] && ListActive(db, PASS_LIMIT) == [job]
    requires job.status.Running? && !ShouldMark(db, job)
    ensures Moves(Start(db, script), n) == Config(db, Local([], job, [Ask(Poll)], None, None), script)
  {
    var c := Start(db, script);
    assert Considers([job]) + [TakeListing] == [Consider(job), TakeListing];
    assert Move(c).pass.tasks == [TakeListing];
    assert Works([job]) + [] == [Work(job)];
    assert Move(Move(c)).pass.tasks == [Work(job)];
    OneMove(Move(Move(c)), 1);
    TwoMoves(c, 2);
    MovesThrough(c, Move(Move(c)), Move(Move(Move(c))), 2, 1);
  }

  // Smith says busy: the limit is looked at.
  lemma PolledBusy(c: Config, job: Listed, n: nat)
    requires n == 3 && c.pass == Local([], job, [Ask(Poll)], None, None) && c.script != [] && SaysBusy(c.script[0])
    ensures var r := c.script[0];
      Moves(c, n) == Config(AddEvent(Tick(c.ledger, r.elapsed), job.id, SmithStatus, Bounded(r)),
                            c.pass.(ops := [CheckBusy(r)]), c.script[1..])
  {
    var d := c.(pass := c.pass.(ops := [Await(Poll)]));
    AskSegment(c, Poll);
    AnsweredSegment(d, Poll, SmithStatus, Bounded(c.script[0]), [CheckBusy(c.script[0])]);
    OneMove(c, 1);
    TwoMoves(d, 2);
    MovesThrough(c, d, Move(Move(d)), 1, 2);
  }

  // The job has been busy for too long: Smith is to be stopped.
  lemma CheckedBusy(c: Config, job: Listed, r: Reply, n: nat)
    requires n == 2 && c.pass == Local([], job, [CheckBusy(r)], None, None) && BusyTooLong(c.ledger, job.id)
    ensures Moves(c, n) == c.(pass := c.pass.(ops := [Await(BusyStop(r, BusySeconds(c.ledger, job.id)))]))
  {
    var call := BusyStop(r, BusySeconds(c.ledger, job.id));
    assert [Ask(call)] + c.pass.ops[1..] == [Ask(call)];
    AskSegment(Move(c), call);
    TwoMoves(c, n);
  }

  // Smith is stopped and the heartbeat written as blocked; the row is not.
  lemma StoppedAndBeaten(c: Config, job: Listed, r: Reply, seconds: int, n: nat)
    requires n == 4 && c.pass == Local([], job, [Await(BusyStop(r, seconds))], None, None) && c.script != []
    ensures var d := Moves(c, n);
      && d.ledger == RecordBeat(AddEvent(Tick(c.ledger, c.script[0].elapsed), job.id, BusyTimeoutStop, Summary),
                                job.id, BusyTimeoutBeat(job.alias, r))
      && d.pass.job == job && d.pass.ops == [ReadJob, WriteJob(BusyTimeoutPatch(seconds))]
  {
    var b, patch := BusyTimeoutBeat(job.alias, r), BusyTimeoutPatch(seconds);
    AnsweredSegment(c, BusyStop(r, seconds), BusyTimeoutStop, Summary, SettleOps(b, patch));
    var d := Move(Move(c));
    assert d.pass.ops == [ReadBeat, WriteBeat(b)] + [ReadJob, WriteJob(patch)];
    BeatSegment(d, b, [ReadJob, WriteJob(patch)]);
    TwoMoves(c, 2);
    TwoMoves(d, 2);
    MovesThrough(c, d, Move(Move(d)), 2, 2);
  }

  // A pass that finds the job out of time, and is cut after its twelfth move.
  function CutPass(gap: nat, busy: Reply, stop: Reply): Attempt {
    Attempt(gap, [busy, stop], Some(12))
  }

  lemma CutAfterBeat(db: Ledger, id: JobId, gap: nat, busy: Reply, stop: Reply) returns (logged: Ledger, seconds: int)
    requires OutOfTime(db, id) && gap >= SECOND && Fresh(Tick(db, gap), id) && SaysBusy(busy)
    ensures logged.jobs == db.jobs && logged.order == db.order && logged.beats == db.beats
    ensures logged.now == db.now + gap + busy.elapsed + stop.elapsed
    ensures var c, job := CutState(db, CutPass(gap, busy, stop)), Listed(id, db.jobs[id].alias, Running);
      && c.ledger == RecordBeat(logged, id, BusyTimeoutBeat(job.alias, busy))
      && c.pass.job == job && c.pass.ops == [ReadJob, WriteJob(BusyTimeoutPatch(seconds))]
  {
    var db0, job, script := Tick(db, gap), Listed(id, db.jobs[id].alias, Running), [busy, stop];
    SameListed(db, id, gap);
    TakenInHand(db0, script, job, 3);
    var c3 := Config(db0, Local([], job, [Ask(Poll)], None, None), script);
    PolledBusy(c3, job, 3);
    var c6 := Moves(c3, 3);
    LateEnough(db, c6.ledger, id);
    CheckedBusy(c6, job, busy, 2);
    var c8 := Moves(c6, 2);
    seconds := BusySeconds(c6.ledger, id);
    StoppedAndBeaten(c8, job, busy, seconds, 4);
    logged := AddEvent(Tick(c8.ledger, stop.elapsed), id, BusyTimeoutStop, Summary);
    MovesThrough(Start(db0, script), c3, c6, 3, 3);
    MovesThrough(Start(db0, script), c6, c8, 6, 2);
    MovesThrough(Start(db0, script), c8, Moves(c8, 4), 8, 4);
  }

  lemma LateEnough(db: Ledger, later: Ledger, id: JobId)
    requires OutOfTime(db, id) && later.beats == db.beats && later.now >= db.now + SECOND
    ensures BusyTooLong(later, id)
  {
    ElapsedGrows(db.now - db.beats[id].startedAt, later.now - db.beats[id].startedAt);
  }

  lemma LaterStill(db: Ledger, later: Ledger, id: JobId)
    requires StartedBefore(db) && id in db.beats && id in later.beats && later.now >= db.now
    requires later.beats[id].startedAt == db.beats[id].startedAt
    ensures BusySeconds(later, id) >= BusySeconds(db, id)
  {
    var a, b := db.now - db.beats[id].startedAt, later.now - db.beats[id].startedAt;
    assert b / SECOND >= a / SECOND;
  }

  // The cut tears the heartbeat from the row: the job is running, and blocked by its heartbeat.
  lemma CutTearsApart(db: Ledger, id: JobId, gap: nat, busy: Reply, stop: Reply)
    requires OutOfTime(db, id) && gap >= SECOND && Fresh(Tick(db, gap), id) && SaysBusy(busy)
    ensures var a := CutPass(gap, busy, stop); var db' := After(db, a);
      TornOff(db', id) && JustHeard(db', id) && Tears(db, a, id) && !Looks(db, a, id)
  {
    var logged, seconds := CutAfterBeat(db, id, gap, busy, stop);
    LaterStill(db, After(db, CutPass(gap, busy, stop)), id);
  }

  // ---- the pass after it ----------------------------------------------------------------------

  function WholePass(gap: nat, busy: Reply): Attempt {
    Attempt(gap, [busy], None)
  }

  // No running heartbeat, no limit: the pass writes the heartbeat as running again.
  lemma PassRenews(db: Ledger, id: JobId, busy: Reply)
    requires TornOff(db, id) && Fresh(db, id) && SaysBusy(busy)
    ensures var job := Listed(id, db.jobs[id].alias, Running);
      var db1 := AddEvent(Tick(db, busy.elapsed), id, SmithStatus, Bounded(busy));
      var o := Pass(db, [busy]);
      !o.crashed && o.ledger == Settle(db1, id, BusyBeat(job.alias, PhSmithBusy, busy), STILL_BUSY_PATCH)
  {
    var job := Listed(id, db.jobs[id].alias, Running);
    SameListed(db, id, 0);
    assert Tick(db, 0) == db;
    MarkOnly(db, job);
    HandleOnly(db, job, [busy]);
  }

  lemma WholeRenews(db: Ledger, id: JobId, gap: nat, busy: Reply)
    requires TornOff(db, id) && Fresh(Tick(db, gap), id) && SaysBusy(busy)
    ensures var a := WholePass(gap, busy); var db' := After(db, a);
      OutOfTime(db', id) && JustHeard(db', id) && Looks(db, a, id) && !Tears(db, a, id)
  {
    var db0 := Tick(db, gap);
    LaterStill(db, db0, id);
    PassRenews(db0, id, busy);
    LaterStill(db, After(db, WholePass(gap, busy)), id);
    SameListed(db, id, 0);
    assert Tick(db, 0) == db;
    assert ListActive(db, PASS_LIMIT)[0].id == id;
  }

  // ---- over and over --------------------------------------------------------------------------

  function Pairs(a: Attempt, b: Attempt, n: nat): seq<Attempt> {
    if n == 0 then [] else [a, b] + Pairs(a, b, n - 1)
  }

  lemma StillFresh(db: Ledger, id: JobId, gap: nat)
    requires JustHeard(db, id) && gap <= STALE_AFTER_SECONDS * SECOND
    ensures Fresh(Tick(db, gap), id)
  {
  }

  ghost predicate Ready(db: Ledger, id: JobId, gap: nat) {
    OutOfTime(db, id) && Fresh(Tick(db, gap), id)
  }

  // One cut and the pass after it: torn once, seen once, and as before.
  ghost predicate TornThenSeen(db: Ledger, a: Attempt, b: Attempt, id: JobId)
    requires Valid(db)
  {
    var db1 := After(db, a);
    && a.gap >= SECOND && b.gap >= SECOND && Fresh(Tick(db1, b.gap), id)
    && !Looks(db, a, id) && Tears(db, a, id) && Looks(db1, b, id) && !Tears(db1, b, id)
    && Ready(After(db1, b), id, a.gap)
  }

  lemma PairIsTornThenSeen(db: Ledger, id: JobId, gap: nat, busy: Reply, stop: Reply)
    requires Ready(db, id, gap) && SaysBusy(busy) && SECOND <= gap <= STALE_AFTER_SECONDS * SECOND
    ensures TornThenSeen(db, CutPass(gap, busy, stop), WholePass(gap, busy), id)
  {
    CutTearsApart(db, id, gap, busy, stop);
    var db1 := After(db, CutPass(gap, busy, stop));
    StillFresh(db1, id, gap);
    WholeRenews(db1, id, gap, busy);
    StillFresh(After(db1, WholePass(gap, busy)), id, gap);
  }

  // What a run says, by its first two attempts.
  lemma PairFirst(db: Ledger, a: Attempt, b: Attempt, rest: seq<Attempt>, id: JobId)
    requires Valid(db)
    ensures var db1, run := After(db, a), [a, b] + rest; var db2 := After(db1, b);
      && AfterAll(db, run) == AfterAll(db2, rest)
      && Seen(db, run, id) == One(Looks(db, a, id)) + One(Looks(db1, b, id)) + Seen(db2, rest, id)
      && TornTimes(db, run, id) == One(Tears(db, a, id)) + One(Tears(db1, b, id)) + TornTimes(db2, rest, id)
      && (FreshThroughout(db, run, id) <==>
            && a.gap >= SECOND && Fresh(Tick(db, a.gap), id)
            && b.gap >= SECOND && Fresh(Tick(db1, b.gap), id) && FreshThroughout(db2, rest, id))
  {
    var run := [a, b] + rest;
    assert run[1..] == [b] + rest && run[1..][1..] == rest;
    assert Seen(After(db, a), run[1..], id) ==
      One(Looks(After(db, a), b, id)) + Seen(After(After(db, a), b), rest, id);
    assert TornTimes(After(db, a), run[1..], id) ==
      One(Tears(After(db, a), b, id)) + TornTimes(After(After(db, a), b), rest, id);
  }

  // The same n times over.
  ghost predicate AllTornThenSeen(db: Ledger, a: Attempt, b: Attempt, id: JobId, n: nat)
    requires Valid(db)
    decreases n
  {
    && OutOfTime(db, id) && Fresh(Tick(db, a.gap), id)
    && (n > 0 ==> TornThenSeen(db, a, b, id) && AllTornThenSeen(After(After(db, a), b), a, b, id, n - 1))
  }

  lemma {:induction false} PairsGoOn(db: Ledger, id: JobId, gap: nat, busy: Reply, stop: Reply, n: nat)
    requires Ready(db, id, gap) && SaysBusy(busy) && SECOND <= gap <= STALE_AFTER_SECONDS * SECOND
    ensures AllTornThenSeen(db, CutPass(gap, busy, stop), WholePass(gap, busy), id, n)
    decreases n
  {
    if n > 0 {
      PairIsTornThenSeen(db, id, gap, busy, stop);
      PairsGoOn(After(After(db, CutPass(gap, busy, stop)), WholePass(gap, busy)), id, gap, busy, stop, n - 1);
    }
  }

  lemma NoPairs(db: Ledger, a: Attempt, b: Attempt, id: JobId, n: nat)
    requires Valid(db) && n == 0
    ensures AfterAll(db, Pairs(a, b, n)) == db && FreshThroughout(db, Pairs(a, b, n), id)
    ensures Seen(db, Pairs(a, b, n), id) == 0 && TornTimes(db, Pairs(a, b, n), id) == 0
  {
  }

  lemma OnePairMore(db: Ledger, a: Attempt, b: Attempt, rest: seq<Attempt>, id: JobId, n: nat)
    requires Valid(db) && n > 0 && a.gap >= SECOND && b.gap >= SECOND
    requires Fresh(Tick(db, a.gap), id) && Fresh(Tick(After(db, a), b.gap), id)
    requires !Looks(db, a, id) && Tears(db, a, id) && Looks(After(db, a), b, id) && !Tears(After(db, a), b, id)
    requires FreshThroughout(After(After(db, a), b), rest, id)
    requires Seen(After(After(db, a), b), rest, id) == n - 1 && TornTimes(After(After(db, a), b), rest, id) == n - 1
    ensures FreshThroughout(db, [a, b] + rest, id)
    ensures Seen(db, [a, b] + rest, id) == n && TornTimes(db, [a, b] + rest, id) == n
  {
    PairFirst(db, a, b, rest, id);
  }

  lemma {:induction false} PairsCount(db: Ledger, a: Attempt, b: Attempt, id: JobId, n: nat)
    requires Valid(db) && AllTornThenSeen(db, a, b, id, n)
    ensures FreshThroughout(db, Pairs(a, b, n), id)
    ensures Seen(db, Pairs(a, b, n), id) == n && TornTimes(db, Pairs(a, b, n), id) == n
    decreases n
  {
    if n == 0 {
      NoPairs(db, a, b, id, n);
    } else {
      PairsCount(After(After(db, a), b), a, b, id, n - 1);
      OnePairMore(db, a, b, Pairs(a, b, n - 1), id, n);
    }
  }

  lemma {:induction false} PairsEnd(db: Ledger, a: Attempt, b: Attempt, id: JobId, n: nat) returns (end: Ledger)
    requires Valid(db) && AllTornThenSeen(db, a, b, id, n)
    ensures end == AfterAll(db, Pairs(a, b, n)) && OutOfTime(end, id)
    decreases n
  {
    if n == 0 {
      NoPairs(db, a, b, id, n);
      end := db;
    } else {
      end := PairsEnd(After(After(db, a), b), a, b, id, n - 1);
      PairFirst(db, a, b, Pairs(a, b, n - 1), id);
    }
  }

  function TornRun(gap: nat, busy: Reply, stop: Reply, n: nat): seq<Attempt> {
    Pairs(CutPass(gap, busy, stop), WholePass(gap, busy), n)
  }

  // A job that has no pass left, with every second pass cut behind the blocked heartbeat: after
  // any number n of such pairs it is running and as much out of time, its heartbeat never was
  // stale, and n completed passes have seen it. So the bound is attained, and none that leaves
  // out the cuts holds.
  lemma EachCutCostsAPass(db: Ledger, id: JobId, gap: nat, busy: Reply, stop: Reply, n: nat)
    requires Ready(db, id, gap) && SaysBusy(busy) && SECOND <= gap <= STALE_AFTER_SECONDS * SECOND
    ensures var run := TornRun(gap, busy, stop, n);
      && FreshThroughout(db, run, id) && OutOfTime(AfterAll(db, run), id)
      && Seen(db, run, id) == n && TornTimes(db, run, id) == n && PassesLeft(db, id) == 0
  {
    PairsGoOn(db, id, gap, busy, stop, n);
    PairsCount(db, CutPass(gap, busy, stop), WholePass(gap, busy), id, n);
    var end := PairsEnd(db, CutPass(gap, busy, stop), WholePass(gap, busy), id, n);
  }
}
