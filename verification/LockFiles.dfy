/** With which lock files the bound on the sends holds at all: with one. */
module LockFiles {
  import opened Wrappers
  import opened JobLedger
  import opened SupervisorProtocol
  import opened PassRefinement
  import opened SendAccounting
  import opened Races

  // Every supervisor is started with one of these lock files.
  ghost predicate LockFilesFrom(actions: seq<Action>, files: set<string>) {
    forall a :: a in actions && a.StartSupervisor? ==> a.lockFile in files
  }

  // In every run a job is sent at most as often as it became queued.
  ghost predicate SendsBounded(s: Sys, files: set<string>, id: JobId) {
    forall actions: seq<Action> :: LockFilesFrom(actions, files) ==>
      Count(Execute(s, actions).sends, id) <= Episodes(Execute(s, actions), id)
  }

  function Repeat(a: Action, n: nat): seq<Action> {
    seq(n, i => a)
  }

  lemma {:induction false} StepsAreActions(s: Sys, p: Pid, n: nat)
    ensures Execute(s, Repeat(Step(p), n)) == StepTimes(s, p, n)
  {
    if n > 0 {
      StepsAreActions(s, p, n - 1);
      assert Repeat(Step(p), n)[..n - 1] == Repeat(Step(p), n - 1);
      IterateAdd((t: Sys) => Next(t, Step(p)), s, n - 1, 1);
    }
  }

  // A supervisor takes its lock and begins a pass, up to its listing.
  function Entering(p: Pid): seq<Action> {
    [TryLock(p)] + [BeginPass(p)] + Repeat(Step(p), 2)
  }

  lemma OneAction(s: Sys, a: Action)
    ensures Execute(s, [a]) == Next(s, a)
  {
    assert [a][..0] == [];
  }

  lemma EnteringEnters(s: Sys, p: Pid)
    ensures Execute(s, Entering(p)) == EnterPass(s, p)
  {
    var s1, s2 := Next(s, TryLock(p)), Next(Next(s, TryLock(p)), BeginPass(p));
    OneAction(s, TryLock(p));
    OneAction(s1, BeginPass(p));
    ExecuteAppend(s, [TryLock(p)], [BeginPass(p)]);
    ExecuteAppend(s, [TryLock(p)] + [BeginPass(p)], Repeat(Step(p), 2));
    StepsAreActions(s2, p, 2);
  }

  // A job submitted, and two supervisors.
  function TwoSupervisors(f: string, g: string, id: JobId): seq<Action> {
    [SubmitJob(id, "")] + [StartSupervisor(0, f)] + [StartSupervisor(1, g)]
  }

  lemma TwoAreStarted(s: Sys, f: string, g: string, id: JobId)
    requires Initial(s)
    ensures var t := Execute(s, TwoSupervisors(f, g, id));
      && OneQueued(t.ledger, id) && t.locks == map[] && Count(t.sends, id) == 0 && Episodes(t, id) == 1
      && t.procs == map[0 := Supervisor(f, false, None), 1 := Supervisor(g, false, None)]
  {
    var s1 := Next(s, SubmitJob(id, ""));
    var s2 := Next(s1, StartSupervisor(0, f));
    OneAction(s, SubmitJob(id, ""));
    OneAction(s1, StartSupervisor(0, f));
    OneAction(s2, StartSupervisor(1, g));
    ExecuteAppend(s, [SubmitJob(id, "")], [StartSupervisor(0, f)]);
    ExecuteAppend(s, [SubmitJob(id, "")] + [StartSupervisor(0, f)], [StartSupervisor(1, g)]);
    assert s1.ledger.order == [id];
  }

  function TwoSends(f: string, g: string, id: JobId): seq<Action> {
    TwoSupervisors(f, g, id) + Entering(0) + Entering(1) + Repeat(Step(0), 6) + Repeat(Step(1), 6)
  }

  // A run from the very beginning in which two supervisors with different lock files send a
  // job twice that was submitted once.
  lemma TwoSendsHappen(s: Sys, f: string, g: string, id: JobId)
    requires Initial(s) && f != g
    ensures Count(Execute(s, TwoSends(f, g, id)).sends, id) == 2 && Episodes(Execute(s, TwoSends(f, g, id)), id) == 1
  {
    var t := Execute(s, TwoSupervisors(f, g, id));
    TwoAreStarted(s, f, g, id);
    TwoLockFilesSendTwice(t, 0, 1, f, g, id);
    TwoSendsLead(s, f, g, id);
  }

  lemma TwoSendsLead(s: Sys, f: string, g: string, id: JobId)
    ensures Execute(s, TwoSends(f, g, id)) == TwoDispatches(Execute(s, TwoSupervisors(f, g, id)), 0, 1)
  {
    var t := Execute(s, TwoSupervisors(f, g, id));
    var a := TwoSupervisors(f, g, id);
    var b := a + Entering(0);
    var c := b + Entering(1);
    var d := c + Repeat(Step(0), 6);
    ExecuteAppend(s, a, Entering(0));
    EnteringEnters(t, 0);
    ExecuteAppend(s, b, Entering(1));
    EnteringEnters(Execute(s, b), 1);
    ExecuteAppend(s, c, Repeat(Step(0), 6));
    StepsAreActions(Execute(s, c), 0, 6);
    ExecuteAppend(s, d, Repeat(Step(1), 6));
    StepsAreActions(Execute(s, d), 1, 6);
  }

  // The bound holds for every run of supervisors that use these lock files if and only if
  // there is at most one of them.
  lemma BoundedIffOneLockFile(s: Sys, files: set<string>, id: JobId)
    requires Initial(s)
    ensures SendsBounded(s, files, id) <==> |files| <= 1
  {
    if f, g :| f in files && g in files && f != g {
      assert |files| >= |{f, g}| by { Subset({f, g}, files); }
      TwoSendsHappen(s, f, g, id);
      assert LockFilesFrom(TwoSends(f, g, id), files);
    } else {
      var f :| forall g :: g in files ==> g == f;
      assert files <= {f};
      Subset(files, {f});
      forall actions: seq<Action> | LockFilesFrom(actions, files)
        ensures Count(Execute(s, actions).sends, id) <= Episodes(Execute(s, actions), id)
      {
        AtMostOneSendPerEpisode(s, [], actions, f, id);
        assert [] + actions == actions;
      }
    }
  }

  lemma {:induction false} Subset<T>(a: set<T>, b: set<T>)
    requires a <= b
    ensures |a| <= |b|
    decreases |a|
  {
    if a != {} {
      var x :| x in a;
      Subset(a - {x}, b - {x});
    }
  }
}
