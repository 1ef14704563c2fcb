/** Runs of the runner protocol that show where its promises end: containers that no cleanup comes for, a
    removal that hits a runner reserved again, and a cleanup that hits a running job. */
module GithubRunnerRuns {
  import opened GithubRunnerInvariants
  import opened GithubRunnerLeaks
  import opened GithubRunnerResults
  import opened GithubRunners
  import opened Wrappers

  const CONFIG: Config := Config(0, 0, true, 1)

  /** One execution, one config on one server, at most one worker, finisher and reconciler. */
  function Sample(row: Row, placed: bool, pc: Option<Pc>, fin: Option<Finisher>, rec: Option<Reconciler>): State {
    State(map[0 := row], {}, map[0 := CONFIG], map[0 := 1], if placed then {Place(0, 0)} else {}, {}, multiset{},
      if pc.Some? then map[0 := Worker(0, pc.value, 0)] else map[],
      if fin.Some? then map[0 := fin.value] else map[],
      if rec.Some? then map[0 := rec.value] else map[])
  }

  function Waits(attempts: nat): Row {
    Row(0, Queued, None, None, attempts)
  }

  function Holds(status: Status, attempts: nat): Row {
    Row(0, status, Some(0), Some(0), attempts)
  }

  lemma {:induction false} RunConcat(s: State, first: seq<Event>, second: seq<Event>)
    requires Run(s, first).Some?
    ensures Run(s, first + second) == Run(Run(s, first).value, second)
    decreases |first|
  {
    hide Next;
    if first == [] {
      assert first + second == second;
    } else {
      assert (first + second)[1..] == first[1..] + second;
      RunConcat(Next(s, first[0]).value, first[1..], second);
    }
  }

  lemma Then(s: State, first: seq<Event>, t: State, ev: Event, u: State)
    requires Run(s, first) == Some(t) && Next(t, ev) == Some(u)
    ensures Run(s, first + [ev]) == Some(u)
  {
    RunConcat(s, first, [ev]);
    hide Next;
    assert [ev][1..] == [];
  }

  lemma GoesOn(s: State, ev: Event, u: State)
    requires Reachable(s) && Next(s, ev) == Some(u)
    ensures Reachable(u)
  {
    hide Next, Run;
    var events :| Run(EMPTY, events) == Some(s);
    Then(EMPTY, events, s, ev, u);
  }

  // ------------------------------------------------------------- pieces of runs

  lemma Starts()
    ensures Reachable(Sample(Waits(0), false, None, None, None))
  {
    var s1 := EMPTY.(configs := map[0 := CONFIG], peak := map[0 := 1]);
    assert Run(EMPTY, []) == Some(EMPTY);
    assert Reachable(EMPTY);
    hide Run, Reachable;
    GoesOn(EMPTY, SetConfig(0, CONFIG), s1);
    GoesOn(s1, Create(0, 0), Sample(Waits(0), false, None, None, None));
  }

  lemma NoneOccupied(attempts: nat)
    ensures |OccupiedSet(map[0 := Waits(attempts)], 0)| == 0
  {
    assert OccupiedSet(map[0 := Waits(attempts)], 0) == {};
  }

  /** The sample worker moves on and nothing else happens. */
  lemma Moves(row: Row, placed: bool, pc: Pc, fin: Option<Finisher>, rec: Option<Reconciler>, pc': Pc, ev: WorkerEvent)
    requires Reachable(Sample(row, placed, Some(pc), fin, rec))
    requires var s := Sample(row, placed, Some(pc), fin, rec); WorkerNext(s, 0, ev) == Some(At(s, 0, pc'))
    ensures Reachable(Sample(row, placed, Some(pc'), fin, rec))
  {
    hide Reachable, WorkerNext;
    var s, t := Sample(row, placed, Some(pc), fin, rec), Sample(row, placed, Some(pc'), fin, rec);
    assert s.workers[0 := Worker(0, pc', 0)] == t.workers;
    GoesOn(s, Work(0, ev), t);
  }

  /** The sample when the runner has been started. */
  function Started(row: Row, pc: Option<Pc>, fin: Option<Finisher>): State {
    Sample(row, true, pc, fin, None).(launched := {0})
  }

  lemma MovesStarted(row: Row, pc: Pc, fin: Option<Finisher>, pc': Pc, ev: WorkerEvent)
    requires Reachable(Started(row, Some(pc), fin))
    requires var s := Started(row, Some(pc), fin); WorkerNext(s, 0, ev) == Some(At(s, 0, pc'))
    ensures Reachable(Started(row, Some(pc'), fin))
  {
    hide Reachable, WorkerNext;
    var s, t := Started(row, Some(pc), fin), Started(row, Some(pc'), fin);
    assert s.workers[0 := Worker(0, pc', 0)] == t.workers;
    GoesOn(s, Work(0, ev), t);
  }

  /** A new job takes the queued execution. */
  lemma TakesExecution(attempts: nat, fin: Option<Finisher>, rec: Option<Reconciler>)
    requires Reachable(Sample(Waits(attempts), false, None, fin, rec))
    ensures Reachable(Sample(Holds(Provisioning, attempts + 1), false, Some(Prepare), fin, rec))
  {
    hide Reachable;
    var row := Waits(attempts);
    var s0 := Sample(row, false, None, fin, rec);
    GoesOn(s0, Spawn(0, 0), Sample(row, false, Some(Start), fin, rec));
    Moves(row, false, Start, fin, rec, RowLocked, LockRow);
    Counts(attempts, fin, rec);
    TakesPicked(attempts, fin, rec);
  }

  lemma Counts(attempts: nat, fin: Option<Finisher>, rec: Option<Reconciler>)
    requires Reachable(Sample(Waits(attempts), false, Some(RowLocked), fin, rec))
    ensures Reachable(Sample(Waits(attempts), false, Some(Counting({0}, [0], [], [Candidate(0, 0, 1)])), fin, rec))
  {
    hide Reachable;
    var row, p := Waits(attempts), Candidate(0, 0, 1);
    assert EnabledConfigs(Sample(row, false, Some(RowLocked), fin, rec), 0) == {0};
    Moves(row, false, RowLocked, fin, rec, Counting({0}, [0], [0], []), LockConfigs([0]));
    NoneOccupied(attempts);
    assert [0][1..] == [] && [] + [p] == [p];
    Moves(row, false, Counting({0}, [0], [0], []), fin, rec, Counting({0}, [0], [], [p]), Count);
  }

  lemma TakesPicked(attempts: nat, fin: Option<Finisher>, rec: Option<Reconciler>)
    requires Reachable(Sample(Waits(attempts), false, Some(Counting({0}, [0], [], [Candidate(0, 0, 1)])), fin, rec))
    ensures Reachable(Sample(Holds(Provisioning, attempts + 1), false, Some(Prepare), fin, rec))
  {
    hide Reachable;
    var p := Candidate(0, 0, 1);
    assert [p][1..] == [] && WithRoom([p]) == [p] && SortByOccupied([p]) == [p];
    assert Pick([p]) == Some(p);
    hide Pick;
    var s := Sample(Waits(attempts), false, Some(Counting({0}, [0], [], [p])), fin, rec);
    var t := Sample(Holds(Provisioning, attempts + 1), false, Some(Prepare), fin, rec);
    assert s.workers[0 := Worker(0, Prepare, 0)] == t.workers;
    assert s.rows[0 := Holds(Provisioning, attempts + 1)] == t.rows;
    GoesOn(s, Work(0, Reserve), t);
  }

  /** The job creates the containers. */
  lemma Prepares(attempts: nat, fin: Option<Finisher>, rec: Option<Reconciler>)
    requires Reachable(Sample(Holds(Provisioning, attempts), false, Some(Prepare), fin, rec))
    ensures Reachable(Sample(Holds(Provisioning, attempts), true, Some(CheckPrepared), fin, rec))
  {
    hide Reachable;
    var s := Sample(Holds(Provisioning, attempts), false, Some(Prepare), fin, rec);
    var t := Sample(Holds(Provisioning, attempts), true, Some(CheckPrepared), fin, rec);
    assert s.workers[0 := Worker(0, CheckPrepared, 0)] == t.workers;
    assert s.containers + {Place(0, 0)} == t.containers;
    GoesOn(s, Work(0, Prepared(true, true)), t);
  }

  /** The job registers the runner. */
  lemma Registers(attempts: nat, fin: Option<Finisher>)
    requires Reachable(Sample(Holds(Provisioning, attempts), true, Some(CheckPrepared), fin, None))
    ensures Reachable(Sample(Holds(Provisioning, attempts), true, Some(Launch), fin, None))
  {
    hide Reachable;
    var row := Holds(Provisioning, attempts);
    Moves(row, true, CheckPrepared, fin, None, Register, Check);
    Moves(row, true, Register, fin, None, CheckRegistered, Registered);
    Moves(row, true, CheckRegistered, fin, None, Launch, Check);
  }

  /** The runner starts, and the command that starts it succeeds or fails. */
  lemma Launches(attempts: nat, fin: Option<Finisher>, ok: bool)
    requires Reachable(Sample(Holds(Provisioning, attempts), true, Some(Launch), fin, None))
    ensures Reachable(Started(Holds(Provisioning, attempts), Some(if ok then CheckLaunched else FCheck), fin))
  {
    hide Reachable;
    var row := Holds(Provisioning, attempts);
    var pc := if ok then CheckLaunched else FCheck;
    var s, t := Sample(row, true, Some(Launch), fin, None), Started(row, Some(pc), fin);
    assert s.workers[0 := Worker(0, pc, 0)] == t.workers && s.containers + {Place(0, 0)} == t.containers;
    assert s.launched + {0} == t.launched;
    GoesOn(s, Work(0, Launched(ok, true)), t);
  }

  /** The rest of a job without failures. */
  lemma BecomesIdle(attempts: nat, fin: Option<Finisher>)
    requires Reachable(Sample(Holds(Provisioning, attempts), true, Some(CheckPrepared), fin, None))
    ensures Reachable(Started(Holds(Idle, attempts), None, fin))
  {
    hide Reachable;
    var row := Holds(Provisioning, attempts);
    Registers(attempts, fin);
    Launches(attempts, fin, true);
    MovesStarted(row, CheckLaunched, fin, MarkIdle, Check);
    Idles(attempts, fin);
  }

  lemma Idles(attempts: nat, fin: Option<Finisher>)
    requires Reachable(Started(Holds(Provisioning, attempts), Some(MarkIdle), fin))
    ensures Reachable(Started(Holds(Idle, attempts), None, fin))
  {
    hide Reachable;
    var s := Started(Holds(Provisioning, attempts), Some(MarkIdle), fin);
    var t := Started(Holds(Idle, attempts), None, fin);
    assert s.workers - {0} == t.workers && s.rows[0 := Holds(Idle, attempts)] == t.rows;
    GoesOn(s, Work(0, MarkedIdle), t);
  }

  // ------------------------------------------------------------- containers that nobody removes

  /** The reconciler reads an execution as queued to time it out. Before it writes, a worker reserves and
      starts the runner and looks for the last time. The write then ends an idle runner without a cleanup. */
  lemma ContainersLeftBehind()
    ensures exists t ::
      && Reachable(t) && LeftBehind(t, Place(0, 0)) && t.rows[0].status == TimedOut
      && t.pending == multiset{} && t.workers == map[] && t.finishers == map[]
  {
    hide Reachable;
    var fin := Some(Finisher(0, TimedOut, false, false));
    Starts();
    var s0, s1 := Sample(Waits(0), false, None, None, None), Sample(Waits(0), false, None, fin, None);
    GoesOn(s0, FinishRead(0, 0, TimedOut), s1);
    TakesExecution(0, fin, None);
    Prepares(1, fin, None);
    BecomesIdle(1, fin);
    var s, t := Started(Holds(Idle, 1), None, fin), Started(Holds(TimedOut, 1), None, None);
    assert s.rows[0 := Holds(TimedOut, 1)] == t.rows && s.finishers - {0} == t.finishers;
    GoesOn(s, FinishWrite(0), t);
    assert LeftBehind(t, Place(0, 0));
  }

  // ------------------------------------------------------------- a runner reserved again

  /** The job fails, removes the containers and queues the execution again. */
  lemma FailsAndRetries(attempts: nat, rec: Option<Reconciler>)
    requires Reachable(Sample(Holds(Provisioning, attempts), true, Some(CheckPrepared), None, rec))
    requires attempts < MAX_ATTEMPTS
    ensures Reachable(Sample(Waits(attempts), false, None, None, rec))
  {
    hide Reachable;
    var row := Holds(Provisioning, attempts);
    Moves(row, true, CheckPrepared, None, rec, FCheck, Throw);
    Moves(row, true, FCheck, None, rec, FCleanup, Check);
    QueuesAgain(attempts, rec);
  }

  lemma QueuesAgain(attempts: nat, rec: Option<Reconciler>)
    requires Reachable(Sample(Holds(Provisioning, attempts), true, Some(FCleanup), None, rec))
    ensures Reachable(Sample(Waits(attempts), false, None, None, rec))
  {
    hide Reachable;
    var row := Holds(Provisioning, attempts);
    var s, t := Sample(row, true, Some(FCleanup), None, rec), Sample(row, false, Some(FRequeue(true)), None, rec);
    assert s.workers[0 := Worker(0, FRequeue(true), 0)] == t.workers && s.containers - {Place(0, 0)} == t.containers;
    GoesOn(s, Work(0, SyncCleanup(true)), t);
    Requeues(attempts, rec);
  }

  lemma Requeues(attempts: nat, rec: Option<Reconciler>)
    requires Reachable(Sample(Holds(Provisioning, attempts), false, Some(FRequeue(true)), None, rec))
    ensures Reachable(Sample(Waits(attempts), false, None, None, rec))
  {
    hide Reachable;
    var t := Sample(Holds(Provisioning, attempts), false, Some(FRequeue(true)), None, rec);
    var u := Sample(Waits(attempts), false, None, None, rec);
    assert t.workers - {0} == u.workers && t.rows[0 := Waits(attempts)] == u.rows;
    GoesOn(t, Work(0, Requeue), u);
  }

  /** The reconciler lists the containers of the first attempt and reads the execution while it is queued
      again. It then removes the containers of the second attempt. */
  lemma SecondAttemptLosesContainers()
    ensures exists t, u ::
      && Reachable(t) && Next(t, RemoveOrphan(0, 0)) == Some(u)
      && UsesServer(t.rows, 0, 0) && Place(0, 0) in t.containers && Place(0, 0) !in u.containers
  {
    hide Reachable;
    var listed, orphans := Some(Listed(0, map[0 := 1])), Some(Orphans(0, map[0 := 1]));
    Starts();
    TakesExecution(0, None, None);
    Prepares(1, None, None);
    ListsFirst();
    FailsAndRetries(1, listed);
    ReadsQueued();
    TakesExecution(1, None, orphans);
    Prepares(2, None, orphans);
    var t := Sample(Holds(Provisioning, 2), true, Some(CheckPrepared), None, orphans);
    var u := t.(containers := t.containers - {Place(0, 0)});
    assert Next(t, RemoveOrphan(0, 0)) == Some(u);
  }

  lemma ListsFirst()
    requires Reachable(Sample(Holds(Provisioning, 1), true, Some(CheckPrepared), None, None))
    ensures Reachable(Sample(Holds(Provisioning, 1), true, Some(CheckPrepared), None, Some(Listed(0, map[0 := 1]))))
  {
    hide Reachable;
    var s := Sample(Holds(Provisioning, 1), true, Some(CheckPrepared), None, None);
    var t := Sample(Holds(Provisioning, 1), true, Some(CheckPrepared), None, Some(Listed(0, map[0 := 1])));
    assert Place(0, 0) in s.containers;
    assert ContainersOn(s, 0) == {0};
    assert (map e | e in ContainersOn(s, 0) :: AttemptsOf(s, e)) == map[0 := 1];
    assert s.reconcilers[0 := Listed(0, map[0 := 1])] == t.reconcilers;
    GoesOn(s, List(0, 0), t);
  }

  lemma ReadsQueued()
    requires Reachable(Sample(Waits(1), false, None, None, Some(Listed(0, map[0 := 1]))))
    ensures Reachable(Sample(Waits(1), false, None, None, Some(Orphans(0, map[0 := 1]))))
  {
    hide Reachable;
    var s := Sample(Waits(1), false, None, None, Some(Listed(0, map[0 := 1])));
    var t := Sample(Waits(1), false, None, None, Some(Orphans(0, map[0 := 1])));
    var seen := map[0 := 1];
    assert (map e | e in seen && !OnServer(s, e, 0) :: seen[e]) == seen;
    assert s.reconcilers[0 := Orphans(0, seen)] == t.reconcilers;
    GoesOn(s, Read(0), t);
  }

  // ------------------------------------------------------------- a running job

  lemma JobIsAssigned(s: State, e: nat)
    requires Reachable(s) && e in s.rows && s.rows[e].status == Provisioning && RowFree(s, e) && e in s.launched
    ensures Reachable(s.(rows := s.rows[e := s.rows[e].(status := Running)]))
  {
    hide Reachable, RowFree;
    assert s.rows - {} == s.rows && s.gone + {} == s.gone;
    GoesOn(s, Assign(e, None, None), s.(rows := s.rows[e := s.rows[e].(status := Running)]));
  }

  lemma GivesUp(s: State, w: nat)
    requires Reachable(s) && w in s.workers && s.workers[w].pc.FExhausted?
    requires var e := s.workers[w].exec; e in s.rows && s.rows[e].status == Running && RowFree(s, e)
    ensures var e := s.workers[w].exec;
      exists t :: Reachable(t) && t.rows == s.rows && t.containers == s.containers && e in t.pending
  {
    hide Reachable, RowFree;
    var e := s.workers[w].exec;
    var t := At(s, w, Dispatch);
    GoesOn(s, Work(w, Exhaust), t);
    var u := Leave(t.(pending := t.pending + multiset{e}), w);
    GoesOn(t, Work(w, DispatchCleanup), u);
    assert e in u.pending;
  }

  lemma IsCleanedUp(s: State, e: nat)
    requires Reachable(s) && e in s.pending && e in s.rows && s.rows[e].server.Some?
    ensures exists t :: Reachable(t) && t.rows == s.rows && Place(s.rows[e].server.value, e) !in t.containers
  {
    hide Reachable;
    var t := RemoveContainers(s.(pending := s.pending - multiset{e}), e, true);
    GoesOn(s, Cleanup(e, true), t);
  }

  /** After its last failure a worker dispatches the cleanup even if the runner that it started has been
      assigned a job meanwhile, so that the containers of a running job can be removed. */
  lemma RunningJobLosesContainers(s: State, w: nat)
    requires Reachable(s) && w in s.workers && s.workers[w].pc.FExhausted?
    requires var e := s.workers[w].exec; e in s.rows && s.rows[e].status == Provisioning && e in s.launched
    ensures var e := s.workers[w].exec;
      exists t :: Reachable(t) && e in t.rows && t.rows[e] == s.rows[e].(status := Running) && t.rows[e].server.Some?
        && Place(t.rows[e].server.value, e) !in t.containers
  {
    var e := s.workers[w].exec;
    ReachableInv(s);
    assert RowFree(s, e) && s.rows[e].server.Some? by {
      hide Reachable, KnownOk, OwnersOk, PeaksOk, CountsOk, RemovedOk, PendingOk, ReconcilersOk;
    }
    hide Reachable, Inv;
    JobIsAssigned(s, e);
    var s1 := s.(rows := s.rows[e := s.rows[e].(status := Running)]);
    assert RowFree(s1, e);
    hide RowFree;
    GivesUp(s1, w);
    var s2 :| Reachable(s2) && s2.rows == s1.rows && s2.containers == s1.containers && e in s2.pending;
    IsCleanedUp(s2, e);
  }

  /** The state asked for is reached: two attempts fail early, and the third job starts the runner, fails and
      gives up. */
  lemma ThirdAttemptGivesUp()
    ensures Reachable(Started(Holds(Provisioning, MAX_ATTEMPTS), Some(FExhausted), None))
  {
    hide Reachable;
    Starts();
    TakesExecution(0, None, None);
    Prepares(1, None, None);
    FailsAndRetries(1, None);
    TakesExecution(1, None, None);
    Prepares(2, None, None);
    FailsAndRetries(2, None);
    TakesExecution(2, None, None);
    Prepares(3, None, None);
    Registers(3, None);
    Launches(3, None, false);
    MovesStarted(Holds(Provisioning, 3), FCheck, None, FExhausted, Check);
  }

  /** A run in which the containers of a running job are removed. */
  lemma RunningJobIsHit()
    ensures exists t ::
      && Reachable(t) && Place(0, 0) !in t.containers
      && 0 in t.rows && t.rows[0].status == Running && t.rows[0].server == Some(0)
  {
    hide Reachable;
    ThirdAttemptGivesUp();
    var s := Started(Holds(Provisioning, MAX_ATTEMPTS), Some(FExhausted), None);
    RunningJobLosesContainers(s, 0);
    var t :| Reachable(t) && 0 in t.rows && t.rows[0] == s.rows[0].(status := Running) && t.rows[0].server.Some?
      && Place(t.rows[0].server.value, 0) !in t.containers;
  }

  /** The same happens to the cleanup before a retry, in the first attempt. */
  lemma RetryHitsRunningJob()
    ensures exists t :: Reachable(t) && t.rows == map[0 := Holds(Running, 1)] && Place(0, 0) !in t.containers
  {
    hide Reachable;
    Starts();
    TakesExecution(0, None, None);
    Prepares(1, None, None);
    Registers(1, None);
    Launches(1, None, false);
    MovesStarted(Holds(Provisioning, 1), FCheck, None, FCleanup, Check);
    RunsMeanwhile();
    var s := Started(Holds(Running, 1), Some(FCleanup), None);
    var t := s.(containers := {}, workers := map[0 := Worker(0, FRequeue(true), 0)]);
    assert s.containers - {Place(0, 0)} == t.containers && s.workers[0 := Worker(0, FRequeue(true), 0)] == t.workers;
    GoesOn(s, Work(0, SyncCleanup(true)), t);
  }

  lemma RunsMeanwhile()
    requires Reachable(Started(Holds(Provisioning, 1), Some(FCleanup), None))
    ensures Reachable(Started(Holds(Running, 1), Some(FCleanup), None))
  {
    hide Reachable;
    var s, t := Started(Holds(Provisioning, 1), Some(FCleanup), None), Started(Holds(Running, 1), Some(FCleanup), None);
    assert s.rows[0 := Holds(Running, 1)] == t.rows;
    JobIsAssigned(s, 0);
    assert s.(rows := t.rows) == t;
  }
}
