/** Which steps put a runner in use at the mercy of a cleanup: one that was meant for a failed attempt, and finds
    that a job has been assigned meanwhile. Nothing else does, and each of these steps does. */
module GithubRunnerThreats {
  import opened GithubRunnerInvariants
  import opened GithubRunnerLeaks
  import opened GithubRunnerResults
  import opened GithubRunners
  import opened Wrappers

  /** The runner waits for its job or runs it. */
  predicate InUse(rows: map<nat, Row>, e: nat) {
    e in rows && (rows[e].status == Idle || rows[e].status == Running)
  }

  /** A worker is about to dispatch the cleanup of the execution. */
  predicate GivingUp(workers: map<nat, Worker>, e: nat) {
    exists w :: w in workers && workers[w].exec == e && workers[w].pc.Dispatch?
  }

  /** A worker is about to clean up itself, to queue the execution again. */
  predicate Retrying(workers: map<nat, Worker>, e: nat) {
    exists w :: w in workers && workers[w].exec == e && workers[w].pc.FCleanup?
  }

  predicate CleanupComes(s: State, e: nat) {
    e in s.pending || GivingUp(s.workers, e)
  }

  /** The next cleanup of the execution removes a runner that it occupies, other than the failed one that a worker
      removes before it tries again. */
  predicate Threatened(s: State, e: nat) {
    && e in s.rows
    && ((Occupying(s.rows[e].status) && CleanupComes(s, e)) || (InUse(s.rows, e) && Retrying(s.workers, e)))
  }

  /** The worker goes for a cleanup although its runner is in use by now, or the runner comes into use when the
      worker has decided so. */
  predicate Endangers(s: State, ev: Event, e: nat) {
    match ev
    case Work(w, Exhaust) => w in s.workers && s.workers[w].exec == e && InUse(s.rows, e)
    case Work(w, Check) =>
      && w in s.workers && s.workers[w].exec == e && s.workers[w].pc.FCheck?
      && InUse(s.rows, e) && s.rows[e].attempts < MAX_ATTEMPTS
    case Assign(x, _, _) => x == e && Retrying(s.workers, e)
    case _ => false
  }

  // ------------------------------------------------------------- what a step does to one execution

  ghost predicate SameOthers(a: map<nat, Worker>, b: map<nat, Worker>, w: nat) {
    forall v :: v != w ==> (v in a <==> v in b) && (v in a ==> a[v] == b[v])
  }

  predicate SameRow(a: map<nat, Row>, b: map<nat, Row>, e: nat) {
    (e in a <==> e in b) && (e in a ==> a[e] == b[e])
  }

  /** The step of worker `w`, which is not about the execution, leaves it alone. */
  ghost predicate Apart(s: State, t: State, w: nat, e: nat)
    requires w in s.workers
  {
    && SameOthers(s.workers, t.workers, w) && SameRow(s.rows, t.rows, e) && (e in t.pending <==> e in s.pending)
    && (w in t.workers ==> t.workers[w].exec == s.workers[w].exec)
  }

  lemma CheckApart(s: State, w: nat, e: nat)
    requires w in s.workers && s.workers[w].exec != e && AfterCheck(s, w).Some?
    ensures Apart(s, AfterCheck(s, w).value, w, e)
  {
    CheckShape(s, w);
    hide AfterCheck;
  }

  lemma ReserveApart(s: State, w: nat, e: nat)
    requires w in s.workers && s.workers[w].exec != e && DoReserve(s, w).Some?
    ensures Apart(s, DoReserve(s, w).value, w, e)
  {
    hide Pick, Reserved;
  }

  lemma RequeueApart(s: State, w: nat, e: nat)
    requires w in s.workers && s.workers[w].exec != e
    ensures Apart(s, DoRequeue(s, w), w, e)
  {
  }

  lemma UpdateApart(s: State, w: nat, ev: WorkerEvent, e: nat)
    requires w in s.workers && WorkerNext(s, w, ev).Some? && s.workers[w].exec != e && (ev.MarkedIdle? || ev.Exhaust?)
    ensures Apart(s, WorkerNext(s, w, ev).value, w, e)
  {
    UpdatedRows(s, s.workers[w].exec, if ev.MarkedIdle? then Idle else Failed);
    hide RowFree, UpdateIfProvisioning;
  }

  lemma PlacesOnly(s: State)
    ensures forall e, ok :: RemoveContainers(s, e, ok) == s.(containers := RemoveContainers(s, e, ok).containers)
    ensures forall created, server, e ::
      AddContainers(s, created, server, e) == s.(containers := AddContainers(s, created, server, e).containers)
  {
  }

  lemma PlacesApart(s: State, w: nat, ev: WorkerEvent, e: nat)
    requires w in s.workers && WorkerNext(s, w, ev).Some? && s.workers[w].exec != e
    requires ev.Prepared? || ev.Launched? || ev.SyncCleanup?
    ensures Apart(s, WorkerNext(s, w, ev).value, w, e)
  {
    PlacesOnly(s);
    hide RowFree, AddContainers, RemoveContainers;
  }

  lemma MovesApart(s: State, w: nat, ev: WorkerEvent, e: nat)
    requires w in s.workers && WorkerNext(s, w, ev).Some? && s.workers[w].exec != e
    requires !Updates(ev) && !ev.Check? && !ev.Reserve? && !ev.Requeue?
    ensures Apart(s, WorkerNext(s, w, ev).value, w, e)
  {
    hide RowFree, ConfigFree, EnabledConfigs, OccupiedSet, Active, CanThrow;
  }

  lemma OtherWorkerApart(s: State, w: nat, ev: WorkerEvent, e: nat)
    requires w in s.workers && WorkerNext(s, w, ev).Some? && s.workers[w].exec != e
    ensures Apart(s, WorkerNext(s, w, ev).value, w, e)
  {
    hide Apart, RowFree, AfterCheck, DoReserve, DoRequeue;
    if ev.Check? {
      CheckApart(s, w, e);
    } else if ev.Reserve? {
      ReserveApart(s, w, e);
    } else if ev.Requeue? {
      RequeueApart(s, w, e);
    } else {
      hide WorkerNext;
      if ev.MarkedIdle? || ev.Exhaust? {
        UpdateApart(s, w, ev, e);
      } else if Updates(ev) {
        PlacesApart(s, w, ev, e);
      } else {
        MovesApart(s, w, ev, e);
      }
    }
  }

  lemma ApartStays(s: State, t: State, w: nat, e: nat)
    requires w in s.workers && s.workers[w].exec != e && Apart(s, t, w, e)
    ensures Threatened(t, e) == Threatened(s, e)
  {
    if GivingUp(s.workers, e) {
      var v :| v in s.workers && s.workers[v].exec == e && s.workers[v].pc.Dispatch?;
      assert v in t.workers;
    }
    if GivingUp(t.workers, e) {
      var v :| v in t.workers && t.workers[v].exec == e && t.workers[v].pc.Dispatch?;
      assert v in s.workers;
    }
    if Retrying(s.workers, e) {
      var v :| v in s.workers && s.workers[v].exec == e && s.workers[v].pc.FCleanup?;
      assert v in t.workers;
    }
    if Retrying(t.workers, e) {
      var v :| v in t.workers && t.workers[v].exec == e && t.workers[v].pc.FCleanup?;
      assert v in s.workers;
    }
    hide GivingUp, Retrying;
  }

  // ------------------------------------------------------------- steps of the worker of the execution

  /** What an owner is up to is what the workers are up to. */
  lemma OwnFlags(s: State, t: State, w: nat)
    requires Inv(s) && w in s.workers && Owns(s.workers[w].pc) && SameOthers(s.workers, t.workers, w)
    requires w in t.workers ==> t.workers[w].exec == s.workers[w].exec
    ensures var e := s.workers[w].exec;
      && (GivingUp(s.workers, e) <==> s.workers[w].pc.Dispatch?)
      && (Retrying(s.workers, e) <==> s.workers[w].pc.FCleanup?)
      && (GivingUp(t.workers, e) <==> w in t.workers && t.workers[w].pc.Dispatch?)
      && (Retrying(t.workers, e) <==> w in t.workers && t.workers[w].pc.FCleanup?)
  {
    OwnerFactsOf(s, w);
    hide Inv;
  }

  /** A worker that owns nothing does not count. */
  lemma NonOwnerFlags(s: State, t: State, w: nat)
    requires w in s.workers && !Owns(s.workers[w].pc) && SameOthers(s.workers, t.workers, w)
    requires w in t.workers ==>
      t.workers[w].exec == s.workers[w].exec && !t.workers[w].pc.Dispatch? && !t.workers[w].pc.FCleanup?
    ensures forall e ::
      GivingUp(t.workers, e) == GivingUp(s.workers, e) && Retrying(t.workers, e) == Retrying(s.workers, e)
  {
    forall e
      ensures GivingUp(t.workers, e) == GivingUp(s.workers, e) && Retrying(t.workers, e) == Retrying(s.workers, e)
    {
      if GivingUp(s.workers, e) {
        var v :| v in s.workers && s.workers[v].exec == e && s.workers[v].pc.Dispatch?;
        assert v in t.workers;
      }
      if Retrying(s.workers, e) {
        var v :| v in s.workers && s.workers[v].exec == e && s.workers[v].pc.FCleanup?;
        assert v in t.workers;
      }
    }
  }

  /** The worker goes on without a cleanup, and the execution does not come into use. */
  lemma OwnGoesOn(s: State, t: State, w: nat)
    requires Inv(s) && w in s.workers && Owns(s.workers[w].pc) && SameOthers(s.workers, t.workers, w)
    requires w in t.workers ==>
      t.workers[w].exec == s.workers[w].exec && !t.workers[w].pc.Dispatch? && !t.workers[w].pc.FCleanup?
    requires t.pending <= s.pending && !Threatened(s, s.workers[w].exec)
    requires var e := s.workers[w].exec;
      e in t.rows ==> e in s.rows && (Occupying(t.rows[e].status) ==> Occupying(s.rows[e].status))
    ensures !Threatened(t, s.workers[w].exec)
  {
    OwnFlags(s, t, w);
    assert s.workers[w].exec in t.pending ==> s.workers[w].exec in s.pending;
    hide Inv, GivingUp, Retrying, SameOthers, Owns;
  }

  lemma NonOwnerStays(s: State, t: State, w: nat, e: nat)
    requires w in s.workers && !Owns(s.workers[w].pc) && SameOthers(s.workers, t.workers, w)
    requires w in t.workers ==>
      t.workers[w].exec == s.workers[w].exec && !t.workers[w].pc.Dispatch? && !t.workers[w].pc.FCleanup?
    requires t.rows == s.rows && t.pending == s.pending
    ensures Threatened(t, e) == Threatened(s, e)
  {
    NonOwnerFlags(s, t, w);
    hide GivingUp, Retrying;
  }

  lemma QueuedIsSafe(s: State, e: nat)
    requires Inv(s) && e in s.rows && s.rows[e].status == Queued
    ensures !CleanupComes(s, e) && !Retrying(s.workers, e)
  {
    hide KnownOk, LocksOk, PeaksOk, CountsOk, RemovedOk, ReconcilersOk;
  }

  lemma ReserveShape(s: State, w: nat)
    requires w in s.workers && DoReserve(s, w).Some?
    ensures var t := DoReserve(s, w).value;
      && SameOthers(s.workers, t.workers, w) && t.pending == s.pending && !Owns(s.workers[w].pc)
      && (w in t.workers ==>
            t.workers[w].exec == s.workers[w].exec && !t.workers[w].pc.Dispatch? && !t.workers[w].pc.FCleanup?)
      && (Pick(s.workers[w].pc.done).None? ==> t.rows == s.rows)
  {
    hide Pick;
  }

  lemma ReserveThreat(s: State, w: nat)
    requires Inv(s) && w in s.workers && DoReserve(s, w).Some? && !Threatened(s, s.workers[w].exec)
    ensures !Threatened(DoReserve(s, w).value, s.workers[w].exec)
  {
    var t, e := DoReserve(s, w).value, s.workers[w].exec;
    ReserveShape(s, w);
    hide Pick, DoReserve;
    if Pick(s.workers[w].pc.done).Some? {
      PickedHasRoom(s, w);
      QueuedIsSafe(s, e);
    }
    NonOwnerFlags(s, t, w);
    hide Inv, OccupiedSet, Unowned, RowFree, ConfigFree, GivingUp, Retrying, SameOthers;
  }

  lemma CheckShape(s: State, w: nat)
    requires w in s.workers && AfterCheck(s, w).Some?
    ensures var t, worker := AfterCheck(s, w).value, s.workers[w]; var e := worker.exec;
      && t == s.(workers := t.workers) && SameOthers(s.workers, t.workers, w) && Owns(worker.pc)
      && (w in t.workers ==> t.workers[w].exec == e)
      && (w in t.workers && t.workers[w].pc.Dispatch? ==> e in s.rows && !Active(s.rows[e].status))
      && (w in t.workers && t.workers[w].pc.FCleanup? <==>
            worker.pc.FCheck? && e in s.rows && Active(s.rows[e].status) && s.rows[e].attempts < MAX_ATTEMPTS)
  {
  }

  lemma CheckThreat(s: State, w: nat)
    requires Inv(s) && w in s.workers && AfterCheck(s, w).Some? && !Threatened(s, s.workers[w].exec)
    ensures Threatened(AfterCheck(s, w).value, s.workers[w].exec) <==> Endangers(s, Work(w, Check), s.workers[w].exec)
  {
    CheckShape(s, w);
    OwnFlags(s, AfterCheck(s, w).value, w);
    hide Inv, AfterCheck, GivingUp, Retrying, SameOthers, Owns;
  }

  lemma ExhaustShape(s: State, w: nat)
    requires w in s.workers
    ensures var e := s.workers[w].exec; var t := At(UpdateIfProvisioning(s, e, Failed), w, Dispatch);
      && SameOthers(s.workers, t.workers, w) && w in t.workers && t.workers[w] == s.workers[w].(pc := Dispatch)
      && t.rows == UpdateIfProvisioning(s, e, Failed).rows
  {
    FailedRow(s, s.workers[w].exec);
    hide UpdateIfProvisioning;
  }

  lemma ExhaustThreat(s: State, w: nat)
    requires Inv(s) && w in s.workers && s.workers[w].pc.FExhausted? && !Threatened(s, s.workers[w].exec)
    ensures var e := s.workers[w].exec; var t := At(UpdateIfProvisioning(s, e, Failed), w, Dispatch);
      Threatened(t, e) <==> Endangers(s, Work(w, Exhaust), e)
  {
    var e := s.workers[w].exec;
    var t := At(UpdateIfProvisioning(s, e, Failed), w, Dispatch);
    FailedRow(s, e);
    ExhaustShape(s, w);
    hide UpdateIfProvisioning, At;
    OwnFlags(s, t, w);
    hide Inv, GivingUp, Retrying, SameOthers, Owns;
  }

  lemma FailedRow(s: State, e: nat)
    ensures var u := UpdateIfProvisioning(s, e, Failed);
      && u == s.(rows := u.rows) && (e in u.rows <==> e in s.rows)
      && (e in s.rows ==>
            u.rows[e].status == if s.rows[e].status == Provisioning then Failed else s.rows[e].status)
  {
  }

  lemma NonOwnersThreat(s: State, w: nat, ev: WorkerEvent)
    requires w in s.workers && WorkerNext(s, w, ev).Some? && !Owns(s.workers[w].pc)
    requires ev.LockRow? || ev.Skip? || ev.LockConfigs? || ev.Count? || ev.Kill?
    ensures Threatened(WorkerNext(s, w, ev).value, s.workers[w].exec) == Threatened(s, s.workers[w].exec)
  {
    hide RowFree, ConfigFree, EnabledConfigs, OccupiedSet, Threatened;
    NonOwnerStays(s, WorkerNext(s, w, ev).value, w, s.workers[w].exec);
  }

  lemma OwnersThreat(s: State, w: nat, ev: WorkerEvent)
    requires Inv(s) && w in s.workers && WorkerNext(s, w, ev).Some? && Owns(s.workers[w].pc)
    requires ev.Prepared? || ev.Throw? || ev.Registered? || ev.Launched? || ev.SyncCleanup? || ev.Kill?
    requires !Threatened(s, s.workers[w].exec)
    ensures !Threatened(WorkerNext(s, w, ev).value, s.workers[w].exec)
  {
    PlacesOnly(s);
    hide Inv, RowFree, Threatened, AddContainers, RemoveContainers;
    OwnGoesOn(s, WorkerNext(s, w, ev).value, w);
  }

  lemma RowWritersThreat(s: State, w: nat, ev: WorkerEvent)
    requires Inv(s) && w in s.workers && WorkerNext(s, w, ev).Some? && (ev.MarkedIdle? || ev.Requeue?)
    requires !Threatened(s, s.workers[w].exec)
    ensures !Threatened(WorkerNext(s, w, ev).value, s.workers[w].exec)
  {
    hide Inv, RowFree, Threatened;
    OwnGoesOn(s, WorkerNext(s, w, ev).value, w);
  }

  lemma DispatchThreat(s: State, w: nat)
    requires Inv(s) && w in s.workers && s.workers[w].pc.Dispatch? && !Threatened(s, s.workers[w].exec)
    ensures !Threatened(Leave(s.(pending := s.pending + multiset{s.workers[w].exec}), w), s.workers[w].exec)
  {
    var t := Leave(s.(pending := s.pending + multiset{s.workers[w].exec}), w);
    OwnFlags(s, t, w);
    hide Inv, GivingUp, Retrying;
  }

  lemma OwnThreat(s: State, w: nat, ev: WorkerEvent)
    requires Inv(s) && w in s.workers && WorkerNext(s, w, ev).Some? && !Threatened(s, s.workers[w].exec)
    ensures var e := s.workers[w].exec;
      Threatened(WorkerNext(s, w, ev).value, e) <==> Endangers(s, Work(w, ev), e)
  {
    hide Inv, Threatened, RowFree, ConfigFree, EnabledConfigs, OccupiedSet, AfterCheck, DoReserve, DoRequeue,
      AddContainers,
      RemoveContainers, UpdateIfProvisioning, DoLaunch, At, Leave;
    match ev
    case LockRow => NonOwnersThreat(s, w, ev);
    case Skip => NonOwnersThreat(s, w, ev);
    case LockConfigs(_) => NonOwnersThreat(s, w, ev);
    case Count => NonOwnersThreat(s, w, ev);
    case Reserve => ReserveThreat(s, w);
    case Prepared(_, _) => OwnersThreat(s, w, ev);
    case Check => CheckThreat(s, w);
    case Throw => OwnersThreat(s, w, ev);
    case Registered => OwnersThreat(s, w, ev);
    case Launched(_, _) => OwnersThreat(s, w, ev);
    case MarkedIdle => RowWritersThreat(s, w, ev);
    case Exhaust => ExhaustThreat(s, w);
    case SyncCleanup(_) => OwnersThreat(s, w, ev);
    case Requeue => RowWritersThreat(s, w, ev);
    case DispatchCleanup => DispatchThreat(s, w);
    case Kill => if Owns(s.workers[w].pc) { OwnersThreat(s, w, ev); } else { NonOwnersThreat(s, w, ev); }
  }

  // ------------------------------------------------------------- steps of all others

  lemma SpawnThreat(s: State, w: nat, x: nat, e: nat)
    requires w !in s.workers
    ensures Threatened(s.(workers := s.workers[w := Worker(x, Start, 0)]), e) == Threatened(s, e)
  {
    var t := s.(workers := s.workers[w := Worker(x, Start, 0)]);
    if GivingUp(s.workers, e) {
      var v :| v in s.workers && s.workers[v].exec == e && s.workers[v].pc.Dispatch?;
      assert v in t.workers;
    }
    if Retrying(s.workers, e) {
      var v :| v in s.workers && s.workers[v].exec == e && s.workers[v].pc.FCleanup?;
      assert v in t.workers;
    }
    hide GivingUp, Retrying;
  }

  lemma RowsThreat(s: State, t: State, e: nat)
    requires t.workers == s.workers && t.pending <= s.pending && !Threatened(s, e)
    requires e in t.rows && Occupying(t.rows[e].status) ==> e in s.rows && t.rows[e] == s.rows[e]
    ensures !Threatened(t, e)
  {
    assert e in t.pending ==> e in s.pending;
    hide GivingUp, Retrying;
  }

  lemma AssignThreat(s: State, x: nat, stale: Option<nat>, replacement: Option<nat>, e: nat)
    requires DoAssign(s, x, stale, replacement).Some? && !Threatened(s, e)
    ensures Threatened(DoAssign(s, x, stale, replacement).value, e) <==> Endangers(s, Assign(x, stale, replacement), e)
  {
    hide GivingUp, Retrying, RowFree;
  }

  lemma FinishDispatchThreat(s: State, f: nat, e: nat)
    requires Inv(s) && f in s.finishers && s.finishers[f].written && !Threatened(s, e)
    ensures !Threatened(s.(pending := s.pending + multiset{s.finishers[f].exec}, finishers := s.finishers - {f}), e)
  {
    hide RowsOk, KnownOk, LocksOk, OwnersOk, PeaksOk, CountsOk, RemovedOk, ReconcilersOk, GivingUp, Retrying;
  }

  lemma FinishWriteThreat(s: State, f: nat, e: nat)
    requires Inv(s) && f in s.finishers && !Threatened(s, e)
    ensures !Threatened(DoFinishWrite(s, f), e)
  {
    assert Terminal(s.finishers[f].to) by {
      hide RowsOk, KnownOk, LocksOk, OwnersOk, PeaksOk, CountsOk, RemovedOk, ReconcilersOk;
    }
    hide Inv, Threatened;
    RowsThreat(s, DoFinishWrite(s, f), e);
  }

  // ------------------------------------------------------------- every step

  /** An execution becomes threatened by the steps that endanger it, and by no others. */
  lemma ThreatStep(s: State, ev: Event, e: nat)
    requires Inv(s) && Next(s, ev).Some? && !Threatened(s, e)
    ensures Threatened(Next(s, ev).value, e) <==> Endangers(s, ev, e)
  {
    hide Inv, Threatened, WorkerNext, RemoveContainers, DoAssign, DoFinishWrite, RowFree, ConfigFree, OnServer,
      AttemptsOf, Max;
    var t := Next(s, ev).value;
    match ev
    case Work(w, event) =>
      if s.workers[w].exec == e {
        OwnThreat(s, w, event);
      } else {
        OtherWorkerApart(s, w, event, e);
        ApartStays(s, t, w, e);
      }
    case Spawn(w, x) => SpawnThreat(s, w, x, e);
    case Create(x, app) => RowsThreat(s, t, e);
    case Cleanup(x, ok) =>
      PlacesOnly(s.(pending := s.pending - multiset{x}));
      RowsThreat(s, t, e);
    case FinishRead(f, x, to) => RowsThreat(s, t, e);
    case FinishWrite(f) => FinishWriteThreat(s, f, e);
    case FinishDispatch(f) => FinishDispatchThreat(s, f, e);
    case FinishKill(f) => RowsThreat(s, t, e);
    case Assign(x, stale, replacement) => AssignThreat(s, x, stale, replacement, e);
    case SetConfig(c, value) => RowsThreat(s, t, e);
    case Delete(x) => RowsThreat(s, t, e);
    case List(r, server) => RowsThreat(s, t, e);
    case Read(r) => RowsThreat(s, t, e);
    case RemoveOrphan(r, x) => RowsThreat(s, t, e);
  }

  // ------------------------------------------------------------- hits, and runs

  /** Apart from the reconciler, a step removes containers of a runner in use only if it was threatened. */
  lemma OnlyThreatenedAreHit(s: State, ev: Event, p: Place)
    requires Next(s, ev).Some? && !ev.RemoveOrphan?
    requires p in s.containers && p !in Next(s, ev).value.containers && InUse(s.rows, p.exec)
    ensures Threatened(s, p.exec)
    ensures ev == Cleanup(p.exec, true) || (ev.Work? && ev.event == SyncCleanup(true))
  {
    hide WorkerNext, RowFree, ConfigFree, OnServer, AttemptsOf, ContainersOn, Max, GivingUp, Retrying;
    if ev.Work? {
      WorkerRemoves(s, ev.w, ev.event, p);
    }
  }

  lemma WorkerRemoves(s: State, w: nat, ev: WorkerEvent, p: Place)
    requires w in s.workers && WorkerNext(s, w, ev).Some?
    requires p in s.containers && p !in WorkerNext(s, w, ev).value.containers
    ensures ev == SyncCleanup(true) && s.workers[w].exec == p.exec && Retrying(s.workers, p.exec)
  {
    PartsKeepPlaces(s, w, p);
    hide RowFree, ConfigFree, EnabledConfigs, OccupiedSet, Active, CanThrow, AfterCheck, DoReserve, DoRequeue,
      UpdateIfProvisioning;
  }

  lemma PartsKeepPlaces(s: State, w: nat, p: Place)
    requires w in s.workers
    ensures AfterCheck(s, w).Some? ==> AfterCheck(s, w).value.containers == s.containers
    ensures DoReserve(s, w).Some? ==> DoReserve(s, w).value.containers == s.containers
    ensures DoRequeue(s, w).containers == s.containers
    ensures forall e, to :: UpdateIfProvisioning(s, e, to).containers == s.containers
  {
    hide Pick, Active, Reserved;
  }

  predicate NothingEndangers(s: State, events: seq<Event>, e: nat)
    requires Run(s, events).Some?
    decreases |events|
  {
    events == [] || (!Endangers(s, events[0], e) && NothingEndangers(Next(s, events[0]).value, events[1..], e))
  }

  lemma {:induction false} NotThreatened(s: State, events: seq<Event>, e: nat)
    requires Inv(s) && Run(s, events).Some? && !Threatened(s, e) && NothingEndangers(s, events, e)
    ensures !Threatened(Run(s, events).value, e)
    decreases |events|
  {
    if events != [] {
      InvStep(s, events[0]);
      ThreatStep(s, events[0], e);
      hide Inv, Next, Threatened, Endangers;
      NotThreatened(Next(s, events[0]).value, events[1..], e);
    }
  }

  /** A cleanup that hits a runner in use comes after a step that endangered it. */
  lemma HitsWereEndangered(events: seq<Event>, ev: Event, p: Place)
    requires Run(EMPTY, events).Some? && Next(Run(EMPTY, events).value, ev).Some? && !ev.RemoveOrphan?
    requires var s := Run(EMPTY, events).value;
      p in s.containers && p !in Next(s, ev).value.containers && InUse(s.rows, p.exec)
    ensures !NothingEndangers(EMPTY, events, p.exec)
  {
    EmptyOk();
    OnlyThreatenedAreHit(Run(EMPTY, events).value, ev, p);
    hide Inv, Run, Next;
    if NothingEndangers(EMPTY, events, p.exec) {
      NotThreatened(EMPTY, events, p.exec);
    }
  }

  lemma CleanupHits(s: State, e: nat)
    requires e in s.pending && e in s.rows && s.rows[e].server.Some?
    ensures var t := Next(s, Cleanup(e, true));
      t.Some? && t.value.rows == s.rows && Place(s.rows[e].server.value, e) !in t.value.containers
  {
  }

  lemma RunOne(s: State, ev: Event)
    requires Next(s, ev).Some?
    ensures Run(s, [ev]) == Next(s, ev)
  {
    hide Next;
    assert [ev][1..] == [];
  }

  lemma RunTwo(s: State, a: Event, s1: State, b: Event)
    requires Next(s, a) == Some(s1) && Next(s1, b).Some?
    ensures Run(s, [a, b]) == Next(s1, b)
  {
    hide Next;
    RunOne(s1, b);
    assert [a, b][1..] == [b];
  }

  lemma RetryHits(s: State, w: nat)
    requires w in s.workers && s.workers[w].pc.FCleanup?
    requires var e := s.workers[w].exec; e in s.rows && s.rows[e].server.Some?
    ensures var e, t := s.workers[w].exec, Next(s, Work(w, SyncCleanup(true)));
      t.Some? && t.value.rows == s.rows && Place(s.rows[e].server.value, e) !in t.value.containers
  {
  }

  lemma DispatchFirst(s: State, w: nat)
    requires w in s.workers && s.workers[w].pc.Dispatch?
    ensures var t := Next(s, Work(w, DispatchCleanup));
      t.Some? && t.value.rows == s.rows && s.workers[w].exec in t.value.pending
  {
  }

  /** Threatened means threatened: a cleanup that removes the runner can come at once. */
  lemma ThreatenedCanBeHit(s: State, e: nat)
    requires Inv(s) && Threatened(s, e)
    ensures s.rows[e].server.Some?
    ensures exists events, t ::
      Run(s, events) == Some(t) && t.rows == s.rows && Place(s.rows[e].server.value, e) !in t.containers
  {
    assert s.rows[e].server.Some? by {
      hide KnownOk, LocksOk, OwnersOk, PeaksOk, CountsOk, RemovedOk, PendingOk, ReconcilersOk;
    }
    hide Inv, Next, Run;
    if e in s.pending {
      CleanupHits(s, e);
      RunOne(s, Cleanup(e, true));
    } else if GivingUp(s.workers, e) {
      var w :| w in s.workers && s.workers[w].exec == e && s.workers[w].pc.Dispatch?;
      DispatchFirst(s, w);
      var s1 := Next(s, Work(w, DispatchCleanup)).value;
      CleanupHits(s1, e);
      RunTwo(s, Work(w, DispatchCleanup), s1, Cleanup(e, true));
    } else {
      var w :| w in s.workers && s.workers[w].exec == e && s.workers[w].pc.FCleanup?;
      RetryHits(s, w);
      RunOne(s, Work(w, SyncCleanup(true)));
    }
  }
}
