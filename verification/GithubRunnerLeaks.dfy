/** Which steps leave containers behind: containers of an execution that neither uses them nor has a cleanup
    of them to come. Nothing else does, and each of these steps does. */
module GithubRunnerLeaks {
  import opened GithubRunnerInvariants
  import opened GithubRunners
  import opened Wrappers

  predicate HasAheadWorker(workers: map<nat, Worker>, e: nat) {
    exists w :: w in workers && workers[w].exec == e && CleanupAhead(workers[w].pc)
  }

  predicate HasAheadFinisher(finishers: map<nat, Finisher>, e: nat) {
    exists f :: f in finishers && finishers[f].exec == e && finishers[f].written
  }

  /** A cleanup of the execution is pending, or its worker or someone who ended it still owes one. */
  predicate CleanupToCome(s: State, e: nat) {
    e in s.pending || HasAheadWorker(s.workers, e) || HasAheadFinisher(s.finishers, e)
  }

  /** The containers at this place are used by their execution, or a cleanup of them is still to come. */
  predicate Covered(s: State, p: Place) {
    && p.exec in s.rows && s.rows[p.exec].server == Some(p.server)
    && (Occupying(s.rows[p.exec].status) || CleanupToCome(s, p.exec))
  }

  predicate LeftBehind(s: State, p: Place) {
    p in s.containers && p.exec in s.rows && !Covered(s, p)
  }

  /** There are containers of an execution that ended there. */
  predicate Stopped(s: State, p: Place) {
    && p in s.containers && p.exec in s.rows && s.rows[p.exec].server == Some(p.server)
    && !Occupying(s.rows[p.exec].status)
  }

  /** The step takes the last thing that covers the containers. */
  predicate Loses(s: State, ev: Event, p: Place) {
    match ev
    // A removal fails, and no other cleanup is to come.
    case Cleanup(e, ok) =>
      && e == p.exec && !ok && Stopped(s, p) && s.pending[e] == 1
      && !HasAheadWorker(s.workers, e) && !HasAheadFinisher(s.finishers, e)
    case Work(w, SyncCleanup(ok)) =>
      && w in s.workers && s.workers[w].exec == p.exec && !ok && Stopped(s, p)
      && p.exec !in s.pending && !HasAheadFinisher(s.finishers, p.exec)
    case Work(w, Requeue) =>
      && w in s.workers && s.workers[w].exec == p.exec && s.workers[w].pc == FRequeue(false)
      && p in s.containers && p.exec in s.rows && s.rows[p.exec].status == Provisioning
      && s.rows[p.exec].server == Some(p.server)
    // A worker dies before the cleanup it owed, or someone who ended the execution does.
    case Work(w, Kill) =>
      && w in s.workers && s.workers[w].exec == p.exec && CleanupAhead(s.workers[w].pc) && Stopped(s, p)
      && p.exec !in s.pending && !HasAheadFinisher(s.finishers, p.exec)
    case FinishKill(f) =>
      && f in s.finishers && s.finishers[f].exec == p.exec && s.finishers[f].written && Stopped(s, p)
      && p.exec !in s.pending && !HasAheadWorker(s.workers, p.exec) && !HasAheadFinisher(s.finishers - {f}, p.exec)
    // Who read the execution as queued ends it while it is in use, after its worker looked for the last time.
    case FinishWrite(f) =>
      && f in s.finishers && s.finishers[f].exec == p.exec && !s.finishers[f].clean
      && p in s.containers && p.exec in s.rows && Occupying(s.rows[p.exec].status)
      && s.rows[p.exec].server == Some(p.server) && !CleanupToCome(s, p.exec)
    case _ => false
  }

  // ------------------------------------------------------------- what covers from one state to the next

  lemma OtherFinisherAhead(finishers: map<nat, Finisher>, finishers': map<nat, Finisher>, f: nat, e: nat)
    requires HasAheadFinisher(finishers, e)
    requires forall g :: g in finishers && g != f ==> g in finishers' && finishers'[g] == finishers[g]
    requires f in finishers && finishers[f].exec == e && finishers[f].written ==> HasAheadFinisher(finishers', e)
    ensures HasAheadFinisher(finishers', e)
  {
    var g :| g in finishers && finishers[g].exec == e && finishers[g].written;
    assert g != f ==> g in finishers' && finishers'[g] == finishers[g];
  }

  // ------------------------------------------------------------- steps of a worker

  /** What the invariant says about one worker that owns an execution. */
  lemma OwnerFactsOf(s: State, w: nat)
    requires Inv(s) && w in s.workers && Owns(s.workers[w].pc)
    ensures var worker := s.workers[w]; worker.exec in s.rows ==> OwnerKnows(s.rows[worker.exec], worker)
    ensures forall v :: v in s.workers && Owns(s.workers[v].pc) && s.workers[v].exec == s.workers[w].exec ==> v == w
    ensures s.workers[w].pc == FRequeue(true) ==> Place(s.workers[w].server, s.workers[w].exec) !in s.containers
  {
    hide RowsOk, KnownOk, LocksOk, PeaksOk, CountsOk, PendingOk, ReconcilersOk, OwnerKnows;
  }

  predicate SameButWorker(s: State, t: State, w: nat) {
    forall v :: v in s.workers && v != w ==> v in t.workers && t.workers[v] == s.workers[v]
  }

  predicate StillAhead(t: State, w: nat, e: nat) {
    w in t.workers && t.workers[w].exec == e && CleanupAhead(t.workers[w].pc)
  }

  /** Only the worker `w` changes, and if it looks away, the execution is in use or another cleanup is to come. */
  lemma OnlyWorkerMoves(s: State, t: State, w: nat, p: Place)
    requires t.rows == s.rows && s.pending <= t.pending && t.finishers == s.finishers && t.containers <= s.containers
    requires w in s.workers && SameButWorker(s, t, w)
    requires s.workers[w].exec == p.exec && CleanupAhead(s.workers[w].pc) ==>
      || StillAhead(t, w, p.exec) || p.exec !in s.rows || Occupying(s.rows[p.exec].status) || p.exec in t.pending
      || HasAheadFinisher(s.finishers, p.exec) || p !in t.containers
    requires !LeftBehind(s, p)
    ensures !LeftBehind(t, p)
  {
    hide HasAheadFinisher;
    assert StillAhead(t, w, p.exec) ==> HasAheadWorker(t.workers, p.exec);
    assert forall x :: x in s.pending ==> x in t.pending;
    if HasAheadWorker(s.workers, p.exec) {
      var v :| v in s.workers && s.workers[v].exec == p.exec && CleanupAhead(s.workers[v].pc);
      assert v != w ==> v in t.workers && t.workers[v] == s.workers[v];
    }
  }

  /** Nobody but a worker that looks away or leaves owned the execution, so that no worker is ahead. */
  lemma NoWorkerAhead(s: State, t: State, w: nat)
    requires Inv(s) && w in s.workers && Owns(s.workers[w].pc)
    requires forall v :: v in t.workers && v != w ==> v in s.workers && t.workers[v] == s.workers[v]
    requires w in t.workers ==> !CleanupAhead(t.workers[w].pc)
    ensures !HasAheadWorker(t.workers, s.workers[w].exec)
  {
    OwnerFactsOf(s, w);
    hide Inv;
  }

  lemma NonOwnerLeaks(s: State, w: nat, ev: WorkerEvent, p: Place)
    requires w in s.workers && WorkerNext(s, w, ev).Some? && !LeftBehind(s, p)
    requires ev.LockRow? || ev.Skip? || ev.LockConfigs? || ev.Count? || ev.Throw? || ev.Registered?
    ensures !LeftBehind(WorkerNext(s, w, ev).value, p)
  {
    var t := WorkerNext(s, w, ev).value;
    assert t.rows == s.rows && t.pending == s.pending && t.finishers == s.finishers && t.containers == s.containers;
    assert SameButWorker(s, t, w);
    assert s.workers[w].exec == p.exec && CleanupAhead(s.workers[w].pc) ==> StillAhead(t, w, p.exec);
    hide WorkerNext, LeftBehind;
    OnlyWorkerMoves(s, t, w, p);
  }

  lemma CheckMoves(s: State, w: nat)
    requires w in s.workers && AfterCheck(s, w).Some?
    requires s.workers[w].exec in s.rows ==> s.rows[s.workers[w].exec].status != Queued
    ensures var t, e := AfterCheck(s, w).value, s.workers[w].exec;
      && t == s.(workers := t.workers) && SameButWorker(s, t, w)
      && (StillAhead(t, w, e) || e !in s.rows || Occupying(s.rows[e].status))
  {
  }

  lemma CheckLeaks(s: State, w: nat, p: Place)
    requires Inv(s) && w in s.workers && AfterCheck(s, w).Some? && !LeftBehind(s, p)
    ensures !LeftBehind(AfterCheck(s, w).value, p)
  {
    OwnerFactsOf(s, w);
    hide Inv;
    CheckMoves(s, w);
    hide AfterCheck, LeftBehind, SameButWorker, HasAheadFinisher, OwnerKnows;
    OnlyWorkerMoves(s, AfterCheck(s, w).value, w, p);
  }

  lemma ReserveMoves(s: State, w: nat)
    requires w in s.workers && DoReserve(s, w).Some?
    ensures var t, e := DoReserve(s, w).value, s.workers[w].exec;
      && t == s.(rows := t.rows, workers := t.workers) && SameButWorker(s, t, w) && (e in t.rows ==> e in s.rows)
      && forall x :: x != e ==> (x in t.rows <==> x in s.rows) && (x in s.rows ==> t.rows[x] == s.rows[x])
  {
    hide Pick;
  }

  lemma QueuedHasNone(s: State, w: nat, p: Place)
    requires Inv(s) && w in s.workers && s.workers[w].pc.Counting? && s.workers[w].exec == p.exec && !LeftBehind(s, p)
    ensures p !in s.containers
  {
    hide KnownOk, OwnersOk, PeaksOk, CountsOk, RemovedOk, PendingOk, ReconcilersOk, CleanupToCome;
    assert s.rows[p.exec].server == None;
  }

  lemma ReserveLeaks(s: State, w: nat, p: Place)
    requires Inv(s) && w in s.workers && DoReserve(s, w).Some? && !LeftBehind(s, p)
    ensures !LeftBehind(DoReserve(s, w).value, p)
  {
    var t, e := DoReserve(s, w).value, s.workers[w].exec;
    assert s.workers[w].pc.Counting?;
    ReserveMoves(s, w);
    hide DoReserve, Inv, Pick;
    if p.exec == e {
      hide SameButWorker;
      QueuedHasNone(s, w, p);
    } else {
      hide LeftBehind, HasAheadFinisher, SameButWorker;
      MovesAndRow(s, t, w, p);
    }
  }

  /** The worker moves, and the row of another execution than that of the containers changes. */
  lemma MovesAndRow(s: State, t: State, w: nat, p: Place)
    requires t == s.(rows := t.rows, workers := t.workers) && w in s.workers && SameButWorker(s, t, w)
    requires s.workers[w].exec != p.exec && !LeftBehind(s, p)
    requires (p.exec in t.rows <==> p.exec in s.rows) && (p.exec in s.rows ==> t.rows[p.exec] == s.rows[p.exec])
    ensures !LeftBehind(t, p)
  {
    var moved := t.(rows := s.rows);
    assert SameButWorker(s, moved, w);
    hide SameButWorker, LeftBehind, HasAheadFinisher;
    OnlyWorkerMoves(s, moved, w, p);
    SameLeft(moved, t, p);
  }

  lemma SameLeft(s: State, t: State, p: Place)
    requires t.pending == s.pending && t.finishers == s.finishers && t.containers == s.containers
    requires t.workers == s.workers
    requires p.exec in t.rows <==> p.exec in s.rows
    requires p.exec in s.rows ==> t.rows[p.exec] == s.rows[p.exec]
    ensures LeftBehind(t, p) == LeftBehind(s, p)
  {
    hide HasAheadWorker, HasAheadFinisher, Occupying;
  }

  lemma CreateMoves(s: State, w: nat, created: bool, pc: Pc, p: Place)
    requires w in s.workers && CleanupAhead(pc)
    ensures var e := s.workers[w].exec; var t := At(AddContainers(s, created, s.workers[w].server, e), w, pc);
      && t.rows == s.rows && t.pending == s.pending && t.finishers == s.finishers && t.workers == At(s, w, pc).workers
      && (p in t.containers ==> p in s.containers || p == Place(s.workers[w].server, e))
      && SameButWorker(s, At(s, w, pc), w) && StillAhead(At(s, w, pc), w, e)
  {
    hide CleanupAhead;
  }

  lemma CreateLeaks(s: State, w: nat, created: bool, pc: Pc, p: Place)
    requires Inv(s) && w in s.workers && CleanupAhead(s.workers[w].pc) && CleanupAhead(pc) && !LeftBehind(s, p)
    ensures !LeftBehind(At(AddContainers(s, created, s.workers[w].server, s.workers[w].exec), w, pc), p)
  {
    OwnerFactsOf(s, w);
    var moved := At(s, w, pc);
    CreateMoves(s, w, created, pc, p);
    hide Inv, AddContainers, SameButWorker, HasAheadFinisher;
    OnlyWorkerMoves(s, moved, w, p);
    assert HasAheadWorker(moved.workers, s.workers[w].exec);
    hide HasAheadWorker, Occupying, Owns, At;
  }

  lemma LaunchLeaks(s: State, w: nat, ok: bool, created: bool, p: Place)
    requires Inv(s) && w in s.workers && s.workers[w].pc.Launch? && !LeftBehind(s, p)
    ensures !LeftBehind(DoLaunch(s, w, ok, created), p)
  {
    var pc := if ok then CheckLaunched else FCheck;
    CreateLeaks(s, w, created, pc, p);
    var t := At(AddContainers(s, created, s.workers[w].server, s.workers[w].exec), w, pc);
    hide Inv, At, AddContainers;
    SameLeft(t, DoLaunch(s, w, ok, created), p);
  }

  /** The execution of the containers stays on its server, and what covered them still does or is replaced. */
  lemma StaysCovered(s: State, t: State, p: Place)
    requires !LeftBehind(s, p) && (p in t.containers ==> p in s.containers)
    requires p.exec in t.rows ==> p.exec in s.rows && t.rows[p.exec].server == s.rows[p.exec].server
    requires p.exec in t.rows && (Occupying(s.rows[p.exec].status) || CleanupToCome(s, p.exec)) ==>
      Occupying(t.rows[p.exec].status) || CleanupToCome(t, p.exec)
    ensures !LeftBehind(t, p)
  {
    hide CleanupToCome, Occupying;
  }

  lemma UpdatedRows(s: State, e: nat, to: Status)
    ensures var u := UpdateIfProvisioning(s, e, to);
      && u == s.(rows := u.rows) && (forall x :: x in u.rows <==> x in s.rows)
      && (forall x :: x in s.rows && x != e ==> u.rows[x] == s.rows[x])
      && (e in s.rows ==> u.rows[e].server == s.rows[e].server)
      && (e in s.rows && Occupying(s.rows[e].status) && to == Idle ==> Occupying(u.rows[e].status))
  {
  }

  lemma UpdateMoves(s: State, w: nat, to: Status, t: State)
    requires w in s.workers
    requires var u := UpdateIfProvisioning(s, s.workers[w].exec, to);
      (t == Leave(u, w) && to == Idle && !CleanupAhead(s.workers[w].pc)) || t == At(u, w, Dispatch)
    ensures SameButWorker(s, t, w) && t == s.(rows := t.rows, workers := t.workers)
    ensures forall x :: x in t.rows <==> x in s.rows
    ensures forall x :: x in s.rows && x != s.workers[w].exec ==> t.rows[x] == s.rows[x]
    ensures var e := s.workers[w].exec; e in s.rows ==> t.rows[e].server == s.rows[e].server
    ensures var e := s.workers[w].exec;
      if t == Leave(UpdateIfProvisioning(s, e, to), w)
      then
        && !CleanupAhead(s.workers[w].pc)
        && (e in s.rows && Occupying(s.rows[e].status) ==> Occupying(t.rows[e].status))
      else StillAhead(t, w, e)
  {
    UpdatedRows(s, s.workers[w].exec, to);
    hide UpdateIfProvisioning, Occupying;
  }

  lemma AheadStays(s: State, t: State, w: nat, e: nat)
    requires w in s.workers && SameButWorker(s, t, w) && HasAheadWorker(s.workers, e)
    requires s.workers[w].exec == e ==> !CleanupAhead(s.workers[w].pc)
    ensures HasAheadWorker(t.workers, e)
  {
    var v :| v in s.workers && s.workers[v].exec == e && CleanupAhead(s.workers[v].pc);
    assert v in t.workers && t.workers[v] == s.workers[v];
  }

  /** A conditional update of its row by an owner that leaves or goes on to the dispatch. */
  lemma UpdateLeaks(s: State, w: nat, to: Status, t: State, p: Place)
    requires w in s.workers && !LeftBehind(s, p)
    requires var u := UpdateIfProvisioning(s, s.workers[w].exec, to);
      (t == Leave(u, w) && to == Idle && !CleanupAhead(s.workers[w].pc)) || t == At(u, w, Dispatch)
    ensures !LeftBehind(t, p)
  {
    var e := s.workers[w].exec;
    UpdateMoves(s, w, to, t);
    hide SameButWorker, LeftBehind, HasAheadFinisher, HasAheadWorker, CleanupAhead, UpdateIfProvisioning, Leave, At,
      Occupying, StillAhead;
    if p.exec != e {
      MovesAndRow(s, t, w, p);
    } else if StillAhead(t, w, e) {
      AheadIsToCome(t, w, e);
      StaysCovered(s, t, p);
    } else {
      if HasAheadWorker(s.workers, e) {
        AheadStays(s, t, w, e);
      }
      StaysCovered(s, t, p);
    }
  }

  lemma AheadIsToCome(t: State, w: nat, e: nat)
    requires StillAhead(t, w, e)
    ensures CleanupToCome(t, e)
  {
    assert HasAheadWorker(t.workers, e);
  }

  lemma SyncCleanupMoves(s: State, w: nat, ok: bool, p: Place)
    requires w in s.workers
    ensures var e := s.workers[w].exec; var t := At(RemoveContainers(s, e, ok), w, FRequeue(ok && e in s.rows));
      && t == s.(containers := t.containers, workers := t.workers) && t.containers <= s.containers
      && SameButWorker(s, t, w)
      && (!ok || p.exec != e ==> (p in t.containers <==> p in s.containers))
      && (ok && p.exec == e && e in s.rows && s.rows[e].server == Some(p.server) ==> p !in t.containers)
  {
  }

  lemma SyncCleanupLeaks(s: State, w: nat, ok: bool, p: Place)
    requires Inv(s) && w in s.workers && s.workers[w].pc.FCleanup? && !LeftBehind(s, p)
    ensures var e := s.workers[w].exec; var t := At(RemoveContainers(s, e, ok), w, FRequeue(ok && e in s.rows));
      LeftBehind(t, p) <==> Loses(s, Work(w, SyncCleanup(ok)), p)
  {
    var e := s.workers[w].exec;
    var t := At(RemoveContainers(s, e, ok), w, FRequeue(ok && e in s.rows));
    SyncCleanupMoves(s, w, ok, p);
    assert p.exec == e ==> !HasAheadWorker(t.workers, e) by {
      hide Inv;
      NoWorkerAhead(s, t, w);
    }
    hide Inv, HasAheadFinisher, HasAheadWorker, SameButWorker, RemoveContainers, At;
    SyncCleanupCovers(s, t, w, ok, p);
  }

  lemma SyncCleanupCovers(s: State, t: State, w: nat, ok: bool, p: Place)
    requires w in s.workers && CleanupAhead(s.workers[w].pc) && !LeftBehind(s, p)
    requires t == s.(containers := t.containers, workers := t.workers) && t.containers <= s.containers
    requires SameButWorker(s, t, w)
    requires var e := s.workers[w].exec;
      && (!ok || p.exec != e ==> (p in t.containers <==> p in s.containers))
      && (ok && p.exec == e && e in s.rows && s.rows[e].server == Some(p.server) ==> p !in t.containers)
      && (p.exec == e ==> !HasAheadWorker(t.workers, e))
    ensures LeftBehind(t, p) <==> Loses(s, Work(w, SyncCleanup(ok)), p)
  {
    hide HasAheadFinisher, HasAheadWorker, SameButWorker;
    if p.exec != s.workers[w].exec || (p.exec in s.rows && Occupying(s.rows[p.exec].status)) {
      OnlyWorkerMoves(s, t, w, p);
    }
  }

  lemma RequeueMoves(s: State, w: nat)
    requires w in s.workers && s.workers[w].pc.FRequeue?
    ensures var t, e := DoRequeue(s, w), s.workers[w].exec;
      && t == s.(rows := t.rows, workers := s.workers - {w}) && SameButWorker(s, t, w)
      && (forall x :: x in t.rows <==> x in s.rows) && (forall x :: x in s.rows && x != e ==> t.rows[x] == s.rows[x])
      && (e in s.rows ==> if s.rows[e].status == Provisioning then t.rows[e].server == None else t.rows[e] == s.rows[e])
  {
  }

  lemma RequeueLeaks(s: State, w: nat, p: Place)
    requires Inv(s) && w in s.workers && s.workers[w].pc.FRequeue? && !LeftBehind(s, p)
    ensures LeftBehind(DoRequeue(s, w), p) <==> Loses(s, Work(w, Requeue), p)
  {
    var e, t := s.workers[w].exec, DoRequeue(s, w);
    OwnerFactsOf(s, w);
    RequeueMoves(s, w);
    hide Inv, DoRequeue;
    RequeueCovers(s, t, w, p);
  }

  lemma RequeueCovers(s: State, t: State, w: nat, p: Place)
    requires w in s.workers && s.workers[w].pc.FRequeue? && !LeftBehind(s, p) && SameButWorker(s, t, w)
    requires t == s.(rows := t.rows, workers := t.workers) && forall x :: x in t.rows <==> x in s.rows
    requires forall x :: x in s.rows && x != s.workers[w].exec ==> t.rows[x] == s.rows[x]
    requires var e := s.workers[w].exec;
      e in s.rows ==> if s.rows[e].status == Provisioning then t.rows[e].server == None else t.rows[e] == s.rows[e]
    requires var e := s.workers[w].exec; e in s.rows ==> s.rows[e].server == Some(s.workers[w].server)
    requires s.workers[w].pc == FRequeue(true) ==> Place(s.workers[w].server, s.workers[w].exec) !in s.containers
    ensures LeftBehind(t, p) <==> Loses(s, Work(w, Requeue), p)
  {
    var e := s.workers[w].exec;
    hide SameButWorker, HasAheadFinisher, HasAheadWorker;
    if HasAheadWorker(s.workers, p.exec) {
      AheadStays(s, t, w, p.exec);
    }
    if p.exec == e && e in s.rows && s.rows[e].status == Provisioning {
      hide CleanupToCome;
    } else {
      StaysCovered(s, t, p);
    }
  }

  lemma DispatchLeaks(s: State, w: nat, p: Place)
    requires w in s.workers && s.workers[w].pc.Dispatch? && !LeftBehind(s, p)
    ensures !LeftBehind(Leave(s.(pending := s.pending + multiset{s.workers[w].exec}), w), p)
  {
    var t := Leave(s.(pending := s.pending + multiset{s.workers[w].exec}), w);
    assert SameButWorker(s, t, w) && s.workers[w].exec in t.pending;
    OnlyWorkerMoves(s, t, w, p);
  }

  lemma KillLeaks(s: State, w: nat, p: Place)
    requires Inv(s) && w in s.workers && !LeftBehind(s, p)
    ensures LeftBehind(Leave(s, w), p) <==> Loses(s, Work(w, Kill), p)
  {
    var e, t := s.workers[w].exec, Leave(s, w);
    assert SameButWorker(s, t, w);
    if CleanupAhead(s.workers[w].pc) {
      NoWorkerAhead(s, t, w);
    }
    hide Inv, HasAheadFinisher, HasAheadWorker;
    if !Loses(s, Work(w, Kill), p) {
      OnlyWorkerMoves(s, t, w, p);
    }
  }

  lemma WorkerLeaks(s: State, w: nat, ev: WorkerEvent, p: Place)
    requires Inv(s) && w in s.workers && WorkerNext(s, w, ev).Some? && !LeftBehind(s, p)
    ensures LeftBehind(WorkerNext(s, w, ev).value, p) <==> Loses(s, Work(w, ev), p)
  {
    hide Inv, RowFree, ConfigFree, Pick, EnabledConfigs, OccupiedSet, AfterCheck, DoReserve, DoRequeue,
      RemoveContainers,
      UpdateIfProvisioning, AddContainers, DoLaunch, Leave, At, LeftBehind, HasAheadFinisher, HasAheadWorker, Stopped;
    match ev
    case LockRow => NonOwnerLeaks(s, w, ev, p);
    case Skip => NonOwnerLeaks(s, w, ev, p);
    case LockConfigs(_) => NonOwnerLeaks(s, w, ev, p);
    case Count => NonOwnerLeaks(s, w, ev, p);
    case Reserve => ReserveLeaks(s, w, p);
    case Prepared(ok, created) => CreateLeaks(s, w, created, if ok then CheckPrepared else FCheck, p);
    case Check => CheckLeaks(s, w, p);
    case Throw => NonOwnerLeaks(s, w, ev, p);
    case Registered => NonOwnerLeaks(s, w, ev, p);
    case Launched(ok, created) => LaunchLeaks(s, w, ok, created, p);
    case MarkedIdle => UpdateLeaks(s, w, Idle, WorkerNext(s, w, ev).value, p);
    case Exhaust => UpdateLeaks(s, w, Failed, WorkerNext(s, w, ev).value, p);
    case SyncCleanup(ok) => SyncCleanupLeaks(s, w, ok, p);
    case Requeue => RequeueLeaks(s, w, p);
    case DispatchCleanup => DispatchLeaks(s, w, p);
    case Kill => KillLeaks(s, w, p);
  }

  // ------------------------------------------------------------- steps of all others

  /** Nothing that the containers depend on changes for the worse. */
  lemma NothingLost(s: State, t: State, p: Place)
    requires s.pending <= t.pending && t.rows == s.rows
    requires p in t.containers ==> p in s.containers
    requires HasAheadWorker(s.workers, p.exec) ==> HasAheadWorker(t.workers, p.exec)
    requires HasAheadFinisher(s.finishers, p.exec) ==> HasAheadFinisher(t.finishers, p.exec) || p.exec in t.pending
    requires !LeftBehind(s, p)
    ensures !LeftBehind(t, p)
  {
    assert p.exec in s.pending ==> p.exec in t.pending;
    hide HasAheadFinisher, HasAheadWorker;
    StaysCovered(s, t, p);
  }

  lemma SpawnLeaks(s: State, w: nat, e: nat, p: Place)
    requires w !in s.workers && !LeftBehind(s, p)
    ensures !LeftBehind(s.(workers := s.workers[w := Worker(e, Start, 0)]), p)
  {
    var t := s.(workers := s.workers[w := Worker(e, Start, 0)]);
    if HasAheadWorker(s.workers, p.exec) {
      var v :| v in s.workers && s.workers[v].exec == p.exec && CleanupAhead(s.workers[v].pc);
      assert v in t.workers && t.workers[v] == s.workers[v];
    }
    hide HasAheadFinisher, HasAheadWorker, LeftBehind;
    NothingLost(s, t, p);
  }

  lemma ListedIsKnown(s: State, p: Place)
    requires Inv(s) && p in s.containers
    ensures p.exec in s.rows || p.exec in s.gone
  {
    hide RowsOk, LocksOk, OwnersOk, PeaksOk, CountsOk, RemovedOk, PendingOk, ReconcilersOk;
  }

  /** A row changes, is removed or added, and another row keeps its place. */
  lemma RowsLeak(s: State, t: State, p: Place)
    requires Inv(s) && t == s.(rows := t.rows, gone := t.gone) && !LeftBehind(s, p)
    requires forall x :: x in t.rows && x !in s.rows ==> x !in s.gone
    requires forall x :: x in t.rows && x in s.rows ==> t.rows[x].server == s.rows[x].server
    requires forall x :: x in t.rows && x in s.rows && Occupying(s.rows[x].status) ==> Occupying(t.rows[x].status)
    ensures !LeftBehind(t, p)
  {
    if p in s.containers {
      ListedIsKnown(s, p);
      hide Inv, HasAheadFinisher, HasAheadWorker;
      if p.exec in t.rows {
        StaysCovered(s, t, p);
      }
    }
  }

  lemma CreateRowLeaks(s: State, e: nat, app: nat, p: Place)
    requires Inv(s) && e !in s.rows && e !in s.gone && !LeftBehind(s, p)
    ensures !LeftBehind(SetRow(s, e, Row(app, Queued, None, None, 0)), p)
  {
    hide Inv, LeftBehind;
    RowsLeak(s, SetRow(s, e, Row(app, Queued, None, None, 0)), p);
  }

  lemma AssignMoves(s: State, e: nat, stale: Option<nat>, replacement: Option<nat>)
    requires DoAssign(s, e, stale, replacement).Some?
    ensures var t := DoAssign(s, e, stale, replacement).value;
      && t == s.(rows := t.rows, gone := t.gone)
      && (forall x :: x in t.rows && x !in s.rows ==> x !in s.gone)
      && (forall x :: x in t.rows && x in s.rows ==> t.rows[x].server == s.rows[x].server)
      && (forall x :: x in t.rows && x in s.rows && Occupying(s.rows[x].status) ==> Occupying(t.rows[x].status))
  {
    hide RowFree;
  }

  lemma AssignLeaks(s: State, e: nat, stale: Option<nat>, replacement: Option<nat>, p: Place)
    requires Inv(s) && DoAssign(s, e, stale, replacement).Some? && !LeftBehind(s, p)
    ensures !LeftBehind(DoAssign(s, e, stale, replacement).value, p)
  {
    hide Inv, LeftBehind;
    AssignMoves(s, e, stale, replacement);
    hide DoAssign;
    RowsLeak(s, DoAssign(s, e, stale, replacement).value, p);
  }

  lemma CleanupMoves(s: State, e: nat, ok: bool, p: Place)
    requires e in s.pending
    ensures var t := RemoveContainers(s.(pending := s.pending - multiset{e}), e, ok);
      && t == s.(containers := t.containers, pending := s.pending - multiset{e})
      && (!ok || p.exec != e ==> (p in t.containers <==> p in s.containers))
      && (p in t.containers ==> p in s.containers)
      && (ok && p.exec == e && e in s.rows && s.rows[e].server == Some(p.server) ==> p !in t.containers)
  {
  }

  lemma CleanupLeaks(s: State, e: nat, ok: bool, p: Place)
    requires e in s.pending && !LeftBehind(s, p)
    ensures LeftBehind(RemoveContainers(s.(pending := s.pending - multiset{e}), e, ok), p) <==>
      Loses(s, Cleanup(e, ok), p)
  {
    var t := RemoveContainers(s.(pending := s.pending - multiset{e}), e, ok);
    CleanupMoves(s, e, ok, p);
    hide RemoveContainers, HasAheadFinisher, HasAheadWorker;
    if p.exec != e {
      assert p.exec in s.pending ==> p.exec in t.pending;
    } else {
      assert e in t.pending <==> s.pending[e] > 1;
    }
  }

  lemma FinishReadLeaks(s: State, f: nat, fin: Finisher, p: Place)
    requires f !in s.finishers && !LeftBehind(s, p)
    ensures !LeftBehind(s.(finishers := s.finishers[f := fin]), p)
  {
    var t := s.(finishers := s.finishers[f := fin]);
    if HasAheadFinisher(s.finishers, p.exec) {
      OtherFinisherAhead(s.finishers, t.finishers, f, p.exec);
    }
    hide HasAheadFinisher, HasAheadWorker, LeftBehind;
    NothingLost(s, t, p);
  }

  lemma FinishDispatchLeaks(s: State, f: nat, p: Place)
    requires f in s.finishers && s.finishers[f].written && !LeftBehind(s, p)
    ensures !LeftBehind(s.(pending := s.pending + multiset{s.finishers[f].exec}, finishers := s.finishers - {f}), p)
  {
    var t := s.(pending := s.pending + multiset{s.finishers[f].exec}, finishers := s.finishers - {f});
    if HasAheadFinisher(s.finishers, p.exec) && s.finishers[f].exec != p.exec {
      OtherFinisherAhead(s.finishers, t.finishers, f, p.exec);
    }
    hide HasAheadFinisher, HasAheadWorker, LeftBehind;
    NothingLost(s, t, p);
  }

  lemma FinishKillLeaks(s: State, f: nat, p: Place)
    requires f in s.finishers && !LeftBehind(s, p)
    ensures LeftBehind(s.(finishers := s.finishers - {f}), p) <==> Loses(s, FinishKill(f), p)
  {
    var t := s.(finishers := s.finishers - {f});
    if HasAheadFinisher(s.finishers, p.exec) && !(s.finishers[f].exec == p.exec && s.finishers[f].written) {
      OtherFinisherAhead(s.finishers, t.finishers, f, p.exec);
    }
    if s.finishers[f].exec == p.exec && s.finishers[f].written {
      assert HasAheadFinisher(s.finishers, p.exec);
    }
    hide HasAheadFinisher, HasAheadWorker;
  }

  lemma FinishWriteMoves(s: State, f: nat)
    requires f in s.finishers && !s.finishers[f].written && Terminal(s.finishers[f].to)
    ensures var t, fin := DoFinishWrite(s, f), s.finishers[f];
      && t == s.(rows := t.rows, finishers := t.finishers)
      && (forall x :: x in t.rows <==> x in s.rows)
      && (forall x :: x in s.rows && x != fin.exec ==> t.rows[x] == s.rows[x])
      && (fin.exec in s.rows ==>
            t.rows[fin.exec].server == s.rows[fin.exec].server && !Occupying(t.rows[fin.exec].status))
      && (forall e :: HasAheadFinisher(s.finishers, e) ==> HasAheadFinisher(t.finishers, e))
      && (fin.clean ==> HasAheadFinisher(t.finishers, fin.exec))
      && (!fin.clean && HasAheadFinisher(t.finishers, fin.exec) ==> HasAheadFinisher(s.finishers, fin.exec))
  {
    var t := DoFinishWrite(s, f);
    forall e | HasAheadFinisher(s.finishers, e) ensures HasAheadFinisher(t.finishers, e) {
      OtherFinisherAhead(s.finishers, t.finishers, f, e);
    }
    if s.finishers[f].clean {
      assert f in t.finishers && t.finishers[f].written;
    }
  }

  lemma FinishWriteLeaks(s: State, f: nat, p: Place)
    requires Inv(s) && f in s.finishers && !s.finishers[f].written && !LeftBehind(s, p)
    ensures LeftBehind(DoFinishWrite(s, f), p) <==> Loses(s, FinishWrite(f), p)
  {
    assert Terminal(s.finishers[f].to) by {
      hide RowsOk, KnownOk, LocksOk, OwnersOk, PeaksOk, CountsOk, RemovedOk, ReconcilersOk;
    }
    hide Inv;
    FinishWriteMoves(s, f);
    hide DoFinishWrite, HasAheadFinisher, HasAheadWorker, Occupying, Terminal;
  }

  // ------------------------------------------------------------- every step

  /** Containers are left behind by the steps that lose them, and by no others. */
  lemma LeakStep(s: State, ev: Event, p: Place)
    requires Inv(s) && Next(s, ev).Some? && !LeftBehind(s, p)
    ensures LeftBehind(Next(s, ev).value, p) <==> Loses(s, ev, p)
  {
    hide Inv, WorkerNext, RemoveContainers, DoFinishWrite, DoAssign, RowFree, ConfigFree, OnServer, AttemptsOf, Max,
      LeftBehind,
      SetRow, HasAheadFinisher, HasAheadWorker, Stopped;
    match ev
    case Work(w, event) => WorkerLeaks(s, w, event, p);
    case Spawn(w, e) => SpawnLeaks(s, w, e, p);
    case Create(e, app) => CreateRowLeaks(s, e, app, p);
    case Cleanup(e, ok) => CleanupLeaks(s, e, ok, p);
    case FinishRead(f, e, to) => FinishReadLeaks(s, f, Finisher(e, to, s.rows[e].status != Queued, false), p);
    case FinishWrite(f) => FinishWriteLeaks(s, f, p);
    case FinishDispatch(f) => FinishDispatchLeaks(s, f, p);
    case FinishKill(f) => FinishKillLeaks(s, f, p);
    case Assign(e, stale, replacement) => AssignLeaks(s, e, stale, replacement, p);
    case SetConfig(c, value) => NothingLost(s, Next(s, ev).value, p);
    case Delete(e) => RowsLeak(s, s.(rows := s.rows - {e}, gone := s.gone + {e}), p);
    case List(r, server) => NothingLost(s, Next(s, ev).value, p);
    case Read(r) => NothingLost(s, Next(s, ev).value, p);
    case RemoveOrphan(r, e) => NothingLost(s, Next(s, ev).value, p);
  }
}
