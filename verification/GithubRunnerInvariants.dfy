/** What every step of the runner protocol keeps: the invariants behind the results. */
module GithubRunnerInvariants {
  import opened GithubRunners
  import opened Wrappers

  // ------------------------------------------------------------- how a row can change

  /** All changes but reserving and requeueing: the config, the server and the attempts stay. */
  predicate Calm(a: Row, b: Row) {
    || b == a
    || (Terminal(b.status) && b == a.(status := b.status))
    || (a.status == Provisioning && b == a.(status := Idle))
    || (Waiting(a.status) && b == a.(status := Running))
  }

  predicate IsReserve(a: Row, b: Row) {
    && a.status == Queued && b.status == Provisioning && b.attempts == a.attempts + 1
    && b.config.Some? && b.server.Some?
  }

  predicate IsRequeue(a: Row, b: Row) {
    a.status == Provisioning && a.attempts < MAX_ATTEMPTS && b == a.(status := Queued, config := None, server := None)
  }

  predicate NewRow(b: Row) {
    b.status == Queued && b.config == None && b.server == None && b.attempts < MAX_ATTEMPTS
  }

  predicate Created(rows: map<nat, Row>, gone: set<nat>, rows': map<nat, Row>, gone': set<nat>) {
    && gone <= gone'
    && (forall e :: e in rows && e !in rows' ==> e in gone')
    && (forall e :: e !in rows && e in rows' ==> NewRow(rows'[e]) && e !in gone')
    && (forall e :: e in rows && e in rows' ==> e !in gone' || e in gone)
  }

  predicate CalmRows(rows: map<nat, Row>, gone: set<nat>, rows': map<nat, Row>, gone': set<nat>) {
    && Created(rows, gone, rows', gone')
    && forall e :: e in rows && e in rows' ==> Calm(rows[e], rows'[e])
  }

  // ------------------------------------------------------------- invariants

  predicate RowOk(r: Row) {
    && r.attempts <= MAX_ATTEMPTS
    && (r.status == Queued ==> r.attempts < MAX_ATTEMPTS && r.config == None && r.server == None)
    && (Occupying(r.status) ==> r.attempts > 0 && r.config.Some? && r.server.Some?)
  }

  predicate RowsOk(rows: map<nat, Row>, gone: set<nat>) {
    forall e :: e in rows ==> RowOk(rows[e]) && e !in gone
  }

  /** A worker in the transaction has locked its row alone, and the row is still queued. */
  predicate LocksOk(rows: map<nat, Row>, workers: map<nat, Worker>) {
    && (forall w :: w in workers && InTransaction(workers[w].pc) ==>
          workers[w].exec in rows && rows[workers[w].exec].status == Queued)
    && (forall w, v :: w in workers && v in workers && InTransaction(workers[w].pc) && InTransaction(workers[v].pc) ==>
          workers[w].exec == workers[v].exec ==> w == v)
  }

  /** What the owner of an execution knows about its row. */
  predicate OwnerKnows(row: Row, worker: Worker) {
    && row.status != Queued && row.server == Some(worker.server)
    && (worker.pc.FCleanup? || worker.pc.FRequeue? ==> row.attempts < MAX_ATTEMPTS)
    && (worker.pc.FExhausted? ==> row.attempts == MAX_ATTEMPTS)
    && (worker.pc.Dispatch? ==> Terminal(row.status) || row.attempts == MAX_ATTEMPTS)
  }

  /** At most one worker owns an execution. */
  predicate OwnersOk(rows: map<nat, Row>, gone: set<nat>, workers: map<nat, Worker>) {
    && (forall w :: w in workers && Owns(workers[w].pc) ==> workers[w].exec in rows || workers[w].exec in gone)
    && (forall w :: w in workers && Owns(workers[w].pc) && workers[w].exec in rows ==>
          OwnerKnows(rows[workers[w].exec], workers[w]))
    && (forall w, v :: w in workers && v in workers && Owns(workers[w].pc) && Owns(workers[v].pc) ==>
          workers[w].exec == workers[v].exec ==> w == v)
  }

  ghost predicate PeaksOk(rows: map<nat, Row>, configs: map<nat, Config>, peak: map<nat, nat>) {
    && (forall c :: c in configs ==> c in peak && configs[c].maxRunners <= peak[c])
    && (forall c :: c in peak ==> |OccupiedSet(rows, c)| <= peak[c])
    && (forall c :: c !in peak ==> OccupiedSet(rows, c) == {})
  }

  function ConfigsOf(done: seq<Candidate>): (r: seq<nat>)
    ensures |r| == |done| && forall i :: 0 <= i < |r| ==> r[i] == done[i].config
  {
    seq(|done|, i requires 0 <= i < |done| => done[i].config)
  }

  predicate CandOk(rows: map<nat, Row>, configs: map<nat, Config>, locked: set<nat>, cand: Candidate) {
    && cand.config in locked && cand.config in configs && cand.maxRunners == configs[cand.config].maxRunners
    && |OccupiedSet(rows, cand.config)| <= cand.occupied
  }

  predicate CountingOk(rows: map<nat, Row>, configs: map<nat, Config>, pc: Pc) {
    pc.Counting? ==>
      && pc.locked <= configs.Keys
      && (forall c :: c in pc.eligible ==> c in pc.locked)
      && (forall i, j :: 0 <= i < j < |pc.eligible| ==> pc.eligible[i] < pc.eligible[j])
      && pc.eligible == ConfigsOf(pc.done) + pc.todo
      && (forall i :: 0 <= i < |pc.done| ==> CandOk(rows, configs, pc.locked, pc.done[i]))
  }

  /** The counts of a worker in the transaction are upper bounds as long as it holds its locks. */
  predicate CountsOk(rows: map<nat, Row>, configs: map<nat, Config>, workers: map<nat, Worker>) {
    && (forall w :: w in workers ==> CountingOk(rows, configs, workers[w].pc))
    && (forall w, v, c :: w in workers && v in workers && workers[w].pc.Counting? && workers[v].pc.Counting? ==>
          c in workers[w].pc.locked && c in workers[v].pc.locked ==> w == v)
  }

  /** A worker that removed the containers before it queues the execution again has left none. */
  predicate RemovedOk(containers: set<Place>, workers: map<nat, Worker>) {
    forall w :: w in workers && workers[w].pc == FRequeue(true) ==>
      Place(workers[w].server, workers[w].exec) !in containers
  }

  predicate Known(rows: map<nat, Row>, gone: set<nat>, e: nat) {
    e in rows || e in gone
  }

  predicate SeenKnown(rows: map<nat, Row>, gone: set<nat>, seen: map<nat, nat>) {
    forall e :: e in seen ==> Known(rows, gone, e)
  }

  /** Everything refers to executions that exist or existed; their ids are not used again. */
  predicate KnownOk(rows: map<nat, Row>, gone: set<nat>, containers: set<Place>, pending: multiset<nat>,
                    finishers: map<nat, Finisher>, reconcilers: map<nat, Reconciler>) {
    && (forall p :: p in containers ==> Known(rows, gone, p.exec))
    && (forall e :: e in pending ==> Known(rows, gone, e))
    && (forall f :: f in finishers ==> Known(rows, gone, finishers[f].exec))
    && (forall r :: r in reconcilers ==> SeenKnown(rows, gone, reconcilers[r].seen))
  }

  predicate Done(row: Row) {
    Terminal(row.status) || row.attempts == MAX_ATTEMPTS
  }

  predicate PendingOk(rows: map<nat, Row>, pending: multiset<nat>, finishers: map<nat, Finisher>) {
    && (forall e :: e in pending && e in rows ==> Done(rows[e]))
    && (forall f :: f in finishers ==> Terminal(finishers[f].to) && (finishers[f].written ==> finishers[f].clean))
    && (forall f :: f in finishers && finishers[f].written && finishers[f].exec in rows ==>
          Terminal(rows[finishers[f].exec].status))
  }

  predicate UsesServer(rows: map<nat, Row>, e: nat, server: nat) {
    e in rows && Occupying(rows[e].status) && rows[e].server == Some(server)
  }

  /** An execution whose containers the reconciler listed has not fewer attempts now; one that it takes for
      an orphan is not on the server, or was reserved again since. */
  predicate ReconcilerOk(rows: map<nat, Row>, rec: Reconciler) {
    && (forall e :: e in rec.seen && e in rows ==> rec.seen[e] <= rows[e].attempts)
    && (rec.Orphans? ==>
          forall e :: e in rec.seen && UsesServer(rows, e, rec.server) ==> rec.seen[e] < rows[e].attempts)
  }

  predicate ReconcilersOk(rows: map<nat, Row>, reconcilers: map<nat, Reconciler>) {
    forall r :: r in reconcilers ==> ReconcilerOk(rows, reconcilers[r])
  }

  ghost predicate Inv(s: State) {
    && RowsOk(s.rows, s.gone)
    && KnownOk(s.rows, s.gone, s.containers, s.pending, s.finishers, s.reconcilers)
    && LocksOk(s.rows, s.workers)
    && OwnersOk(s.rows, s.gone, s.workers)
    && PeaksOk(s.rows, s.configs, s.peak)
    && CountsOk(s.rows, s.configs, s.workers)
    && RemovedOk(s.containers, s.workers)
    && PendingOk(s.rows, s.pending, s.finishers)
    && ReconcilersOk(s.rows, s.reconcilers)
  }

  // ------------------------------------------------------------- calm changes of rows

  lemma CalmKeepsRows(rows: map<nat, Row>, gone: set<nat>, rows': map<nat, Row>, gone': set<nat>)
    requires RowsOk(rows, gone) && CalmRows(rows, gone, rows', gone')
    ensures RowsOk(rows', gone')
  {
  }

  lemma CalmKeepsKnown(rows: map<nat, Row>, gone: set<nat>, rows': map<nat, Row>, gone': set<nat>,
                       containers: set<Place>, pending: multiset<nat>, finishers: map<nat, Finisher>,
                       reconcilers: map<nat, Reconciler>)
    requires Created(rows, gone, rows', gone') && KnownOk(rows, gone, containers, pending, finishers, reconcilers)
    ensures KnownOk(rows', gone', containers, pending, finishers, reconcilers)
  {
  }

  lemma CalmKeepsLocks(rows: map<nat, Row>, gone: set<nat>, rows': map<nat, Row>, gone': set<nat>, workers: map<nat,
                       Worker>)
    requires LocksOk(rows, workers)
    requires forall w :: w in workers && InTransaction(workers[w].pc) ==>
      workers[w].exec in rows' && (workers[w].exec in rows ==> rows'[workers[w].exec] == rows[workers[w].exec])
    ensures LocksOk(rows', workers)
  {
    hide InTransaction;
  }

  lemma CalmKeepsOwners(rows: map<nat, Row>, gone: set<nat>, rows': map<nat, Row>, gone': set<nat>, workers: map<nat,
                        Worker>)
    requires RowsOk(rows, gone) && CalmRows(rows, gone, rows', gone') && OwnersOk(rows, gone, workers)
    ensures OwnersOk(rows', gone', workers)
  {
    hide Owns, NewRow, RowOk;
  }

  lemma OccupiedShrinks(rows: map<nat, Row>, rows': map<nat, Row>, c: nat)
    requires forall e :: e in rows' && Occupying(rows'[e].status) ==>
      e in rows && Occupying(rows[e].status) && rows[e].config == rows'[e].config
    ensures OccupiedSet(rows', c) <= OccupiedSet(rows, c) && |OccupiedSet(rows', c)| <= |OccupiedSet(rows, c)|
  {
    SubsetSize(OccupiedSet(rows', c), OccupiedSet(rows, c));
  }

  lemma {:induction false} SubsetSize(a: set<nat>, b: set<nat>)
    requires a <= b
    ensures |a| <= |b|
  {
    if a != {} {
      var x :| x in a;
      SubsetSize(a - {x}, b - {x});
    }
  }

  lemma CalmShrinks(rows: map<nat, Row>, gone: set<nat>, rows': map<nat, Row>, gone': set<nat>)
    requires CalmRows(rows, gone, rows', gone')
    ensures forall e :: e in rows' && Occupying(rows'[e].status) ==>
      e in rows && Occupying(rows[e].status) && rows[e].config == rows'[e].config
  {
  }

  lemma ShrinkKeepsPeaks(rows: map<nat, Row>, rows': map<nat, Row>, configs: map<nat, Config>, peak: map<nat, nat>)
    requires forall e :: e in rows' && Occupying(rows'[e].status) ==>
      e in rows && Occupying(rows[e].status) && rows[e].config == rows'[e].config
    requires PeaksOk(rows, configs, peak)
    ensures PeaksOk(rows', configs, peak)
  {
    forall c
      ensures OccupiedSet(rows', c) <= OccupiedSet(rows, c) && |OccupiedSet(rows', c)| <= |OccupiedSet(rows, c)|
    {
      OccupiedShrinks(rows, rows', c);
    }
    hide OccupiedSet, Occupying;
  }

  lemma ShrinkKeepsCounts(rows: map<nat, Row>, rows': map<nat, Row>, configs: map<nat, Config>, workers: map<nat,
                          Worker>)
    requires forall e :: e in rows' && Occupying(rows'[e].status) ==>
      e in rows && Occupying(rows[e].status) && rows[e].config == rows'[e].config
    requires CountsOk(rows, configs, workers)
    ensures CountsOk(rows', configs, workers)
  {
    forall w | w in workers ensures CountingOk(rows', configs, workers[w].pc) {
      ShrinkKeepsCounting(rows, rows', configs, workers[w].pc);
    }
    hide CountingOk, Occupying;
  }

  lemma ShrinkKeepsCounting(rows: map<nat, Row>, rows': map<nat, Row>, configs: map<nat, Config>, pc: Pc)
    requires forall e :: e in rows' && Occupying(rows'[e].status) ==>
      e in rows && Occupying(rows[e].status) && rows[e].config == rows'[e].config
    requires CountingOk(rows, configs, pc)
    ensures CountingOk(rows', configs, pc)
  {
    forall c ensures |OccupiedSet(rows', c)| <= |OccupiedSet(rows, c)| {
      OccupiedShrinks(rows, rows', c);
    }
    hide OccupiedSet, Occupying;
  }

  lemma CalmKeepsPending(rows: map<nat, Row>, gone: set<nat>, rows': map<nat, Row>, gone': set<nat>,
                         pending: multiset<nat>, finishers: map<nat, Finisher>)
    requires CalmRows(rows, gone, rows', gone') && PendingOk(rows, pending, finishers)
    requires forall e :: e in pending ==> Known(rows, gone, e)
    requires forall f :: f in finishers ==> Known(rows, gone, finishers[f].exec)
    ensures PendingOk(rows', pending, finishers)
  {
  }

  lemma CalmKeepsReconciler(rows: map<nat, Row>, gone: set<nat>, rows': map<nat, Row>, gone': set<nat>, rec: Reconciler)
    requires CalmRows(rows, gone, rows', gone') && ReconcilerOk(rows, rec) && SeenKnown(rows, gone, rec.seen)
    ensures ReconcilerOk(rows', rec)
  {
  }

  lemma CalmKeepsReconcilers(rows: map<nat, Row>, gone: set<nat>, rows': map<nat, Row>, gone': set<nat>,
                             reconcilers: map<nat, Reconciler>)
    requires CalmRows(rows, gone, rows', gone') && ReconcilersOk(rows, reconcilers)
    requires forall r :: r in reconcilers ==> SeenKnown(rows, gone, reconcilers[r].seen)
    ensures ReconcilersOk(rows', reconcilers)
  {
    hide CalmRows, ReconcilerOk, SeenKnown;
    forall r | r in reconcilers ensures ReconcilerOk(rows', reconcilers[r]) {
      CalmKeepsReconciler(rows, gone, rows', gone', reconcilers[r]);
    }
  }

  predicate LockedRowsStay(s: State, rows': map<nat, Row>) {
    forall w :: w in s.workers && InTransaction(s.workers[w].pc) ==>
      && s.workers[w].exec in rows'
      && (s.workers[w].exec in s.rows ==> rows'[s.workers[w].exec] == s.rows[s.workers[w].exec])
  }

  lemma CalmStep(s: State, rows': map<nat, Row>, gone': set<nat>)
    requires Inv(s) && CalmRows(s.rows, s.gone, rows', gone') && LockedRowsStay(s, rows')
    ensures Inv(s.(rows := rows', gone := gone'))
  {
    CalmStepRows(s, rows', gone');
    CalmStepRest(s, rows', gone');
    hide RowsOk, KnownOk, LocksOk, OwnersOk, PeaksOk, CountsOk, RemovedOk, PendingOk, ReconcilersOk, CalmRows;
  }

  lemma CalmStepRows(s: State, rows': map<nat, Row>, gone': set<nat>)
    requires Inv(s) && CalmRows(s.rows, s.gone, rows', gone') && LockedRowsStay(s, rows')
    ensures RowsOk(rows', gone') && KnownOk(rows', gone', s.containers, s.pending, s.finishers, s.reconcilers)
    ensures LocksOk(rows', s.workers) && OwnersOk(rows', gone', s.workers)
    ensures PeaksOk(rows', s.configs, s.peak) && CountsOk(rows', s.configs, s.workers)
  {
    hide RowsOk, KnownOk, LocksOk, OwnersOk, PeaksOk, CountsOk, RemovedOk, PendingOk, ReconcilersOk, Calm, Created,
      Occupying;
    CalmKeepsRows(s.rows, s.gone, rows', gone');
    CalmKeepsKnown(s.rows, s.gone, rows', gone', s.containers, s.pending, s.finishers, s.reconcilers);
    CalmKeepsLocks(s.rows, s.gone, rows', gone', s.workers);
    CalmKeepsOwners(s.rows, s.gone, rows', gone', s.workers);
    CalmShrinks(s.rows, s.gone, rows', gone');
    ShrinkKeepsPeaks(s.rows, rows', s.configs, s.peak);
    ShrinkKeepsCounts(s.rows, rows', s.configs, s.workers);
  }

  lemma CalmStepRest(s: State, rows': map<nat, Row>, gone': set<nat>)
    requires Inv(s) && CalmRows(s.rows, s.gone, rows', gone')
    ensures PendingOk(rows', s.pending, s.finishers) && ReconcilersOk(rows', s.reconcilers)
  {
    hide RowsOk, LocksOk, OwnersOk, PeaksOk, CountsOk, RemovedOk, PendingOk, ReconcilersOk, CalmRows, Known, SeenKnown;
    CalmKeepsPending(s.rows, s.gone, rows', gone', s.pending, s.finishers);
    CalmKeepsReconcilers(s.rows, s.gone, rows', gone', s.reconcilers);
  }

  // ------------------------------------------------------------- steps of one worker

  lemma OwnerMoves(s: State, w: nat, pc: Pc)
    requires Inv(s) && w in s.workers && Owns(s.workers[w].pc) && Owns(pc)
    requires s.workers[w].exec in s.rows ==> OwnerKnows(s.rows[s.workers[w].exec], s.workers[w].(pc := pc))
    requires pc == FRequeue(true) ==> Place(s.workers[w].server, s.workers[w].exec) !in s.containers
    ensures Inv(At(s, w, pc))
  {
    OwnerMovesLocks(s, w, pc);
    OwnerMovesOwners(s, w, pc);
    OwnerMovesRemoved(s, w, pc);
    hide RowsOk, KnownOk, LocksOk, OwnersOk, PeaksOk, CountsOk, RemovedOk, PendingOk, ReconcilersOk;
  }

  lemma OwnerMovesLocks(s: State, w: nat, pc: Pc)
    requires Inv(s) && w in s.workers && Owns(s.workers[w].pc) && Owns(pc)
    ensures LocksOk(s.rows, At(s, w, pc).workers) && CountsOk(s.rows, s.configs, At(s, w, pc).workers)
  {
    hide RowsOk, KnownOk, OwnersOk, PeaksOk, RemovedOk, PendingOk, ReconcilersOk, CandOk;
  }

  lemma OwnerMovesOwners(s: State, w: nat, pc: Pc)
    requires Inv(s) && w in s.workers && Owns(s.workers[w].pc) && Owns(pc)
    requires s.workers[w].exec in s.rows ==> OwnerKnows(s.rows[s.workers[w].exec], s.workers[w].(pc := pc))
    ensures OwnersOk(s.rows, s.gone, At(s, w, pc).workers)
  {
    hide RowsOk, KnownOk, LocksOk, PeaksOk, CountsOk, RemovedOk, PendingOk, ReconcilersOk, OwnerKnows;
  }

  lemma OwnerMovesRemoved(s: State, w: nat, pc: Pc)
    requires Inv(s) && w in s.workers && Owns(pc)
    requires pc == FRequeue(true) ==> Place(s.workers[w].server, s.workers[w].exec) !in s.containers
    ensures RemovedOk(s.containers, At(s, w, pc).workers)
  {
    hide RowsOk, KnownOk, LocksOk, PeaksOk, CountsOk, PendingOk, ReconcilersOk, OwnersOk;
  }

  lemma WorkerLeaves(s: State, w: nat)
    requires Inv(s) && w in s.workers
    ensures Inv(Leave(s, w))
  {
    LeaveLocks(s, w);
    assert RemovedOk(s.containers, Leave(s, w).workers);
    hide RowsOk, KnownOk, LocksOk, OwnersOk, PeaksOk, CountsOk, RemovedOk, PendingOk, ReconcilersOk;
  }

  lemma LeaveLocks(s: State, w: nat)
    requires Inv(s) && w in s.workers
    ensures LocksOk(s.rows, Leave(s, w).workers) && OwnersOk(s.rows, s.gone, Leave(s, w).workers)
    ensures CountsOk(s.rows, s.configs, Leave(s, w).workers)
  {
    hide RowsOk, KnownOk, PeaksOk, RemovedOk, PendingOk, ReconcilersOk, CountingOk, OwnerKnows;
  }

  /** A worker that owns nothing yet: a new job, or one in the transaction. */
  lemma NonOwnerMoves(s: State, w: nat, worker: Worker)
    requires Inv(s) && !Owns(worker.pc) && (w in s.workers ==> !Owns(s.workers[w].pc))
    requires LocksOk(s.rows, s.workers[w := worker]) && CountsOk(s.rows, s.configs, s.workers[w := worker])
    ensures Inv(s.(workers := s.workers[w := worker]))
  {
    NonOwnerOwners(s, w, worker);
    assert RemovedOk(s.containers, s.workers[w := worker]);
    hide RowsOk, KnownOk, LocksOk, OwnersOk, PeaksOk, CountsOk, RemovedOk, PendingOk, ReconcilersOk;
  }

  lemma NonOwnerOwners(s: State, w: nat, worker: Worker)
    requires Inv(s) && !Owns(worker.pc) && (w in s.workers ==> !Owns(s.workers[w].pc))
    ensures OwnersOk(s.rows, s.gone, s.workers[w := worker])
  {
    hide RowsOk, KnownOk, LocksOk, PeaksOk, CountsOk, RemovedOk, PendingOk, ReconcilersOk, OwnerKnows, Owns;
  }

  // ------------------------------------------------------------- the transaction

  lemma LockRowStep(s: State, w: nat)
    requires Inv(s) && w in s.workers && WorkerNext(s, w, LockRow).Some?
    ensures Inv(WorkerNext(s, w, LockRow).value)
  {
    var worker := s.workers[w].(pc := RowLocked);
    assert LocksOk(s.rows, s.workers[w := worker]) && CountsOk(s.rows, s.configs, s.workers[w := worker]) by {
      hide RowsOk, KnownOk, OwnersOk, PeaksOk, RemovedOk, PendingOk, ReconcilersOk, CandOk;
    }
    hide RowsOk, KnownOk, LocksOk, OwnersOk, PeaksOk, CountsOk, RemovedOk, PendingOk, ReconcilersOk;
    NonOwnerMoves(s, w, worker);
  }

  lemma LockedConfigs(s: State, w: nat, locked: set<nat>, eligible: seq<nat>)
    requires Inv(s) && w in s.workers && s.workers[w].pc.RowLocked? && locked <= s.configs.Keys
    requires forall c :: c in locked ==> ConfigFree(s, c)
    requires forall c :: c in eligible ==> c in locked
    requires forall i, j :: 0 <= i < j < |eligible| ==> eligible[i] < eligible[j]
    ensures Inv(At(s, w, Counting(locked, eligible, eligible, [])))
  {
    var worker := s.workers[w].(pc := Counting(locked, eligible, eligible, []));
    FirstCount(s, locked, eligible);
    hide CountingOk;
    assert LocksOk(s.rows, s.workers[w := worker]) by {
      hide RowsOk, KnownOk, OwnersOk, PeaksOk, CountsOk, RemovedOk, PendingOk, ReconcilersOk, ConfigFree;
    }
    LockedCounts(s, w, worker);
    hide Inv, LocksOk, CountsOk;
    NonOwnerMoves(s, w, worker);
  }

  lemma FirstCount(s: State, locked: set<nat>, eligible: seq<nat>)
    requires locked <= s.configs.Keys && forall c :: c in eligible ==> c in locked
    requires forall i, j :: 0 <= i < j < |eligible| ==> eligible[i] < eligible[j]
    ensures CountingOk(s.rows, s.configs, Counting(locked, eligible, eligible, []))
  {
    assert ConfigsOf([]) + eligible == eligible;
  }

  lemma LockedCounts(s: State, w: nat, worker: Worker)
    requires Inv(s) && w in s.workers && worker.pc.Counting? && CountingOk(s.rows, s.configs, worker.pc)
    requires forall c :: c in worker.pc.locked ==> ConfigFree(s, c)
    ensures CountsOk(s.rows, s.configs, s.workers[w := worker])
  {
    hide RowsOk, KnownOk, LocksOk, OwnersOk, PeaksOk, RemovedOk, PendingOk, ReconcilersOk, CountingOk;
  }

  lemma LockConfigsStep(s: State, w: nat, eligible: seq<nat>)
    requires Inv(s) && w in s.workers && WorkerNext(s, w, LockConfigs(eligible)).Some?
    ensures Inv(WorkerNext(s, w, LockConfigs(eligible)).value)
  {
    hide Inv, ConfigFree;
    var locked := EnabledConfigs(s, s.rows[s.workers[w].exec].app);
    assert locked <= s.configs.Keys;
    hide EnabledConfigs;
    LockedConfigs(s, w, locked, eligible);
  }

  function OneCounted(rows: map<nat, Row>, configs: map<nat, Config>, pc: Pc): Pc
    requires pc.Counting? && pc.todo != [] && pc.todo[0] in configs
  {
    var c := pc.todo[0];
    var cand := Candidate(c, |OccupiedSet(rows, c)|, configs[c].maxRunners);
    Counting(pc.locked, pc.eligible, pc.todo[1..], pc.done + [cand])
  }

  lemma CountedOne(rows: map<nat, Row>, configs: map<nat, Config>, pc: Pc)
    requires CountingOk(rows, configs, pc) && pc.Counting? && pc.todo != []
    ensures pc.todo[0] in configs && CountingOk(rows, configs, OneCounted(rows, configs, pc))
  {
    var c := pc.todo[0];
    assert pc.eligible[|pc.done|] == c;
    assert c in pc.eligible;
    var next := OneCounted(rows, configs, pc);
    assert ConfigsOf(next.done) + next.todo == ConfigsOf(pc.done) + pc.todo;
    assert CandOk(rows, configs, pc.locked, next.done[|pc.done|]);
    hide OccupiedSet;
  }

  lemma CountStep(s: State, w: nat)
    requires Inv(s) && w in s.workers && WorkerNext(s, w, Count).Some?
    ensures Inv(WorkerNext(s, w, Count).value)
  {
    var pc := s.workers[w].pc;
    assert CountingOk(s.rows, s.configs, pc) by {
      hide RowsOk, KnownOk, LocksOk, OwnersOk, PeaksOk, RemovedOk, PendingOk, ReconcilersOk, WorkerNext, CountingOk;
    }
    hide Inv, CountingOk, OccupiedSet;
    CountedOne(s.rows, s.configs, pc);
    Counted(s, w, OneCounted(s.rows, s.configs, pc));
  }

  lemma Counted(s: State, w: nat, pc: Pc)
    requires Inv(s) && w in s.workers && s.workers[w].pc.Counting? && pc.Counting?
    requires pc.locked == s.workers[w].pc.locked
    requires CountingOk(s.rows, s.configs, pc)
    ensures Inv(At(s, w, pc))
  {
    var worker := s.workers[w].(pc := pc);
    assert LocksOk(s.rows, s.workers[w := worker]) && CountsOk(s.rows, s.configs, s.workers[w := worker]) by {
      hide RowsOk, KnownOk, OwnersOk, PeaksOk, RemovedOk, PendingOk, ReconcilersOk, CountingOk;
    }
    hide Inv, LocksOk, CountsOk, CountingOk;
    NonOwnerMoves(s, w, worker);
  }

  /** The row of the reservation: one more execution occupies the picked config, which nobody else counts. */
  lemma ReserveRow(s: State, e: nat, b: Row)
    requires Inv(s) && e in s.rows && IsReserve(s.rows[e], b) && RowFree(s, e)
    requires b.config.value in s.peak && |OccupiedSet(s.rows, b.config.value)| < s.peak[b.config.value]
    requires ConfigFree(s, b.config.value)
    ensures Inv(SetRow(s, e, b))
  {
    ReserveCounts(s, e, b);
    ReserveOthers(s, e, b);
    ReserveRest(s, e, b);
    hide RowsOk, KnownOk, LocksOk, OwnersOk, PeaksOk, CountsOk, RemovedOk, PendingOk, ReconcilersOk;
  }

  lemma ReserveOccupied(rows: map<nat, Row>, e: nat, b: Row, c: nat)
    requires e in rows && IsReserve(rows[e], b)
    ensures OccupiedSet(rows[e := b], c)
         == if b.config == Some(c) then OccupiedSet(rows, c) + {e} else OccupiedSet(rows, c)
    ensures e !in OccupiedSet(rows, c)
  {
  }

  lemma ReserveCounts(s: State, e: nat, b: Row)
    requires Inv(s) && e in s.rows && IsReserve(s.rows[e], b)
    requires b.config.value in s.peak && |OccupiedSet(s.rows, b.config.value)| < s.peak[b.config.value]
    requires ConfigFree(s, b.config.value)
    ensures PeaksOk(s.rows[e := b], s.configs, s.peak) && CountsOk(s.rows[e := b], s.configs, s.workers)
  {
    hide RowsOk, KnownOk, LocksOk, OwnersOk, RemovedOk, PendingOk, ReconcilersOk;
    ReservePeaks(s.rows, e, b, s.configs, s.peak);
    forall w | w in s.workers ensures CountingOk(s.rows[e := b], s.configs, s.workers[w].pc) {
      assert CountingOk(s.rows, s.configs, s.workers[w].pc);
      ReserveCounting(s.rows, e, b, s.configs, s.workers[w].pc);
    }
    hide CountingOk, OccupiedSet, PeaksOk;
  }

  lemma ReservePeaks(rows: map<nat, Row>, e: nat, b: Row, configs: map<nat, Config>, peak: map<nat, nat>)
    requires PeaksOk(rows, configs, peak) && e in rows && IsReserve(rows[e], b)
    requires b.config.value in peak && |OccupiedSet(rows, b.config.value)| < peak[b.config.value]
    ensures PeaksOk(rows[e := b], configs, peak)
  {
    forall c: nat
      ensures OccupiedSet(rows[e := b], c)
           == if b.config == Some(c) then OccupiedSet(rows, c) + {e} else OccupiedSet(rows, c)
    {
      ReserveOccupied(rows, e, b, c);
    }
    ReserveOccupied(rows, e, b, b.config.value);
    hide OccupiedSet;
  }

  lemma ReserveCounting(rows: map<nat, Row>, e: nat, b: Row, configs: map<nat, Config>, pc: Pc)
    requires CountingOk(rows, configs, pc) && e in rows && IsReserve(rows[e], b)
    requires pc.Counting? ==> b.config.value !in pc.locked
    ensures CountingOk(rows[e := b], configs, pc)
  {
    if pc.Counting? {
      forall i | 0 <= i < |pc.done| ensures CandOk(rows[e := b], configs, pc.locked, pc.done[i]) {
        assert CandOk(rows, configs, pc.locked, pc.done[i]);
        ReserveOccupied(rows, e, b, pc.done[i].config);
      }
    }
    hide OccupiedSet, CandOk;
  }

  lemma ReserveOthers(s: State, e: nat, b: Row)
    requires Inv(s) && e in s.rows && IsReserve(s.rows[e], b) && RowFree(s, e)
    ensures RowsOk(s.rows[e := b], s.gone) && LocksOk(s.rows[e := b], s.workers)
    ensures OwnersOk(s.rows[e := b], s.gone, s.workers)
    ensures KnownOk(s.rows[e := b], s.gone, s.containers, s.pending, s.finishers, s.reconcilers)
  {
    hide PeaksOk, CountsOk, RemovedOk, PendingOk, ReconcilersOk;
  }

  lemma ReserveRest(s: State, e: nat, b: Row)
    requires Inv(s) && e in s.rows && IsReserve(s.rows[e], b)
    ensures PendingOk(s.rows[e := b], s.pending, s.finishers) && ReconcilersOk(s.rows[e := b], s.reconcilers)
  {
    hide PeaksOk, CountsOk, KnownOk, LocksOk, OwnersOk, RemovedOk;
    assert RowOk(s.rows[e]);
  }

  /** A new owner of an execution that nobody owns. */
  lemma OwnerArrives(s: State, w: nat, worker: Worker)
    requires Inv(s) && w !in s.workers && worker.pc.Prepare? && worker.exec in s.rows
    requires OwnerKnows(s.rows[worker.exec], worker)
    requires Unowned(s, worker.exec)
    ensures Inv(s.(workers := s.workers[w := worker]))
  {
    assert RemovedOk(s.containers, s.workers[w := worker]);
    assert LocksOk(s.rows, s.workers[w := worker]) && OwnersOk(s.rows, s.gone, s.workers[w := worker])
      && CountsOk(s.rows, s.configs, s.workers[w := worker]) by {
      hide RowsOk, KnownOk, PeaksOk, RemovedOk, PendingOk, ReconcilersOk, OwnerKnows, CandOk;
    }
    hide RowsOk, KnownOk, LocksOk, OwnersOk, PeaksOk, CountsOk, RemovedOk, PendingOk, ReconcilersOk;
  }

  lemma DoneById(rows: map<nat, Row>, configs: map<nat, Config>, pc: Pc)
    requires pc.Counting? && CountingOk(rows, configs, pc)
    ensures ById(pc.done)
  {
    assert forall i :: 0 <= i < |pc.done| ==> pc.done[i].config == pc.eligible[i];
  }

  /** What the transaction knows when it writes. */
  lemma PickedHasRoom(s: State, w: nat)
    requires Inv(s) && w in s.workers && s.workers[w].pc.Counting? && Pick(s.workers[w].pc.done).Some?
    ensures var p := Pick(s.workers[w].pc.done).value;
      && p.config in s.peak && |OccupiedSet(s.rows, p.config)| < s.peak[p.config] && ConfigFree(Leave(s, w), p.config)
    ensures s.workers[w].exec in s.rows && s.rows[s.workers[w].exec].status == Queued
    ensures RowFree(Leave(s, w), s.workers[w].exec)
    ensures Unowned(Leave(s, w), s.workers[w].exec)
  {
    hide RowsOk, KnownOk, RemovedOk, PendingOk, ReconcilersOk, OccupiedSet;
    var pc := s.workers[w].pc;
    assert CountingOk(s.rows, s.configs, pc);
    DoneById(s.rows, s.configs, pc);
    PickIsLeastOccupied(pc.done);
    assert CandOk(s.rows, s.configs, pc.locked, Pick(pc.done).value);
    hide Pick, CountingOk, ById;
  }

  lemma ReserveAs(left: State, w: nat, e: nat, config: nat, server: nat)
    requires Inv(left) && w !in left.workers && e in left.rows && left.rows[e].status == Queued && RowFree(left, e)
    requires config in left.peak && |OccupiedSet(left.rows, config)| < left.peak[config] && ConfigFree(left, config)
    requires Unowned(left, e)
    ensures Inv(SetRow(left, e, Reserved(left.rows[e], config, server))
                  .(workers := left.workers[w := Worker(e, Prepare, server)]))
  {
    hide Inv, RowFree, ConfigFree, OccupiedSet;
    var b := Reserved(left.rows[e], config, server);
    ReserveRow(left, e, b);
    OwnerArrives(SetRow(left, e, b), w, Worker(e, Prepare, server));
  }

  lemma ReserveStep(s: State, w: nat)
    requires Inv(s) && w in s.workers && DoReserve(s, w).Some?
    ensures Inv(DoReserve(s, w).value)
  {
    hide Inv, Pick, RowFree, ConfigFree, OccupiedSet, Unowned;
    WorkerLeaves(s, w);
    var worker := s.workers[w];
    if Pick(worker.pc.done).Some? {
      PickedHasRoom(s, w);
      var p := Pick(worker.pc.done).value;
      var server := s.configs[p.config].server;
      ReserveAs(Leave(s, w), w, worker.exec, p.config, server);
      assert Leave(s, w).workers[w := Worker(worker.exec, Prepare, server)]
          == s.workers[w := Worker(worker.exec, Prepare, server)];
    }
  }

  // ------------------------------------------------------------- requeue

  lemma RequeueRow(s: State, e: nat)
    requires Inv(s) && e in s.rows && s.rows[e].status == Provisioning && s.rows[e].attempts < MAX_ATTEMPTS
    requires Unowned(s, e)
    ensures Inv(SetRow(s, e, s.rows[e].(status := Queued, config := None, server := None)))
  {
    var b := s.rows[e].(status := Queued, config := None, server := None);
    RequeueOthers(s, e, b);
    RequeueRest(s, e, b);
    var rows' := s.rows[e := b];
    ShrinkKeepsPeaks(s.rows, rows', s.configs, s.peak);
    ShrinkKeepsCounts(s.rows, rows', s.configs, s.workers);
    hide RowsOk, KnownOk, LocksOk, OwnersOk, PeaksOk, CountsOk, RemovedOk, PendingOk, ReconcilersOk;
  }

  lemma RequeueOthers(s: State, e: nat, b: Row)
    requires Inv(s) && e in s.rows && IsRequeue(s.rows[e], b)
    requires Unowned(s, e)
    ensures RowsOk(s.rows[e := b], s.gone) && LocksOk(s.rows[e := b], s.workers)
    ensures OwnersOk(s.rows[e := b], s.gone, s.workers)
    ensures KnownOk(s.rows[e := b], s.gone, s.containers, s.pending, s.finishers, s.reconcilers)
  {
    hide PeaksOk, CountsOk, RemovedOk, PendingOk, ReconcilersOk;
  }

  lemma RequeueRest(s: State, e: nat, b: Row)
    requires Inv(s) && e in s.rows && IsRequeue(s.rows[e], b)
    ensures PendingOk(s.rows[e := b], s.pending, s.finishers) && ReconcilersOk(s.rows[e := b], s.reconcilers)
  {
    hide PeaksOk, CountsOk, KnownOk, LocksOk, OwnersOk, RemovedOk;
  }

  lemma RequeueStep(s: State, w: nat)
    requires Inv(s) && w in s.workers && s.workers[w].pc.FRequeue?
    ensures Inv(DoRequeue(s, w))
  {
    WorkerLeaves(s, w);
    var e, left := s.workers[w].exec, Leave(s, w);
    if e in s.rows && s.rows[e].status == Provisioning {
      assert s.rows[e].attempts < MAX_ATTEMPTS && Unowned(left, e) by {
        hide RowsOk, KnownOk, LocksOk, PeaksOk, CountsOk, RemovedOk, PendingOk, ReconcilersOk;
      }
      hide Inv;
      RequeueRow(left, e);
    }
  }

  // ------------------------------------------------------------- containers and cleanups

  /** The owner of an execution creates its containers. */
  lemma CreateContainers(s: State, w: nat, created: bool)
    requires Inv(s) && w in s.workers && CleanupAhead(s.workers[w].pc)
    ensures Inv(AddContainers(s, created, s.workers[w].server, s.workers[w].exec))
  {
    hide RowsOk, LocksOk, PeaksOk, CountsOk, PendingOk, ReconcilersOk, OwnerKnows;
  }

  lemma FewerContainers(s: State, containers: set<Place>)
    requires Inv(s) && containers <= s.containers
    ensures Inv(s.(containers := containers))
  {
    hide RowsOk, LocksOk, OwnersOk, PeaksOk, CountsOk, PendingOk, ReconcilersOk;
  }

  lemma RemoveStep(s: State, e: nat, ok: bool)
    requires Inv(s)
    ensures Inv(RemoveContainers(s, e, ok))
  {
    RemoveShape(s, e, ok);
    hide Inv, RemoveContainers;
    FewerContainers(s, RemoveContainers(s, e, ok).containers);
  }

  lemma RemoveShape(s: State, e: nat, ok: bool)
    ensures var t := RemoveContainers(s, e, ok); t == s.(containers := t.containers) && t.containers <= s.containers
    ensures ok && e in s.rows && s.rows[e].server.Some? ==>
      Place(s.rows[e].server.value, e) !in RemoveContainers(s, e, ok).containers
  {
  }

  lemma CleanupStep(s: State, e: nat, ok: bool)
    requires Inv(s) && e in s.pending
    ensures Inv(RemoveContainers(s.(pending := s.pending - multiset{e}), e, ok))
  {
    var t := s.(pending := s.pending - multiset{e});
    assert Inv(t) by {
      hide RowsOk, LocksOk, OwnersOk, PeaksOk, CountsOk, RemovedOk, ReconcilersOk, Done;
      assert forall x :: x in t.pending ==> x in s.pending;
    }
    hide Inv;
    RemoveStep(t, e, ok);
  }

  lemma AddPending(s: State, e: nat)
    requires Inv(s) && Known(s.rows, s.gone, e) && (e in s.rows ==> Done(s.rows[e]))
    ensures Inv(s.(pending := s.pending + multiset{e}))
  {
    hide RowsOk, LocksOk, OwnersOk, PeaksOk, CountsOk, ReconcilersOk, RemovedOk, Done;
    var t := s.(pending := s.pending + multiset{e});
    assert forall x :: x in t.pending <==> x in s.pending || x == e;
  }

  lemma DispatchStep(s: State, w: nat)
    requires Inv(s) && w in s.workers && s.workers[w].pc.Dispatch?
    ensures Inv(Leave(s.(pending := s.pending + multiset{s.workers[w].exec}), w))
  {
    var e := s.workers[w].exec;
    assert Known(s.rows, s.gone, e) && (e in s.rows ==> Done(s.rows[e])) by {
      hide RowsOk, LocksOk, PeaksOk, CountsOk, ReconcilersOk, PendingOk, RemovedOk, KnownOk;
    }
    hide Inv, Known, Done;
    AddPending(s, e);
    var t := s.(pending := s.pending + multiset{e});
    assert e in t.pending;
    WorkerLeaves(t, w);
  }

  // ------------------------------------------------------------- the other steps of a worker

  lemma CheckStep(s: State, w: nat)
    requires Inv(s) && w in s.workers && AfterCheck(s, w).Some?
    ensures Inv(AfterCheck(s, w).value)
  {
    var worker := s.workers[w];
    var e := worker.exec;
    assert e in s.rows ==> OwnerKnows(s.rows[e], worker) && RowOk(s.rows[e]) by {
      hide KnownOk, LocksOk, PeaksOk, CountsOk, RemovedOk, PendingOk, ReconcilersOk;
    }
    hide Inv;
    if e !in s.rows {
      WorkerLeaves(s, w);
    } else if !Active(s.rows[e].status) {
      OwnerMoves(s, w, Dispatch);
    } else {
      assert Occupying(s.rows[e].status);
      OwnerMoves(s, w, AfterCheck(s, w).value.workers[w].pc);
    }
  }

  /** A conditional update of a provisioning row. */
  lemma UpdateStep(s: State, e: nat, to: Status)
    requires Inv(s) && (to == Idle || Terminal(to))
    ensures Inv(UpdateIfProvisioning(s, e, to))
  {
    if e in s.rows && s.rows[e].status == Provisioning {
      var b := s.rows[e].(status := to);
      assert LockedRowsStay(s, s.rows[e := b]) by {
        hide RowsOk, KnownOk, OwnersOk, PeaksOk, CountsOk, RemovedOk, PendingOk, ReconcilersOk;
      }
      hide Inv;
      assert CalmRows(s.rows, s.gone, s.rows[e := b], s.gone) by { KeysStay(s, e); }
      CalmStep(s, s.rows[e := b], s.gone);
    }
  }

  lemma KeysStay(s: State, e: nat)
    requires Inv(s) && e in s.rows
    ensures e !in s.gone
  {
    hide KnownOk, LocksOk, OwnersOk, PeaksOk, CountsOk, RemovedOk, PendingOk, ReconcilersOk, RowOk;
  }

  lemma MarkIdleStep(s: State, w: nat)
    requires Inv(s) && w in s.workers && s.workers[w].pc.MarkIdle?
    ensures Inv(Leave(UpdateIfProvisioning(s, s.workers[w].exec, Idle), w))
  {
    hide Inv;
    UpdateStep(s, s.workers[w].exec, Idle);
    WorkerLeaves(UpdateIfProvisioning(s, s.workers[w].exec, Idle), w);
  }

  lemma OwnerFacts(s: State, w: nat)
    requires Inv(s) && w in s.workers && Owns(s.workers[w].pc)
    ensures var worker := s.workers[w]; worker.exec in s.rows ==> OwnerKnows(s.rows[worker.exec], worker)
  {
    hide RowsOk, KnownOk, LocksOk, PeaksOk, CountsOk, RemovedOk, PendingOk, ReconcilersOk, OwnerKnows;
  }

  lemma ExhaustStep(s: State, w: nat)
    requires Inv(s) && w in s.workers && s.workers[w].pc.FExhausted?
    ensures Inv(At(UpdateIfProvisioning(s, s.workers[w].exec, Failed), w, Dispatch))
  {
    OwnerFacts(s, w);
    hide Inv;
    var e := s.workers[w].exec;
    UpdateStep(s, e, Failed);
    OwnerMoves(UpdateIfProvisioning(s, e, Failed), w, Dispatch);
  }

  lemma CreatingStep(s: State, w: nat, created: bool, pc: Pc)
    requires Inv(s) && w in s.workers && (s.workers[w].pc.Prepare? || s.workers[w].pc.Launch?)
    requires pc.CheckPrepared? || pc.CheckLaunched? || pc.FCheck?
    ensures Inv(At(AddContainers(s, created, s.workers[w].server, s.workers[w].exec), w, pc))
  {
    OwnerFacts(s, w);
    hide Inv;
    CreateContainers(s, w, created);
    AddShape(s, created, s.workers[w].server, s.workers[w].exec);
    hide AddContainers;
    PlainMove(AddContainers(s, created, s.workers[w].server, s.workers[w].exec), w, pc);
  }

  lemma LaunchStep(s: State, w: nat, ok: bool, created: bool)
    requires Inv(s) && w in s.workers && s.workers[w].pc.Launch?
    ensures Inv(DoLaunch(s, w, ok, created))
  {
    var pc := if ok then CheckLaunched else FCheck;
    CreatingStep(s, w, created, pc);
    hide RowsOk, KnownOk, LocksOk, OwnersOk, PeaksOk, CountsOk, RemovedOk, PendingOk, ReconcilersOk;
  }

  lemma AddShape(s: State, created: bool, server: nat, e: nat)
    ensures var t := AddContainers(s, created, server, e); t.workers == s.workers && t.rows == s.rows
  {
  }

  /** A move to a step that asks for no more than every owner knows. */
  lemma PlainMove(s: State, w: nat, pc: Pc)
    requires Inv(s) && w in s.workers && Owns(s.workers[w].pc)
    requires pc.CheckPrepared? || pc.CheckLaunched? || pc.FCheck? || pc.CheckRegistered?
    requires s.workers[w].exec in s.rows ==> OwnerKnows(s.rows[s.workers[w].exec], s.workers[w])
    ensures Inv(At(s, w, pc))
  {
    hide Inv;
    OwnerMoves(s, w, pc);
  }

  /** Steps that only move on, within the part where a cleanup is ahead. */
  lemma PlainStep(s: State, w: nat, pc: Pc)
    requires Inv(s) && w in s.workers && Owns(s.workers[w].pc)
    requires pc.FCheck? || pc.CheckRegistered?
    ensures Inv(At(s, w, pc))
  {
    OwnerFacts(s, w);
    hide Inv;
    PlainMove(s, w, pc);
  }

  lemma SyncCleanupStep(s: State, w: nat, ok: bool)
    requires Inv(s) && w in s.workers && s.workers[w].pc.FCleanup?
    ensures var e := s.workers[w].exec; Inv(At(RemoveContainers(s, e, ok), w, FRequeue(ok && e in s.rows)))
  {
    OwnerFacts(s, w);
    var e := s.workers[w].exec;
    RemoveShape(s, e, ok);
    hide Inv, RemoveContainers;
    RemoveStep(s, e, ok);
    OwnerMoves(RemoveContainers(s, e, ok), w, FRequeue(ok && e in s.rows));
  }

  lemma WorkerStep(s: State, w: nat, ev: WorkerEvent)
    requires Inv(s) && w in s.workers && WorkerNext(s, w, ev).Some?
    ensures Inv(WorkerNext(s, w, ev).value)
  {
    hide Inv, RowFree, ConfigFree, Pick, EnabledConfigs, OccupiedSet, AfterCheck, DoReserve, DoRequeue,
      RemoveContainers,
      UpdateIfProvisioning, AddContainers, DoLaunch, Leave, At;
    var pc := s.workers[w].pc;
    match ev
    case LockRow => LockRowStep(s, w);
    case Skip => WorkerLeaves(s, w);
    case LockConfigs(eligible) => LockConfigsStep(s, w, eligible);
    case Count => CountStep(s, w);
    case Reserve => ReserveStep(s, w);
    case Prepared(ok, created) => CreatingStep(s, w, created, if ok then CheckPrepared else FCheck);
    case Check => CheckStep(s, w);
    case Throw => PlainStep(s, w, FCheck);
    case Registered => PlainStep(s, w, CheckRegistered);
    case Launched(ok, created) => LaunchStep(s, w, ok, created);
    case MarkedIdle => MarkIdleStep(s, w);
    case Exhaust => ExhaustStep(s, w);
    case SyncCleanup(ok) => SyncCleanupStep(s, w, ok);
    case Requeue => RequeueStep(s, w);
    case DispatchCleanup => DispatchStep(s, w);
    case Kill => WorkerLeaves(s, w);
  }

  // ------------------------------------------------------------- steps of all others

  lemma SpawnStep(s: State, w: nat, e: nat)
    requires Inv(s) && w !in s.workers
    ensures Inv(s.(workers := s.workers[w := Worker(e, Start, 0)]))
  {
    var workers' := s.workers[w := Worker(e, Start, 0)];
    assert LocksOk(s.rows, workers') && CountsOk(s.rows, s.configs, workers') by {
      hide RowsOk, KnownOk, OwnersOk, PeaksOk, RemovedOk, PendingOk, ReconcilersOk, CandOk;
    }
    hide Inv, LocksOk, CountsOk;
    NonOwnerMoves(s, w, Worker(e, Start, 0));
  }

  lemma CreateStep(s: State, e: nat, app: nat)
    requires Inv(s) && e !in s.rows && e !in s.gone
    ensures Inv(SetRow(s, e, Row(app, Queued, None, None, 0)))
  {
    var rows' := s.rows[e := Row(app, Queued, None, None, 0)];
    assert LockedRowsStay(s, rows') by {
      hide RowsOk, KnownOk, OwnersOk, PeaksOk, CountsOk, RemovedOk, PendingOk, ReconcilersOk;
    }
    hide Inv;
    CalmStep(s, rows', s.gone);
  }

  lemma FinishReadStep(s: State, f: nat, fin: Finisher)
    requires Inv(s) && f !in s.finishers && fin.exec in s.rows && Terminal(fin.to) && !fin.written
    ensures Inv(s.(finishers := s.finishers[f := fin]))
  {
    hide RowsOk, LocksOk, OwnersOk, PeaksOk, CountsOk, RemovedOk, ReconcilersOk;
  }

  lemma FinisherLeaves(s: State, f: nat)
    requires Inv(s) && f in s.finishers
    ensures Inv(s.(finishers := s.finishers - {f}))
  {
    hide RowsOk, LocksOk, OwnersOk, PeaksOk, CountsOk, RemovedOk, ReconcilersOk, Done;
  }

  predicate WriteFree(s: State, f: nat) {
    f in s.finishers && !s.finishers[f].written && RowFree(s, s.finishers[f].exec)
  }

  lemma WriteIsCalm(s: State, f: nat)
    requires Inv(s) && WriteFree(s, f) && s.finishers[f].exec in s.rows
    ensures var e := s.finishers[f].exec; var rows' := s.rows[e := s.rows[e].(status := s.finishers[f].to)];
      CalmRows(s.rows, s.gone, rows', s.gone) && LockedRowsStay(s, rows')
  {
    KeysStay(s, s.finishers[f].exec);
    hide RowsOk, KnownOk, LocksOk, OwnersOk, PeaksOk, CountsOk, RemovedOk, ReconcilersOk;
  }

  lemma CleanWrite(s: State, f: nat)
    requires Inv(s) && WriteFree(s, f) && s.finishers[f].clean
    ensures Inv(DoFinishWrite(s, f))
  {
    var fin := s.finishers[f];
    var e, finishers' := fin.exec, s.finishers[f := fin.(written := true)];
    if e !in s.rows {
      CleanWriteMissed(s, f);
    } else {
      var rows' := s.rows[e := s.rows[e].(status := fin.to)];
      WriteIsCalm(s, f);
      CalmStepRows(s, rows', s.gone);
      CleanWriteRest(s, f, rows', finishers');
      assert KnownOk(rows', s.gone, s.containers, s.pending, finishers', s.reconcilers) by {
        hide RowsOk, LocksOk, OwnersOk, PeaksOk, CountsOk, RemovedOk, PendingOk, ReconcilersOk;
      }
    }
    hide RowsOk, KnownOk, LocksOk, OwnersOk, PeaksOk, CountsOk, RemovedOk, PendingOk, ReconcilersOk;
  }

  lemma CleanWriteMissed(s: State, f: nat)
    requires Inv(s) && WriteFree(s, f) && s.finishers[f].clean && s.finishers[f].exec !in s.rows
    ensures Inv(s.(finishers := s.finishers[f := s.finishers[f].(written := true)]))
  {
    hide RowsOk, LocksOk, OwnersOk, PeaksOk, CountsOk, RemovedOk, ReconcilersOk;
  }

  lemma CleanWriteRest(s: State, f: nat, rows': map<nat, Row>, finishers': map<nat, Finisher>)
    requires Inv(s) && WriteFree(s, f) && s.finishers[f].clean && s.finishers[f].exec in s.rows
    requires rows' == s.rows[s.finishers[f].exec := s.rows[s.finishers[f].exec].(status := s.finishers[f].to)]
    requires finishers' == s.finishers[f := s.finishers[f].(written := true)]
    requires CalmRows(s.rows, s.gone, rows', s.gone)
    ensures PendingOk(rows', s.pending, finishers') && ReconcilersOk(rows', s.reconcilers)
  {
    hide RowsOk, LocksOk, OwnersOk, PeaksOk, CountsOk, RemovedOk, PendingOk, ReconcilersOk, SeenKnown, CalmRows, Known;
    CalmKeepsPending(s.rows, s.gone, rows', s.gone, s.pending, s.finishers);
    CalmKeepsReconcilers(s.rows, s.gone, rows', s.gone, s.reconcilers);
    WrittenIsTerminal(s, f, rows', finishers');
  }

  lemma WrittenIsTerminal(s: State, f: nat, rows': map<nat, Row>, finishers': map<nat, Finisher>)
    requires PendingOk(rows', s.pending, s.finishers)
    requires f in s.finishers && s.finishers[f].clean
    requires s.finishers[f].exec in rows' && rows'[s.finishers[f].exec].status == s.finishers[f].to
    requires finishers' == s.finishers[f := s.finishers[f].(written := true)]
    ensures PendingOk(rows', s.pending, finishers')
  {
    hide Done, Terminal;
  }

  lemma PlainWrite(s: State, f: nat)
    requires Inv(s) && WriteFree(s, f) && !s.finishers[f].clean
    ensures Inv(DoFinishWrite(s, f))
  {
    var fin := s.finishers[f];
    var e := fin.exec;
    if e in s.rows {
      WriteIsCalm(s, f);
    }
    hide Inv;
    FinisherLeaves(s, f);
    var left := s.(finishers := s.finishers - {f});
    if e in s.rows {
      CalmStep(left, s.rows[e := s.rows[e].(status := fin.to)], s.gone);
    }
  }

  lemma FinishDispatchStep(s: State, f: nat)
    requires Inv(s) && f in s.finishers && s.finishers[f].written
    ensures Inv(s.(pending := s.pending + multiset{s.finishers[f].exec}, finishers := s.finishers - {f}))
  {
    var e := s.finishers[f].exec;
    assert Known(s.rows, s.gone, e) && (e in s.rows ==> Done(s.rows[e])) by {
      hide RowsOk, LocksOk, OwnersOk, PeaksOk, CountsOk, RemovedOk, ReconcilersOk;
    }
    hide Inv, Known, Done;
    AddPending(s, e);
    var t := s.(pending := s.pending + multiset{e});
    assert e in t.pending;
    FinisherLeaves(t, f);
  }

  lemma AssignIsCalm(s: State, e: nat, stale: Option<nat>, replacement: Option<nat>)
    requires DoAssign(s, e, stale, replacement).Some? && forall x :: x in s.rows ==> x !in s.gone
    ensures var t := DoAssign(s, e, stale, replacement).value;
      CalmRows(s.rows, s.gone, t.rows, t.gone) && t == s.(rows := t.rows, gone := t.gone)
  {
  }

  lemma AssignStep(s: State, e: nat, stale: Option<nat>, replacement: Option<nat>)
    requires Inv(s) && DoAssign(s, e, stale, replacement).Some?
    ensures Inv(DoAssign(s, e, stale, replacement).value)
  {
    var t := DoAssign(s, e, stale, replacement).value;
    assert forall x :: x in s.rows ==> x !in s.gone by {
      hide KnownOk, LocksOk, OwnersOk, PeaksOk, CountsOk, RemovedOk, PendingOk, ReconcilersOk, RowOk, DoAssign;
    }
    assert LockedRowsStay(s, t.rows) by {
      hide RowsOk, KnownOk, OwnersOk, PeaksOk, CountsOk, RemovedOk, PendingOk, ReconcilersOk;
    }
    hide Inv, LockedRowsStay;
    AssignIsCalm(s, e, stale, replacement);
    hide DoAssign, CalmRows;
    CalmStep(s, t.rows, t.gone);
  }

  lemma SetConfigStep(s: State, c: nat, value: Config)
    requires Inv(s) && ConfigFree(s, c)
    ensures Inv(s.(configs := s.configs[c := value],
                   peak := s.peak[c := Max(value.maxRunners, if c in s.peak then s.peak[c] else 0)]))
  {
    var configs' := s.configs[c := value];
    var peak' := s.peak[c := Max(value.maxRunners, if c in s.peak then s.peak[c] else 0)];
    hide RowsOk, KnownOk, LocksOk, OwnersOk, RemovedOk, PendingOk, ReconcilersOk;
    PeakRises(s.rows, s.configs, s.peak, configs', peak', c);
    hide PeaksOk;
    forall w | w in s.workers ensures CountingOk(s.rows, configs', s.workers[w].pc) {
      assert CountingOk(s.rows, s.configs, s.workers[w].pc);
      FreeConfigCounting(s.rows, s.configs, configs', s.workers[w].pc, c);
    }
    hide CountingOk, Max;
  }

  lemma PeakRises(rows: map<nat, Row>, configs: map<nat, Config>, peak: map<nat, nat>, configs': map<nat, Config>,
                  peak': map<nat, nat>, c: nat)
    requires PeaksOk(rows, configs, peak) && c in configs' && c in peak' && configs'[c].maxRunners <= peak'[c]
    requires configs' == configs[c := configs'[c]] && peak' == peak[c := peak'[c]]
    requires (c in peak ==> peak[c] <= peak'[c])
    ensures PeaksOk(rows, configs', peak')
  {
    assert OccupiedSet(rows, c) == {} ==> |OccupiedSet(rows, c)| == 0;
    hide OccupiedSet;
  }

  lemma FreeConfigCounting(rows: map<nat, Row>, configs: map<nat, Config>, configs': map<nat, Config>, pc: Pc, c: nat)
    requires CountingOk(rows, configs, pc) && c in configs' && configs' == configs[c := configs'[c]]
    requires pc.Counting? ==> c !in pc.locked
    ensures CountingOk(rows, configs', pc)
  {
    hide OccupiedSet;
  }

  lemma DeleteStep(s: State, e: nat)
    requires Inv(s) && e in s.rows && RowFree(s, e)
    ensures Inv(s.(rows := s.rows - {e}, gone := s.gone + {e}))
  {
    assert forall x :: x in s.rows ==> x !in s.gone by {
      hide KnownOk, LocksOk, OwnersOk, PeaksOk, CountsOk, RemovedOk, PendingOk, ReconcilersOk, RowOk;
    }
    assert LockedRowsStay(s, s.rows - {e}) by {
      hide RowsOk, KnownOk, OwnersOk, PeaksOk, CountsOk, RemovedOk, PendingOk, ReconcilersOk;
    }
    hide Inv;
    CalmStep(s, s.rows - {e}, s.gone + {e});
  }

  lemma ReconcilerStep(s: State, r: nat, rec: Reconciler)
    requires Inv(s) && SeenKnown(s.rows, s.gone, rec.seen) && ReconcilerOk(s.rows, rec)
    ensures Inv(s.(reconcilers := s.reconcilers[r := rec]))
  {
    hide RowsOk, LocksOk, OwnersOk, PeaksOk, CountsOk, RemovedOk, PendingOk, ReconcilerOk, SeenKnown, Known;
  }

  lemma ListStep(s: State, r: nat, server: nat)
    requires Inv(s)
    ensures Inv(Next(s, List(r, server)).value)
  {
    var rec := Next(s, List(r, server)).value.reconcilers[r];
    assert SeenKnown(s.rows, s.gone, rec.seen) by {
      hide RowsOk, LocksOk, OwnersOk, PeaksOk, CountsOk, RemovedOk, PendingOk, ReconcilersOk, Known;
    }
    assert forall e :: e in rec.seen ==> rec.seen[e] == AttemptsOf(s, e);
    hide Inv, SeenKnown, Next;
    ReconcilerStep(s, r, rec);
  }

  lemma ReadStep(s: State, r: nat)
    requires Inv(s) && Next(s, Read(r)).Some?
    ensures Inv(Next(s, Read(r)).value)
  {
    var rec := Next(s, Read(r)).value.reconcilers[r];
    assert SeenKnown(s.rows, s.gone, s.reconcilers[r].seen) && ReconcilerOk(s.rows, s.reconcilers[r]) by {
      hide RowsOk, LocksOk, OwnersOk, PeaksOk, CountsOk, RemovedOk, PendingOk, ReconcilerOk, SeenKnown, Next;
    }
    hide Inv, Known;
    ReconcilerStep(s, r, rec);
  }

  /** Every step keeps the invariants. */
  lemma InvStep(s: State, ev: Event)
    requires Inv(s) && Next(s, ev).Some?
    ensures Inv(Next(s, ev).value)
  {
    hide Inv, WorkerNext, RemoveContainers, DoFinishWrite, DoAssign, RowFree, ConfigFree, OnServer, AttemptsOf, Max;
    match ev
    case Work(w, event) => WorkerStep(s, w, event);
    case Spawn(w, e) => SpawnStep(s, w, e);
    case Create(e, app) => CreateStep(s, e, app);
    case Cleanup(e, ok) => CleanupStep(s, e, ok);
    case FinishRead(f, e, to) => FinishReadStep(s, f, Finisher(e, to, s.rows[e].status != Queued, false));
    case FinishWrite(f) => if s.finishers[f].clean { CleanWrite(s, f); } else { PlainWrite(s, f); }
    case FinishDispatch(f) => FinishDispatchStep(s, f);
    case FinishKill(f) => FinisherLeaves(s, f);
    case Assign(e, stale, replacement) => AssignStep(s, e, stale, replacement);
    case SetConfig(c, value) => SetConfigStep(s, c, value);
    case Delete(e) => DeleteStep(s, e);
    case List(r, server) => ListStep(s, r, server);
    case Read(r) => ReadStep(s, r);
    case RemoveOrphan(r, e) => FewerContainers(s, s.containers - {Place(s.reconcilers[r].server, e)});
  }
}
