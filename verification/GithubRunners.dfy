/** The life of GitHub runner executions: provisioning workers, everything that ends an execution, cleanup
    jobs and the reconciler, interleaved over shared rows, config rows and the containers on the servers. */
module GithubRunners {

  import opened Wrappers

  const MAX_ATTEMPTS: nat := 3

  datatype Status = Queued | Provisioning | Idle | Running | Completed | Failed | Cancelled | TimedOut

  predicate Active(s: Status) {
    s == Queued || Occupying(s)
  }

  predicate Occupying(s: Status) {
    s == Provisioning || s == Idle || s == Running
  }

  predicate Waiting(s: Status) {
    s == Provisioning || s == Idle
  }

  predicate Terminal(s: Status) {
    !Active(s)
  }

  /** An execution. */
  datatype Row = Row(app: nat, status: Status, config: Option<nat>, server: Option<nat>, attempts: nat)

  datatype Config = Config(app: nat, server: nat, enabled: bool, maxRunners: nat)

  /** The containers of an execution on a server. */
  datatype Place = Place(server: nat, exec: nat)

  // ------------------------------------------------------------- the choice of a config

  datatype Candidate = Candidate(config: nat, occupied: nat, maxRunners: nat)

  function WithRoom(cands: seq<Candidate>): seq<Candidate> {
    if cands == [] then []
    else if cands[0].occupied < cands[0].maxRunners then [cands[0]] + WithRoom(cands[1..])
    else WithRoom(cands[1..])
  }

  function Insert(c: Candidate, sorted: seq<Candidate>): seq<Candidate> {
    if sorted == [] then [c]
    else if c.occupied <= sorted[0].occupied then [c] + sorted
    else [sorted[0]] + Insert(c, sorted[1..])
  }

  /** A stable sort by occupancy. */
  function SortByOccupied(cands: seq<Candidate>): seq<Candidate> {
    if cands == [] then [] else Insert(cands[0], SortByOccupied(cands[1..]))
  }

  function Pick(cands: seq<Candidate>): Option<Candidate> {
    var sorted := SortByOccupied(WithRoom(cands));
    if sorted == [] then None else Some(sorted[0])
  }

  predicate ById(cands: seq<Candidate>) {
    forall i, j :: 0 <= i < j < |cands| ==> cands[i].config < cands[j].config
  }

  lemma {:induction false} WithRoomIn(cands: seq<Candidate>)
    ensures forall c :: c in WithRoom(cands) <==> c in cands && c.occupied < c.maxRunners
  {
    if cands != [] {
      WithRoomIn(cands[1..]);
      assert forall c :: c in cands <==> c == cands[0] || c in cands[1..];
    }
  }

  lemma {:induction false} WithRoomById(cands: seq<Candidate>)
    requires ById(cands)
    ensures ById(WithRoom(cands))
  {
    if cands != [] {
      var rest := WithRoom(cands[1..]);
      WithRoomById(cands[1..]);
      WithRoomIn(cands[1..]);
      forall i | 0 <= i < |rest| ensures cands[0].config < rest[i].config {
        assert rest[i] in cands[1..];
      }
    }
  }

  lemma {:induction false} SortHead(cands: seq<Candidate>)
    requires ById(cands)
    ensures cands == [] <==> SortByOccupied(cands) == []
    ensures cands != [] ==> var p := SortByOccupied(cands)[0];
      && p in cands
      && forall d :: d in cands ==> p.occupied < d.occupied || (p.occupied == d.occupied && p.config <= d.config)
  {
    if cands != [] {
      SortHead(cands[1..]);
      assert forall c :: c in cands <==> c == cands[0] || c in cands[1..];
      assert forall c :: c in cands[1..] ==> cands[0].config < c.config;
    }
  }

  /** The pick is a least occupied candidate with room, the first of these by id; there is none only if no
      candidate has room. */
  lemma PickIsLeastOccupied(cands: seq<Candidate>)
    requires ById(cands)
    ensures match Pick(cands)
      case None => forall d :: d in cands ==> d.occupied >= d.maxRunners
      case Some(p) =>
        && p in cands && p.occupied < p.maxRunners
        && forall d :: d in cands && d.occupied < d.maxRunners ==>
             p.occupied < d.occupied || (p.occupied == d.occupied && p.config <= d.config)
  {
    WithRoomIn(cands);
    WithRoomById(cands);
    SortHead(WithRoom(cands));
  }

  // ------------------------------------------------------------- actors

  /** Where a provisioning job is. Up to Counting it is in the transaction that reserves a server: it has
      locked the enabled configs of the app and counts the eligible ones among them in order. From Prepare on
      it owns the execution. The F steps handle a failure; `removed`: the cleanup before the requeue removed
      the containers. */
  datatype Pc =
    | Start
    | RowLocked
    | Counting(locked: set<nat>, eligible: seq<nat>, todo: seq<nat>, done: seq<Candidate>)
    | Prepare | CheckPrepared | Register | CheckRegistered | Launch | CheckLaunched | MarkIdle
    | FCheck | FExhausted | FCleanup | FRequeue(removed: bool)
    | Dispatch

  datatype Worker = Worker(exec: nat, pc: Pc, server: nat)

  /** Someone who read an execution and now ends it. `clean`: it had a server when it was read, so that a
      cleanup is dispatched after the write. */
  datatype Finisher = Finisher(exec: nat, to: Status, clean: bool, written: bool)

  /** A reconciler run on one server: the containers it listed, with the attempts of their executions at
      that moment, and then those among them that it takes for orphans. */
  datatype Reconciler = Listed(server: nat, seen: map<nat, nat>) | Orphans(server: nat, seen: map<nat, nat>)

  /** `peak` is the highest max_runners a config ever had; it is history only. `launched`: the executions of which
      a runner was started, in any attempt; only a runner that was started can get a job. */
  datatype State = State(
    rows: map<nat, Row>,
    gone: set<nat>,
    configs: map<nat, Config>,
    peak: map<nat, nat>,
    containers: set<Place>,
    launched: set<nat>,
    pending: multiset<nat>,
    workers: map<nat, Worker>,
    finishers: map<nat, Finisher>,
    reconcilers: map<nat, Reconciler>)

  predicate InTransaction(pc: Pc) {
    pc.RowLocked? || pc.Counting?
  }

  predicate Owns(pc: Pc) {
    !pc.Start? && !InTransaction(pc)
  }

  /** The worker will still look at the status and clean up, or is about to. */
  predicate CleanupAhead(pc: Pc) {
    Owns(pc) && !pc.MarkIdle? && !pc.FRequeue?
  }

  predicate IsCheck(pc: Pc) {
    pc.CheckPrepared? || pc.CheckRegistered? || pc.CheckLaunched? || pc.FCheck?
  }

  /** The steps in the try block that can fail without an effect on the containers. */
  predicate CanThrow(pc: Pc) {
    pc.CheckPrepared? || pc.Register? || pc.CheckRegistered? || pc.CheckLaunched? || pc.MarkIdle?
  }

  predicate RowFree(s: State, e: nat) {
    forall w :: w in s.workers && InTransaction(s.workers[w].pc) ==> s.workers[w].exec != e
  }

  predicate Unowned(s: State, e: nat) {
    forall v :: v in s.workers && Owns(s.workers[v].pc) ==> s.workers[v].exec != e
  }

  predicate ConfigFree(s: State, c: nat) {
    forall w :: w in s.workers && s.workers[w].pc.Counting? ==> c !in s.workers[w].pc.locked
  }

  function OccupiedSet(rows: map<nat, Row>, c: nat): set<nat> {
    set e | e in rows && Occupying(rows[e].status) && rows[e].config == Some(c)
  }

  function EnabledConfigs(s: State, app: nat): set<nat> {
    set c | c in s.configs && s.configs[c].app == app && s.configs[c].enabled
  }

  // ------------------------------------------------------------- steps of a worker

  datatype WorkerEvent =
    | LockRow | Skip | LockConfigs(eligible: seq<nat>) | Count | Reserve
    | Prepared(ok: bool, created: bool) | Check | Throw | Registered | Launched(ok: bool, created: bool) | MarkedIdle
    | Exhaust | SyncCleanup(ok: bool) | Requeue | DispatchCleanup | Kill

  function At(s: State, w: nat, pc: Pc): State
    requires w in s.workers
  {
    s.(workers := s.workers[w := s.workers[w].(pc := pc)])
  }

  function Leave(s: State, w: nat): State {
    s.(workers := s.workers - {w})
  }

  function SetRow(s: State, e: nat, row: Row): State {
    s.(rows := s.rows[e := row])
  }

  /** The conditional updates change the row only while it is provisioning. */
  function UpdateIfProvisioning(s: State, e: nat, to: Status): State {
    if e in s.rows && s.rows[e].status == Provisioning then SetRow(s, e, s.rows[e].(status := to)) else s
  }

  function AddContainers(s: State, created: bool, server: nat, e: nat): State {
    if created then s.(containers := s.containers + {Place(server, e)}) else s
  }

  /** The runner starts with its containers, even if the command then fails. */
  function DoLaunch(s: State, w: nat, ok: bool, created: bool): State
    requires w in s.workers
  {
    var worker := s.workers[w];
    At(AddContainers(s, created, worker.server, worker.exec), w, if ok then CheckLaunched else FCheck)
      .(launched := if created then s.launched + {worker.exec} else s.launched)
  }

  /** The removal on the server of the row; a failed removal is not reported. */
  function RemoveContainers(s: State, e: nat, ok: bool): State {
    if e !in s.rows || s.rows[e].server == None then s
    else if ok then s.(containers := s.containers - {Place(s.rows[e].server.value, e)})
    else s
  }

  function AfterCheck(s: State, w: nat): Option<State>
    requires w in s.workers
  {
    var e := s.workers[w].exec;
    if !IsCheck(s.workers[w].pc) then None
    else if e !in s.rows then Some(Leave(s, w))
    else if !Active(s.rows[e].status) then Some(At(s, w, Dispatch))
    else Some(At(s, w, match s.workers[w].pc
      case CheckPrepared => Register
      case CheckRegistered => Launch
      case CheckLaunched => MarkIdle
      case _ => if s.rows[e].attempts >= MAX_ATTEMPTS then FExhausted else FCleanup))
  }

  function Reserved(row: Row, config: nat, server: nat): Row {
    row.(status := Provisioning, config := Some(config), server := Some(server), attempts := row.attempts + 1)
  }

  function DoReserve(s: State, w: nat): Option<State>
    requires w in s.workers
  {
    var worker := s.workers[w];
    if !(worker.pc.Counting? && worker.pc.todo == []) then None
    else match Pick(worker.pc.done)
      case None => Some(Leave(s, w))
      case Some(p) =>
        if worker.exec !in s.rows || p.config !in s.configs then None
        else
          var server := s.configs[p.config].server;
          var reserved := Reserved(s.rows[worker.exec], p.config, server);
          Some(SetRow(s, worker.exec, reserved).(workers := s.workers[w := Worker(worker.exec, Prepare, server)]))
  }

  function DoRequeue(s: State, w: nat): State
    requires w in s.workers
  {
    var e := s.workers[w].exec;
    Leave(if e in s.rows && s.rows[e].status == Provisioning
          then SetRow(s, e, s.rows[e].(status := Queued, config := None, server := None)) else s, w)
  }

  function WorkerNext(s: State, w: nat, ev: WorkerEvent): Option<State>
    requires w in s.workers
  {
    var worker := s.workers[w];
    var e, pc := worker.exec, worker.pc;
    match ev
    case LockRow =>
      if pc == Start && RowFree(s, e) && e in s.rows && s.rows[e].status == Queued
      then Some(At(s, w, RowLocked)) else None
    case Skip =>
      if pc == Start && (e !in s.rows || s.rows[e].status != Queued) then Some(Leave(s, w)) else None
    case LockConfigs(eligible) =>
      if pc == RowLocked && e in s.rows then
        var locked := EnabledConfigs(s, s.rows[e].app);
        if (forall c :: c in locked ==> ConfigFree(s, c)) && (forall c :: c in eligible ==> c in locked)
           && (forall i, j :: 0 <= i < j < |eligible| ==> eligible[i] < eligible[j])
        then Some(At(s, w, Counting(locked, eligible, eligible, []))) else None
      else None
    case Count =>
      if pc.Counting? && pc.todo != [] && pc.todo[0] in s.configs then
        var c := pc.todo[0];
        var cand := Candidate(c, |OccupiedSet(s.rows, c)|, s.configs[c].maxRunners);
        Some(At(s, w, Counting(pc.locked, pc.eligible, pc.todo[1..], pc.done + [cand])))
      else None
    case Reserve => DoReserve(s, w)
    case Prepared(ok, created) =>
      if pc == Prepare && (ok ==> created)
      then Some(At(AddContainers(s, created, worker.server, e), w, if ok then CheckPrepared else FCheck)) else None
    case Check => AfterCheck(s, w)
    case Throw =>
      if CanThrow(pc) then Some(At(s, w, FCheck)) else None
    case Registered =>
      if pc == Register then Some(At(s, w, CheckRegistered)) else None
    case Launched(ok, created) =>
      if pc == Launch && (ok ==> created)
      then Some(DoLaunch(s, w, ok, created)) else None
    case MarkedIdle =>
      if pc == MarkIdle && RowFree(s, e) then Some(Leave(UpdateIfProvisioning(s, e, Idle), w)) else None
    case Exhaust =>
      if pc == FExhausted && RowFree(s, e) then Some(At(UpdateIfProvisioning(s, e, Failed), w, Dispatch)) else None
    case SyncCleanup(ok) =>
      if pc == FCleanup then Some(At(RemoveContainers(s, e, ok), w, FRequeue(ok && e in s.rows))) else None
    case Requeue =>
      if pc.FRequeue? && RowFree(s, e) then Some(DoRequeue(s, w)) else None
    case DispatchCleanup =>
      if pc == Dispatch then Some(Leave(s.(pending := s.pending + multiset{e}), w)) else None
    case Kill => Some(Leave(s, w))
  }

  // ------------------------------------------------------------- steps of all others

  datatype Event =
    | Work(w: nat, event: WorkerEvent)
    | Spawn(w: nat, exec: nat)
    | Create(exec: nat, app: nat)
    | Cleanup(exec: nat, ok: bool)
    | FinishRead(f: nat, exec: nat, to: Status)
    | FinishWrite(f: nat)
    | FinishDispatch(f: nat)
    | FinishKill(f: nat)
    | Assign(exec: nat, stale: Option<nat>, replacement: Option<nat>)
    | SetConfig(config: nat, value: Config)
    | Delete(exec: nat)
    | List(r: nat, server: nat)
    | Read(r: nat)
    | RemoveOrphan(r: nat, exec: nat)

  /** The write is unconditional. */
  function DoFinishWrite(s: State, f: nat): State
    requires f in s.finishers
  {
    var fin := s.finishers[f];
    var e := fin.exec;
    s.(rows := if e in s.rows then s.rows[e := s.rows[e].(status := fin.to)] else s.rows,
       finishers := if fin.clean then s.finishers[f := fin.(written := true)] else s.finishers - {f})
  }

  /** A job event marks the runner running. The stale execution of the job is deleted, and the job the runner
      was started for gets a new execution with the attempts used so far. */
  function DoAssign(s: State, e: nat, stale: Option<nat>, replacement: Option<nat>): Option<State> {
    if !(e in s.rows && Waiting(s.rows[e].status) && RowFree(s, e) && e in s.launched) then None
    else
      var row := s.rows[e];
      if stale.Some? && !(stale.value in s.rows && stale.value != e && Terminal(s.rows[stale.value].status)) then None
      else
        var dropped := if stale.Some? then {stale.value} else {};
        var rows := (s.rows - dropped)[e := row.(status := Running)];
        if replacement == None then Some(s.(rows := rows, gone := s.gone + dropped))
        else
          var n := replacement.value;
          if n in s.rows || n in s.gone || row.attempts >= MAX_ATTEMPTS then None
          else Some(s.(rows := rows[n := Row(row.app, Queued, None, None, row.attempts)], gone := s.gone + dropped))
  }

  function Max(a: nat, b: nat): nat {
    if a < b then b else a
  }

  predicate OnServer(s: State, e: nat, server: nat) {
    e in s.rows && Occupying(s.rows[e].status) && s.rows[e].server == Some(server)
  }

  function ContainersOn(s: State, server: nat): set<nat> {
    set p | p in s.containers && p.server == server :: p.exec
  }

  function AttemptsOf(s: State, e: nat): nat {
    if e in s.rows then s.rows[e].attempts else 0
  }

  function Next(s: State, ev: Event): Option<State> {
    match ev
    case Work(w, event) => if w in s.workers then WorkerNext(s, w, event) else None
    case Spawn(w, e) =>
      if w in s.workers then None else Some(s.(workers := s.workers[w := Worker(e, Start, 0)]))
    case Create(e, app) =>
      if e in s.rows || e in s.gone then None else Some(SetRow(s, e, Row(app, Queued, None, None, 0)))
    case Cleanup(e, ok) =>
      if e !in s.pending then None
      else Some(RemoveContainers(s.(pending := s.pending - multiset{e}), e, ok))
    case FinishRead(f, e, to) =>
      if f in s.finishers || e !in s.rows || !Terminal(to) then None
      else if !(Active(s.rows[e].status) || s.rows[e].status == Failed) then None
      else Some(s.(finishers := s.finishers[f := Finisher(e, to, s.rows[e].status != Queued, false)]))
    case FinishWrite(f) =>
      if f in s.finishers && !s.finishers[f].written && RowFree(s, s.finishers[f].exec)
      then Some(DoFinishWrite(s, f)) else None
    case FinishDispatch(f) =>
      if f in s.finishers && s.finishers[f].written
      then Some(s.(pending := s.pending + multiset{s.finishers[f].exec}, finishers := s.finishers - {f})) else None
    case FinishKill(f) =>
      if f !in s.finishers then None
      else Some(s.(finishers := s.finishers - {f}))
    case Assign(e, stale, replacement) => DoAssign(s, e, stale, replacement)
    case SetConfig(c, value) =>
      if !ConfigFree(s, c) then None
      else Some(s.(configs := s.configs[c := value],
                   peak := s.peak[c := Max(value.maxRunners, if c in s.peak then s.peak[c] else 0)]))
    case Delete(e) =>
      if e in s.rows && RowFree(s, e) then Some(s.(rows := s.rows - {e}, gone := s.gone + {e})) else None
    case List(r, server) =>
      Some(s.(reconcilers := s.reconcilers[r := Listed(server,
        map e | e in ContainersOn(s, server) :: AttemptsOf(s, e))]))
    case Read(r) =>
      if r in s.reconcilers && s.reconcilers[r].Listed? then
        var rec := s.reconcilers[r];
        Some(s.(reconcilers := s.reconcilers[r := Orphans(rec.server,
          map e | e in rec.seen && !OnServer(s, e, rec.server) :: rec.seen[e])]))
      else None
    case RemoveOrphan(r, e) =>
      if r in s.reconcilers && s.reconcilers[r].Orphans? && e in s.reconcilers[r].seen
      then Some(s.(containers := s.containers - {Place(s.reconcilers[r].server, e)})) else None
  }

  const EMPTY: State := State(map[], {}, map[], map[], {}, {}, multiset{}, map[], map[], map[])

  /** The state after the events, None if one of them was not possible. */
  function Run(s: State, events: seq<Event>): Option<State>
    decreases |events|
  {
    if events == [] then Some(s)
    else match Next(s, events[0])
      case None => None
      case Some(next) => Run(next, events[1..])
  }

  ghost predicate Reachable(t: State) {
    exists events :: Run(EMPTY, events) == Some(t)
  }
}
