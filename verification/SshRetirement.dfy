/** Retiring SSH masters beside a reaper of orphaned masters. A stopped master gives up its socket but lives on
    until its sessions end, and then looks like an orphan; a mark tells the two apart. */
module SshRetirement {

  import opened Wrappers

  /** A process is identified by pid and start time, as in the key of its mark. */
  type Proc = nat
  type Path = nat

  datatype RetirePc = Marking | Stopping | Unmarking | Deleting

  /** One retirement of the master behind a socket: the pid that the check reported, if any. */
  datatype Retirement = Retirement(path: Path, pid: Option<Proc>, deletes: bool, pc: RetirePc)

  datatype ReapPc = First | Second | Kill

  /** The reaper's look at one process of its snapshot. */
  datatype Look = Look(proc: Proc, pc: ReapPc)

  /** `sockets`: the socket files, with the master that listens if it still runs. `master` and `started`: the
      path in the arguments of a process and its start time. `retired`: masters stopped successfully (history). */
  datatype State = State(
    socketFirst: bool,
    minAge: nat,
    now: nat,
    alive: set<Proc>,
    master: map<Proc, Path>,
    started: map<Proc, nat>,
    sockets: map<Path, Option<Proc>>,
    marks: set<(Proc, Path)>,
    retirements: map<nat, Retirement>,
    looks: map<nat, Look>,
    retired: set<Proc>)

  datatype Event =
    | Tick
    | Fork(p: Proc, path: Path)
    | Bind(p: Proc)
    | Exit(p: Proc, unlink: bool)
    | Check(r: nat, path: Path, deletes: bool)
    | Mark(r: nat)
    | Stop(r: nat, ok: bool)
    | Unmark(r: nat)
    | Delete(r: nat)
    | Snapshot(l: nat, p: Proc)
    | Test(l: nat)
    | Reap(l: nat)

  predicate Listens(sockets: map<Path, Option<Proc>>, path: Path, p: Proc) {
    path in sockets && sockets[path] == Some(p)
  }

  predicate Old(s: State, p: Proc) {
    p in s.started && s.now >= s.started[p] + s.minAge
  }

  function AfterStop(s: State, r: nat): State
    requires r in s.retirements
  {
    var ret := s.retirements[r];
    if ret.deletes then s.(retirements := s.retirements[r := ret.(pc := Deleting)])
    else s.(retirements := s.retirements - {r})
  }

  /** A stop succeeds only if a master listens; it takes the socket away and leaves the process. */
  function DoStop(s: State, r: nat, ok: bool): Option<State>
    requires r in s.retirements
  {
    var ret := s.retirements[r];
    if ret.pc != Stopping then None
    else if ok then
      if ret.path in s.sockets && s.sockets[ret.path].Some?
      then Some(AfterStop(s, r).(sockets := s.sockets - {ret.path}, retired := s.retired + {s.sockets[ret.path].value}))
      else None
    else if ret.pid.Some? then Some(s.(retirements := s.retirements[r := ret.(pc := Unmarking)]))
    else Some(AfterStop(s, r))
  }

  /** A process that ends listens no more; its socket file may stay. */
  function Gone(s: State, p: Proc, unlink: bool): State {
    if p !in s.master || !Listens(s.sockets, s.master[p], p) then s.(alive := s.alive - {p})
    else s.(alive := s.alive - {p},
            sockets := if unlink then s.sockets - {s.master[p]} else s.sockets[s.master[p] := None])
  }

  /** The two tests of the reaper; the process passes on only if both say orphan. */
  function DoTest(s: State, l: nat): Option<State>
    requires l in s.looks
  {
    var look := s.looks[l];
    if look.pc == Kill || look.proc !in s.master then None
    else
      var path := s.master[look.proc];
      var socket := (look.pc == First) == s.socketFirst;
      var orphan := if socket then path !in s.sockets else (look.proc, path) !in s.marks;
      if !orphan then Some(s.(looks := s.looks - {l}))
      else Some(s.(looks := s.looks[l := look.(pc := if look.pc == First then Second else Kill)]))
  }

  function Next(s: State, ev: Event): Option<State> {
    match ev
    case Tick => Some(s.(now := s.now + 1))
    case Fork(p, path) =>
      if p in s.master then None
      else Some(s.(alive := s.alive + {p}, master := s.master[p := path], started := s.started[p := s.now]))
    case Bind(p) =>
      // A master creates its socket soon after it was forked, or never.
      if p in s.alive && p in s.master && !Old(s, p) && p !in s.retired
         && (s.master[p] !in s.sockets || s.sockets[s.master[p]] == None)
      then Some(s.(sockets := s.sockets[s.master[p] := Some(p)])) else None
    case Exit(p, unlink) =>
      if p in s.alive then Some(Gone(s, p, unlink)) else None
    case Check(r, path, deletes) =>
      if r in s.retirements then None
      else
        var pid := if path in s.sockets then s.sockets[path] else None;
        var ret := Retirement(path, pid, deletes, if pid.Some? then Marking else Stopping);
        Some(s.(retirements := s.retirements[r := ret]))
    case Mark(r) =>
      if r in s.retirements && s.retirements[r].pc == Marking && s.retirements[r].pid.Some? then
        var ret := s.retirements[r];
        Some(s.(marks := s.marks + {(ret.pid.value, ret.path)},
                retirements := s.retirements[r := ret.(pc := Stopping)]))
      else None
    case Stop(r, ok) => if r in s.retirements then DoStop(s, r, ok) else None
    case Unmark(r) =>
      if r in s.retirements && s.retirements[r].pc == Unmarking && s.retirements[r].pid.Some?
      then Some(AfterStop(s, r).(marks := s.marks - {(s.retirements[r].pid.value, s.retirements[r].path)})) else None
    case Delete(r) =>
      if r in s.retirements && s.retirements[r].pc == Deleting
      then Some(s.(sockets := s.sockets - {s.retirements[r].path}, retirements := s.retirements - {r})) else None
    case Snapshot(l, p) =>
      if p in s.alive && p in s.master && Old(s, p) && l !in s.looks
      then Some(s.(looks := s.looks[l := Look(p, First)])) else None
    case Test(l) => if l in s.looks then DoTest(s, l) else None
    case Reap(l) =>
      if l in s.looks && s.looks[l].pc == Kill
      then Some(Gone(s, s.looks[l].proc, false).(looks := s.looks - {l})) else None
  }

  /** The check of this retirement reported the master, and it may still stop it or take its mark away. */
  predicate Reports(ret: Retirement, p: Proc) {
    ret.pc != Deleting && ret.pid == Some(p)
  }

  /** No retirement under way has reported the master that listens now. */
  predicate Unreported(s: State, path: Path) {
    path in s.sockets && s.sockets[path].Some? ==>
      forall r :: r in s.retirements ==> !Reports(s.retirements[r], s.sockets[path].value)
  }

  /** The master that a stop of this retirement would reach is the one its check reported. */
  predicate Checked(s: State, r: nat) {
    r in s.retirements && s.retirements[r].path in s.sockets
    && s.retirements[r].pid == s.sockets[s.retirements[r].path]
  }

  /** No two retirements under way have reported the same master, and no stop reaches a master that took the
      socket after the check. */
  predicate Disciplined(s: State, ev: Event) {
    match ev
    case Check(r, path, deletes) => Unreported(s, path)
    case Stop(r, ok) => ok ==> Checked(s, r)
    case _ => true
  }

  function Empty(socketFirst: bool, minAge: nat): State {
    State(socketFirst, minAge, 0, {}, map[], map[], map[], {}, map[], map[], {})
  }

  function Run(s: State, events: seq<Event>): Option<State>
    decreases |events|
  {
    if events == [] then Some(s)
    else match Next(s, events[0])
      case None => None
      case Some(next) => Run(next, events[1..])
  }

  predicate DisciplinedRun(s: State, events: seq<Event>)
    requires Run(s, events).Some?
    decreases |events|
  {
    events == [] || (Disciplined(s, events[0]) && DisciplinedRun(Next(s, events[0]).value, events[1..]))
  }

  // ------------------------------------------------------------- invariants

  predicate SocketsOk(sockets: map<Path, Option<Proc>>, alive: set<Proc>, master: map<Proc, Path>, retired: set<Proc>) {
    forall path :: path in sockets && sockets[path].Some? ==>
      && sockets[path].value in master && master[sockets[path].value] == path
      && sockets[path].value in alive && sockets[path].value !in retired
  }

  predicate ProcsOk(alive: set<Proc>, master: map<Proc, Path>, started: map<Proc, nat>, retired: set<Proc>, now: nat) {
    && alive <= master.Keys && retired <= master.Keys && started.Keys == master.Keys
    && forall p :: p in started ==> started[p] <= now
  }

  /** A retired master keeps its mark. */
  predicate MarksOk(retired: set<Proc>, master: map<Proc, Path>, marks: set<(Proc, Path)>) {
    forall p :: p in retired ==> p in master && (p, master[p]) in marks
  }

  /** The retirement has set the mark and not taken it back. */
  predicate HoldsMark(ret: Retirement, mark: (Proc, Path)) {
    ret.path == mark.1 && ret.pid == Some(mark.0) && (ret.pc == Stopping || ret.pc == Unmarking)
  }

  /** A mark belongs to a retired master, or to a retirement that is under way. */
  predicate MarkMeant(mark: (Proc, Path), retired: set<Proc>, retirements: map<nat, Retirement>) {
    mark.0 in retired || exists r :: r in retirements && HoldsMark(retirements[r], mark)
  }

  predicate MarksMeant(marks: set<(Proc, Path)>, retired: set<Proc>, retirements: map<nat, Retirement>) {
    forall mark :: mark in marks ==> MarkMeant(mark, retired, retirements)
  }

  /** A retirement has marked the master that its check reported before it stops, and nobody else retires it. */
  predicate RetirementOk(ret: Retirement, master: map<Proc, Path>, retired: set<Proc>, marks: set<(Proc, Path)>) {
    && (ret.pid.Some? && ret.pc != Deleting ==>
          ret.pid.value in master && master[ret.pid.value] == ret.path && ret.pid.value !in retired)
    && (ret.pc == Stopping && ret.pid.Some? ==> (ret.pid.value, ret.path) in marks)
    && (ret.pc == Marking || ret.pc == Unmarking ==> ret.pid.Some?)
  }

  predicate SameMaster(a: Retirement, b: Retirement) {
    a.pid.Some? && Reports(a, a.pid.value) && Reports(b, a.pid.value)
  }

  predicate RetirementsOk(retirements: map<nat, Retirement>, master: map<Proc, Path>, retired: set<Proc>,
                          marks: set<(Proc, Path)>) {
    && (forall r :: r in retirements ==> RetirementOk(retirements[r], master, retired, marks))
    && (forall r, q :: r in retirements && q in retirements && SameMaster(retirements[r], retirements[q]) ==> r == q)
  }

  /** A process that the reaper found without a socket was retired by then, or never will be. */
  predicate LookOk(look: Look, sockets: map<Path, Option<Proc>>, master: map<Proc, Path>, retired: set<Proc>) {
    && look.proc in master
    && (look.pc != First ==> look.proc in retired || !Listens(sockets, master[look.proc], look.proc))
    && (look.pc == Kill ==> look.proc !in retired)
  }

  predicate OldEnough(look: Look, started: map<Proc, nat>, minAge: nat, now: nat) {
    look.proc in started && now >= started[look.proc] + minAge
  }

  predicate LooksOk(s: State) {
    && (forall l :: l in s.looks ==> OldEnough(s.looks[l], s.started, s.minAge, s.now))
    && (s.socketFirst ==> forall l :: l in s.looks ==> LookOk(s.looks[l], s.sockets, s.master, s.retired))
  }

  predicate Core(s: State) {
    && SocketsOk(s.sockets, s.alive, s.master, s.retired)
    && ProcsOk(s.alive, s.master, s.started, s.retired, s.now)
    && MarksOk(s.retired, s.master, s.marks)
    && RetirementsOk(s.retirements, s.master, s.retired, s.marks)
    && LooksOk(s)
  }

  predicate Inv(s: State) {
    Core(s) && MarksMeant(s.marks, s.retired, s.retirements)
  }

  lemma TickStep(s: State, ev: Event)
    requires Core(s) && ev.Tick? && Next(s, ev).Some? && Disciplined(s, ev)
    ensures Core(Next(s, ev).value)
  {
  }

  lemma ForkStep(s: State, ev: Event)
    requires Core(s) && ev.Fork? && Next(s, ev).Some? && Disciplined(s, ev)
    ensures Core(Next(s, ev).value)
  {
  }

  lemma BindStep(s: State, ev: Event)
    requires Core(s) && ev.Bind? && Next(s, ev).Some? && Disciplined(s, ev)
    ensures Core(Next(s, ev).value)
  {
  }

  lemma ExitStep(s: State, ev: Event)
    requires Core(s) && ev.Exit? && Next(s, ev).Some? && Disciplined(s, ev)
    ensures Core(Next(s, ev).value)
  {
  }

  lemma CheckStep(s: State, ev: Event)
    requires Core(s) && ev.Check? && Next(s, ev).Some? && Disciplined(s, ev)
    ensures Core(Next(s, ev).value)
  {
  }

  lemma MarkStep(s: State, ev: Event)
    requires Core(s) && ev.Mark? && Next(s, ev).Some? && Disciplined(s, ev)
    ensures Core(Next(s, ev).value)
  {
  }

  lemma StoppedOk(s: State, r: nat)
    requires Core(s) && r in s.retirements && s.retirements[r].pc == Stopping && DoStop(s, r, true).Some?
    requires Checked(s, r)
    ensures var t := DoStop(s, r, true).value;
      SocketsOk(t.sockets, t.alive, t.master, t.retired) && MarksOk(t.retired, t.master, t.marks) && LooksOk(t)
  {
  }

  lemma StoppedRetirements(s: State, r: nat)
    requires Core(s) && r in s.retirements && s.retirements[r].pc == Stopping && DoStop(s, r, true).Some?
    requires Checked(s, r)
    ensures var t := DoStop(s, r, true).value; RetirementsOk(t.retirements, t.master, t.retired, t.marks)
  {
    hide LooksOk, MarksOk;
  }

  lemma NotStopped(s: State, r: nat)
    requires Core(s) && r in s.retirements && DoStop(s, r, false).Some?
    ensures Core(DoStop(s, r, false).value)
  {
    assert RetirementsOk(DoStop(s, r, false).value.retirements, s.master, s.retired, s.marks) by {
      hide SocketsOk, ProcsOk, MarksOk, LooksOk;
    }
    hide RetirementsOk, MarksOk, LookOk, OldEnough, SocketsOk;
  }

  lemma StopStep(s: State, ev: Event)
    requires Core(s) && ev.Stop? && Next(s, ev).Some? && Disciplined(s, ev)
    ensures Core(Next(s, ev).value)
  {
    if ev.ok {
      StoppedOk(s, ev.r);
      StoppedRetirements(s, ev.r);
      hide SocketsOk, MarksOk, RetirementsOk, LooksOk;
    } else {
      hide Core;
      NotStopped(s, ev.r);
    }
  }

  lemma UnmarkStep(s: State, ev: Event)
    requires Core(s) && ev.Unmark? && Next(s, ev).Some? && Disciplined(s, ev)
    ensures Core(Next(s, ev).value)
  {
    hide Core, Disciplined;
    Unmarked(s, ev.r);
  }

  lemma Unmarked(s: State, r: nat)
    requires Core(s) && r in s.retirements && s.retirements[r].pc == Unmarking && s.retirements[r].pid.Some?
    ensures var ret := s.retirements[r]; Core(AfterStop(s, r).(marks := s.marks - {(ret.pid.value, ret.path)}))
  {
    var marks' := s.marks - {(s.retirements[r].pid.value, s.retirements[r].path)};
    UnmarkedMarks(s, r);
    assert RetirementsOk(AfterStop(s, r).retirements, s.master, s.retired, marks') by {
      hide SocketsOk, ProcsOk, MarksOk, LooksOk;
    }
    hide RetirementsOk, MarksOk, LookOk, OldEnough, SocketsOk;
  }

  lemma UnmarkedMarks(s: State, r: nat)
    requires Core(s) && r in s.retirements && s.retirements[r].pc == Unmarking && s.retirements[r].pid.Some?
    ensures MarksOk(s.retired, s.master, s.marks - {(s.retirements[r].pid.value, s.retirements[r].path)})
  {
    assert RetirementOk(s.retirements[r], s.master, s.retired, s.marks);
    hide SocketsOk, ProcsOk, RetirementsOk, LooksOk;
  }

  lemma DeleteStep(s: State, ev: Event)
    requires Core(s) && ev.Delete? && Next(s, ev).Some? && Disciplined(s, ev)
    ensures Core(Next(s, ev).value)
  {
  }

  lemma SnapshotStep(s: State, ev: Event)
    requires Core(s) && ev.Snapshot? && Next(s, ev).Some? && Disciplined(s, ev)
    ensures Core(Next(s, ev).value)
  {
  }

  lemma TestStep(s: State, ev: Event)
    requires Core(s) && ev.Test? && Next(s, ev).Some? && Disciplined(s, ev)
    ensures Core(Next(s, ev).value)
  {
  }

  lemma ReapStep(s: State, ev: Event)
    requires Core(s) && ev.Reap? && Next(s, ev).Some? && Disciplined(s, ev)
    ensures Core(Next(s, ev).value)
  {
  }

  lemma CoreStep(s: State, ev: Event)
    requires Core(s) && Next(s, ev).Some? && Disciplined(s, ev)
    ensures Core(Next(s, ev).value)
  {
    hide Core, Next, Disciplined;
    match ev
    case Tick => TickStep(s, ev);
    case Fork(_, _) => ForkStep(s, ev);
    case Bind(_) => BindStep(s, ev);
    case Exit(_, _) => ExitStep(s, ev);
    case Check(_, _, _) => CheckStep(s, ev);
    case Mark(_) => MarkStep(s, ev);
    case Stop(_, _) => StopStep(s, ev);
    case Unmark(_) => UnmarkStep(s, ev);
    case Delete(_) => DeleteStep(s, ev);
    case Snapshot(_, _) => SnapshotStep(s, ev);
    case Test(_) => TestStep(s, ev);
    case Reap(_) => ReapStep(s, ev);
  }

  lemma MarkMeantStays(mark: (Proc, Path), s: State, t: State, r: nat)
    requires MarkMeant(mark, s.retired, s.retirements) && s.retired <= t.retired
    requires forall q :: q in s.retirements && q != r ==> q in t.retirements && t.retirements[q] == s.retirements[q]
    requires r in s.retirements && HoldsMark(s.retirements[r], mark) ==> MarkMeant(mark, t.retired, t.retirements)
    ensures MarkMeant(mark, t.retired, t.retirements)
  {
    if mark.0 !in s.retired {
      var q :| q in s.retirements && HoldsMark(s.retirements[q], mark);
      if q != r {
        assert q in t.retirements && t.retirements[q] == s.retirements[q];
      }
    }
  }

  /** The retirement that an event moves, or one that does not exist. */
  function Moved(s: State, ev: Event): nat {
    match ev
    case Check(r, _, _) => r
    case Mark(r) => r
    case Stop(r, _) => r
    case Unmark(r) => r
    case Delete(r) => r
    case _ => 0
  }

  predicate MovesRetirement(ev: Event) {
    ev.Check? || ev.Mark? || ev.Stop? || ev.Unmark? || ev.Delete?
  }

  lemma StopKeepsOthers(s: State, r: nat, ok: bool)
    requires r in s.retirements && DoStop(s, r, ok).Some?
    ensures var t := DoStop(s, r, ok).value;
      && s.retired <= t.retired
      && (forall q :: q in s.retirements && q != r ==> q in t.retirements && t.retirements[q] == s.retirements[q])
  {
  }

  lemma MovedKeepsOthers(s: State, ev: Event)
    requires Next(s, ev).Some? && MovesRetirement(ev)
    ensures var t := Next(s, ev).value;
      && s.retired <= t.retired
      && (forall q :: q in s.retirements && q != Moved(s, ev) ==>
            q in t.retirements && t.retirements[q] == s.retirements[q])
  {
    hide DoStop;
    if ev.Stop? {
      StopKeepsOthers(s, ev.r, ev.ok);
    }
  }

  lemma RestKeepsMarks(s: State, ev: Event)
    requires Next(s, ev).Some? && !MovesRetirement(ev)
    ensures var t := Next(s, ev).value; t.retired == s.retired && t.retirements == s.retirements && t.marks == s.marks
  {
    hide Old, Unreported, Listens;
  }

  lemma MovedMark(s: State, ev: Event, mark: (Proc, Path))
    requires Inv(s) && Next(s, ev).Some? && Disciplined(s, ev) && MovesRetirement(ev) && mark in Next(s, ev).value.marks
    requires var r := Moved(s, ev); mark !in s.marks || (r in s.retirements && HoldsMark(s.retirements[r], mark))
    ensures MarkMeant(mark, Next(s, ev).value.retired, Next(s, ev).value.retirements)
  {
    var r, t := Moved(s, ev), Next(s, ev).value;
    hide Old, Unreported, Listens, Core, MarksMeant;
    if ev.Mark? || (ev.Stop? && !ev.ok) {
      assert r in t.retirements && t.retirements[r].path == mark.1 && t.retirements[r].pid == Some(mark.0);
    }
  }

  lemma MarksMeantStep(s: State, ev: Event)
    requires Inv(s) && Next(s, ev).Some? && Disciplined(s, ev)
    ensures MarksMeant(Next(s, ev).value.marks, Next(s, ev).value.retired, Next(s, ev).value.retirements)
  {
    var t := Next(s, ev).value;
    if MovesRetirement(ev) {
      MovedKeepsOthers(s, ev);
    } else {
      RestKeepsMarks(s, ev);
    }
    hide Next, Core;
    forall mark | mark in t.marks ensures MarkMeant(mark, t.retired, t.retirements) {
      if MovesRetirement(ev) {
        var r := Moved(s, ev);
        if mark !in s.marks || (r in s.retirements && HoldsMark(s.retirements[r], mark)) {
          MovedMark(s, ev, mark);
        } else {
          hide MarkMeant;
          MarkMeantStays(mark, s, t, r);
        }
      }
    }
  }

  lemma InvStep(s: State, ev: Event)
    requires Inv(s) && Next(s, ev).Some? && Disciplined(s, ev)
    ensures Inv(Next(s, ev).value)
  {
    hide Core, MarksMeant, Next, Disciplined;
    CoreStep(s, ev);
    MarksMeantStep(s, ev);
  }

  lemma OrderStays(s: State, ev: Event)
    requires Next(s, ev).Some?
    ensures Next(s, ev).value.socketFirst == s.socketFirst
  {
  }

  lemma {:induction false} RunInv(s: State, events: seq<Event>)
    requires Inv(s) && Run(s, events).Some? && DisciplinedRun(s, events)
    ensures Inv(Run(s, events).value) && Run(s, events).value.socketFirst == s.socketFirst
    decreases |events|
  {
    if events != [] {
      InvStep(s, events[0]);
      OrderStays(s, events[0]);
      hide Inv, Next, Disciplined;
      RunInv(Next(s, events[0]).value, events[1..]);
    }
  }

  ghost predicate Reachable(t: State, socketFirst: bool) {
    exists minAge, events ::
      Run(Empty(socketFirst, minAge), events) == Some(t) && DisciplinedRun(Empty(socketFirst, minAge), events)
  }

  lemma ReachableInv(t: State, socketFirst: bool)
    requires Reachable(t, socketFirst)
    ensures Inv(t) && t.socketFirst == socketFirst
  {
    var minAge, events :|
      Run(Empty(socketFirst, minAge), events) == Some(t) && DisciplinedRun(Empty(socketFirst, minAge), events);
    assert Inv(Empty(socketFirst, minAge));
    RunInv(Empty(socketFirst, minAge), events);
  }

  /** If no two retirements under way have reported the same master, and every successful stop reaches the master
      that its own check reported, the reaper kills neither a retired master nor a master that listens on its socket. */
  lemma RetiredIsNeverReaped(t: State, l: nat)
    requires Reachable(t, true) && Next(t, Reap(l)).Some?
    ensures var p := t.looks[l].proc;
      p !in t.retired && p in t.master && !Listens(t.sockets, t.master[p], p) && Old(t, p)
  {
    ReachableInv(t, true);
    hide SocketsOk, MarksOk, RetirementsOk, Run, DisciplinedRun, Reachable;
    assert LookOk(t.looks[l], t.sockets, t.master, t.retired) && OldEnough(t.looks[l], t.started, t.minAge, t.now);
  }

  // ------------------------------------------------------------- what the assumptions are for

  lemma {:induction false} RunConcat(s: State, first: seq<Event>, second: seq<Event>)
    requires Run(s, first).Some?
    ensures Run(s, first + second) == Run(Run(s, first).value, second)
    ensures Run(s, first + second).Some? ==>
      (DisciplinedRun(s, first + second) <==> DisciplinedRun(s, first) && DisciplinedRun(Run(s, first).value, second))
    decreases |first|
  {
    hide Next, Disciplined;
    if first == [] {
      assert first + second == second;
    } else {
      assert (first + second)[1..] == first[1..] + second;
      RunConcat(Next(s, first[0]).value, first[1..], second);
    }
  }

  lemma OneEvent(s: State, ev: Event)
    requires Next(s, ev).Some?
    ensures Run(s, [ev]) == Next(s, ev) && (DisciplinedRun(s, [ev]) <==> Disciplined(s, ev))
  {
    hide Next, Disciplined;
    assert [ev][1..] == [];
  }

  /** A run of any kind. */
  ghost predicate Happens(t: State, socketFirst: bool) {
    exists minAge, events :: Run(Empty(socketFirst, minAge), events) == Some(t)
  }

  lemma GoesOn(s: State, ev: Event, u: State, socketFirst: bool)
    requires Next(s, ev) == Some(u)
    ensures Happens(s, socketFirst) ==> Happens(u, socketFirst)
    ensures Reachable(s, socketFirst) && Disciplined(s, ev) ==> Reachable(u, socketFirst)
  {
    hide Next, Run, DisciplinedRun, Disciplined, Empty;
    OneEvent(s, ev);
    if Happens(s, socketFirst) {
      var minAge, events :| Run(Empty(socketFirst, minAge), events) == Some(s);
      RunConcat(Empty(socketFirst, minAge), events, [ev]);
    }
    if Reachable(s, socketFirst) && Disciplined(s, ev) {
      var minAge, events :|
        Run(Empty(socketFirst, minAge), events) == Some(s) && DisciplinedRun(Empty(socketFirst, minAge), events);
      RunConcat(Empty(socketFirst, minAge), events, [ev]);
    }
  }

  function Wait(n: nat): seq<Event> {
    if n == 0 then [] else [Tick] + Wait(n - 1)
  }

  lemma {:induction false} Ticks(s: State, n: nat)
    ensures Run(s, Wait(n)) == Some(s.(now := s.now + n)) && DisciplinedRun(s, Wait(n))
    decreases n
  {
    if n > 0 {
      Ticks(s.(now := s.now + 1), n - 1);
      assert Wait(n)[1..] == Wait(n - 1);
    }
  }

  lemma Append(s: State, first: seq<Event>, t: State, ev: Event, u: State)
    requires Run(s, first) == Some(t) && DisciplinedRun(s, first) && Next(t, ev) == Some(u) && Disciplined(t, ev)
    ensures Run(s, first + [ev]) == Some(u) && DisciplinedRun(s, first + [ev])
  {
    OneEvent(t, ev);
    hide Run, DisciplinedRun, Next, Disciplined;
    RunConcat(s, first, [ev]);
  }

  function Looked(s: State, p: Proc, l: nat, pc: ReapPc): State {
    s.(looks := s.looks[l := Look(p, pc)])
  }

  lemma BothTestsPass(s: State, p: Proc, l: nat)
    requires p in s.alive && p in s.master && Old(s, p) && l !in s.looks
    requires s.master[p] !in s.sockets && (p, s.master[p]) !in s.marks
    ensures Next(s, Snapshot(l, p)) == Some(Looked(s, p, l, First))
    ensures Next(Looked(s, p, l, First), Test(l)) == Some(Looked(s, p, l, Second))
    ensures Next(Looked(s, p, l, Second), Test(l)) == Some(Looked(s, p, l, Kill))
  {
    assert Looked(s, p, l, First).looks[l := Look(p, Second)] == Looked(s, p, l, Second).looks;
    assert Looked(s, p, l, Second).looks[l := Look(p, Kill)] == Looked(s, p, l, Kill).looks;
  }

  /** The reaper gets at a process that is alive, unmarked and without a socket, once it is old. */
  lemma UnmarkedIsReaped(s: State, p: Proc, l: nat)
    requires p in s.alive && p in s.master && p in s.started && s.started[p] <= s.now && l !in s.looks
    requires s.master[p] !in s.sockets && (p, s.master[p]) !in s.marks
    ensures exists events ::
      && Run(s, events).Some? && DisciplinedRun(s, events)
      && ComesFor(Run(s, events).value, l, p) && Run(s, events).value.retired == s.retired
  {
    hide *;
    var wait, looks := Wait(s.minAge), [Snapshot(l, p), Test(l), Test(l)];
    var late := s.(now := s.now + s.minAge);
    Ticks(s, s.minAge);
    assert Old(late, p) by { Waited(s, p); }
    LooksThrice(late, p, l);
    RunConcat(s, wait, looks);
    LookedComes(late, p, l);
    var events := wait + looks;
    assert Run(s, events) == Some(Looked(late, p, l, Kill)) && DisciplinedRun(s, events);
  }

  lemma Waited(s: State, p: Proc)
    requires p in s.started && s.started[p] <= s.now
    ensures Old(s.(now := s.now + s.minAge), p)
  {
  }

  lemma LookedComes(s: State, p: Proc, l: nat)
    ensures ComesFor(Looked(s, p, l, Kill), l, p) && Looked(s, p, l, Kill).retired == s.retired
  {
  }

  lemma LooksThrice(s: State, p: Proc, l: nat)
    requires p in s.alive && p in s.master && Old(s, p) && l !in s.looks
    requires s.master[p] !in s.sockets && (p, s.master[p]) !in s.marks
    ensures var looks := [Snapshot(l, p), Test(l), Test(l)];
      Run(s, looks) == Some(Looked(s, p, l, Kill)) && DisciplinedRun(s, looks)
  {
    BothTestsPass(s, p, l);
    hide Next, Looked, Old;
    OneEvent(Looked(s, p, l, Second), Test(l));
    assert [Test(l), Test(l)][1..] == [Test(l)];
    assert Run(Looked(s, p, l, First), [Test(l), Test(l)]) == Some(Looked(s, p, l, Kill));
    assert [Snapshot(l, p), Test(l), Test(l)][1..] == [Test(l), Test(l)];
  }

  /** The reaper is about to kill the process. */
  predicate ComesFor(s: State, l: nat, p: Proc) {
    l in s.looks && s.looks[l] == Look(p, Kill)
  }

  ghost predicate Continues(s: State, t: State) {
    exists events :: Run(s, events) == Some(t) && DisciplinedRun(s, events)
  }

  /** The run can go on, and nothing else needs to go wrong for it, to a state in which the reaper is about to
      kill a retired master. */
  ghost predicate GoesWrong(s: State, l: nat) {
    exists t, p :: Continues(s, t) && p in t.retired && ComesFor(t, l, p)
  }

  lemma WrongLater(s: State, ev: Event, u: State, l: nat)
    requires Next(s, ev) == Some(u) && Disciplined(s, ev) && GoesWrong(u, l)
    ensures GoesWrong(s, l)
  {
    hide Next, Disciplined, ComesFor;
    var t, p :| Continues(u, t) && p in t.retired && ComesFor(t, l, p);
    var events :| Run(u, events) == Some(t) && DisciplinedRun(u, events);
    OneEvent(s, ev);
    RunConcat(s, [ev], events);
    assert Continues(s, t);
  }

  /** A master that is there, with its path. */
  predicate Lives(s: State, p: Proc, path: Path) {
    && p in s.alive && p in s.master && s.master[p] == path
    && p in s.started && s.started[p] <= s.now
  }

  lemma UnmarkedGoesWrong(s: State, p: Proc, path: Path, l: nat)
    requires Lives(s, p, path) && p in s.retired && path !in s.sockets && (p, path) !in s.marks && l !in s.looks
    ensures GoesWrong(s, l)
  {
    UnmarkedIsReaped(s, p, l);
    hide Run, DisciplinedRun, ComesFor;
    var events :| Run(s, events).Some? && DisciplinedRun(s, events) && ComesFor(Run(s, events).value, l, p)
      && Run(s, events).value.retired == s.retired;
    assert Continues(s, Run(s, events).value);
  }

  lemma UnmarkingGoesWrong(s: State, k: nat, p: Proc, path: Path, l: nat)
    requires Lives(s, p, path) && p in s.retired && path !in s.sockets && l !in s.looks
    requires k in s.retirements && s.retirements[k].path == path && s.retirements[k].pid == Some(p)
    requires s.retirements[k].pc == Unmarking
    ensures GoesWrong(s, l)
  {
    var t := Next(s, Unmark(k)).value;
    UnmarkedGoesWrong(t, p, path, l);
    hide GoesWrong;
    WrongLater(s, Unmark(k), t, l);
  }

  lemma StoppingGoesWrong(s: State, k: nat, p: Proc, path: Path, l: nat)
    requires Lives(s, p, path) && p in s.retired && path !in s.sockets && l !in s.looks
    requires k in s.retirements && s.retirements[k].path == path && s.retirements[k].pid == Some(p)
    requires s.retirements[k].pc == Stopping
    ensures GoesWrong(s, l)
  {
    var t := Next(s, Stop(k, false)).value;
    UnmarkingGoesWrong(t, k, p, path, l);
    hide GoesWrong;
    WrongLater(s, Stop(k, false), t, l);
  }

  /** A retirement under way can take the mark of a retired master away that it has reported. */
  lemma OtherGoesWrong(s: State, k: nat, p: Proc, path: Path, l: nat)
    requires Lives(s, p, path) && p in s.retired && path !in s.sockets && l !in s.looks
    requires k in s.retirements && s.retirements[k].path == path && Reports(s.retirements[k], p)
    ensures GoesWrong(s, l)
  {
    hide GoesWrong;
    match s.retirements[k].pc
    case Marking =>
      var t := Next(s, Mark(k)).value;
      StoppingGoesWrong(t, k, p, path, l);
      WrongLater(s, Mark(k), t, l);
    case Stopping => StoppingGoesWrong(s, k, p, path, l);
    case Unmarking => UnmarkingGoesWrong(s, k, p, path, l);
  }

  lemma ListenerLives(s: State, path: Path)
    requires SocketsOk(s.sockets, s.alive, s.master, s.retired)
    requires ProcsOk(s.alive, s.master, s.started, s.retired, s.now)
    requires path in s.sockets && s.sockets[path].Some?
    ensures Lives(s, s.sockets[path].value, path) && s.sockets[path].value !in s.retired
  {
  }

  lemma StopShape(s: State, r: nat)
    requires r in s.retirements && Next(s, Stop(r, true)).Some?
    ensures var path, t := s.retirements[r].path, Next(s, Stop(r, true)).value;
      && path in s.sockets && s.sockets[path].Some?
      && path !in t.sockets && t.looks == s.looks && t.marks == s.marks && s.sockets[path].value in t.retired
      && (forall k :: k in s.retirements && k != r ==> k in t.retirements && t.retirements[k] == s.retirements[k])
      && forall p, at :: Lives(s, p, at) ==> Lives(t, p, at)
  {
  }

  /** The condition on stops is exact: the first stop that succeeds on another master than its check reported
      leaves a retired master that the reaper can come for, whatever its checks of the socket and the mark. */
  lemma UncheckedStopIsReaped(s: State, r: nat, l: nat)
    requires Reachable(s, true) && Next(s, Stop(r, true)).Some? && !Checked(s, r) && l !in s.looks
    ensures GoesWrong(Next(s, Stop(r, true)).value, l)
  {
    ReachableInv(s, true);
    hide Reachable;
    var path, t := s.retirements[r].path, Next(s, Stop(r, true)).value;
    StopShape(s, r);
    ListenerLives(s, path);
    var q := s.sockets[path].value;
    if (q, path) in s.marks {
      var k := HolderOf(s, q, path);
      hide Inv, Next, GoesWrong;
      OtherGoesWrong(t, k, q, path, l);
    } else {
      hide Inv, Next, GoesWrong;
      UnmarkedGoesWrong(t, q, path, l);
    }
  }

  lemma HolderOf(s: State, p: Proc, path: Path) returns (k: nat)
    requires Inv(s) && (p, path) in s.marks && p !in s.retired
    ensures k in s.retirements && s.retirements[k].path == path && Reports(s.retirements[k], p)
  {
    hide Core;
    assert MarkMeant((p, path), s.retired, s.retirements);
    k :| k in s.retirements && HoldsMark(s.retirements[k], (p, path));
  }

  /** One of two retirements that reported the same master stops it, and the other one is still under way. */
  lemma StopsShared(s: State, r: nat, k: nat, path: Path, l: nat)
    requires SocketsOk(s.sockets, s.alive, s.master, s.retired)
    requires ProcsOk(s.alive, s.master, s.started, s.retired, s.now)
    requires path in s.sockets && s.sockets[path].Some? && l !in s.looks && r != k
    requires r in s.retirements && s.retirements[r].path == path && s.retirements[r].pid == s.sockets[path]
    requires s.retirements[r].pc == Stopping
    requires k in s.retirements && s.retirements[k].path == path && Reports(s.retirements[k], s.sockets[path].value)
    ensures GoesWrong(s, l)
  {
    var p := s.sockets[path].value;
    ListenerLives(s, path);
    assert Next(s, Stop(r, true)).Some? && Disciplined(s, Stop(r, true));
    StopShape(s, r);
    var t := Next(s, Stop(r, true)).value;
    hide SocketsOk, ProcsOk, GoesWrong, Next, Disciplined;
    OtherGoesWrong(t, k, p, path, l);
    WrongLater(s, Stop(r, true), t, l);
  }

  lemma MarksShared(s: State, r: nat, k: nat, path: Path, l: nat)
    requires SocketsOk(s.sockets, s.alive, s.master, s.retired)
    requires ProcsOk(s.alive, s.master, s.started, s.retired, s.now)
    requires path in s.sockets && s.sockets[path].Some? && l !in s.looks && r != k
    requires r in s.retirements && s.retirements[r].path == path && s.retirements[r].pid == s.sockets[path]
    requires s.retirements[r].pc == Marking
    requires k in s.retirements && s.retirements[k].path == path && Reports(s.retirements[k], s.sockets[path].value)
    ensures GoesWrong(s, l)
  {
    assert Disciplined(s, Mark(r));
    var t := Next(s, Mark(r)).value;
    assert t.sockets == s.sockets && t.looks == s.looks && t.retirements[k] == s.retirements[k];
    assert t.retirements[r] == s.retirements[r].(pc := Stopping);
    assert SocketsOk(t.sockets, t.alive, t.master, t.retired);
    assert ProcsOk(t.alive, t.master, t.started, t.retired, t.now);
    hide SocketsOk, ProcsOk, GoesWrong, Next, Disciplined;
    StopsShared(t, r, k, path, l);
    WrongLater(s, Mark(r), t, l);
  }

  /** So is the condition on checks: a retirement of a master that another one under way has reported leaves,
      if one of them stops the master and the stop of the other one fails, a retired master without its mark. */
  lemma SharedMasterIsReaped(s: State, r: nat, path: Path, deletes: bool, l: nat)
    requires Reachable(s, true) && Next(s, Check(r, path, deletes)).Some? && !Unreported(s, path) && l !in s.looks
    ensures GoesWrong(Next(s, Check(r, path, deletes)).value, l)
  {
    ReachableInv(s, true);
    hide Reachable;
    var p := s.sockets[path].value;
    var k :| k in s.retirements && Reports(s.retirements[k], p);
    var t := Next(s, Check(r, path, deletes)).value;
    assert RetirementOk(s.retirements[k], s.master, s.retired, s.marks);
    assert s.retirements[k].path == path;
    assert t.retirements[k] == s.retirements[k] && t.sockets == s.sockets && t.looks == s.looks;
    assert SocketsOk(t.sockets, t.alive, t.master, t.retired);
    assert ProcsOk(t.alive, t.master, t.started, t.retired, t.now);
    assert t.retirements[r].pc == Marking && t.retirements[r].pid == Some(p) && t.retirements[r].path == path;
    hide Inv, Next, GoesWrong, SocketsOk, ProcsOk;
    match s.retirements[k].pc
    case Marking => MarksShared(t, k, r, path, l);
    case Stopping => StopsShared(t, k, r, path, l);
    case Unmarking => MarksShared(t, r, k, path, l);
  }

  /** Such a stop does happen without any overlap: the check finds no master, another process establishes one,
      and the stop, which has no pid to mark, reaches it. */
  lemma NewMasterTakesTheSocket()
    ensures exists s :: Reachable(s, true) && Next(s, Stop(0, true)).Some? && !Checked(s, 0) && s.looks == map[]
  {
    hide Reachable, Happens;
    var s1 := OneRetirement(false, false);
    var s2, s3 := OneRetirement(true, false), OneRetirement(true, true);
    NothingIsChecked();
    assert {} + {0} == s2.alive;
    GoesOn(s1, Fork(0, 0), s2, true);
    assert s2.sockets[0 := Some(0)] == s3.sockets;
    GoesOn(s2, Bind(0), s3, true);
  }

  /** A retirement that found no master, and perhaps a new master and its socket. */
  function OneRetirement(master: bool, socket: bool): State {
    State(true, 1, 0, if master then {0} else {}, if master then map[0 := 0] else map[],
      if master then map[0 := 0] else map[], if socket then map[0 := Some(0)] else map[], {},
      map[0 := Retirement(0, None, false, Stopping)], map[], {})
  }

  lemma NothingIsChecked()
    ensures Reachable(OneRetirement(false, false), true)
  {
    var s0 := Empty(true, 1);
    assert Run(s0, []) == Some(s0) && DisciplinedRun(s0, []);
    assert Reachable(s0, true);
    hide Reachable, Happens, Run, DisciplinedRun;
    assert s0.retirements[0 := Retirement(0, None, false, Stopping)] == OneRetirement(false, false).retirements;
    GoesOn(s0, Check(0, 0, false), OneRetirement(false, false), true);
  }

  /** One master behind one socket, after one tick. */
  function Sample(socketFirst: bool, socket: bool, marked: bool, retirements: map<nat, Retirement>,
                  look: Option<ReapPc>,
                  retired: bool): State {
    State(socketFirst, 1, 1, {0}, map[0 := 0], map[0 := 0], if socket then map[0 := Some(0)] else map[],
      if marked then {(0, 0)} else {}, retirements, if look.Some? then map[0 := Look(0, look.value)] else map[],
      if retired then {0} else {})
  }

  lemma MasterListens(socketFirst: bool)
    ensures Reachable(Sample(socketFirst, true, false, map[], None, false), socketFirst)
    ensures Happens(Sample(socketFirst, true, false, map[], None, false), socketFirst)
  {
    var s0 := Empty(socketFirst, 1);
    var s1 := s0.(alive := {0}, master := map[0 := 0], started := map[0 := 0]);
    var s2 := s1.(sockets := map[0 := Some(0)]);
    assert Run(s0, []) == Some(s0) && DisciplinedRun(s0, []);
    assert Reachable(s0, socketFirst) && Happens(s0, socketFirst);
    hide Reachable, Happens, Run, DisciplinedRun;
    assert {} + {0} == s1.alive;
    GoesOn(s0, Fork(0, 0), s1, socketFirst);
    GoesOn(s1, Bind(0), s2, socketFirst);
    GoesOn(s2, Tick, Sample(socketFirst, true, false, map[], None, false), socketFirst);
  }

  /** The order of the two tests matters: a reaper that looks for the mark first can see no mark, then no
      socket, and kill a master that was retired in between. */
  lemma MarkBeforeSocketIsUnsafe()
    ensures exists t :: Reachable(t, false) && Next(t, Reap(0)).Some? && t.looks[0].proc in t.retired
  {
    hide Reachable, Happens;
    var s0 := Sample(false, true, false, map[], None, false);
    var s1 := Sample(false, true, false, map[], Some(First), false);
    var s2 := Sample(false, true, false, map[], Some(Second), false);
    var s5 := Sample(false, false, true, map[], Some(Second), true);
    var t := Sample(false, false, true, map[], Some(Kill), true);
    MasterListens(false);
    GoesOn(s0, Snapshot(0, 0), s1, false);
    assert s1.looks[0 := Look(0, Second)] == s2.looks;
    GoesOn(s1, Test(0), s2, false);
    RetiredMeanwhile();
    assert s5.looks[0 := Look(0, Kill)] == t.looks;
    GoesOn(s5, Test(0), t, false);
  }

  lemma RetiredMeanwhile()
    requires Reachable(Sample(false, true, false, map[], Some(Second), false), false)
    ensures Reachable(Sample(false, false, true, map[], Some(Second), true), false)
  {
    hide Reachable, Happens;
    var ret := Retirement(0, Some(0), false, Marking);
    var stopping := ret.(pc := Stopping);
    var s2 := Sample(false, true, false, map[], Some(Second), false);
    var s3 := Sample(false, true, false, map[0 := ret], Some(Second), false);
    var s4 := Sample(false, true, true, map[0 := stopping], Some(Second), false);
    var s5 := Sample(false, false, true, map[], Some(Second), true);
    GoesOn(s2, Check(0, 0, false), s3, false);
    assert s3.retirements[0 := stopping] == s4.retirements && {} + {(0, 0)} == s4.marks;
    GoesOn(s3, Mark(0), s4, false);
    assert s4.retirements - {0} == map[] && s4.sockets - {0} == map[] && {} + {0} == s5.retired;
    GoesOn(s4, Stop(0, true), s5, false);
  }

  /** Two retirements of one socket that overlap: the first stop succeeds, the second fails, and the second
      takes the mark away that the first one needs. */
  lemma OverlappingRetirementsAreUnsafe()
    ensures exists t :: Happens(t, true) && Next(t, Reap(0)).Some? && t.looks[0].proc in t.retired
  {
    hide Reachable, Happens;
    var mark := Retirement(0, Some(0), false, Marking);
    var stop, unmark := mark.(pc := Stopping), mark.(pc := Unmarking);
    var s0 := Sample(true, true, false, map[], None, false);
    var s1 := Sample(true, true, false, map[0 := mark], None, false);
    var s2 := Sample(true, true, false, map[0 := mark, 1 := mark], None, false);
    var s3 := Sample(true, true, true, map[0 := stop, 1 := mark], None, false);
    var s4 := Sample(true, true, true, map[0 := stop, 1 := stop], None, false);
    MasterListens(true);
    GoesOn(s0, Check(0, 0, false), s1, true);
    assert s1.retirements[1 := mark] == s2.retirements;
    GoesOn(s1, Check(1, 0, false), s2, true);
    assert s2.retirements[0 := stop] == s3.retirements && {} + {(0, 0)} == s3.marks;
    GoesOn(s2, Mark(0), s3, true);
    assert s3.retirements[1 := stop] == s4.retirements && {(0, 0)} + {(0, 0)} == s4.marks;
    GoesOn(s3, Mark(1), s4, true);
    OneStopsOneFails();
    SampleIsReaped();
  }

  lemma OneStopsOneFails()
    ensures var stop := Retirement(0, Some(0), false, Stopping);
      Happens(Sample(true, true, true, map[0 := stop, 1 := stop], None, false), true) ==>
        Happens(Sample(true, false, false, map[], None, true), true)
  {
    hide Reachable, Happens;
    var stop := Retirement(0, Some(0), false, Stopping);
    var unmark := stop.(pc := Unmarking);
    var s4 := Sample(true, true, true, map[0 := stop, 1 := stop], None, false);
    var s5 := Sample(true, false, true, map[1 := stop], None, true);
    var s6 := Sample(true, false, true, map[1 := unmark], None, true);
    var s7 := Sample(true, false, false, map[], None, true);
    assert s4.retirements - {0} == s5.retirements && s4.sockets - {0} == map[] && {} + {0} == s5.retired;
    GoesOn(s4, Stop(0, true), s5, true);
    assert s5.retirements[1 := unmark] == s6.retirements;
    GoesOn(s5, Stop(1, false), s6, true);
    assert s6.retirements - {1} == map[] && {(0, 0)} - {(0, 0)} == {};
    GoesOn(s6, Unmark(1), s7, true);
  }

  lemma SampleIsReaped()
    requires Happens(Sample(true, false, false, map[], None, true), true)
    ensures exists t :: Happens(t, true) && Next(t, Reap(0)).Some? && t.looks[0].proc in t.retired
  {
    hide Reachable, Happens;
    var s7 := Sample(true, false, false, map[], None, true);
    var s8 := Sample(true, false, false, map[], Some(First), true);
    var s9 := Sample(true, false, false, map[], Some(Second), true);
    var t := Sample(true, false, false, map[], Some(Kill), true);
    GoesOn(s7, Snapshot(0, 0), s8, true);
    assert s8.looks[0 := Look(0, Second)] == s9.looks && s9.looks[0 := Look(0, Kill)] == t.looks;
    GoesOn(s8, Test(0), s9, true);
    GoesOn(s9, Test(0), t, true);
  }
}
