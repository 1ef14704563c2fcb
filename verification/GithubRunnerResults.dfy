/** The results about the runner protocol, over every reachable state and every run. */
module GithubRunnerResults {
  import opened GithubRunnerInvariants
  import opened GithubRunnerLeaks
  import opened GithubRunners
  import opened Wrappers

  // ------------------------------------------------------------- results over all runs

  lemma EmptyOk()
    ensures Inv(EMPTY)
  {
    forall c: nat ensures OccupiedSet(EMPTY.rows, c) == {} {}
  }

  lemma {:induction false} RunInv(s: State, events: seq<Event>)
    requires Inv(s) && Run(s, events).Some?
    ensures Inv(Run(s, events).value)
    decreases |events|
  {
    hide Inv, Next;
    if events != [] {
      InvStep(s, events[0]);
      RunInv(Next(s, events[0]).value, events[1..]);
    }
  }

  lemma ReachableInv(t: State)
    requires Reachable(t)
    ensures Inv(t)
  {
    hide Inv, Run;
    var events :| Run(EMPTY, events) == Some(t);
    EmptyOk();
    RunInv(EMPTY, events);
  }

  /** No config ever has more occupying executions than the highest max_runners it had so far. */
  lemma CapacityHolds(t: State, c: nat)
    requires Reachable(t)
    ensures c in t.configs ==> c in t.peak && t.configs[c].maxRunners <= t.peak[c]
    ensures |OccupiedSet(t.rows, c)| <= if c in t.peak then t.peak[c] else 0
  {
    ReachableInv(t);
    hide OccupiedSet, Reachable, RowsOk, KnownOk, LocksOk, OwnersOk, CountsOk, RemovedOk, PendingOk, ReconcilersOk;
  }

  predicate NeverAbove(events: seq<Event>, c: nat, max: nat) {
    forall i :: 0 <= i < |events| && events[i].SetConfig? && events[i].config == c ==> events[i].value.maxRunners <= max
  }

  lemma PeakStep(s: State, ev: Event, c: nat)
    requires Next(s, ev).Some?
    ensures var t := Next(s, ev).value;
      if ev.SetConfig? && ev.config == c
      then c in t.peak && t.peak[c] == Max(ev.value.maxRunners, if c in s.peak then s.peak[c] else 0)
      else c in t.peak ==> c in s.peak && t.peak[c] == s.peak[c]
  {
    hide WorkerNext, RowFree, ConfigFree, Active, Occupying, Max, OnServer, AttemptsOf, ContainersOn;
    if ev.Work? {
      WorkerKeepsRest(s, ev.w, ev.event);
    }
  }

  lemma WorkerKeepsRest(s: State, w: nat, ev: WorkerEvent)
    requires w in s.workers && WorkerNext(s, w, ev).Some?
    ensures WorkerNext(s, w, ev).value.peak == s.peak && WorkerNext(s, w, ev).value.reconcilers == s.reconcilers
  {
    hide RowFree, ConfigFree, Pick, EnabledConfigs, OccupiedSet, Active, CleanupAhead, CanThrow, AfterCheck,
      DoReserve, DoRequeue,
      RemoveContainers;
    PartsKeepRest(s, w);
    if ev.SyncCleanup? {
      RemoveKeepsRest(s, s.workers[w].exec, ev.ok);
    }
  }

  lemma PartsKeepRest(s: State, w: nat)
    requires w in s.workers
    ensures DoRequeue(s, w).peak == s.peak && DoRequeue(s, w).reconcilers == s.reconcilers
    ensures AfterCheck(s, w).Some? ==>
      AfterCheck(s, w).value.peak == s.peak && AfterCheck(s, w).value.reconcilers == s.reconcilers
    ensures DoReserve(s, w).Some? ==>
      DoReserve(s, w).value.peak == s.peak && DoReserve(s, w).value.reconcilers == s.reconcilers
  {
    hide Pick, Active, IsCheck, Reserved;
  }

  lemma RemoveKeepsRest(s: State, e: nat, ok: bool)
    ensures var t := RemoveContainers(s, e, ok); t.peak == s.peak && t.reconcilers == s.reconcilers
    ensures var t := RemoveContainers(s, e, ok); t.rows == s.rows && t.gone == s.gone
  {
  }

  lemma {:induction false} PeakIsReached(s: State, events: seq<Event>, c: nat, max: nat)
    requires Run(s, events).Some? && NeverAbove(events, c, max) && (c in s.peak ==> s.peak[c] <= max)
    ensures var t := Run(s, events).value; c in t.peak ==> t.peak[c] <= max
    decreases |events|
  {
    if events != [] {
      PeakStep(s, events[0], c);
      hide Next;
      assert NeverAbove(events[1..], c, max) by {
        assert forall i :: 0 <= i < |events| - 1 ==> events[1..][i] == events[i + 1];
      }
      PeakIsReached(Next(s, events[0]).value, events[1..], c, max);
    }
  }

  /** A config that is never given more than `max` runners never has more, whatever workers interleave. */
  lemma NeverOverbooked(events: seq<Event>, c: nat, max: nat)
    requires Run(EMPTY, events).Some? && NeverAbove(events, c, max)
    ensures |OccupiedSet(Run(EMPTY, events).value.rows, c)| <= max
  {
    var t := Run(EMPTY, events).value;
    PeakIsReached(EMPTY, events, c, max);
    hide Run, OccupiedSet, NeverAbove;
    assert Reachable(t);
    CapacityHolds(t, c);
  }

  /** The write of a reservation: the execution is still queued, and every eligible config has been counted.
      The config it gets is the first by id of the eligible ones with room that are least occupied, by the
      counts; a count can only be too high by now. Nothing changes only if no eligible config has room. */
  lemma ReservesLeastOccupied(t: State, w: nat)
    requires Reachable(t) && w in t.workers && DoReserve(t, w).Some?
    ensures var worker := t.workers[w]; var pc, u := worker.pc, DoReserve(t, w).value;
      && worker.exec in t.rows && t.rows[worker.exec].status == Queued
      && |pc.done| == |pc.eligible|
      && (forall i :: 0 <= i < |pc.eligible| ==>
            && pc.done[i].config == pc.eligible[i] && pc.eligible[i] in t.configs
            && pc.done[i].maxRunners == t.configs[pc.eligible[i]].maxRunners
            && |OccupiedSet(t.rows, pc.eligible[i])| <= pc.done[i].occupied)
      && match Pick(pc.done)
         case None => u.rows == t.rows && forall i :: 0 <= i < |pc.eligible| ==> !HasRoom(t, pc, i)
         case Some(p) =>
           && (exists i :: 0 <= i < |pc.eligible| && pc.done[i] == p && HasRoom(t, pc, i))
           && (forall i :: 0 <= i < |pc.eligible| && HasRoom(t, pc, i) ==>
                 || p.occupied < pc.done[i].occupied
                 || (p.occupied == pc.done[i].occupied && p.config <= pc.eligible[i]))
           && u.rows[worker.exec].config == Some(p.config) && u.rows[worker.exec].status == Provisioning
           && u.rows[worker.exec].server == Some(t.configs[p.config].server)
           && u.rows == t.rows[worker.exec := u.rows[worker.exec]]
  {
    ReachableInv(t);
    assert t.workers[w].pc.Counting? && t.workers[w].pc.todo == [];
    hide Reachable;
    AllCounted(t, w);
    PicksEligible(t, t.workers[w].pc);
    hide Inv, OccupiedSet, Pick, ById, HasRoom;
    ReserveWrites(t, w);
    hide DoReserve;
  }

  lemma ReserveWrites(t: State, w: nat)
    requires w in t.workers && DoReserve(t, w).Some?
    ensures var worker := t.workers[w]; var u := DoReserve(t, w).value;
      && t.workers[w].pc.Counting? && u.gone == t.gone
      && match Pick(worker.pc.done)
      case None => u.rows == t.rows
      case Some(p) =>
        && p.config in t.configs && worker.exec in t.rows && worker.exec in u.rows
        && u.rows[worker.exec].attempts == t.rows[worker.exec].attempts + 1
        && u.rows[worker.exec].config == Some(p.config) && u.rows[worker.exec].status == Provisioning
        && u.rows[worker.exec].server == Some(t.configs[p.config].server)
        && u.rows == t.rows[worker.exec := u.rows[worker.exec]]
  {
    hide Pick;
  }

  lemma PicksEligible(t: State, pc: Pc)
    requires pc.Counting? && |pc.done| == |pc.eligible| && ById(pc.done)
    requires forall i :: 0 <= i < |pc.eligible| ==>
      && pc.done[i].config == pc.eligible[i] && pc.eligible[i] in t.configs
      && pc.done[i].maxRunners == t.configs[pc.eligible[i]].maxRunners
    ensures match Pick(pc.done)
      case None => forall i :: 0 <= i < |pc.eligible| ==> !HasRoom(t, pc, i)
      case Some(p) =>
        && (exists i :: 0 <= i < |pc.eligible| && pc.done[i] == p && HasRoom(t, pc, i))
        && (forall i :: 0 <= i < |pc.eligible| && HasRoom(t, pc, i) ==>
              || p.occupied < pc.done[i].occupied
              || (p.occupied == pc.done[i].occupied && p.config <= pc.eligible[i]))
  {
    PickIsLeastOccupied(pc.done);
    hide Pick, ById;
    forall i | 0 <= i < |pc.eligible| ensures HasRoom(t, pc, i) <==> pc.done[i].occupied < pc.done[i].maxRunners {}
  }

  predicate HasRoom(t: State, pc: Pc, i: nat)
    requires pc.Counting? && i < |pc.eligible| && i < |pc.done| && pc.eligible[i] in t.configs
  {
    pc.done[i].occupied < t.configs[pc.eligible[i]].maxRunners
  }

  lemma AllCounted(t: State, w: nat)
    requires Inv(t) && w in t.workers && t.workers[w].pc.Counting? && t.workers[w].pc.todo == []
    ensures var worker := t.workers[w]; var pc := worker.pc;
      && worker.exec in t.rows && t.rows[worker.exec].status == Queued
      && |pc.done| == |pc.eligible| && ById(pc.done)
      && (forall i :: 0 <= i < |pc.eligible| ==>
            && pc.done[i].config == pc.eligible[i] && pc.eligible[i] in t.configs
            && pc.done[i].maxRunners == t.configs[pc.eligible[i]].maxRunners
            && |OccupiedSet(t.rows, pc.eligible[i])| <= pc.done[i].occupied)
  {
    hide RowsOk, KnownOk, OwnersOk, PeaksOk, RemovedOk, PendingOk, ReconcilersOk, OccupiedSet;
    var pc := t.workers[w].pc;
    assert CountingOk(t.rows, t.configs, pc);
    assert pc.eligible == ConfigsOf(pc.done);
  }

  /** The worker is in the transaction that reserves, from here to the end of the run. */
  predicate CountsThroughout(s: State, events: seq<Event>, w: nat)
    requires Run(s, events).Some?
    decreases |events|
  {
    && w in s.workers && s.workers[w].pc.Counting?
    && (events != [] ==> CountsThroughout(Next(s, events[0]).value, events[1..], w))
  }

  /** The count is what its config had at a moment of the run, and the transaction has lasted since then. */
  predicate Counted(s: State, events: seq<Event>, w: nat, d: Candidate)
    requires Run(s, events).Some?
    decreases |events|
  {
    events != [] &&
    var next := Next(s, events[0]).value;
      || (&& events[0] == Work(w, Count) && d.occupied == |OccupiedSet(s.rows, d.config)|
          && CountsThroughout(next, events[1..], w))
      || Counted(next, events[1..], w, d)
  }

  /** From s to t nothing new is counted by `v`. */
  predicate NoCount(s: State, t: State, v: nat) {
    v in t.workers && t.workers[v].pc.Counting? && t.workers[v].pc.done != [] ==>
      v in s.workers && t.workers[v] == s.workers[v]
  }

  lemma PartsAreNoCounts(s: State, w: nat, v: nat)
    requires w in s.workers
    ensures AfterCheck(s, w).Some? ==> NoCount(s, AfterCheck(s, w).value, v)
    ensures DoReserve(s, w).Some? ==> NoCount(s, DoReserve(s, w).value, v)
    ensures NoCount(s, DoRequeue(s, w), v)
  {
    hide Pick, Active;
  }

  predicate Updates(ev: WorkerEvent) {
    ev.Prepared? || ev.Launched? || ev.MarkedIdle? || ev.Exhaust? || ev.SyncCleanup?
  }

  lemma UpdatesCountNothing(s: State, w: nat, ev: WorkerEvent, v: nat)
    requires w in s.workers && WorkerNext(s, w, ev).Some? && Updates(ev)
    ensures NoCount(s, WorkerNext(s, w, ev).value, v)
  {
    hide RowFree;
  }

  lemma OnlyCounts(s: State, w: nat, ev: WorkerEvent, v: nat)
    requires w in s.workers && WorkerNext(s, w, ev).Some? && (v != w || ev != Count)
    ensures NoCount(s, WorkerNext(s, w, ev).value, v)
  {
    hide NoCount, RowFree, AfterCheck, DoReserve, DoRequeue;
    if ev.Check? || ev.Reserve? || ev.Requeue? {
      PartsAreNoCounts(s, w, v);
    } else {
      hide WorkerNext;
      if Updates(ev) {
        UpdatesCountNothing(s, w, ev, v);
      } else {
        MovesCountNothing(s, w, ev, v);
      }
    }
  }

  lemma MovesCountNothing(s: State, w: nat, ev: WorkerEvent, v: nat)
    requires w in s.workers && WorkerNext(s, w, ev).Some? && (v != w || ev != Count)
    requires !Updates(ev) && !ev.Check? && !ev.Reserve? && !ev.Requeue?
    ensures NoCount(s, WorkerNext(s, w, ev).value, v)
  {
    hide RowFree, ConfigFree, EnabledConfigs, OccupiedSet, Active, CanThrow;
  }

  lemma CountIsNew(s: State, ev: Event, w: nat, d: Candidate)
    requires Next(s, ev).Some?
    requires var t := Next(s, ev).value; w in t.workers && t.workers[w].pc.Counting? && d in t.workers[w].pc.done
    ensures w in s.workers && s.workers[w].pc.Counting?
    ensures d in s.workers[w].pc.done || (ev == Work(w, Count) && d.occupied == |OccupiedSet(s.rows, d.config)|)
  {
    hide RowFree, ConfigFree, OccupiedSet, Active, OnServer, AttemptsOf, ContainersOn, Max;
    if ev.Work? {
      hide AfterCheck, DoReserve, DoRequeue;
      if ev != Work(w, Count) {
        OnlyCounts(s, ev.w, ev.event, w);
        hide WorkerNext;
      }
    } else {
      hide WorkerNext;
    }
  }

  lemma {:induction false} CountsOfRun(s: State, events: seq<Event>, w: nat, d: Candidate)
    requires Run(s, events).Some?
    requires var t := Run(s, events).value; w in t.workers && t.workers[w].pc.Counting? && d in t.workers[w].pc.done
    ensures Counted(s, events, w, d)
      || (w in s.workers && s.workers[w].pc.Counting? && d in s.workers[w].pc.done && CountsThroughout(s, events, w))
    decreases |events|
  {
    if events != [] {
      var next := Next(s, events[0]).value;
      CountsOfRun(next, events[1..], w, d);
      if !Counted(next, events[1..], w, d) {
        CountIsNew(s, events[0], w, d);
      }
    }
  }

  /** Every count of a worker in the transaction is the occupancy of its config at a moment of this transaction. */
  lemma CountsAreReal(events: seq<Event>, w: nat, d: Candidate)
    requires Run(EMPTY, events).Some?
    requires var t := Run(EMPTY, events).value; w in t.workers && t.workers[w].pc.Counting? && d in t.workers[w].pc.done
    ensures Counted(EMPTY, events, w, d)
  {
    hide Run;
    CountsOfRun(EMPTY, events, w, d);
  }

  lemma AtMostOneOwner(t: State, w: nat, v: nat)
    requires Reachable(t) && w in t.workers && v in t.workers && w != v
    requires Owns(t.workers[w].pc) && Owns(t.workers[v].pc)
    ensures t.workers[w].exec != t.workers[v].exec
  {
    ReachableInv(t);
    hide Reachable, RowsOk, KnownOk, LocksOk, PeaksOk, CountsOk, RemovedOk, PendingOk, ReconcilersOk;
  }

  /** Queued executions have attempts left and no server. */
  lemma QueuedHasAttemptsLeft(t: State, e: nat)
    requires Reachable(t) && e in t.rows
    ensures t.rows[e].attempts <= MAX_ATTEMPTS
    ensures t.rows[e].status == Queued ==> t.rows[e].attempts < MAX_ATTEMPTS && t.rows[e].server == None
  {
    ReachableInv(t);
    hide Reachable, KnownOk, LocksOk, OwnersOk, PeaksOk, CountsOk, RemovedOk, PendingOk, ReconcilersOk;
  }

  // ------------------------------------------------------------- what one step does to one execution

  predicate Reserves(s: State, ev: Event, e: nat) {
    && ev.Work? && ev.event.Reserve? && ev.w in s.workers && s.workers[ev.w].exec == e
    && s.workers[ev.w].pc.Counting? && Pick(s.workers[ev.w].pc.done).Some?
  }

  predicate RowStep(s: State, ev: Event, e: nat, t: State) {
    && s.gone <= t.gone
    && (e in s.rows ==> e in t.gone || e in t.rows)
    && (e !in s.rows && e in t.rows ==> NewRow(t.rows[e]) && e !in s.gone)
    && (e in s.rows && e in t.rows ==>
          if Reserves(s, ev, e) then IsReserve(s.rows[e], t.rows[e])
          else Calm(s.rows[e], t.rows[e]) || (s.rows[e].status == Provisioning && t.rows[e].status == Queued
                                              && t.rows[e].attempts == s.rows[e].attempts))
    && (Reserves(s, ev, e) ==> e in s.rows)
  }

  predicate WorkerWrites(event: WorkerEvent) {
    event.Reserve? || event.MarkedIdle? || event.Exhaust? || event.Requeue?
  }

  lemma WorkerRowsStay(s: State, w: nat, event: WorkerEvent)
    requires w in s.workers && WorkerNext(s, w, event).Some? && !WorkerWrites(event)
    ensures WorkerNext(s, w, event).value.rows == s.rows && WorkerNext(s, w, event).value.gone == s.gone
  {
    hide RowFree, ConfigFree, Pick, EnabledConfigs, OccupiedSet, Active, CleanupAhead, CanThrow, AfterCheck,
      DoReserve, DoRequeue,
      RemoveContainers;
    if event.Check? {
      CheckKeepsRows(s, w);
    } else if event.SyncCleanup? {
      RemoveKeepsRest(s, s.workers[w].exec, event.ok);
    }
  }

  lemma CheckKeepsRows(s: State, w: nat)
    requires w in s.workers && AfterCheck(s, w).Some?
    ensures AfterCheck(s, w).value.rows == s.rows && AfterCheck(s, w).value.gone == s.gone
  {
    hide Active, IsCheck;
  }

  lemma WorkerRowStep(s: State, w: nat, event: WorkerEvent, e: nat)
    requires Inv(s) && w in s.workers && WorkerNext(s, w, event).Some?
    ensures RowStep(s, Work(w, event), e, WorkerNext(s, w, event).value)
  {
    hide Inv, Pick, RowFree, ConfigFree, EnabledConfigs, OccupiedSet, CleanupAhead, AfterCheck, RemoveContainers,
      DoReserve, CanThrow;
    if event.Reserve? {
      hide RowStep, IsReserve;
      ReserveRowStep(s, w, e);
    } else if !WorkerWrites(event) {
      WorkerRowsStay(s, w, event);
      hide WorkerNext;
    }
  }

  lemma ReserveRowStep(s: State, w: nat, e: nat)
    requires Inv(s) && w in s.workers && DoReserve(s, w).Some?
    ensures RowStep(s, Work(w, Reserve), e, DoReserve(s, w).value)
  {
    ReserveWrites(s, w);
    if Pick(s.workers[w].pc.done).Some? {
      PickedHasRoom(s, w);
    }
    hide Inv, Pick, DoReserve, RowFree, ConfigFree, OccupiedSet, Unowned, Occupying, Terminal;
  }

  lemma FinishRowStep(s: State, f: nat, e: nat)
    requires Inv(s) && Next(s, FinishWrite(f)).Some?
    ensures RowStep(s, FinishWrite(f), e, Next(s, FinishWrite(f)).value)
  {
    assert Terminal(s.finishers[f].to) by {
      hide RowsOk, KnownOk, LocksOk, OwnersOk, PeaksOk, CountsOk, RemovedOk, ReconcilersOk, DoFinishWrite;
    }
    hide Inv, RowFree, Terminal;
  }

  lemma AssignRowStep(s: State, ev: Event, e: nat)
    requires Inv(s) && ev.Assign? && Next(s, ev).Some?
    ensures RowStep(s, ev, e, Next(s, ev).value)
  {
    hide Inv, RowFree, Terminal;
  }

  lemma EventRowStep(s: State, ev: Event, e: nat)
    requires Inv(s) && Next(s, ev).Some?
    ensures RowStep(s, ev, e, Next(s, ev).value)
  {
    hide WorkerNext, Inv, RowFree, ConfigFree, OnServer, AttemptsOf, ContainersOn, Max, DoAssign, DoFinishWrite;
    if ev.Work? {
      hide RowStep;
      WorkerRowStep(s, ev.w, ev.event, e);
    } else if ev.FinishWrite? {
      hide RowStep;
      FinishRowStep(s, ev.f, e);
    } else if ev.Assign? {
      hide RowStep;
      AssignRowStep(s, ev, e);
    } else {
      hide Pick, Active;
    }
  }

  /** Ended executions stay ended: the set of terminal statuses is absorbing. */
  lemma {:induction false} TerminalStaysTerminal(s: State, events: seq<Event>, e: nat)
    requires Inv(s) && Run(s, events).Some? && e in s.rows && Terminal(s.rows[e].status)
    ensures var t := Run(s, events).value; e in t.gone || (e in t.rows && Terminal(t.rows[e].status))
    decreases |events|
  {
    if events != [] {
      var next := Next(s, events[0]).value;
      EventRowStep(s, events[0], e);
      InvStep(s, events[0]);
      hide Inv, Next;
      if e in next.rows {
        TerminalStaysTerminal(next, events[1..], e);
      } else {
        GoneStaysGone(next, events[1..], e);
      }
    }
  }

  lemma {:induction false} GoneStaysGone(s: State, events: seq<Event>, e: nat)
    requires Inv(s) && Run(s, events).Some? && e in s.gone
    ensures var t := Run(s, events).value; e in t.gone && e !in t.rows
    ensures Reservations(s, events, e) == 0
    decreases |events|
  {
    assert e !in s.rows by {
      hide KnownOk, LocksOk, OwnersOk, PeaksOk, CountsOk, RemovedOk, PendingOk, ReconcilersOk, Next, RowOk;
    }
    if events != [] {
      EventRowStep(s, events[0], e);
      InvStep(s, events[0]);
      hide Inv, Next;
      GoneStaysGone(Next(s, events[0]).value, events[1..], e);
    }
  }

  /** How often an execution is reserved in a run. */
  function Reservations(s: State, events: seq<Event>, e: nat): nat
    requires Run(s, events).Some?
    decreases |events|
  {
    if events == [] then 0
    else (if Reserves(s, events[0], e) then 1 else 0) + Reservations(Next(s, events[0]).value, events[1..], e)
  }

  /** The attempts of an execution count its reservations. */
  lemma {:induction false} AttemptsCountReservations(s: State, events: seq<Event>, e: nat)
    requires Inv(s) && Run(s, events).Some? && e in s.rows && e in Run(s, events).value.rows
    ensures Run(s, events).value.rows[e].attempts == s.rows[e].attempts + Reservations(s, events, e)
    decreases |events|
  {
    if events != [] {
      var next := Next(s, events[0]).value;
      EventRowStep(s, events[0], e);
      InvStep(s, events[0]);
      hide Inv, Next, Reserves;
      if e in next.rows {
        AttemptsCountReservations(next, events[1..], e);
      } else {
        GoneStaysGone(next, events[1..], e);
        assert false;
      }
    }
  }

  lemma {:induction false} ReservationsLeft(s: State, events: seq<Event>, e: nat)
    requires Inv(s) && Run(s, events).Some?
    ensures Reservations(s, events, e) <= if e in s.rows then MAX_ATTEMPTS - s.rows[e].attempts else MAX_ATTEMPTS
    decreases |events|
  {
    assert e in s.rows ==> RowOk(s.rows[e]) by {
      hide KnownOk, LocksOk, OwnersOk, PeaksOk, CountsOk, RemovedOk, PendingOk, ReconcilersOk, Next;
    }
    if events != [] {
      var next := Next(s, events[0]).value;
      EventRowStep(s, events[0], e);
      InvStep(s, events[0]);
      hide Inv, Next, Reserves;
      ReservationsLeft(next, events[1..], e);
      if e in next.gone {
        GoneStaysGone(next, events[1..], e);
      }
    }
  }

  /** No execution is reserved more than MAX_ATTEMPTS times, so that retries end. */
  lemma AtMostThreeReservations(events: seq<Event>, e: nat)
    requires Run(EMPTY, events).Some?
    ensures Reservations(EMPTY, events, e) <= MAX_ATTEMPTS
  {
    EmptyOk();
    hide Inv, Run;
    ReservationsLeft(EMPTY, events, e);
  }

  lemma ReserveKeepsTerminal(s: State, w: nat, e: nat)
    requires Inv(s) && w in s.workers && DoReserve(s, w).Some? && e in s.rows && Terminal(s.rows[e].status)
    ensures var t := DoReserve(s, w).value; e in t.rows && t.rows[e] == s.rows[e]
  {
    ReserveWrites(s, w);
    if Pick(s.workers[w].pc.done).Some? {
      PickedHasRoom(s, w);
    }
    hide Inv, Pick, DoReserve, OccupiedSet, Unowned;
  }

  lemma WorkerKeepsTerminal(s: State, w: nat, event: WorkerEvent, e: nat)
    requires Inv(s) && w in s.workers && WorkerNext(s, w, event).Some? && e in s.rows && Terminal(s.rows[e].status)
    ensures var t := WorkerNext(s, w, event).value; e in t.rows && t.rows[e] == s.rows[e]
  {
    hide Inv, Pick, RowFree, ConfigFree, EnabledConfigs, OccupiedSet, CleanupAhead, AfterCheck, RemoveContainers,
      DoReserve, CanThrow;
    if event.Reserve? {
      ReserveKeepsTerminal(s, w, e);
    } else if !WorkerWrites(event) {
      WorkerRowsStay(s, w, event);
      hide WorkerNext;
    }
  }

  lemma OthersKeepTerminal(s: State, ev: Event, e: nat)
    requires Inv(s) && Next(s, ev).Some? && e in s.rows && Terminal(s.rows[e].status)
    requires !(ev.FinishWrite? && s.finishers[ev.f].exec == e)
    ensures var t := Next(s, ev).value; e in t.rows ==> t.rows[e] == s.rows[e]
  {
    hide WorkerNext, Inv, RowFree, ConfigFree, OnServer, AttemptsOf, ContainersOn, Max;
    if ev.Work? {
      WorkerKeepsTerminal(s, ev.w, ev.event, e);
    }
  }

  /** The exact terminal status is not absorbing: it changes exactly when someone who read the execution before
      it ended, or as failed, writes another one. */
  lemma TerminalStatusChanges(s: State, ev: Event, e: nat)
    requires Inv(s) && Next(s, ev).Some? && e in s.rows && Terminal(s.rows[e].status) && e in Next(s, ev).value.rows
    ensures Next(s, ev).value.rows[e].status != s.rows[e].status <==>
      ev.FinishWrite? && s.finishers[ev.f].exec == e && s.finishers[ev.f].to != s.rows[e].status
  {
    if ev.FinishWrite? && s.finishers[ev.f].exec == e {
      hide Inv, RowFree;
    } else {
      OthersKeepTerminal(s, ev, e);
      hide Inv, Next;
    }
  }

  /** For example, the completed hook overwrites a failure. */
  lemma FailedBecomesCompleted(t: State, f: nat, e: nat)
    requires Reachable(t) && f !in t.finishers && e in t.rows && t.rows[e].status == Failed
    ensures var read := Next(t, FinishRead(f, e, Completed));
      && read.Some? && Next(read.value, FinishWrite(f)).Some?
      && Next(read.value, FinishWrite(f)).value.rows == t.rows[e := t.rows[e].(status := Completed)]
  {
    ReachableInv(t);
    assert RowFree(t, e) by {
      hide Reachable, RowsOk, KnownOk, OwnersOk, PeaksOk, CountsOk, RemovedOk, PendingOk, ReconcilersOk;
    }
    hide Reachable, Inv;
    var read := Next(t, FinishRead(f, e, Completed)).value;
    assert RowFree(read, e);
    hide RowFree;
  }

  // ------------------------------------------------------------- containers

  predicate NothingLoses(s: State, events: seq<Event>, p: Place)
    requires Run(s, events).Some?
    decreases |events|
  {
    events == [] || (!Loses(s, events[0], p) && NothingLoses(Next(s, events[0]).value, events[1..], p))
  }

  /** Whatever happened before on this server or any other: as long as no step loses the containers at a
      place, those that are there are used by their execution, or a cleanup of them is to come. */
  lemma {:induction false} NoContainersLeftBehind(s: State, events: seq<Event>, p: Place)
    requires Inv(s) && Run(s, events).Some? && !LeftBehind(s, p) && NothingLoses(s, events, p)
    ensures !LeftBehind(Run(s, events).value, p)
    decreases |events|
  {
    if events != [] {
      InvStep(s, events[0]);
      LeakStep(s, events[0], p);
      hide Inv, Next, LeftBehind, Loses;
      NoContainersLeftBehind(Next(s, events[0]).value, events[1..], p);
    }
  }

  /** Containers left behind at the end of a run were lost by one of its steps. */
  lemma LeftBehindWereLost(events: seq<Event>, p: Place)
    requires Run(EMPTY, events).Some? && LeftBehind(Run(EMPTY, events).value, p)
    ensures !NothingLoses(EMPTY, events, p)
  {
    EmptyOk();
    hide Inv, Run;
    if NothingLoses(EMPTY, events, p) {
      NoContainersLeftBehind(EMPTY, events, p);
    }
  }

  /** The reconciler takes containers that were left behind for orphans and removes them. */
  lemma ReconcilerMakesGood(s: State, p: Place, r: nat)
    requires LeftBehind(s, p)
    ensures var events := [List(r, p.server), Read(r), RemoveOrphan(r, p.exec)];
      Run(s, events).Some? && p !in Run(s, events).value.containers
  {
    hide CleanupToCome, Occupying, WorkerNext, DoAssign, DoFinishWrite, RemoveContainers;
    var s1 := Next(s, List(r, p.server)).value;
    assert p.exec in ContainersOn(s, p.server);
    assert p.exec in s1.reconcilers[r].seen;
    assert !OnServer(s1, p.exec, p.server);
    var s2 := Next(s1, Read(r)).value;
    assert p.exec in s2.reconcilers[r].seen;
    hide LeftBehind;
    RunThree(s, List(r, p.server), s1, Read(r), s2, RemoveOrphan(r, p.exec));
  }

  lemma RunThree(s: State, a: Event, s1: State, b: Event, s2: State, c: Event)
    requires Next(s, a) == Some(s1) && Next(s1, b) == Some(s2) && Next(s2, c).Some?
    ensures Run(s, [a, b, c]) == Next(s2, c)
  {
    hide Next;
    assert [a, b, c][1..] == [b, c] && [b, c][1..] == [c] && [c][1..] == [];
    assert Run(s2, [c]) == Next(s2, c);
  }

  /** A removal that succeeds where the row is makes good what was lost there. */
  lemma RemovalMakesGood(s: State, p: Place)
    requires p.exec in s.pending && p.exec in s.rows && s.rows[p.exec].server == Some(p.server)
    ensures Next(s, Cleanup(p.exec, true)).Some? && !LeftBehind(Next(s, Cleanup(p.exec, true)).value, p)
  {
  }

  /** A cleanup only comes for executions that ended or used up their attempts. */
  lemma CleanupsComeForTheDone(t: State, e: nat)
    requires Reachable(t) && e in t.pending && e in t.rows
    ensures Terminal(t.rows[e].status) || t.rows[e].attempts == MAX_ATTEMPTS
  {
    ReachableInv(t);
    hide Reachable, RowsOk, KnownOk, LocksOk, OwnersOk, PeaksOk, CountsOk, RemovedOk, ReconcilersOk;
  }

  // ------------------------------------------------------------- the reconciler

  predicate NoListing(events: seq<Event>, r: nat) {
    forall i :: 0 <= i < |events| ==> !(events[i].List? && events[i].r == r)
  }

  lemma ReconcilerStays(s: State, ev: Event, r: nat)
    requires Next(s, ev).Some? && !(ev.List? && ev.r == r) && r in s.reconcilers
    ensures var t := Next(s, ev).value;
      && r in t.reconcilers && t.reconcilers[r].server == s.reconcilers[r].server
      && forall e :: e in t.reconcilers[r].seen ==>
           e in s.reconcilers[r].seen && t.reconcilers[r].seen[e] == s.reconcilers[r].seen[e]
  {
    hide WorkerNext, RowFree, ConfigFree, Active, OnServer, AttemptsOf, ContainersOn, Max;
    if ev.Work? {
      WorkerKeepsRest(s, ev.w, ev.event);
    }
  }

  lemma {:induction false} SeenStays(s: State, events: seq<Event>, r: nat, e: nat)
    requires Run(s, events).Some? && NoListing(events, r) && r in s.reconcilers
    ensures var t := Run(s, events).value;
      && r in t.reconcilers && t.reconcilers[r].server == s.reconcilers[r].server
      && (e in t.reconcilers[r].seen ==>
            e in s.reconcilers[r].seen && t.reconcilers[r].seen[e] == s.reconcilers[r].seen[e])
    decreases |events|
  {
    if events != [] {
      ReconcilerStays(s, events[0], r);
      hide Next;
      assert NoListing(events[1..], r) by {
        assert forall i :: 0 <= i < |events| - 1 ==> events[1..][i] == events[i + 1];
      }
      SeenStays(Next(s, events[0]).value, events[1..], r, e);
    }
  }

  /** The reconciler removes the containers of an execution that is using the server only if the execution
      was reserved again after the containers had been listed. */
  lemma RemovalSparesTheListedAttempt(s: State, r: nat, server: nat, events: seq<Event>, e: nat)
    requires Reachable(s) && e in s.rows && NoListing(events, r)
    requires Next(s, List(r, server)).Some? && Run(Next(s, List(r, server)).value, events).Some?
    requires var t := Run(Next(s, List(r, server)).value, events).value;
      Next(t, RemoveOrphan(r, e)).Some? && UsesServer(t.rows, e, server)
    ensures Reservations(Next(s, List(r, server)).value, events, e) > 0
  {
    var listed := Next(s, List(r, server)).value;
    var t := Run(listed, events).value;
    ReachableInv(s);
    InvStep(s, List(r, server));
    RunInv(listed, events);
    ListedAttempts(s, r, server, e);
    SeenStays(listed, events, r, e);
    SeenAreFewer(t, r, e);
    hide Inv, Run, Reachable;
    AttemptsCountReservations(listed, events, e);
  }

  lemma ListedAttempts(s: State, r: nat, server: nat, e: nat)
    requires e in s.rows
    ensures var listed := Next(s, List(r, server)).value;
      && r in listed.reconcilers && listed.reconcilers[r].server == server
      && listed.rows == s.rows
      && (e in listed.reconcilers[r].seen ==> listed.reconcilers[r].seen[e] == s.rows[e].attempts)
  {
  }

  lemma SeenAreFewer(t: State, r: nat, e: nat)
    requires Inv(t) && Next(t, RemoveOrphan(r, e)).Some? && UsesServer(t.rows, e, t.reconcilers[r].server)
    ensures e in t.reconcilers[r].seen && t.reconcilers[r].seen[e] < t.rows[e].attempts
  {
    hide RowsOk, KnownOk, LocksOk, OwnersOk, PeaksOk, CountsOk, RemovedOk, PendingOk;
    assert ReconcilerOk(t.rows, t.reconcilers[r]);
  }
}
