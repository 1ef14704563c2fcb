/** The combined notification of a multi-server deployment.

    The deployment of the main server (the parent) queues one child deployment for each additional
    server, writes a cache flag, and then looks at the child rows. Each child writes its own row and
    then looks at the flag and the rows. An atomic cache insert picks the one actor that notifies.
    Parent and children run on different workers, so every read and write below is its own step. */
module MultiServerNotification {
  import opened DeploymentStatus
  import opened Wrappers

  datatype Verdict = Success | FailedAt(child: nat)

  datatype Actor = Parent | Child(index: nat)

  /** Where an actor is. `Dispatching` to `PutFlag` belong to the parent, `Working` and `Deciding` to a
      child, the others to a call of the notification routine. */
  datatype Pc =
    | Dispatching(left: nat, queued: nat)   // still has `left` destinations to visit
    | PlainSend                             // nothing was queued: the ordinary success notification
    | PutFlag
    | Working                               // deploying; the row can be cancelled under it
    | Deciding(target: Status)              // saw no terminal status, about to write its own
    | ReadFlag
    | ReadRows
    | AddKey(seen: seq<Status>)
    | Sending(seen: seq<Status>)
    | Done

  datatype Deployment = Deployment(status: Status, pc: Pc)

  /** `rewritten` and `faults` are history: an ended status was replaced by another one, and the number
      of actors whose side effects threw before they finished their call. */
  datatype State = State(
    parent: Pc,
    children: seq<Deployment>,
    flag: bool,
    winner: Option<Actor>,
    combined: seq<Verdict>,
    plain: nat,
    rewritten: bool,
    faults: nat)

  datatype Step =
    | DispatchSkipped                        // not queued, or thrown before the row was inserted
    | DispatchQueued                         // row inserted and its job dispatched
    | DispatchThrew                          // row inserted, dispatch threw, row marked failed
    | DispatchDone
    | SendPlain
    | SetFlag
    | Check(child: nat, target: Status)      // refresh; a cancelled row starts a call at once
    | Write(child: nat)                      // the status write that follows a check
    | Cancel(child: nat)                     // a user cancels, whatever the status is
    | Restart(child: nat)                    // the job start overwrites the status with in-progress
    | TakeFlag(actor: Actor)
    | TakeRows(actor: Actor)
    | TakeKey(actor: Actor)
    | Notify(actor: Actor)
    | Throw(actor: Actor)

  function PcOf(s: State, a: Actor): Pc
    requires a.Child? ==> a.index < |s.children|
  {
    match a
    case Parent => s.parent
    case Child(i) => s.children[i].pc
  }

  function Goto(s: State, a: Actor, pc: Pc): State
    requires a.Child? ==> a.index < |s.children|
  {
    match a
    case Parent => s.(parent := pc)
    case Child(i) => s.(children := s.children[i := s.children[i].(pc := pc)])
  }

  function SetStatus(s: State, i: nat, status: Status, pc: Pc): State
    requires i < |s.children|
  {
    s.(children := s.children[i := Deployment(status, pc)],
       rewritten := s.rewritten || (s.children[i].status.Ended() && s.children[i].status != status))
  }

  function Statuses(children: seq<Deployment>): (r: seq<Status>)
    ensures |r| == |children|
  {
    seq(|children|, i requires 0 <= i < |children| => children[i].status)
  }

  predicate AllEnded(rows: seq<Status>) {
    forall i :: 0 <= i < |rows| ==> rows[i].Ended()
  }

  /** The verdict of the sender: the first row that is not finished, else success. */
  function VerdictOf(rows: seq<Status>): (v: Verdict)
    ensures v.Success? <==> forall i :: 0 <= i < |rows| ==> rows[i].Finished?
    ensures v.FailedAt? ==> v.child < |rows| && !rows[v.child].Finished?
    ensures v.FailedAt? ==> forall i :: 0 <= i < v.child ==> rows[i].Finished?
  {
    FirstUnfinished(rows, 0)
  }

  function FirstUnfinished(rows: seq<Status>, from: nat): (v: Verdict)
    requires from <= |rows|
    ensures v.Success? <==> forall i :: from <= i < |rows| ==> rows[i].Finished?
    ensures v.FailedAt? ==> from <= v.child < |rows| && !rows[v.child].Finished?
    ensures v.FailedAt? ==> forall i :: from <= i < v.child ==> rows[i].Finished?
    decreases |rows| - from
  {
    if from == |rows| then Success
    else if rows[from].Finished? then FirstUnfinished(rows, from + 1)
    else FailedAt(from)
  }

  predicate Known(s: State, a: Actor) {
    a.Child? ==> a.index < |s.children|
  }

  predicate InCall(pc: Pc) {
    pc.ReadFlag? || pc.ReadRows? || pc.AddKey? || pc.Sending?
  }

  /** Side effects can throw while children are queued, before the plain notification or the flag, and in a call. */
  predicate CanThrow(pc: Pc) {
    InCall(pc) || pc.Dispatching? || pc.PlainSend? || pc.PutFlag?
  }

  predicate Enabled(s: State, step: Step) {
    match step
    case DispatchSkipped => s.parent.Dispatching? && s.parent.left > 0
    case DispatchQueued => s.parent.Dispatching? && s.parent.left > 0
    case DispatchThrew => s.parent.Dispatching? && s.parent.left > 0
    case DispatchDone => s.parent.Dispatching? && s.parent.left == 0
    case SendPlain => s.parent.PlainSend?
    case SetFlag => s.parent.PutFlag?
    case Check(i, target) =>
      && i < |s.children|
      && (target.Finished? || target.Failed?)
      && (s.children[i].pc.Working? || (s.children[i].pc.Done? && s.children[i].status.Cancelled?))
    case Write(i) => i < |s.children| && s.children[i].pc.Deciding?
    case Cancel(i) => i < |s.children|
    case Restart(i) => i < |s.children| && s.children[i].pc.Working?
    case TakeFlag(a) => Known(s, a) && PcOf(s, a).ReadFlag?
    case TakeRows(a) => Known(s, a) && PcOf(s, a).ReadRows?
    case TakeKey(a) => Known(s, a) && PcOf(s, a).AddKey?
    case Notify(a) => Known(s, a) && PcOf(s, a).Sending?
    case Throw(a) => Known(s, a) && CanThrow(PcOf(s, a))
  }

  function Apply(s: State, step: Step): State
    requires Enabled(s, step)
  {
    match step
    case DispatchSkipped => s.(parent := Dispatching(s.parent.left - 1, s.parent.queued))
    case DispatchQueued =>
      s.(parent := Dispatching(s.parent.left - 1, s.parent.queued + 1),
         children := s.children + [Deployment(InProgress, Working)])
    case DispatchThrew =>
      s.(parent := Dispatching(s.parent.left - 1, s.parent.queued + 1),
         children := s.children + [Deployment(Failed, Done)])
    case DispatchDone => s.(parent := if s.parent.queued == 0 then PlainSend else PutFlag)
    case SendPlain => s.(parent := Done, plain := s.plain + 1)
    case SetFlag => s.(parent := ReadFlag, flag := true)
    case Check(i, target) =>
      if s.children[i].status.Cancelled? then Goto(s, Child(i), ReadFlag)
      else if s.children[i].status.Ended() then Goto(s, Child(i), Done)
      else Goto(s, Child(i), Deciding(target))
    case Write(i) => SetStatus(s, i, s.children[i].pc.target, ReadFlag)
    case Cancel(i) => SetStatus(s, i, Cancelled, s.children[i].pc)
    case Restart(i) => SetStatus(s, i, InProgress, Working)
    case TakeFlag(a) => Goto(s, a, if s.flag then ReadRows else Done)
    case TakeRows(a) =>
      var rows := Statuses(s.children);
      Goto(s, a, if AllEnded(rows) then AddKey(rows) else Done)
    case TakeKey(a) =>
      if s.winner.Some? then Goto(s, a, Done)
      else Goto(s, a, Sending(PcOf(s, a).seen)).(winner := Some(a))
    case Notify(a) =>
      Goto(s, a, Done).(combined := s.combined + [VerdictOf(PcOf(s, a).seen)])
    case Throw(a) => Goto(s, a, Done).(faults := s.faults + 1)
  }

  predicate Init(s: State) {
    && s.parent.Dispatching? && s.parent.queued == 0
    && s.children == [] && !s.flag && s.winner.None? && s.combined == [] && s.plain == 0
    && !s.rewritten && s.faults == 0
  }

  ghost predicate Next(s: State, t: State) {
    exists step :: Enabled(s, step) && t == Apply(s, step)
  }

  ghost predicate IsRun(run: seq<State>) {
    && run != []
    && Init(run[0])
    && forall i :: 0 < i < |run| ==> Next(run[i - 1], run[i])
  }

  /** No actor has a step left in the deployment or in a notification call. */
  predicate Quiescent(s: State) {
    && s.parent.Done?
    && forall i :: 0 <= i < |s.children| ==> s.children[i].pc.Done?
  }

  // ---------------------------------------------------------------- invariants

  predicate ParentPhase(s: State) {
    && (s.parent.Dispatching? ==> s.parent.queued == |s.children|)
    && (s.parent.PlainSend? ==> s.children == [])
    && (s.parent.PutFlag? ==> s.children != [])
    && !s.parent.Working? && !s.parent.Deciding?
    && (InCall(s.parent) ==> s.flag)
    && (s.flag ==> !s.parent.Dispatching? && !s.parent.PlainSend? && !s.parent.PutFlag? && s.children != [])
    && (s.plain > 0 ==> s.parent.Done? && s.children == [] && !s.flag)
    && (s.parent.Done? && !s.flag && s.faults == 0 ==> s.plain == 1)
    && s.plain <= 1
  }

  predicate ChildOk(c: Deployment) {
    && (c.pc.Working? || c.pc.Deciding? || InCall(c.pc) || c.pc.Done?)
    && (c.pc.Deciding? ==> c.pc.target.Finished? || c.pc.target.Failed?)
    && (!c.status.Ended() ==> c.pc.Working? || c.pc.Deciding?)
    && (c.pc.Working? || c.pc.Deciding? ==> c.status.InProgress? || c.status.Cancelled?)
  }

  predicate ChildPhase(s: State) {
    forall i :: 0 <= i < |s.children| ==> ChildOk(s.children[i])
  }

  /** A call past the flag check implies the flag; a snapshot covers every child and shows them ended. */
  predicate SnapshotOk(s: State, seen: seq<Status>) {
    && s.flag
    && |seen| == |s.children|
    && AllEnded(seen)
    && (!s.rewritten ==> seen == Statuses(s.children))
  }

  predicate ActorOk(s: State, a: Actor)
    requires Known(s, a)
  {
    var pc := PcOf(s, a);
    && (pc.ReadRows? ==> s.flag)
    && (pc.AddKey? ==> SnapshotOk(s, pc.seen))
    && (pc.Sending? ==> SnapshotOk(s, pc.seen) && s.winner == Some(a) && s.combined == [])
  }

  predicate CallsOk(s: State) {
    && ActorOk(s, Parent)
    && forall i: nat :: i < |s.children| ==> ActorOk(s, Child(i))
  }

  predicate SentOk(s: State) {
    && |s.combined| <= 1
    && (s.combined != [] ==> s.winner.Some? && s.flag && AllEndedUnlessRewritten(s))
    && (s.winner.Some? ==> Known(s, s.winner.value) && s.flag)
    && (s.winner.Some? && s.combined == [] && s.faults == 0 ==> PcOf(s, s.winner.value).Sending?)
    && (s.combined != [] && !s.rewritten ==> s.combined[0] == VerdictOf(Statuses(s.children)))
  }

  predicate AllEndedUnlessRewritten(s: State) {
    !s.rewritten ==> AllEnded(Statuses(s.children))
  }

  /** An actor that has yet to look at the rows. */
  predicate Pending(pc: Pc) {
    pc.Working? || pc.Deciding? || InCall(pc)
  }

  ghost predicate SomeonePending(s: State) {
    || Pending(s.parent)
    || exists i :: 0 <= i < |s.children| && Pending(s.children[i].pc)
  }

  /** Once the flag is set, a notification that was not sent is still owed by some actor. */
  ghost predicate Owed(s: State) {
    s.flag && s.combined == [] && s.faults == 0 ==> SomeonePending(s)
  }

  ghost predicate Inv(s: State) {
    ParentPhase(s) && ChildPhase(s) && CallsOk(s) && SentOk(s) && Owed(s)
  }

  lemma InitInv(s: State)
    requires Init(s)
    ensures Inv(s)
  {
  }

  predicate CallStep(step: Step) {
    step.TakeFlag? || step.TakeRows? || step.TakeKey? || step.Notify? || step.Throw?
  }

  predicate RowStep(step: Step) {
    step.Check? || step.Write? || step.Cancel? || step.Restart?
  }

  lemma ParentPhaseCall(s: State, step: Step)
    requires ParentPhase(s) && CallsOk(s) && Enabled(s, step) && CallStep(step)
    ensures ParentPhase(Apply(s, step))
  {
    hide VerdictOf, Statuses, AllEnded, SnapshotOk;
  }

  lemma ParentPhaseRow(s: State, step: Step)
    requires ParentPhase(s) && Enabled(s, step) && RowStep(step)
    ensures ParentPhase(Apply(s, step))
  {
    hide VerdictOf, Statuses, AllEnded, CallsOk;
    var t := Apply(s, step);
    assert t.parent == s.parent && t.flag == s.flag && t.plain == s.plain && t.faults == s.faults;
    assert |t.children| == |s.children|;
  }

  lemma ParentPhaseStep(s: State, step: Step)
    requires ParentPhase(s) && CallsOk(s) && Enabled(s, step)
    ensures ParentPhase(Apply(s, step))
  {
    hide VerdictOf, Statuses, AllEnded, SnapshotOk, CallsOk;
    if CallStep(step) {
      hide ParentPhase;
      ParentPhaseCall(s, step);
    } else if RowStep(step) {
      hide ParentPhase;
      ParentPhaseRow(s, step);
    }
  }

  lemma ChildPhaseStep(s: State, step: Step, i: nat)
    requires ChildPhase(s) && Enabled(s, step) && i < |Apply(s, step).children|
    ensures ChildOk(Apply(s, step).children[i])
  {
    if i < |s.children| {
      assert ChildOk(s.children[i]);
      hide VerdictOf, Statuses, AllEnded, ChildPhase, Apply, Enabled;
      if RowStep(step) && step.child == i {
        ChildRowStep(s, step);
      } else {
        OtherChild(s, step, i);
        StillChild(s.children[i], Apply(s, step).children[i]);
      }
    }
  }

  lemma ChildRowStep(s: State, step: Step)
    requires Enabled(s, step) && RowStep(step) && ChildOk(s.children[step.child])
    ensures ChildOk(Apply(s, step).children[step.child])
  {
    hide VerdictOf, Statuses, AllEnded;
  }

  predicate Follows(c: Deployment, d: Deployment) {
    d.status == c.status && (d.pc == c.pc || (InCall(c.pc) && (InCall(d.pc) || d.pc.Done?)))
  }

  lemma OtherChildCall(s: State, step: Step, i: nat)
    requires Enabled(s, step) && i < |s.children| && CallStep(step) && ChildOk(s.children[i])
    ensures i < |Apply(s, step).children| && Follows(s.children[i], Apply(s, step).children[i])
  {
    hide VerdictOf, Statuses, AllEnded;
  }

  lemma OtherChild(s: State, step: Step, i: nat)
    requires Enabled(s, step) && i < |s.children| && !(RowStep(step) && step.child == i) && ChildOk(s.children[i])
    ensures i < |Apply(s, step).children| && Follows(s.children[i], Apply(s, step).children[i])
  {
    hide VerdictOf, Statuses, AllEnded;
    if CallStep(step) {
      OtherChildCall(s, step, i);
      hide Apply, Enabled, Follows;
    } else {
      hide ChildOk;
    }
  }

  lemma StillChild(c: Deployment, d: Deployment)
    requires ChildOk(c) && Follows(c, d)
    ensures ChildOk(d)
  {
  }

  /** A step keeps every snapshot valid, because it changes no ended status without being recorded. */
  lemma SnapshotStep(s: State, step: Step, seen: seq<Status>)
    requires Inv(s) && Enabled(s, step) && SnapshotOk(s, seen)
    ensures SnapshotOk(Apply(s, step), seen)
  {
    var t := Apply(s, step);
    assert |t.children| == |s.children|;
    if !t.rewritten {
      assert seen == Statuses(s.children);
      forall i | 0 <= i < |seen| ensures seen[i] == t.children[i].status {
        assert seen[i] == s.children[i].status;
      }
      assert seen == Statuses(t.children);
    }
  }

  /** An actor that does not take the step keeps its place in a call. */
  lemma StillActor(s: State, step: Step, a: Actor)
    requires Enabled(s, step) && Known(s, a) && ActorOk(s, a) && SentOk(s)
    requires forall b :: Known(s, b) ==> ActorOk(s, b)
    requires CallStep(step) ==> step.actor != a
    requires PcOf(s, a).AddKey? || PcOf(s, a).Sending? ==> SnapshotOk(Apply(s, step), PcOf(s, a).seen)
    ensures ActorOk(Apply(s, step), a)
  {
    hide SnapshotOk, VerdictOf, Statuses, AllEnded;
    if step.Notify? {
      assert ActorOk(s, step.actor);
    }
  }

  lemma MovingActor(s: State, step: Step, a: Actor)
    requires Inv(s) && Enabled(s, step) && Known(s, a)
    requires CallStep(step) && step.actor == a
    ensures ActorOk(Apply(s, step), a)
  {
    assert ActorOk(s, a);
    if step.TakeKey? {
      SnapshotStep(s, step, PcOf(s, a).seen);
    } else if step.TakeRows? && PcOf(Apply(s, step), a).AddKey? {
      assert Statuses(Apply(s, step).children) == Statuses(s.children);
    }
  }

  lemma ActorStep(s: State, step: Step, a: Actor)
    requires Inv(s) && Enabled(s, step) && Known(Apply(s, step), a)
    ensures ActorOk(Apply(s, step), a)
  {
    var t := Apply(s, step);
    var moves := CallStep(step) && step.actor == a;
    if Known(s, a) && !moves {
      var pc := PcOf(s, a);
      if pc.AddKey? || pc.Sending? {
        SnapshotStep(s, step, pc.seen);
      }
      StillActor(s, step, a);
    } else if Known(s, a) {
      MovingActor(s, step, a);
    }
  }

  lemma NotifyStep(s: State, step: Step)
    requires Inv(s) && Enabled(s, step) && step.Notify?
    ensures SentOk(Apply(s, step))
  {
    assert ActorOk(s, step.actor);
    SnapshotStep(s, step, PcOf(s, step.actor).seen);
  }

  lemma KeySentStep(s: State, step: Step)
    requires SentOk(s) && Enabled(s, step) && (step.TakeKey? || step.Throw?) && ActorOk(s, step.actor)
    ensures SentOk(Apply(s, step))
  {
    hide VerdictOf, AllEnded;
    assert Statuses(Apply(s, step).children) == Statuses(s.children);
  }

  lemma OtherSentStep(s: State, step: Step)
    requires SentOk(s) && Enabled(s, step) && !step.Notify? && !step.TakeKey? && !step.Throw?
    requires s.combined != [] && !Apply(s, step).rewritten ==> Statuses(Apply(s, step).children) == Statuses(s.children)
    requires ChildPhase(s) && ParentPhase(s)
    ensures SentOk(Apply(s, step))
  {
    hide VerdictOf, Statuses, AllEnded, SnapshotOk;
  }

  lemma SentStep(s: State, step: Step)
    requires Inv(s) && Enabled(s, step)
    ensures SentOk(Apply(s, step))
  {
    hide VerdictOf, Statuses, AllEnded, SnapshotOk, Apply, Enabled, ActorOk;
    if step.Notify? {
      NotifyStep(s, step);
    } else if step.TakeKey? || step.Throw? {
      StepKnows(s, step);
      KeySentStep(s, step);
    } else {
      if s.combined != [] {
        SnapshotStepOfSent(s, step);
      }
      OtherSentStep(s, step);
    }
  }

  lemma StepKnows(s: State, step: Step)
    requires Inv(s) && Enabled(s, step) && CallStep(step)
    ensures Known(s, step.actor) && ActorOk(s, step.actor)
  {
    InvParts(s, step.actor);
  }

  /** After the notification no status changes without being recorded as rewritten. */
  lemma SnapshotStepOfSent(s: State, step: Step)
    requires Inv(s) && Enabled(s, step) && s.combined != []
    ensures !Apply(s, step).rewritten ==> Statuses(Apply(s, step).children) == Statuses(s.children)
  {
    if !s.rewritten {
      SnapshotStep(s, step, Statuses(s.children));
    }
  }

  /** An actor that is pending stays so while another one moves. */
  lemma OtherStaysPending(s: State, step: Step, a: Actor)
    requires Enabled(s, step) && Known(s, a) && Pending(PcOf(s, a))
    requires !step.Throw? && !step.Notify?
    requires (step.TakeFlag? || step.TakeRows? || step.TakeKey?) ==> step.actor != a
    requires step.Check? ==> s.children[step.child].status.Cancelled? || !s.children[step.child].status.Ended()
    ensures SomeonePending(Apply(s, step))
  {
    assert Pending(PcOf(Apply(s, step), a));
  }

  lemma OwedStep(s: State, step: Step)
    requires Inv(s) && Enabled(s, step)
    ensures Owed(Apply(s, step))
  {
    var t := Apply(s, step);
    if t.flag && t.combined == [] && t.faults == 0 {
      if step.TakeRows? {
        var rows := Statuses(s.children);
        if AllEnded(rows) {
          assert Pending(PcOf(t, step.actor));
        } else {
          var j: nat :| j < |rows| && !rows[j].Ended();
          assert ChildOk(s.children[j]) && !s.children[j].status.Ended();
          OtherStaysPending(s, step, Child(j));
        }
      } else if step.TakeKey? {
        if s.winner.Some? {
          OtherStaysPending(s, step, s.winner.value);
        } else {
          assert Pending(PcOf(t, step.actor));
        }
      } else if step.TakeFlag? {
        assert ActorOk(s, step.actor);
        assert Pending(PcOf(t, step.actor));
      } else if step.Check? {
        assert ChildOk(s.children[step.child]);
        assert Pending(t.children[step.child].pc);
      } else if s.flag {
        var a := if Pending(s.parent) then Parent else
                   (var j: nat :| j < |s.children| && Pending(s.children[j].pc); Child(j));
        OtherStaysPending(s, step, a);
      }
    }
  }

  lemma InvStep(s: State, step: Step)
    requires Inv(s) && Enabled(s, step)
    ensures Inv(Apply(s, step))
  {
    var t := Apply(s, step);
    ParentPhaseStep(s, step);
    forall i: nat | i < |t.children| ensures ChildOk(t.children[i]) {
      ChildPhaseStep(s, step, i);
    }
    ActorStep(s, step, Parent);
    forall i: nat | i < |t.children| ensures ActorOk(t, Child(i)) {
      ActorStep(s, step, Child(i));
    }
    SentStep(s, step);
    OwedStep(s, step);
  }

  lemma {:induction false} RunInv(run: seq<State>)
    requires IsRun(run)
    ensures Inv(run[|run| - 1])
  {
    if |run| == 1 {
      InitInv(run[0]);
    } else {
      var n := |run| - 1;
      RunInv(run[..n]);
      var s, t := run[n - 1], run[n];
      assert Next(s, t);
      hide Inv, Apply, Enabled;
      var step :| Enabled(s, step) && t == Apply(s, step);
      InvStep(s, step);
    }
  }

  // ---------------------------------------------------------------- results

  /** Under every interleaving, whatever is cancelled or throws: at most one notification is sent, in
      all; the combined one only after the flag was set; and the sender saw all children ended. */
  lemma AtMostOneNotification(run: seq<State>)
    requires IsRun(run)
    ensures var s := run[|run| - 1];
      && |s.combined| + s.plain <= 1
      && (s.combined != [] ==> s.flag && s.children != [])
      && (s.plain > 0 ==> s.children == [])
  {
    RunInv(run);
  }

  /** At the step that sends, the rows the sender read cover all children, and all of them have ended.
      If no ended status was replaced, these are the rows as they are now. */
  lemma SentOnlyWhenAllEnded(run: seq<State>, step: Step)
    requires IsRun(run) && step.Notify? && Enabled(run[|run| - 1], step)
    ensures var s := run[|run| - 1]; var seen := PcOf(s, step.actor).seen;
      && s.flag && s.combined == []
      && |seen| == |s.children| && AllEnded(seen)
      && (!s.rewritten ==> seen == Statuses(s.children))
  {
    RunInv(run);
    assert ActorOk(run[|run| - 1], step.actor);
  }

  /** When every actor has run to its end and no side effect threw, exactly one notification was sent:
      the combined one if a child row exists, else the plain one. */
  lemma ExactlyOneAtTheEnd(run: seq<State>)
    requires IsRun(run) && Quiescent(run[|run| - 1]) && run[|run| - 1].faults == 0
    ensures var s := run[|run| - 1];
      |s.combined| + s.plain == 1 && (s.children == [] <==> s.plain == 1)
  {
    RunInv(run);
    var s := run[|run| - 1];
    assert !SomeonePending(s);
  }

  /** The actor reads the rows at `k` and holds what it read up to `m`. */
  ghost predicate Holds(run: seq<State>, a: Actor, k: nat, m: nat) {
    && k < m < |run|
    && Known(run[k], a) && PcOf(run[k], a).ReadRows?
    && forall j :: k < j <= m ==>
         var rows := Statuses(run[k].children);
         Known(run[j], a) && (PcOf(run[j], a) == AddKey(rows) || PcOf(run[j], a) == Sending(rows))
  }

  lemma CallMoves(s: State, step: Step, a: Actor)
    requires Enabled(s, step) && Known(Apply(s, step), a) && (Known(s, a) ==> ActorOk(s, a)) && ParentPhase(s)
    requires ChildPhase(s)
    ensures var pc := PcOf(Apply(s, step), a);
      pc.AddKey? || pc.Sending? ==>
        && Known(s, a)
        && if PcOf(s, a).ReadRows? then pc == AddKey(Statuses(s.children))
           else (PcOf(s, a).AddKey? || PcOf(s, a).Sending?) && PcOf(s, a).seen == pc.seen
  {
    hide VerdictOf, Statuses, AllEnded, SnapshotOk;
  }

  lemma LastStep(run: seq<State>) returns (step: Step)
    requires IsRun(run) && |run| > 1
    ensures IsRun(run[..|run| - 1]) && Inv(run[|run| - 2])
    ensures Enabled(run[|run| - 2], step) && run[|run| - 1] == Apply(run[|run| - 2], step)
  {
    hide Inv, Apply, Enabled;
    var n := |run| - 1;
    RunInv(run[..n]);
    assert Next(run[n - 1], run[n]);
    step :| Enabled(run[n - 1], step) && run[n] == Apply(run[n - 1], step);
  }

  lemma InvParts(s: State, a: Actor)
    requires Inv(s)
    ensures ParentPhase(s) && ChildPhase(s) && (Known(s, a) ==> ActorOk(s, a))
  {
    hide ParentPhase, ChildPhase, ActorOk, SentOk, Owed;
    assert a.Child? && Known(s, a) ==> ActorOk(s, Child(a.index));
  }

  lemma HoldsLonger(run: seq<State>, a: Actor, k: nat, n: nat)
    requires 0 < n < |run| && Holds(run[..n], a, k, n - 1) && Known(run[n], a)
    requires var rows := Statuses(run[k].children); PcOf(run[n], a) == AddKey(rows) || PcOf(run[n], a) == Sending(rows)
    ensures Holds(run, a, k, n)
  {
    hide Statuses;
  }

  lemma LastMove(run: seq<State>, a: Actor)
    requires IsRun(run) && |run| > 1 && Known(run[|run| - 1], a)
    requires PcOf(run[|run| - 1], a).AddKey? || PcOf(run[|run| - 1], a).Sending?
    ensures var s, pc := run[|run| - 2], PcOf(run[|run| - 1], a);
      && IsRun(run[..|run| - 1]) && Known(s, a) && (a.Child? ==> a.index < |s.children|)
      && if PcOf(s, a).ReadRows? then pc == AddKey(Statuses(s.children))
         else (PcOf(s, a).AddKey? || PcOf(s, a).Sending?) && PcOf(s, a).seen == pc.seen
  {
    hide Inv, Apply, Enabled, Statuses, IsRun;
    var step := LastStep(run);
    InvParts(run[|run| - 2], a);
    CallMoves(run[|run| - 2], step, a);
  }

  lemma HoldsAtOnce(run: seq<State>, a: Actor)
    requires |run| > 1 && Known(run[|run| - 2], a) && Known(run[|run| - 1], a)
    requires PcOf(run[|run| - 2], a).ReadRows?
    requires PcOf(run[|run| - 1], a) == AddKey(Statuses(run[|run| - 2].children))
    ensures Holds(run, a, |run| - 2, |run| - 1)
  {
    hide Statuses;
  }

  lemma NothingReadAtStart(s: State, a: Actor)
    requires Init(s) && Known(s, a)
    ensures !PcOf(s, a).AddKey? && !PcOf(s, a).Sending?
  {
  }

  lemma StartsWithInit(run: seq<State>)
    requires IsRun(run)
    ensures run != [] && Init(run[0])
  {
  }

  /** What an actor is about to report are the rows it read. */
  lemma {:induction false} HoldsWhatItRead(run: seq<State>, a: Actor) returns (k: nat)
    requires IsRun(run) && Known(run[|run| - 1], a)
    requires PcOf(run[|run| - 1], a).AddKey? || PcOf(run[|run| - 1], a).Sending?
    ensures k < |run| - 1 && Holds(run, a, k, |run| - 1)
    ensures PcOf(run[|run| - 1], a).seen == Statuses(run[k].children)
  {
    hide *;
    var n := |run| - 1;
    StartsWithInit(run);
    if n == 0 {
      NothingReadAtStart(run[0], a);
    }
    LastMove(run, a);
    if PcOf(run[n - 1], a).ReadRows? {
      k := n - 1;
      HoldsAtOnce(run, a);
    } else {
      k := HoldsWhatItRead(run[..n], a);
      HoldsLonger(run, a, k, n);
    }
  }

  /** The combined notification at the end of the run is the verdict on the rows that `a` read at `k` and
      held until it sent at `m`. */
  ghost predicate SentFrom(run: seq<State>, a: Actor, k: nat, m: nat) {
    && Holds(run, a, k, m) && m + 1 < |run|
    && PcOf(run[m], a).Sending? && run[m].combined == []
    && run[m + 1].combined == [VerdictOf(Statuses(run[k].children))]
    && run[|run| - 1].combined == run[m + 1].combined
    && AllEnded(Statuses(run[k].children)) && |run[k].children| == |run[|run| - 1].children|
  }

  lemma SendsOrKeeps(s: State, step: Step)
    requires Inv(s) && Enabled(s, step)
    ensures s.combined != [] ==> Apply(s, step).combined == s.combined && |Apply(s, step).children| == |s.children|
    ensures s.combined == [] && Apply(s, step).combined != [] ==>
      && step.Notify? && Known(s, step.actor) && PcOf(s, step.actor).Sending?
      && Apply(s, step).combined == [VerdictOf(PcOf(s, step.actor).seen)]
      && AllEnded(PcOf(s, step.actor).seen) && |Apply(s, step).children| == |PcOf(s, step.actor).seen|
  {
    if step.Notify? {
      assert ActorOk(s, step.actor);
    }
    hide VerdictOf, Statuses, AllEnded;
  }

  lemma StillSent(run: seq<State>, a: Actor, k: nat, m: nat)
    requires |run| > 1 && SentFrom(run[..|run| - 1], a, k, m)
    requires run[|run| - 1].combined == run[|run| - 2].combined
    requires |run[|run| - 1].children| == |run[|run| - 2].children|
    ensures SentFrom(run, a, k, m)
  {
    hide Statuses, VerdictOf, AllEnded;
  }

  lemma SendsNow(run: seq<State>, a: Actor, k: nat)
    requires |run| > 1 && k < |run| - 2 && Holds(run[..|run| - 1], a, k, |run| - 2) && PcOf(run[|run| - 2], a).Sending?
    requires run[|run| - 2].combined == [] && run[|run| - 1].combined == [VerdictOf(Statuses(run[k].children))]
    requires AllEnded(Statuses(run[k].children)) && |run[k].children| == |run[|run| - 1].children|
    ensures SentFrom(run, a, k, |run| - 2)
  {
    hide Statuses, VerdictOf, AllEnded;
  }

  lemma {:induction false} SentWhatWasRead(run: seq<State>)
    requires IsRun(run) && run[|run| - 1].combined != []
    ensures exists a, k: nat, m: nat :: SentFrom(run, a, k, m)
  {
    var n := |run| - 1;
    assert n > 0;
    var before := run[..n];
    var step := LastStep(run);
    SendsOrKeeps(run[n - 1], step);
    hide *;
    if run[n - 1].combined != [] {
      SentWhatWasRead(before);
      var a, k: nat, m: nat :| SentFrom(before, a, k, m);
      StillSent(run, a, k, m);
    } else {
      var a := step.actor;
      var k := HoldsWhatItRead(before, a);
      assert |Statuses(run[k].children)| == |run[k].children|;
      SendsNow(run, a, k);
    }
  }

  /** The children that decide a verdict: those up to the one it names, or all. */
  predicate Decides(v: Verdict, i: nat) {
    v.FailedAt? ==> i <= v.child
  }

  /** The reported verdict is that of the rows as they are now exactly if no child that decides it has moved
      between finished and not finished since the sender read the rows. */
  lemma VerdictMatchesRows(run: seq<State>)
    requires IsRun(run) && run[|run| - 1].combined != []
    ensures var s := run[|run| - 1]; exists a, k: nat, m: nat ::
      && SentFrom(run, a, k, m)
      && (s.combined[0] == VerdictOf(Statuses(s.children)) <==>
            forall i: nat :: i < |s.children| && Decides(s.combined[0], i) ==>
              (run[k].children[i].status.Finished? <==> s.children[i].status.Finished?))
  {
    SentWhatWasRead(run);
    var a, k: nat, m: nat :| SentFrom(run, a, k, m);
    SameVerdict(run[k].children, run[|run| - 1].children);
    hide Statuses;
  }

  lemma SameVerdict(was: seq<Deployment>, later: seq<Deployment>)
    requires |was| == |later|
    ensures var v := VerdictOf(Statuses(was));
      v == VerdictOf(Statuses(later)) <==>
        forall i: nat :: i < |later| && Decides(v, i) ==> (was[i].status.Finished? <==> later[i].status.Finished?)
  {
    var v, w := VerdictOf(Statuses(was)), VerdictOf(Statuses(later));
    forall i: nat | i < |later| ensures Statuses(was)[i] == was[i].status && Statuses(later)[i] == later[i].status {}
    hide Statuses, VerdictOf;
    if v == w {
      forall i: nat | i < |later| && Decides(v, i) ensures was[i].status.Finished? <==> later[i].status.Finished? {}
    } else if v.Success? || (w.FailedAt? && w.child < v.child) {
      assert Decides(v, w.child);
    } else {
      assert Decides(v, v.child);
    }
  }

  /** The verdict is that of the rows as long as no ended status is replaced. */
  lemma VerdictStaysUnlessRewritten(run: seq<State>)
    requires IsRun(run) && run[|run| - 1].combined != [] && !run[|run| - 1].rewritten
    ensures var s := run[|run| - 1];
      && (s.combined[0].Success? <==> forall i :: 0 <= i < |s.children| ==> s.children[i].status.Finished?)
      && (s.combined[0].FailedAt? ==>
            && s.combined[0].child < |s.children|
            && s.children[s.combined[0].child].status.Ended()
            && !s.children[s.combined[0].child].status.Finished?)
  {
    RunInv(run);
    var s := run[|run| - 1];
    var rows := Statuses(s.children);
    assert s.combined[0] == VerdictOf(rows);
    assert AllEnded(rows);
    if s.combined[0].Success? {
      forall i | 0 <= i < |s.children| ensures s.children[i].status.Finished? {
        assert rows[i].Finished?;
      }
    } else {
      assert !rows[s.combined[0].child].Finished?;
    }
  }

  /** Why `rewritten` matters. The status write does not repeat its check, so a cancellation between
      the two is overwritten. The sender has then already reported a child that ends finished. */
  lemma OverwrittenCancellationReportedAsFailure() returns (run: seq<State>)
    ensures IsRun(run)
    ensures var s := run[|run| - 1];
      && Quiescent(s) && s.faults == 0 && s.rewritten
      && s.combined == [FailedAt(0)]
      && forall i :: 0 <= i < |s.children| ==> s.children[i].status.Finished?
  {
    run := CancellationReported();
    var late := run[|run| - 1].(rewritten := true);
    run := Extend(run, Write(0), late.(children := [Deployment(Finished, ReadFlag)]));
    run := Extend(run, TakeFlag(Child(0)), late.(children := [Deployment(Finished, ReadRows)]));
    assert Statuses([Deployment(Finished, ReadRows)]) == [Finished];
    run := Extend(run, TakeRows(Child(0)), late.(children := [Deployment(Finished, AddKey([Finished]))]));
    run := Extend(run, TakeKey(Child(0)), late.(children := [Deployment(Finished, Done)]));
  }

  /** The child checked its status, was cancelled, and the parent reported that. */
  lemma CancellationReported() returns (run: seq<State>)
    ensures IsRun(run)
    ensures run[|run| - 1] == OneChild(Done, Cancelled, Deciding(Finished), true)
                                .(winner := Some(Parent), combined := [FailedAt(0)])
  {
    run := CancelledAfterCheck();
    run := Extend(run, TakeFlag(Parent), OneChild(ReadRows, Cancelled, Deciding(Finished), true));
    assert Statuses([Deployment(Cancelled, Deciding(Finished))]) == [Cancelled];
    run := Extend(run, TakeRows(Parent), OneChild(AddKey([Cancelled]), Cancelled, Deciding(Finished), true));
    run := Extend(run, TakeKey(Parent),
      OneChild(Sending([Cancelled]), Cancelled, Deciding(Finished), true).(winner := Some(Parent)));
    assert VerdictOf([Cancelled]) == FailedAt(0);
    run := Extend(run, Notify(Parent), OneChild(Done, Cancelled, Deciding(Finished), true)
                                         .(winner := Some(Parent), combined := [FailedAt(0)]));
  }

  lemma CancelledAfterCheck() returns (run: seq<State>)
    ensures IsRun(run) && run[|run| - 1] == OneChild(ReadFlag, Cancelled, Deciding(Finished), true)
  {
    run := [State(Dispatching(1, 0), [], false, None, [], 0, false, 0)];
    run := Extend(run, DispatchQueued, OneChild(Dispatching(0, 1), InProgress, Working, false));
    run := Extend(run, Check(0, Finished), OneChild(Dispatching(0, 1), InProgress, Deciding(Finished), false));
    run := Extend(run, DispatchDone, OneChild(PutFlag, InProgress, Deciding(Finished), false));
    run := Extend(run, SetFlag, OneChild(ReadFlag, InProgress, Deciding(Finished), true));
    run := Extend(run, Cancel(0), OneChild(ReadFlag, Cancelled, Deciding(Finished), true));
  }

  function OneChild(parent: Pc, status: Status, pc: Pc, flag: bool): State {
    State(parent, [Deployment(status, pc)], flag, None, [], 0, false, 0)
  }

  lemma Extend(run: seq<State>, step: Step, t: State) returns (r: seq<State>)
    requires IsRun(run) && Enabled(run[|run| - 1], step) && t == Apply(run[|run| - 1], step)
    ensures IsRun(r) && r[|r| - 1] == t
  {
    r := run + [t];
    forall i | 0 < i < |r| ensures Next(r[i - 1], r[i]) {
      if i < |run| {
        assert Next(run[i - 1], run[i]);
      } else {
        assert Enabled(r[i - 1], step);
      }
    }
  }
}
