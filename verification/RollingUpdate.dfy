/** Status transitions of one deployment row, and the non-forced rolling update that runs under them.

    Every remote command and every database write can throw, and a user can cancel at any point. The
    class takes these from a script of events, so a statement about all scripts is one about all runs. */
module RollingUpdate {
  import opened DeploymentStatus

  /** A deployment row with the number of times the success and the failure side effects ran. */
  datatype Row = Row(status: Status, successes: nat, failures: nat)

  /** `Refused` is the exception that a cancelled deployment raises. */
  datatype Reply = Stored | AlreadyEnded | Refused

  /** The only way a deployment job changes its status. The refresh and the write are one step here. */
  function Transition(row: Row, target: Status): (Row, Reply)
    requires target.Finished? || target.Failed?
  {
    match row.status
    case Cancelled => (row, Refused)
    case InProgress =>
      if target.Finished?
      then (Row(Finished, row.successes + 1, row.failures), Stored)
      else (Row(Failed, row.successes, row.failures + 1), Stored)
    case _ => (row, AlreadyEnded)
  }

  /** The cancellation endpoints only cancel a deployment that has not ended. */
  function Cancel(row: Row): Row {
    if row.status.InProgress? then row.(status := Cancelled) else row
  }

  datatype Call = Complete | Fail | UserCancel

  function RunCall(row: Row, call: Call): Row {
    match call
    case Complete => Transition(row, Finished).0
    case Fail => Transition(row, Failed).0
    case UserCancel => Cancel(row)
  }

  function RunCalls(row: Row, calls: seq<Call>): Row
    decreases |calls|
  {
    if calls == [] then row else RunCalls(RunCall(row, calls[0]), calls[1..])
  }

  /** An ended row stays as it is, whatever is called on it. */
  lemma {:induction false} EndedIsAbsorbing(row: Row, calls: seq<Call>)
    requires row.status.Ended()
    ensures RunCalls(row, calls) == row
  {
    if calls != [] {
      EndedIsAbsorbing(row, calls[1..]);
    }
  }

  /** For any sequence of calls the first one decides: the row ends with the status that call asks for,
      and its side effects are the only ones that ever run. */
  lemma FirstCallDecides(calls: seq<Call>)
    ensures var r := RunCalls(Row(InProgress, 0, 0), calls);
      r == if calls == [] then Row(InProgress, 0, 0)
           else match calls[0]
                case Complete => Row(Finished, 1, 0)
                case Fail => Row(Failed, 0, 1)
                case UserCancel => Row(Cancelled, 0, 0)
  {
    if calls != [] {
      EndedIsAbsorbing(RunCall(Row(InProgress, 0, 0), calls[0]), calls[1..]);
    }
  }

  /** What a poll reads; `NoStatus` stands for every answer but the three that the poll knows. */
  datatype Health = Healthy | Unhealthy | Starting | NoStatus

  predicate Waits(h: Health) {
    h.Starting? || h.NoStatus?
  }

  /** What the outside world does at one fallible action: `effect` says whether a command that throws
      or whose errors are ignored still did its work. */
  datatype Event = Event(cancel: bool, throws: bool, effect: bool, health: Health)

  const QUIET := Event(false, false, true, Starting)

  datatype Result = Ok | Threw | ThrewCancelled

  predicate Quiet(e: Event) {
    !e.cancel && !e.throws && e.effect
  }

  /** The next `n` actions succeed without a cancellation. */
  predicate QuietFor(script: seq<Event>, n: nat) {
    n <= |script| && forall i :: 0 <= i < n ==> Quiet(script[i])
  }

  /** Behind the script all goes well. */
  function EventAt(script: seq<Event>, i: nat): Event {
    if i < |script| then script[i] else QUIET
  }

  /** What is left of the script after `n` actions. */
  function Drop(script: seq<Event>, n: nat): seq<Event> {
    if n <= |script| then script[n..] else []
  }

  lemma DropTwice(script: seq<Event>, a: nat, b: nat)
    ensures Drop(Drop(script, a), b) == Drop(script, a + b) && EventAt(Drop(script, a), b) == EventAt(script, a + b)
  {
  }

  lemma NextAction(script: seq<Event>, n: nat)
    ensures EventAt(Drop(script, n), 0) == EventAt(script, n) && Drop(Drop(script, n), 1) == Drop(script, n + 1)
  {
  }

  predicate Clean(e: Event) {
    !e.cancel && !e.throws
  }

  function AfterEvent(row: Row, e: Event): Row {
    if e.cancel then Cancel(row) else row
  }

  predicate SomeCancel(script: seq<Event>, from: nat, to: nat) {
    exists i :: from <= i < to && EventAt(script, i).cancel
  }

  predicate SomeEffect(script: seq<Event>, from: nat, to: nat) {
    exists i :: from <= i < to && EventAt(script, i).effect
  }

  predicate AllEffect(script: seq<Event>, from: nat, to: nat) {
    forall i :: from <= i < to ==> EventAt(script, i).effect
  }

  lemma SomeNext(script: seq<Event>, from: nat, to: nat)
    requires from <= to
    ensures AllEffect(script, from, to + 1) <==> AllEffect(script, from, to) && EventAt(script, to).effect
    ensures SomeCancel(script, from, to + 1) <==> SomeCancel(script, from, to) || EventAt(script, to).cancel
    ensures SomeEffect(script, from, to + 1) <==> SomeEffect(script, from, to) || EventAt(script, to).effect
  {
    if EventAt(script, to).cancel {
      assert EventAt(script, to).cancel && to < to + 1;
    }
  }

  lemma QuietIsClean(script: seq<Event>, n: nat)
    requires QuietFor(script, 1 + n)
    ensures !EventAt(script, 0).throws && !SomeCancel(script, 1, 1 + n) && AllEffect(script, 1, 1 + n)
  {
  }

  lemma SomeDropped(script: seq<Event>, p: nat, from: nat, to: nat)
    ensures SomeCancel(Drop(script, p), from, to) <==> SomeCancel(script, p + from, p + to)
    ensures SomeEffect(Drop(script, p), from, to) <==> SomeEffect(script, p + from, p + to)
    ensures AllEffect(Drop(script, p), from, to) <==> AllEffect(script, p + from, p + to)
  {
    forall i: nat ensures EventAt(Drop(script, p), i) == EventAt(script, p + i) {}
    hide EventAt, Drop;
    forall i | p + from <= i < p + to ensures EventAt(Drop(script, p), i - p) == EventAt(script, i) {
      var j := i - p;
      assert EventAt(Drop(script, p), j) == EventAt(script, p + j);
    }
  }

  /** The first `n` polls neither decide nor fail. */
  predicate Undecided(script: seq<Event>, n: nat) {
    forall i :: 0 <= i < n ==> Waits(EventAt(script, i).health) && Clean(EventAt(script, i))
  }

  /** The poll `i` is the first one that decides, and it says healthy. */
  predicate PollAccepts(script: seq<Event>, i: nat) {
    Undecided(script, i) && EventAt(script, i).health.Healthy? && Clean(EventAt(script, i))
  }

  /** The first poll that decides or fails, `retries` if none does. */
  function FirstPoll(script: seq<Event>, from: nat, retries: nat): (k: nat)
    requires from <= retries
    ensures from <= k <= retries
    ensures forall i :: from <= i < k ==> Waits(EventAt(script, i).health) && Clean(EventAt(script, i))
    ensures k < retries ==> !(Waits(EventAt(script, k).health) && Clean(EventAt(script, k)))
    decreases retries - from
  {
    if from < retries && Waits(EventAt(script, from).health) && Clean(EventAt(script, from))
    then FirstPoll(script, from + 1, retries)
    else from
  }

  predicate QueriesLogs(script: seq<Event>, retries: nat) {
    && retries > 0 && FirstPoll(script, 0, retries) == retries
    && EventAt(script, retries - 1).health.Starting? && !EventAt(script, retries).cancel
  }

  lemma LogsQueried(script: seq<Event>, retries: nat)
    ensures QueriesLogs(script, retries) ==>
      && retries > 0 && FirstPoll(script, 0, retries) == retries
      && EventAt(script, retries - 1).health.Starting? && !EventAt(script, retries).cancel
  {
  }

  /** The new container is accepted exactly if the poll that decides or fails first says healthy. */
  lemma FirstPollDecides(script: seq<Event>, retries: nat)
    ensures var k := FirstPoll(script, 0, retries);
      && (forall i: nat :: i < retries && PollAccepts(script, i) ==> i == k)
      && ((exists i: nat :: i < retries && PollAccepts(script, i)) <==> k < retries && PollAccepts(script, k))
      && (k < retries ==> (PollAccepts(script, k) <==> EventAt(script, k).health.Healthy? && Clean(EventAt(script, k))))
      && (LogsThrow(script, retries) ==> QueriesLogs(script, retries))
  {
    forall i: nat | i < retries && PollAccepts(script, i) ensures i == FirstPoll(script, 0, retries) {}
  }

  /** All polls wait, the last one says "starting", and the query of the logs throws. */
  predicate LogsThrow(script: seq<Event>, retries: nat) {
    && retries > 0 && Undecided(script, retries) && EventAt(script, retries - 1).health.Starting?
    && EventAt(script, retries).throws && !EventAt(script, retries).cancel
  }

  lemma LogsMean(script: seq<Event>, retries: nat)
    ensures LogsThrow(script, retries) ==>
      && retries > 0 && EventAt(script, retries - 1).health.Starting?
      && EventAt(script, retries).throws && !EventAt(script, retries).cancel
  {
  }

  // ------------------------------------------------------------- when a failed deployment leaves nothing running

  /** The health check takes `q` actions, accepts the new container and does not throw. */
  predicate AcceptsAfter(script: seq<Event>, disabled: bool, retries: nat, q: nat) {
    if disabled then q == 0
    else 2 <= q < retries + 2 && PollAccepts(script, q - 2) && !EventAt(script, q - 1).throws
  }

  /** The new container is started and accepted, and the removal of the old ones begins with action `p`. */
  predicate Accepts(script: seq<Event>, disabled: bool, retries: nat, p: nat) {
    && Clean(EventAt(script, 0)) && Clean(EventAt(script, 1))
    && p >= 2 && AcceptsAfter(Drop(script, 2), disabled, retries, p - 2)
  }

  /** From `p` on the containers are listed, none of `n` removals is cancelled, and one at least has an effect. */
  predicate Removes(script: seq<Event>, p: nat, n: nat) {
    !EventAt(script, p).throws && !SomeCancel(script, p + 1, p + 1 + n) && SomeEffect(script, p + 1, p + 1 + n)
  }

  lemma RemovesFrom(script: seq<Event>, p: nat, n: nat)
    ensures var rest := Drop(script, p);
      && Drop(rest, 1 + n) == Drop(script, p + 1 + n)
      && (Removes(script, p, n) <==>
            !EventAt(rest, 0).throws && !SomeCancel(rest, 1, 1 + n) && SomeEffect(rest, 1, 1 + n))
  {
    hide SomeCancel, SomeEffect, EventAt, Drop;
    DropTwice(script, p, 0);
    DropTwice(script, p, 1 + n);
    SomeDropped(script, p, 1, 1 + n);
  }

  /** The status write at `q` throws, and the failure handler stores its status and removes the new container. */
  predicate Abandons(script: seq<Event>, q: nat) {
    && EventAt(script, q).throws && !EventAt(script, q).cancel
    && Clean(EventAt(script, q + 1)) && EventAt(script, q + 2).effect
  }

  lemma AbandonsFrom(script: seq<Event>, q: nat)
    ensures Abandons(script, q) <==> Abandons(Drop(script, q), 0)
  {
  }

  lemma AbandonsMeans(script: seq<Event>)
    ensures var next := Drop(script, 1);
      Abandons(script, 0) <==>
        && EventAt(script, 0).throws && !EventAt(script, 0).cancel
        && Clean(EventAt(next, 0)) && EventAt(next, 1).effect
  {
  }

  /** The runs with `n` old containers that take the application down, if the handler runs on a fresh copy. */
  predicate Down(script: seq<Event>, disabled: bool, retries: nat, n: nat) {
    exists p: nat ::
      p < retries + 4 && Accepts(script, disabled, retries, p) && Removes(script, p, n) && Abandons(script, p + n + 1)
  }

  /** Such runs exist exactly if there are old containers and a new one can be accepted at all. */
  lemma DownIsPossible(disabled: bool, retries: nat, n: nat)
    ensures (exists script :: Down(script, disabled, retries, n)) <==> n > 0 && (disabled || retries > 0)
  {
    if n > 0 && (disabled || retries > 0) {
      var p := if disabled then 2 else 4;
      var script := seq(p + n + 1, i => QUIET.(health := Healthy)) + [QUIET.(throws := true)];
      assert EventAt(script, p + 1).effect;
      assert Accepts(script, disabled, retries, p) && Removes(script, p, n) && Abandons(script, p + n + 1);
      assert Down(script, disabled, retries, n);
    }
  }

  /** The parts of a deployment job that the rolling update of an application on one server uses. */
  class Deployment {
    const containerName: string
    ghost const oldContainers: set<string>
    var row: Row
    var running: set<string>          // containers of the application on the server
    var newVersionIsHealthy: bool
    var script: seq<Event>

    /** The application can serve: all old containers are there, or the accepted new one is. */
    ghost predicate Serving()
      reads this
    {
      oldContainers <= running || (newVersionIsHealthy && containerName in running)
    }

    ghost predicate Valid()
      reads this
    {
      && containerName !in oldContainers
      && row.successes + row.failures <= 1
      && (row.status.Finished? <==> row.successes == 1)
      && (row.status.Failed? <==> row.failures == 1)
    }

    constructor (name: string, existing: set<string>, events: seq<Event>)
      requires name !in existing
      ensures Valid() && containerName == name && oldContainers == running == existing
      ensures row == Row(InProgress, 0, 0) && !newVersionIsHealthy && script == events
    {
      containerName, oldContainers, running := name, existing, existing;
      row, newVersionIsHealthy, script := Row(InProgress, 0, 0), false, events;
    }

    method NextEvent() returns (e: Event)
      modifies `script
      ensures e == EventAt(old(script), 0)
      ensures script == Drop(old(script), 1)
    {
      if script == [] {
        e := QUIET;
      } else {
        e, script := script[0], script[1..];
      }
    }

    /** A remote command: a cancelled deployment throws before the command runs. */
    method Remote() returns (r: Result, e: Event)
      modifies `script, `row
      ensures e == EventAt(old(script), 0)
      ensures script == Drop(old(script), 1)
      ensures row == AfterEvent(old(row), e)
      ensures r == if row.status.Cancelled? then ThrewCancelled else if e.throws then Threw else Ok
      ensures old(row).status.InProgress? ==>
          (r.Ok? <==> Clean(e)) && (!e.cancel ==> row == old(row)) && (r.ThrewCancelled? <==> e.cancel)
    {
      e := NextEvent();
      if e.cancel {
        row := Cancel(row);
      }
      if row.status.Cancelled? {
        r := ThrewCancelled;
      } else {
        r := if e.throws then Threw else Ok;
      }
    }

    /** Stores a terminal status unless the row has ended. The refresh or the write can throw. */
    method TransitionToStatus(target: Status) returns (r: Result)
      requires Valid() && (target.Finished? || target.Failed?)
      modifies `script, `row
      ensures Valid()
      ensures r.ThrewCancelled? ==> row.status.Cancelled?
      ensures r.Ok? ==> row.status == (if old(row).status.Ended() then old(row).status else target)
      ensures r.Ok? ==> !row.status.Cancelled?
      ensures old(row).status.Ended() ==> row == old(row)
      ensures var e := EventAt(old(script), 0);
        r.Ok? <==> !e.throws && !AfterEvent(old(row), e).status.Cancelled?
      ensures r.Threw? <==> EventAt(old(script), 0).throws
      ensures !r.Ok? ==> row == AfterEvent(old(row), EventAt(old(script), 0))
      ensures script == Drop(old(script), 1)
    {
      var e := NextEvent();
      if e.cancel {
        row := Cancel(row);
      }
      if e.throws {
        return Threw;
      }
      var (after, reply) := Transition(row, target);
      row := after;
      r := if reply.Refused? then ThrewCancelled else Ok;
    }

    /** Starts the new container. When the command throws, the container may or may not exist. */
    method StartByComposeFile() returns (r: Result)
      modifies `script, `row, `running
      ensures script == Drop(old(script), 1)
      ensures row == old(row) || row == Cancel(old(row))
      ensures r.ThrewCancelled? <==> row.status.Cancelled?
      ensures r.Ok? ==> running == old(running) + {containerName} && row == old(row)
      ensures running == old(running) || running == old(running) + {containerName}
      ensures !old(row).status.Ended() ==> (r.Ok? <==> Clean(EventAt(old(script), 0)))
    {
      var e;
      r, e := Remote();
      if r.Ok? || (r.Threw? && e.effect) {
        running := running + {containerName};
      }
    }

    /** Polls the container until a poll decides. The flag is set before a write that can throw. When the last poll
        still says "starting", the logs are queried, which can throw as well. */
    method Poll(retries: nat) returns (r: Result)
      requires row.status.InProgress? && !newVersionIsHealthy
      modifies `script, `row, `newVersionIsHealthy
      ensures row == old(row) || row == Cancel(old(row))
      ensures r.ThrewCancelled? <==> row.status.Cancelled?
      ensures var k := FirstPoll(old(script), 0, retries);
        newVersionIsHealthy <==>
          k < retries && EventAt(old(script), k).health.Healthy? && Clean(EventAt(old(script), k))
      ensures var k := FirstPoll(old(script), 0, retries);
        newVersionIsHealthy ==>
          row == old(row) && script == Drop(old(script), k + 2) && (r.Ok? <==> !EventAt(old(script), k + 1).throws)
      ensures QueriesLogs(old(script), retries) ==> (r.Threw? <==> EventAt(old(script), retries).throws)
    {
      r := Ok;
      var counter := 0;
      var last := NoStatus;
      ghost var start := script;
      ghost var k := FirstPoll(start, 0, retries);
      DropTwice(start, 0, 0);
      hide EventAt, Drop, FirstPoll, AfterEvent, Clean, QueriesLogs;
      while counter < retries
        invariant counter <= retries
        invariant r.Ok? && row == old(row) && !newVersionIsHealthy
        invariant script == Drop(start, counter) && counter <= k
        invariant last == if counter == 0 then NoStatus else EventAt(start, counter - 1).health
      {
        NextAction(start, counter);
        var e;
        r, e := Remote();
        if !r.Ok? {
          return;
        }
        match e.health {
          case Healthy =>
            newVersionIsHealthy := true;
            NextAction(start, counter + 1);
            var saved := NextEvent();
            return if saved.throws then Threw else Ok;
          case Unhealthy =>
            r, e := Remote();
            return;
          case _ =>
            last := e.health;
        }
        counter := counter + 1;
      }
      NextAction(start, retries);
      LogsQueried(start, retries);
      if last.Starting? {
        var e;
        r, e := Remote();
      }
    }

    /** The new container is accepted when health checks are disabled or the first poll that decides says healthy. */
    method HealthCheck(disabled: bool, retries: nat) returns (r: Result)
      requires row.status.InProgress? && !newVersionIsHealthy
      modifies `script, `row, `newVersionIsHealthy
      ensures row == old(row) || row == Cancel(old(row))
      ensures r.ThrewCancelled? <==> row.status.Cancelled?
      ensures newVersionIsHealthy <==> disabled || exists i: nat :: i < retries && PollAccepts(old(script), i)
      ensures disabled ==> r.Ok? && script == old(script)
      ensures forall q: nat :: AcceptsAfter(old(script), disabled, retries, q) ==>
          r.Ok? && newVersionIsHealthy && row == old(row) && script == Drop(old(script), q)
      ensures r.Ok? && newVersionIsHealthy ==>
          exists q: nat :: q < retries + 2 && AcceptsAfter(old(script), disabled, retries, q)
      ensures !disabled && LogsThrow(old(script), retries) ==> r.Threw?
    {
      if disabled {
        newVersionIsHealthy := true;
        assert AcceptsAfter(script, disabled, retries, 0);
        return Ok;
      }
      FirstPollDecides(script, retries);
      LogsMean(script, retries);
      ghost var start, k := script, FirstPoll(script, 0, retries);
      hide EventAt, Drop, PollAccepts, LogsThrow, FirstPoll, QueriesLogs;
      r := Poll(retries);
      assert r.Ok? && newVersionIsHealthy ==> AcceptsAfter(start, disabled, retries, k + 2);
    }

    /** Stops and removes a container. Errors are ignored, so the container may stay. */
    method GracefulShutdown(name: string)
      modifies `script, `row, `running
      ensures row == AfterEvent(old(row), EventAt(old(script), 0))
      ensures running == if row.status.Cancelled? || !EventAt(old(script), 0).effect then old(running)
                         else old(running) - {name}
      ensures script == Drop(old(script), 1)
    {
      var r, e := Remote();
      if !r.ThrewCancelled? && e.effect {
        running := running - {name};
      }
    }

    /** Removes one container after the other. After a cancellation nothing is removed any more. */
    method RemoveAll(containers: set<string>)
      requires row.status.InProgress? && containers <= running
      modifies `script, `row, `running
      ensures row == if SomeCancel(old(script), 0, |containers|) then Cancel(old(row)) else old(row)
      ensures old(running) - containers <= running <= old(running)
      ensures !row.status.Cancelled? ==>
          (containers <= running <==> !SomeEffect(old(script), 0, |containers|))
      ensures !row.status.Cancelled? && AllEffect(old(script), 0, |containers|) ==> running == old(running) - containers
      ensures script == Drop(old(script), |containers|)
    {
      var todo, k := containers, 0;
      ghost var start := script;
      assert !SomeCancel(start, 0, 0) && !SomeEffect(start, 0, 0) && Drop(start, 0) == start;
      hide SomeCancel, SomeEffect, AllEffect, Drop, EventAt;
      while todo != {}
        invariant k + |todo| == |containers| && todo <= containers && todo <= running
        invariant old(running) - containers <= running <= old(running)
        invariant script == Drop(start, k)
        invariant row == if SomeCancel(start, 0, k) then Cancel(old(row)) else old(row)
        invariant !row.status.Cancelled? ==> (containers <= running <==> !SomeEffect(start, 0, k))
        invariant !row.status.Cancelled? && AllEffect(start, 0, k) ==> running <= old(running) - (containers - todo)
        decreases todo
      {
        var name :| name in todo;
        todo := todo - {name};
        DropTwice(start, k, 0);
        DropTwice(start, k, 1);
        SomeNext(start, 0, k);
        GracefulShutdown(name);
        k := k + 1;
      }
    }

    /** Removes every container of the application but the new one. Exceptions are only a warning. */
    method RemoveOldContainers()
      requires Valid() && row.status.InProgress?
      modifies `script, `row, `running
      ensures row == old(row) || row == Cancel(old(row))
      ensures running <= old(running) && (containerName in running <==> containerName in old(running))
      ensures EventAt(old(script), 0).throws ==> running == old(running) && row == old(row)
      ensures var n := |old(running) - {containerName}|;
        !EventAt(old(script), 0).throws ==>
          && script == Drop(old(script), 1 + n) && (row.status.Cancelled? <==> SomeCancel(old(script), 1, 1 + n))
      ensures var others := old(running) - {containerName};
        !EventAt(old(script), 0).throws && !row.status.Cancelled? ==>
          (others <= running <==> !SomeEffect(old(script), 1, 1 + |others|))
      ensures QuietFor(old(script), 1 + |old(running) - {containerName}|) ==>
          running == old(running) * {containerName} && row == old(row)
    {
      ghost var n := |running - {containerName}|;
      DropTwice(script, 1, n);
      SomeDropped(script, 1, 0, n);
      if QuietFor(script, 1 + n) {
        QuietIsClean(script, n);
      }
      hide SomeCancel, SomeEffect, AllEffect, Drop, QuietFor;
      var listing := NextEvent();
      if !listing.throws {
        RemoveAll(running - {containerName});
      }
    }

    /** Removes the old containers once the new one is accepted, else fails the deployment and removes
        the new one. */
    method StopRunningContainer() returns (r: Result)
      requires Valid() && row.status.InProgress?
      modifies `script, `row, `running
      ensures Valid()
      ensures running <= old(running)
      ensures newVersionIsHealthy ==> r.Ok? && (row == old(row) || row == Cancel(old(row)))
      ensures newVersionIsHealthy ==> (containerName in running <==> containerName in old(running))
      ensures newVersionIsHealthy && EventAt(old(script), 0).throws ==> running == old(running)
      ensures var n := |old(running) - {containerName}|;
        newVersionIsHealthy && !EventAt(old(script), 0).throws ==>
          && script == Drop(old(script), 1 + n) && (row.status.Cancelled? <==> SomeCancel(old(script), 1, 1 + n))
      ensures var others := old(running) - {containerName};
        newVersionIsHealthy && !EventAt(old(script), 0).throws && !row.status.Cancelled? ==>
          (others <= running <==> !SomeEffect(old(script), 1, 1 + |others|))
      ensures newVersionIsHealthy && QuietFor(old(script), 1 + |old(running) - {containerName}|) ==>
          running == old(running) * {containerName} && row == old(row)
      ensures !newVersionIsHealthy ==> old(running) - {containerName} <= running
      ensures !newVersionIsHealthy ==> row.status == Failed || !r.Ok?
      ensures !r.Ok? ==> row == old(row) || row == Cancel(old(row))
      ensures r.ThrewCancelled? ==> row.status.Cancelled?
    {
      r := Ok;
      if newVersionIsHealthy {
        RemoveOldContainers();
      } else {
        r := TransitionToStatus(Failed);
        if r.Ok? {
          GracefulShutdown(containerName);
        }
      }
    }

    /** The rolling update up to the health check. */
    method StartNewVersion(disabled: bool, retries: nat) returns (r: Result)
      requires row.status.InProgress? && !newVersionIsHealthy
      modifies `script, `row, `running, `newVersionIsHealthy
      ensures row == old(row) || row == Cancel(old(row))
      ensures r.ThrewCancelled? <==> row.status.Cancelled?
      ensures running == old(running) || running == old(running) + {containerName}
      ensures r.Ok? || newVersionIsHealthy ==> containerName in running
      ensures forall p: nat :: Accepts(old(script), disabled, retries, p) ==>
          r.Ok? && newVersionIsHealthy && script == Drop(old(script), p)
      ensures r.Ok? && newVersionIsHealthy ==>
          exists p: nat :: p < retries + 4 && Accepts(old(script), disabled, retries, p)
    {
      var e;
      ghost var start := script;
      DropTwice(script, 1, 0);
      DropTwice(script, 1, 1);
      r, e := Remote();
      if !r.Ok? {
        return;
      }
      r := StartByComposeFile();
      if !r.Ok? {
        return;
      }
      r := HealthCheck(disabled, retries);
      hide AcceptsAfter, Clean, Drop, EventAt;
      forall p: nat | Accepts(start, disabled, retries, p)
        ensures r.Ok? && newVersionIsHealthy && script == Drop(start, p)
      {
        DropTwice(start, 2, p - 2);
      }
      if r.Ok? && newVersionIsHealthy {
        ghost var q: nat :| q < retries + 2 && AcceptsAfter(Drop(start, 2), disabled, retries, q);
        assert Accepts(start, disabled, retries, q + 2);
      }
    }

    method RunRollingUpdate(disabled: bool, retries: nat) returns (r: Result)
      requires Valid() && row.status.InProgress? && !newVersionIsHealthy
      requires running == oldContainers
      modifies `script, `row, `running, `newVersionIsHealthy
      ensures Valid() && Serving() && running <= oldContainers + {containerName}
      ensures newVersionIsHealthy ==> containerName in running
      ensures newVersionIsHealthy ==> !row.status.Finished? && !row.status.Failed?
      ensures !newVersionIsHealthy ==> oldContainers <= running && !row.status.Finished?
      ensures !newVersionIsHealthy && r.Ok? ==> row.status.Failed?
      ensures r.ThrewCancelled? ==> row.status.Cancelled?
      ensures forall p: nat ::
        Accepts(old(script), disabled, retries, p) && Removes(old(script), p, |oldContainers|) ==>
          && r.Ok? && newVersionIsHealthy && !(oldContainers <= running) && row == old(row)
          && script == Drop(old(script), p + 1 + |oldContainers|)
      ensures !(oldContainers <= running) && !row.status.Cancelled? ==>
          exists p: nat :: p < retries + 4 && Accepts(old(script), disabled, retries, p)
            && Removes(old(script), p, |oldContainers|)
    {
      hide Accepts, SomeCancel, SomeEffect, Drop, EventAt, Removes;
      ghost var start, n := script, |oldContainers|;
      r := StartNewVersion(disabled, retries);
      if !r.Ok? {
        return;
      }
      assert running - {containerName} == oldContainers;
      r := StopRunningContainer();
      forall p: nat | Accepts(start, disabled, retries, p)
        ensures Removes(start, p, n) ==>
          !(oldContainers <= running) && row == old(row) && script == Drop(start, p + 1 + n)
        ensures !(oldContainers <= running) && !row.status.Cancelled? ==> Removes(start, p, n)
      {
        RemovesFrom(start, p, n);
      }
    }

    /** The handler for a job that failed. It runs on a copy of the job, and `seesHealthy` is the health
        flag of that copy. */
    method FailedHandler(thrown: Result, seesHealthy: bool)
      requires Valid() && !thrown.Ok?
      modifies `script, `row, `running
      ensures Valid()
      ensures old(row).status.Ended() ==> row == old(row)
      ensures !row.status.Finished? || row == old(row)
      ensures running == old(running) || running == old(running) - {containerName}
      ensures running != old(running) ==> row.status == if old(row).status.Ended() then old(row).status else Failed
      ensures seesHealthy || thrown.ThrewCancelled? || old(row).status.Cancelled? ==> running == old(running)
      ensures thrown.Threw? && !seesHealthy && old(row).status.InProgress? && containerName in old(running) ==>
          (containerName in running <==> !Clean(EventAt(old(script), 0)) || !EventAt(old(script), 1).effect)
    {
      var r := TransitionToStatus(Failed);
      if !r.Ok? {
        return;
      }
      if thrown.Threw? && !seesHealthy {
        GracefulShutdown(containerName);
      }
    }

    /** A whole run: the rolling update, then completion; any exception hands the job to the failure
        handler, which sees the health flag of this run unless it runs on a fresh copy. */
    method Handle(disabled: bool, retries: nat, freshCopy: bool) returns (thrown: Result)
      requires Valid() && row.status.InProgress? && !newVersionIsHealthy && running == oldContainers
      modifies this
      ensures Valid()
      ensures !freshCopy ==> Serving()
      ensures Serving() || (freshCopy && newVersionIsHealthy && thrown.Threw? && row.status.Failed?)
      ensures row.status.Finished? ==> newVersionIsHealthy && containerName in running && thrown.Ok?
      ensures !newVersionIsHealthy ==> oldContainers <= running
      ensures !newVersionIsHealthy && thrown.Ok? ==> row.status.Failed?
      ensures thrown.Ok? && newVersionIsHealthy ==> row.status.Finished?
      ensures !Serving() <==> freshCopy && Down(old(script), disabled, retries, |oldContainers|)
    {
      ghost var start, n := script, |oldContainers|;
      hide Accepts, Removes, Abandons, Drop, EventAt, Clean;
      thrown := RunRollingUpdate(disabled, retries);
      forall p: nat | Accepts(start, disabled, retries, p) && Removes(start, p, n)
        ensures Abandons(start, p + n + 1) <==> Abandons(script, 0)
      {
        AbandonsFrom(start, p + 1 + n);
      }
      AbandonsMeans(script);
      if thrown.Ok? {
        thrown := TransitionToStatus(Finished);
      }
      if !thrown.Ok? {
        FailedHandler(thrown, newVersionIsHealthy && !freshCopy);
      }
    }
  }
}
