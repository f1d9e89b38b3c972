/**
 What the status arithmetic of a task means: when a task counts as created, running or stopped, what its
 containers are then meant to do, what a failed event leaves, and which calls a look at a container
 starts.
 */
module TaskUpdates {
  import opened TaskState
  import opened TaskMachine
  import opened TaskRuns
  import opened TaskStop

  // --- the known status of the task -----------------------------------------------------------------

  /** What a container must have reached for its task to count as `status`. */
  predicate Reached(c: Container, status: int) {
    || c.known == STOPPED
    || (status <= TASK_RUNNING && c.known == c.steady)
    || (status <= TASK_CREATED && (c.known == CREATED || (c.known == RUNNING && c.steady == RESOURCES_PROVISIONED)))
  }

  lemma {:induction false} EarliestReached(cs: seq<Container>, status: int)
    requires forall i | 0 <= i < |cs| :: ValidContainer(cs[i])
    requires status == TASK_CREATED || status == TASK_RUNNING || status == TASK_STOPPED
    ensures Earliest(cs) >= status <==> forall i | 0 <= i < |cs| :: Reached(cs[i], status)
  {
    if cs != [] {
      var front := cs[..|cs| - 1];
      EarliestReached(front, status);
      assert forall i | 0 <= i < |front| :: front[i] == cs[i];
    }
  }

  /** The slowest container is the first of those with the lowest known status. */
  lemma {:induction false} SlowestIsFirst(cs: seq<Container>)
    requires cs != []
    ensures var k := Slowest(cs);
      && (forall i | 0 <= i < |cs| :: cs[k].known <= cs[i].known)
      && (forall i | 0 <= i < k :: cs[k].known < cs[i].known)
  {
    if |cs| > 1 {
      var front := cs[..|cs| - 1];
      SlowestIsFirst(front);
      assert forall i | 0 <= i < |front| :: front[i] == cs[i];
    }
  }

  /** An essential container has stopped, and the first of the slowest ones is still in its steady state. */
  ghost predicate Waits(cs: seq<Container>) {
    && (exists i | 0 <= i < |cs| :: cs[i].essential && cs[i].known == STOPPED)
    && exists k | 0 <= k < |cs| ::
         && cs[k].known == cs[k].steady
         && (forall i | 0 <= i < |cs| :: cs[k].known <= cs[i].known) && forall i | 0 <= i < k :: cs[k].known < cs[i].known
  }

  lemma HeldBackIsWaiting(cs: seq<Container>)
    requires cs != []
    ensures HeldBack(cs) <==> Waits(cs)
  {
    SlowestIsFirst(cs);
    if Waits(cs) {
      var k :| 0 <= k < |cs| && cs[k].known == cs[k].steady
        && (forall i | 0 <= i < |cs| :: cs[k].known <= cs[i].known) && forall i | 0 <= i < k :: cs[k].known < cs[i].known;
      assert k == Slowest(cs);
    }
  }

  /** An update takes the task to a status exactly when all its containers have reached it and none holds it back. */
  lemma KnownMeansReached(t: Task, status: int)
    requires ValidTask(t) && t.known < status
    requires status == TASK_CREATED || status == TASK_RUNNING || status == TASK_STOPPED
    ensures UpdateStatus(t).known >= status <==>
      t.containers != [] && !Waits(t.containers) && forall i | 0 <= i < |t.containers| :: Reached(t.containers[i], status)
  {
    EarliestReached(t.containers, status);
    EarliestInRange(t.containers);
    if t.containers != [] { HeldBackIsWaiting(t.containers); }
  }

  /**
   So a task is known to run exactly when each of its containers is in its steady state or stopped, and
   no essential one has stopped before all the others.
   */
  lemma RunningMeansSteady(t: Task)
    requires ValidTask(t) && t.known < TASK_RUNNING
    ensures UpdateStatus(t).known >= TASK_RUNNING <==>
      && t.containers != []
      && (forall i | 0 <= i < |t.containers| :: t.containers[i].known == t.containers[i].steady || t.containers[i].known == STOPPED)
      && ((forall i | 0 <= i < |t.containers| :: t.containers[i].known == STOPPED) ||
          (forall i | 0 <= i < |t.containers| && t.containers[i].essential :: t.containers[i].known != STOPPED))
  {
    KnownMeansReached(t, TASK_RUNNING);
    var cs := t.containers;
    if cs != [] && forall i | 0 <= i < |cs| :: Reached(cs[i], TASK_RUNNING) {
      HeldBackIsWaiting(cs);
      SlowestIsFirst(cs);
      assert ValidContainer(cs[Slowest(cs)]);
    }
  }

  /** An update changes the known status to CREATED, RUNNING or STOPPED, or not at all. */
  lemma KnownIsOneOf(t: Task)
    requires ValidTask(t)
    ensures UpdateStatus(t).known in {t.known, TASK_CREATED, TASK_RUNNING, TASK_STOPPED}
  {
    EarliestInRange(t.containers);
    EarliestIsMapped(t.containers);
  }

  lemma {:induction false} EarliestIsMapped(cs: seq<Container>)
    ensures Earliest(cs) in {TASK_NONE, TASK_CREATED, TASK_RUNNING, TASK_STOPPED, TASK_ZOMBIE}
  {
    if cs != [] { EarliestIsMapped(cs[..|cs| - 1]); }
  }

  // --- desired statuses -----------------------------------------------------------------------------------

  /** A task is meant to stop when it was, or an essential container has stopped or is meant to; else its order stays. */
  lemma DesiredStopsIff(t: Task)
    requires ValidTask(t)
    ensures UpdateDesired(t).desired == TASK_STOPPED <==>
      || t.desired == TASK_STOPPED
      || exists c | c in t.containers :: c.essential && (c.known == STOPPED || c.desired == STOPPED)
    ensures UpdateDesired(t).desired == TASK_STOPPED || UpdateDesired(t).desired == t.desired
  {
  }

  /** Each container is then meant to do what the task is meant to do, unless it is meant to do more. */
  lemma DesiredReachesContainers(t: Task, i: nat)
    requires ValidTask(t) && i < |t.containers|
    ensures var u := UpdateDesired(t);
      var c, d := t.containers[i], u.containers[i];
      && d == c.(desired := d.desired)
      && (u.desired == TASK_STOPPED ==> d.desired == STOPPED)
      && (u.desired == TASK_RUNNING ==> d.desired == if c.desired == STOPPED then STOPPED else c.steady)
      && (u.desired == TASK_CREATED ==> d.desired == if c.desired < CREATED then CREATED else c.desired)
      && (u.desired < TASK_CREATED ==> d.desired == c.desired)
  {
  }

  // --- events with errors -----------------------------------------------------------------------------------

  /** The create, the start or the provisioning of a container failed. */
  predicate FailsForward(c: Container, status: int, err: Failure) {
    c.known < status && CREATED <= status <= RESOURCES_PROVISIONED && err != NoError
  }

  /** Then the container stays where it was and is meant to stop; nothing else changes. */
  lemma FailedForward(t: Task, i: nat, status: int, err: Failure, failOnPull: bool)
    requires ValidTask(t) && i < |t.containers| && FailsForward(t.containers[i], status, err)
    ensures var c, u := t.containers[i], HandleEvent(t, i, status, err, failOnPull);
      && u == t.(containers := t.containers[i := u.containers[i]])
      && u.containers[i] == c.(desired := STOPPED, applied := u.containers[i].applied)
      && u.containers[i].applied == (if c.applied <= status then NONE else c.applied)
  {
  }

  /** A failed stop: an error that may pass leaves the container alone, any other counts as stopped. */
  lemma FailedStop(t: Task, i: nat, err: Failure, failOnPull: bool)
    requires ValidTask(t) && i < |t.containers| && t.containers[i].known < STOPPED && err != NoError
    ensures var c, u := t.containers[i], HandleEvent(t, i, STOPPED, err, failOnPull);
      if err == Timeout || err == RetriableStop
      then u == t.(containers := t.containers[i := c.(applied := NONE)])
      else u.containers[i] == c.(known := STOPPED, desired := STOPPED, applied := NONE) && (c.essential ==> u.desired == TASK_STOPPED)
  {
    if err != Timeout && err != RetriableStop {
      var v := t.(containers := t.containers[i := t.containers[i].(known := STOPPED, desired := STOPPED, applied := NONE)]);
      assert HandleEvent(t, i, STOPPED, err, failOnPull) == UpdateStatus(v);
      assert v.containers[i].known == STOPPED;
    }
  }

  /** A failed pull counts as pulled; it stops the task, or is otherwise like one that succeeded. */
  lemma FailedPull(t: Task, i: nat, err: Failure, failOnPull: bool)
    requires ValidTask(t) && i < |t.containers| && t.containers[i].known < PULLED && err != NoError
    ensures var u := HandleEvent(t, i, PULLED, err, failOnPull);
      && u.containers[i].known == PULLED
      && (if failOnPull then u.desired == TASK_STOPPED && u.known == t.known else u == HandleEvent(t, i, PULLED, NoError, failOnPull))
  {
  }

  /** An event without an error takes the container to its status, which ends a transition up to there. */
  lemma Succeeded(t: Task, i: nat, status: int, failOnPull: bool)
    requires ValidTask(t) && i < |t.containers| && t.containers[i].known < status <= STOPPED
    ensures var c, u := t.containers[i], HandleEvent(t, i, status, NoError, failOnPull);
      && u.containers[i].known == status && u.containers[i].applied == (if c.applied <= status then NONE else c.applied)
      && u == UpdateStatus(t.(containers := t.containers[i := c.(known := status, applied := u.containers[i].applied)]))
  {
  }

  /**
   The handler starts a stop call of its own exactly for a failed start of which it is not known whether
   the container runs, and for the first stopped container that turns up running.
   */
  lemma StartsStopIff(c: Container, status: int, err: Failure, failOnPull: bool, spent: bool)
    requires ValidContainer(c) && NONE <= status <= STOPPED
    ensures StartsStop(c, status, err, failOnPull, spent) <==>
      || (IsRunning(status) && c.known < status && (err == Timeout || err == CannotInspect || err == StartEof))
      || (IsRunning(status) && c.known == STOPPED && !spent)
  {
  }

  // --- a container that is meant to stop ----------------------------------------------------------------------

  /** A forward call: pull, create, start or provision. */
  predicate IsForward(status: int) { PULLED <= status <= RESOURCES_PROVISIONED }

  lemma HandleCalls(m: Machine, k: nat, status: int, err: Failure, failOnPull: bool)
    requires k < |m.task.containers|
    ensures forall i: nat, call | call != STOPPED :: Handle(m, k, status, err, failOnPull).inflight[(i, call)] == m.inflight[(i, call)]
  {
  }

  lemma ConsiderCalls(m: Machine, k: nat, resolved: bool, i: nat)
    requires k < |m.task.containers| && i < |m.task.containers| && m.task.containers[i].desired == STOPPED
    ensures forall call | call != STOPPED :: DoConsider(m, k, resolved).inflight[(i, call)] == m.inflight[(i, call)]
  {
  }

  lemma StoppingStep(m: Machine, s: Step, i: nat, failOnPull: bool)
    requires ValidMachine(m) && Enabled(m, s) && i < |m.task.containers| && m.task.containers[i].desired == STOPPED
    ensures var n := Next(m, s, failOnPull);
      && i < |n.task.containers| && n.task.containers[i].desired == STOPPED
      && forall status | IsForward(status) :: n.inflight[(i, status)] <= m.inflight[(i, status)]
  {
    StepForward(m, s, failOnPull);
    assert ValidContainer(Next(m, s, failOnPull).task.containers[i]);
    match s
    case Docker(k, status, err) => HandleCalls(m, k, status, err, failOnPull);
    case Complete(k, status, err) => HandleCalls(m.(inflight := m.inflight - multiset{(k, status)}), k, status, err, failOnPull);
    case Deliver(k, status) => HandleCalls(m.(messages := m.messages - multiset{(k, status)}), k, status, NoError, failOnPull);
    case Consider(k, resolved) => ConsiderCalls(m, k, resolved, i);
    case _ =>
  }

  /** No pull, create, start or provisioning of a container that is meant to stop begins in any run. */
  lemma {:induction false} StoppingNeverStarts(m: Machine, run: seq<Step>, i: nat, failOnPull: bool)
    requires ValidMachine(m) && CanRun(m, run, failOnPull) && i < |m.task.containers| && m.task.containers[i].desired == STOPPED
    ensures var n := Run(m, run, failOnPull);
      && i < |n.task.containers| && n.task.containers[i].desired == STOPPED
      && forall status | IsForward(status) :: n.inflight[(i, status)] <= m.inflight[(i, status)]
    decreases run
  {
    if run != [] {
      StepForward(m, run[0], failOnPull);
      StoppingStep(m, run[0], i, failOnPull);
      StoppingNeverStarts(Next(m, run[0], failOnPull), run[1..], i, failOnPull);
    }
  }

  /** After a failed create, start or provisioning of a container, whatever follows, none of them begins again. */
  lemma FailedNeverStartsAgain(m: Machine, s: Step, run: seq<Step>, failOnPull: bool)
    requires ValidMachine(m) && Enabled(m, s) && (s.Docker? || s.Complete?)
    requires FailsForward(m.task.containers[s.container], s.status, s.err)
    requires CanRun(Next(m, s, failOnPull), run, failOnPull)
    ensures var i, n := s.container, Run(Next(m, s, failOnPull), run, failOnPull);
      && i < |n.task.containers| && n.task.containers[i].desired == STOPPED
      && forall status | IsForward(status) :: n.inflight[(i, status)] <= m.inflight[(i, status)]
  {
    FailedForward(m.task, s.container, s.status, s.err, failOnPull);
    StepForward(m, s, failOnPull);
    StoppingNeverStarts(Next(m, s, failOnPull), run, s.container, failOnPull);
  }

  // --- orders and the ends of calls -----------------------------------------------------------------------------

  /** An order takes effect on the task and all its containers when it asks for more than before, and never otherwise. */
  lemma OrderTakesEffect(m: Machine, desired: int, seqnum: int, failOnPull: bool)
    requires ValidMachine(m) && Enabled(m, Order(desired, seqnum))
    ensures var n := Next(m, Order(desired, seqnum), failOnPull);
      && (desired <= m.task.desired ==> n == m)
      && (desired > m.task.desired ==> n.task.desired == desired || n.task.desired == TASK_STOPPED)
      && (desired > m.task.desired && desired == TASK_STOPPED ==> forall c | c in n.task.containers :: c.desired == STOPPED)
      && (desired > m.task.desired && desired == TASK_RUNNING ==>
            forall c | c in n.task.containers :: c.desired == c.steady || c.desired == STOPPED)
      && n.inflight == m.inflight && n.messages == m.messages && n.task.known == m.task.known
  {
    var t := Next(m, Order(desired, seqnum), failOnPull).task;
    forall c | c in t.containers && desired > m.task.desired
      ensures t.desired == TASK_STOPPED ==> c.desired == STOPPED
      ensures t.desired == TASK_RUNNING ==> c.desired == c.steady || c.desired == STOPPED
    {
      var i :| 0 <= i < |t.containers| && t.containers[i] == c;
      assert ValidContainer(m.task.containers[i]);
    }
  }

  /** After a failed resource the task is meant to stop, and with the next update all its containers are. */
  lemma ResourceFailureStops(m: Machine, failOnPull: bool)
    requires ValidMachine(m)
    ensures var n := Next(m, ResourceFailed, failOnPull);
      && n.task == m.task.(desired := TASK_STOPPED)
      && forall c | c in Next(n, Refresh, failOnPull).task.containers :: c.desired == STOPPED
  {
    var n := Next(m, ResourceFailed, failOnPull);
    var t := Next(n, Refresh, failOnPull).task;
    forall c | c in t.containers ensures c.desired == STOPPED {
      var i :| 0 <= i < |t.containers| && t.containers[i] == c;
      assert ValidContainer(n.task.containers[i]);
    }
  }

  /** A call that has ended and a message that has arrived are gone; only a stop call may be new. */
  lemma EndsAreTaken(m: Machine, s: Step, failOnPull: bool)
    requires Enabled(m, s) && (s.Complete? || s.Deliver?)
    ensures var n := Next(m, s, failOnPull);
      && n.messages == (if s.Deliver? then m.messages - multiset{(s.container, s.status)} else m.messages)
      && forall i: nat, call | call != STOPPED ::
           n.inflight[(i, call)] == m.inflight[(i, call)] - (if s.Complete? && (i, call) == (s.container, s.status) then 1 else 0)
  {
    var left := if s.Complete? then m.(inflight := m.inflight - multiset{(s.container, s.status)})
      else m.(messages := m.messages - multiset{(s.container, s.status)});
    HandleCalls(left, s.container, s.status, if s.Complete? then s.err else NoError, failOnPull);
  }

  // --- what a look at a container starts -----------------------------------------------------------------------

  /** Exactly one status up, when the container is meant to go on. */
  lemma ForwardByOne(m: Machine, i: nat)
    requires ValidMachine(m) && i < |m.task.containers|
    requires var c := m.task.containers[i]; c.known < c.desired && c.desired != STOPPED && c.applied == NONE
    ensures var c := m.task.containers[i];
      DoConsider(m, i, true) == m.(task := m.task.(containers := m.task.containers[i := c.(applied := c.known + 1)]),
                                   inflight := m.inflight + multiset{(i, c.known + 1)})
    ensures IsForward(m.task.containers[i].known + 1)
  {
  }

  /** To STOPPED, when it is meant to stop: by a call if it runs, by a message otherwise, but never past a start. */
  lemma StopByCallOrMessage(m: Machine, i: nat)
    requires ValidMachine(m) && i < |m.task.containers|
    requires m.task.containers[i].known < STOPPED && m.task.containers[i].desired == STOPPED
    ensures var c, n := m.task.containers[i], DoConsider(m, i, true);
      if !IsRunning(c.known) then n == m.(messages := m.messages + multiset{(i, if c.applied == RUNNING then NONE else STOPPED)})
      else if c.applied == NONE
      then n == m.(task := m.task.(containers := m.task.containers[i := c.(applied := STOPPED)]),
                   inflight := m.inflight + multiset{(i, STOPPED)})
      else n == m
  {
  }

  /** A container that is where it is meant to be, has a transition in progress or must wait starts no call. */
  lemma NothingToStart(m: Machine, i: nat, resolved: bool)
    requires ValidMachine(m) && i < |m.task.containers|
    requires var c := m.task.containers[i]; c.desired <= c.known || !resolved || c.applied != NONE
    ensures DoConsider(m, i, resolved).inflight == m.inflight && DoConsider(m, i, resolved).task == m.task
  {
  }

  /** A look at the container that its dependencies let through, or the end without an error of what a look started. */
  predicate Drives(s: Step, i: nat) {
    match s
    case Consider(k, resolved) => k == i && resolved
    case Complete(k, _, err) => k == i && err == NoError
    case Deliver(k, _) => k == i
    case _ => false
  }

  /** Where a container that is to move goes next. */
  function Target(c: Container): int { if c.desired == STOPPED then STOPPED else c.known + 1 }

  /** The end of what a look at the container starts. */
  function Ending(c: Container, i: nat): Step {
    if c.desired == STOPPED && !IsRunning(c.known) then Deliver(i, STOPPED) else Complete(i, Target(c), NoError)
  }

  lemma LookStarts(m: Machine, i: nat)
    requires ValidMachine(m) && i < |m.task.containers|
    requires m.task.containers[i].applied == NONE && m.task.containers[i].known < m.task.containers[i].desired
    ensures var c, n := m.task.containers[i], DoConsider(m, i, true);
      && Enabled(n, Ending(c, i)) && n.over == m.over && n.task.known == m.task.known
      && n.task.containers[i] == c.(applied := n.task.containers[i].applied) && n.task.containers[i].applied <= Target(c)
      && c.known < Target(c) <= STOPPED
  {
    assert ValidContainer(m.task.containers[i]);
    if m.task.containers[i].desired == STOPPED { StopByCallOrMessage(m, i); } else { ForwardByOne(m, i); }
  }

  /** The container went to its target; the task is not known to be stopped unless that is STOPPED. */
  ghost predicate Advanced(m: Machine, n: Machine, i: nat)
    requires i < |m.task.containers|
  {
    && ValidMachine(n) && Forward(m.task, n.task) && !n.over
    && n.task.containers[i].known == Target(m.task.containers[i]) && n.task.containers[i].applied == NONE
    && (n.task.known == TASK_STOPPED ==> n.task.containers[i].known == STOPPED)
  }

  lemma LookAndEnd(m: Machine, i: nat, failOnPull: bool)
    requires ValidMachine(m) && !m.over && m.task.known < TASK_STOPPED && i < |m.task.containers|
    requires m.task.containers[i].applied == NONE && m.task.containers[i].known < m.task.containers[i].desired
    ensures var n, end := DoConsider(m, i, true), Ending(m.task.containers[i], i);
      Enabled(n, end) && Advanced(m, Next(n, end, failOnPull), i)
  {
    var c, n := m.task.containers[i], DoConsider(m, i, true);
    var end := Ending(c, i);
    LookStarts(m, i);
    ConsiderForward(m, i, true);
    EndTakesTo(n, end, i, Target(c), failOnPull);
    ForwardTwice(m.task, n.task, Next(n, end, failOnPull).task);
  }

  /** One look and the end of what it started take the container one status up, or to STOPPED. */
  lemma Advances(m: Machine, i: nat, failOnPull: bool) returns (run: seq<Step>)
    requires ValidMachine(m) && !m.over && m.task.known < TASK_STOPPED && i < |m.task.containers|
    requires m.task.containers[i].applied == NONE && m.task.containers[i].known < m.task.containers[i].desired
    ensures CanRun(m, run, failOnPull) && forall s | s in run :: Drives(s, i)
    ensures Advanced(m, Run(m, run, failOnPull), i)
  {
    var end := Ending(m.task.containers[i], i);
    LookAndEnd(m, i, failOnPull);
    RunTwo(m, Consider(i, true), end, failOnPull);
    run := [Consider(i, true), end];
  }

  lemma ForwardTwice(t: Task, u: Task, v: Task)
    requires Forward(t, u) && Forward(u, v)
    ensures Forward(t, v)
  {
  }

  lemma EndTakesTo(n: Machine, s: Step, i: nat, status: int, failOnPull: bool)
    requires ValidMachine(n) && n.task.known < TASK_STOPPED && i < |n.task.containers| && Enabled(n, s)
    requires s == Complete(i, status, NoError) || s == Deliver(i, status)
    requires n.task.containers[i].known < status <= STOPPED && n.task.containers[i].applied <= status
    ensures var u := Next(n, s, failOnPull);
      && ValidMachine(u) && Forward(n.task, u.task) && u.over == n.over
      && u.task.containers[i].known == status && u.task.containers[i].applied == NONE
      && (u.task.known == TASK_STOPPED ==> status == STOPPED)
  {
    StepForward(n, s, failOnPull);
    EventTakesTo(n.task, i, status, failOnPull);
  }

  lemma EventTakesTo(t: Task, i: nat, status: int, failOnPull: bool)
    requires ValidTask(t) && t.known < TASK_STOPPED && i < |t.containers| && t.containers[i].known < status <= STOPPED
    ensures var u := HandleEvent(t, i, status, NoError, failOnPull);
      && i < |u.containers| && u.containers[i].known == status
      && u.containers[i].applied == (if t.containers[i].applied <= status then NONE else t.containers[i].applied)
      && (u.known == TASK_STOPPED ==> status == STOPPED)
  {
    var c := t.containers[i];
    var applied := if c.applied <= status then NONE else c.applied;
    var v := t.(containers := t.containers[i := c.(known := status, applied := applied)]);
    Succeeded(t, i, status, failOnPull);
    assert ValidTask(v) by { assert ValidContainer(v.containers[i]); }
    StoppedMeansAllStopped(v);
    assert v.containers[i].known == status;
  }

  /**
   From every state of every run, a container without a transition in progress has a run to the status
   that it is meant to have: looks at it whose calls succeed.
   */
  lemma {:induction false} DrivenToDesired(m: Machine, i: nat, failOnPull: bool) returns (run: seq<Step>)
    requires ValidMachine(m) && !m.over && m.task.known < TASK_STOPPED && i < |m.task.containers|
    requires m.task.containers[i].applied == NONE
    ensures CanRun(m, run, failOnPull)
    ensures i < |Run(m, run, failOnPull).task.containers|
    ensures m.task.containers[i].desired <= Run(m, run, failOnPull).task.containers[i].known
    ensures forall s | s in run :: Drives(s, i)
    decreases STOPPED - m.task.containers[i].known
  {
    run := [];
    if m.task.containers[i].known < m.task.containers[i].desired {
      var first := Advances(m, i, failOnPull);
      var n := Run(m, first, failOnPull);
      run := first;
      if n.task.containers[i].known < m.task.containers[i].desired {
        assert ValidContainer(n.task.containers[i]) && ValidContainer(m.task.containers[i]);
        var rest := DrivenToDesired(n, i, failOnPull);
        RunConcat(m, first, rest, failOnPull);
        run := first + rest;
      }
    }
  }
}
