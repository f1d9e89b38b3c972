/**
 The shortcut that marks a container stopped without a Docker call must not hit a container
 whose start is already under way.
 */
module TaskShortcut {
  import opened TaskState
  import opened TaskMachine
  import opened TaskRuns
  import opened TaskStop

  ghost predicate Indexed(m: Machine) {
    && (forall p | p in m.inflight :: p.0 < |m.task.containers|)
    && (forall p | p in m.messages :: p.0 < |m.task.containers|)
  }

  /** A pending stop message belongs to a container meant to stop, with no start in progress. */
  ghost predicate PendingStopOK(m: Machine, i: nat)
    requires i < |m.task.containers|
  {
    m.messages[(i, STOPPED)] > 0 ==> m.task.containers[i].desired == STOPPED && m.task.containers[i].applied != RUNNING
  }

  /** The start calls of container i, as long as it is not known to be running. */
  ghost predicate StartOK(m: Machine, i: nat)
    requires i < |m.task.containers|
  {
    var c := m.task.containers[i];
    && (m.inflight[(i, RESOURCES_PROVISIONED)] > 0 ==> RUNNING <= c.known)
    && (c.known < RUNNING && m.inflight[(i, RUNNING)] > 0 ==>
          m.inflight[(i, RUNNING)] == 1 && c.applied == RUNNING && m.inflight[(i, STOPPED)] == 0)
    && (c.known < RUNNING && m.inflight[(i, STOPPED)] > 0 ==> c.desired == STOPPED)
    && (m.messages[(i, STOPPED)] > 0 ==> m.inflight[(i, RUNNING)] == 0)
  }

  ghost predicate Pending(m: Machine) {
    ValidMachine(m) && Indexed(m) && forall i | 0 <= i < |m.task.containers| :: PendingStopOK(m, i)
  }

  ghost predicate Starts(m: Machine) {
    Pending(m) && forall i | 0 <= i < |m.task.containers| :: StartOK(m, i)
  }

  /**
   A report that takes back the applied status: the container is reported as running with an error, or
   as stopped with an error that leaves it where it was.
   */
  predicate TakesBack(status: int, err: Failure) {
    err != NoError && (IsRunning(status) || (status == STOPPED && (err == Timeout || err == RetriableStop)))
  }

  /** The main loop considers no container any more. */
  predicate Dormant(m: Machine) { m.over || m.task.known == TASK_STOPPED }

  /** Docker makes such a report while the start of the container is in progress and the task goes on. */
  predicate Endangers(m: Machine, s: Step) {
    && !Dormant(m)
    && s.Docker? && s.container < |m.task.containers| && TakesBack(s.status, s.err)
    && m.task.containers[s.container].known < RUNNING && m.inflight[(s.container, RUNNING)] > 0
  }

  lemma HandledContainer(t: Task, i: nat, status: int, err: Failure, failOnPull: bool)
    requires ValidTask(t) && i < |t.containers| && NONE <= status <= STOPPED
    ensures var c := t.containers[i];
            var u := HandleEvent(t, i, status, err, failOnPull);
            && |u.containers| == |t.containers|
            && (if status <= c.known then u == t
                else var o := ApplyEvent(c, status, err, failOnPull);
                     && u.containers[i].known == o.container.known && u.containers[i].applied == o.container.applied
                     && o.container.desired <= u.containers[i].desired)
  {
  }

  lemma HandlePending(m: Machine, i: nat, status: int, err: Failure, failOnPull: bool)
    requires Pending(m) && i < |m.task.containers| && NONE <= status <= STOPPED
    ensures Pending(Handle(m, i, status, err, failOnPull))
  {
    var n := Handle(m, i, status, err, failOnPull);
    HandleEventGrows(m.task, i, status, err, failOnPull);
    forall k | 0 <= k < |n.task.containers| ensures PendingStopOK(n, k) {
      assert PendingStopOK(m, k) && Grew(m.task.containers[k], n.task.containers[k]) && ValidContainer(n.task.containers[k]);
    }
  }

  /** What a look at container i adds to the books; a stop message only where it is safe. */
  lemma Considered(m: Machine, i: nat, resolved: bool)
    requires Pending(m) && i < |m.task.containers|
    ensures var c, n := m.task.containers[i], DoConsider(m, i, resolved);
      && |n.task.containers| == |m.task.containers|
      && (forall k | 0 <= k < |m.task.containers| && k != i :: n.task.containers[k] == m.task.containers[k])
      && (forall k, status | k != i :: n.messages[(k, status)] == m.messages[(k, status)])
      && (n.messages[(i, STOPPED)] == m.messages[(i, STOPPED)] ||
          (n.task == m.task && c.desired == STOPPED && c.known < RUNNING && c.applied != RUNNING))
      && (n.task.containers[i] == c || (n.task.containers[i] == c.(applied := n.task.containers[i].applied) && n.messages == m.messages
            && (c.desired == STOPPED ==> IsRunning(c.known) && n.task.containers[i].applied == STOPPED)))
      && Indexed(n)
  {
  }

  lemma ConsiderPending(m: Machine, i: nat, resolved: bool)
    requires Pending(m) && i < |m.task.containers|
    ensures Pending(DoConsider(m, i, resolved))
  {
    var n := DoConsider(m, i, resolved);
    ConsiderForward(m, i, resolved);
    Considered(m, i, resolved);
    forall k | 0 <= k < |n.task.containers| ensures PendingStopOK(n, k) {
      assert PendingStopOK(m, k);
    }
  }

  /** Only desired statuses, which never decrease, may have changed. */
  lemma QuietPending(m: Machine, n: Machine)
    requires Pending(m) && ValidMachine(n) && Forward(m.task, n.task)
    requires n.inflight == m.inflight && n.messages == m.messages
    requires forall k | 0 <= k < |m.task.containers| :: n.task.containers[k].applied == m.task.containers[k].applied
    ensures Pending(n)
  {
    forall k | 0 <= k < |n.task.containers| ensures PendingStopOK(n, k) {
      assert PendingStopOK(m, k) && ValidContainer(n.task.containers[k]);
    }
  }

  /** Taking a call or a message off the books. */
  lemma FewerPending(m: Machine, n: Machine)
    requires Pending(m) && n.task == m.task && n.inflight <= m.inflight && n.messages <= m.messages
    ensures Pending(n)
  {
    forall k | 0 <= k < |n.task.containers| ensures PendingStopOK(n, k) {
      assert PendingStopOK(m, k);
      assert n.messages[(k, STOPPED)] <= m.messages[(k, STOPPED)];
    }
  }

  function Taken(m: Machine, s: Step): Machine {
    match s
    case Complete(i, status, _) => m.(inflight := m.inflight - multiset{(i, status)})
    case Deliver(i, status) => m.(messages := m.messages - multiset{(i, status)})
    case _ => m
  }

  lemma OtherPending(m: Machine, s: Step, failOnPull: bool)
    requires Pending(m) && Enabled(m, s)
    requires s.Order? || s.ResourceFailed? || s.Refresh? || s.GiveUp? || s.Exit?
    ensures Pending(Next(m, s, failOnPull))
  {
    StepForward(m, s, failOnPull);
    if s.Refresh? { UpdateStatusGrows(m.task); }
    QuietPending(m, Next(m, s, failOnPull));
  }

  lemma PendingStep(m: Machine, s: Step, failOnPull: bool)
    requires Pending(m) && Enabled(m, s)
    ensures Pending(Next(m, s, failOnPull))
  {
    FewerPending(m, Taken(m, s));
    match s
    case Docker(i, status, err) => HandlePending(m, i, status, err, failOnPull);
    case Complete(i, status, err) => HandlePending(Taken(m, s), i, status, err, failOnPull);
    case Deliver(i, status) => HandlePending(Taken(m, s), i, status, NoError, failOnPull);
    case Consider(i, resolved) => ConsiderPending(m, i, resolved);
    case _ => OtherPending(m, s, failOnPull);
  }

  lemma {:induction false} PendingForever(m: Machine, run: seq<Step>, failOnPull: bool)
    requires Pending(m) && CanRun(m, run, failOnPull)
    ensures Pending(Run(m, run, failOnPull))
    decreases run
  {
    if run != [] {
      PendingStep(m, run[0], failOnPull);
      PendingForever(Next(m, run[0], failOnPull), run[1..], failOnPull);
    }
  }

  /**
   In every run, a container with a pending stop message is meant to be stopped and has no start
   applied: the message is never sent while the applied status is RUNNING, and none can be applied
   until it is handled.
   */
  lemma PendingStopIsSafe(m: Machine, run: seq<Step>, failOnPull: bool, i: nat)
    requires Start(m) && CanRun(m, run, failOnPull)
    requires i < |Run(m, run, failOnPull).task.containers| && Run(m, run, failOnPull).messages[(i, STOPPED)] > 0
    ensures Run(m, run, failOnPull).task.containers[i].desired == STOPPED
    ensures Run(m, run, failOnPull).task.containers[i].applied != RUNNING
  {
    PendingForever(m, run, failOnPull);
    assert PendingStopOK(Run(m, run, failOnPull), i);
  }

  // --- and no start call is under way, unless a report took its applied status back -------------

  /** Container i after an event that leaves it not running. */
  lemma StillNotRunning(c: Container, status: int, err: Failure, failOnPull: bool)
    requires ValidContainer(c) && c.known < status <= STOPPED
    ensures var o := ApplyEvent(c, status, err, failOnPull);
            o.container.known < RUNNING && status < RUNNING && c.applied == RUNNING ==> o.container.applied == RUNNING
    ensures var o := ApplyEvent(c, status, err, failOnPull);
            o.forceStop ==> o.container.desired == STOPPED && IsRunning(status)
    ensures err == NoError ==> ApplyEvent(c, status, err, failOnPull).container.known == status
  {
  }

  /**
   Handling an event of container i whose start, if it was the one that completed, is off the
   books already.
   */
  lemma HandleStarts(m: Machine, i: nat, status: int, err: Failure, failOnPull: bool)
    requires Starts(m) && i < |m.task.containers| && NONE <= status <= STOPPED
    requires m.task.containers[i].known < RUNNING && TakesBack(status, err) ==> m.inflight[(i, RUNNING)] == 0
    ensures Starts(Handle(m, i, status, err, failOnPull))
  {
    var n := Handle(m, i, status, err, failOnPull);
    HandlePending(m, i, status, err, failOnPull);
    HandleEventGrows(m.task, i, status, err, failOnPull);
    HandledContainer(m.task, i, status, err, failOnPull);
    var c := m.task.containers[i];
    if c.known < status { StillNotRunning(c, status, err, failOnPull); }
    forall k | 0 <= k < |n.task.containers| ensures StartOK(n, k) {
      assert StartOK(m, k) && Grew(m.task.containers[k], n.task.containers[k]) && ValidContainer(n.task.containers[k]);
    }
  }

  lemma FewerStarts(m: Machine, n: Machine)
    requires Starts(m) && n.task == m.task && n.inflight <= m.inflight && n.messages <= m.messages
    ensures Starts(n)
  {
    FewerPending(m, n);
    forall k | 0 <= k < |n.task.containers| ensures StartOK(n, k) {
      assert StartOK(m, k);
      assert forall status :: n.inflight[(k, status)] <= m.inflight[(k, status)];
      assert n.messages[(k, STOPPED)] <= m.messages[(k, STOPPED)];
    }
  }

  lemma ConsiderStarts(m: Machine, i: nat, resolved: bool)
    requires Starts(m) && i < |m.task.containers|
    ensures Starts(DoConsider(m, i, resolved))
  {
    var n := DoConsider(m, i, resolved);
    ConsiderPending(m, i, resolved);
    forall k | 0 <= k < |n.task.containers| ensures StartOK(n, k) {
      assert StartOK(m, k) && PendingStopOK(m, k) && ValidContainer(m.task.containers[k]);
    }
  }

  lemma OtherStarts(m: Machine, s: Step, failOnPull: bool)
    requires Starts(m) && Enabled(m, s)
    requires s.Order? || s.ResourceFailed? || s.Refresh? || s.GiveUp? || s.Exit?
    ensures Starts(Next(m, s, failOnPull))
  {
    var n := Next(m, s, failOnPull);
    OtherPending(m, s, failOnPull);
    StepForward(m, s, failOnPull);
    if s.Refresh? { UpdateStatusGrows(m.task); }
    forall k | 0 <= k < |n.task.containers| ensures StartOK(n, k) {
      assert StartOK(m, k) && ValidContainer(n.task.containers[k]);
    }
  }

  lemma CompleteStarts(m: Machine, i: nat, status: int, err: Failure, failOnPull: bool)
    requires Starts(m) && Enabled(m, Complete(i, status, err))
    ensures Starts(Next(m, Complete(i, status, err), failOnPull))
  {
    var n := Taken(m, Complete(i, status, err));
    FewerStarts(m, n);
    assert StartOK(m, i);
    HandleStarts(n, i, status, err, failOnPull);
  }

  lemma DeliverStarts(m: Machine, i: nat, status: int, failOnPull: bool)
    requires Starts(m) && Enabled(m, Deliver(i, status))
    ensures Starts(Next(m, Deliver(i, status), failOnPull))
  {
    var n := Taken(m, Deliver(i, status));
    FewerStarts(m, n);
    HandleStarts(n, i, status, NoError, failOnPull);
  }

  lemma StartsStep(m: Machine, s: Step, failOnPull: bool)
    requires Starts(m) && Enabled(m, s) && !Endangers(m, s) && !Dormant(m)
    ensures Starts(Next(m, s, failOnPull))
  {
    match s
    case Docker(i, status, err) => HandleStarts(m, i, status, err, failOnPull);
    case Complete(i, status, err) => CompleteStarts(m, i, status, err, failOnPull);
    case Deliver(i, status) => DeliverStarts(m, i, status, failOnPull);
    case Consider(i, resolved) => ConsiderStarts(m, i, resolved);
    case _ => OtherStarts(m, s, failOnPull);
  }

  /** No start is in progress for a container with a pending stop message. */
  ghost predicate Spared(m: Machine) {
    forall i: nat | m.messages[(i, STOPPED)] > 0 :: m.inflight[(i, RUNNING)] == 0
  }

  lemma StartsSpares(m: Machine)
    requires Starts(m)
    ensures Spared(m)
  {
    forall i: nat | m.messages[(i, STOPPED)] > 0 ensures m.inflight[(i, RUNNING)] == 0 {
      assert (i, STOPPED) in m.messages;
      assert StartOK(m, i);
    }
  }

  lemma DormantStep(m: Machine, s: Step, failOnPull: bool)
    requires ValidMachine(m) && Dormant(m) && Spared(m) && Enabled(m, s)
    ensures var n := Next(m, s, failOnPull); ValidMachine(n) && Dormant(n) && Spared(n)
  {
    StepForward(m, s, failOnPull);
    var n := Next(m, s, failOnPull);
    forall k: nat | n.messages[(k, STOPPED)] > 0 ensures n.inflight[(k, RUNNING)] == 0 {
      DormantBooks(m, s, failOnPull, k);
    }
  }

  /** No message of container k is added, and no start. */
  lemma DormantBooks(m: Machine, s: Step, failOnPull: bool, k: nat)
    requires Dormant(m) && Enabled(m, s)
    ensures Next(m, s, failOnPull).messages[(k, STOPPED)] <= m.messages[(k, STOPPED)]
    ensures Next(m, s, failOnPull).inflight[(k, RUNNING)] <= m.inflight[(k, RUNNING)]
  {
    match s
    case Docker(i, status, err) => HandleBooks(m, i, status, err, failOnPull, k);
    case Complete(i, status, err) => HandleBooks(Taken(m, s), i, status, err, failOnPull, k);
    case Deliver(i, status) => HandleBooks(Taken(m, s), i, status, NoError, failOnPull, k);
    case _ =>
  }

  lemma HandleBooks(m: Machine, i: nat, status: int, err: Failure, failOnPull: bool, k: nat)
    requires i < |m.task.containers|
    ensures Handle(m, i, status, err, failOnPull).messages == m.messages
    ensures Handle(m, i, status, err, failOnPull).inflight[(k, RUNNING)] == m.inflight[(k, RUNNING)]
  {
  }

  ghost predicate Orderly(m: Machine) { Starts(m) || (ValidMachine(m) && Dormant(m) && Spared(m)) }

  lemma OrderlyStep(m: Machine, s: Step, failOnPull: bool)
    requires Orderly(m) && Enabled(m, s) && !Endangers(m, s)
    ensures Orderly(Next(m, s, failOnPull))
  {
    if Starts(m) { StartsSpares(m); }
    if Dormant(m) { DormantStep(m, s, failOnPull); } else { StartsStep(m, s, failOnPull); }
  }

  ghost predicate NeverEndangered(m: Machine, run: seq<Step>, failOnPull: bool)
    requires CanRun(m, run, failOnPull)
    decreases run
  {
    run == [] || (!Endangers(m, run[0]) && NeverEndangered(Next(m, run[0], failOnPull), run[1..], failOnPull))
  }

  lemma {:induction false} OrderlyForever(m: Machine, run: seq<Step>, failOnPull: bool)
    requires Orderly(m) && CanRun(m, run, failOnPull) && NeverEndangered(m, run, failOnPull)
    ensures Orderly(Run(m, run, failOnPull))
    decreases run
  {
    if run != [] {
      OrderlyStep(m, run[0], failOnPull);
      OrderlyForever(Next(m, run[0], failOnPull), run[1..], failOnPull);
    }
  }

  /**
   If no report takes back the applied status of a container whose start is in progress, then in every
   state of the run no start call is in progress for a container with a pending stop message, so the
   shortcut never marks stopped a container that is being started.
   */
  lemma ShortcutSparesStarts(m: Machine, run: seq<Step>, failOnPull: bool)
    requires Start(m) && CanRun(m, run, failOnPull) && NeverEndangered(m, run, failOnPull)
    ensures Spared(Run(m, run, failOnPull))
  {
    OrderlyForever(m, run, failOnPull);
    if Starts(Run(m, run, failOnPull)) { StartsSpares(Run(m, run, failOnPull)); }
  }

  // --- the condition is exact ---------------------------------------------------------------------

  /** The container is where it was, its start still in progress, but no longer applied. */
  ghost predicate Exposed(m: Machine, i: nat) {
    && ValidTask(m.task) && i < |m.task.containers| && !m.over && m.task.known < TASK_STOPPED
    && m.task.containers[i].known < RUNNING && m.task.containers[i].applied == NONE && m.inflight[(i, RUNNING)] > 0
  }

  lemma EndangeredIsExposed(m: Machine, s: Step, failOnPull: bool)
    requires Starts(m) && Enabled(m, s) && Endangers(m, s)
    ensures Exposed(Next(m, s, failOnPull), s.container)
  {
    assert StartOK(m, s.container) && ValidContainer(m.task.containers[s.container]);
    StepForward(m, s, failOnPull);
  }

  /** The task is told to stop. */
  lemma OrderedToStop(m: Machine, i: nat, failOnPull: bool)
    requires Exposed(m, i)
    ensures var n := Next(Next(m, Order(TASK_STOPPED, 0), failOnPull), Refresh, failOnPull);
      Exposed(n, i) && n.task.containers[i].desired == STOPPED
  {
    var o := Next(m, Order(TASK_STOPPED, 0), failOnPull);
    assert ValidTask(o.task) && o.task.desired == TASK_STOPPED;
    assert o.task.containers[i].known == m.task.containers[i].known && o.task.containers[i].applied == NONE;
    EarliestStopped(o.task.containers);
    UpdateStatusGrows(o.task);
  }

  /**
   Whenever a report takes back the applied status of a container whose start is in progress, there is
   a run in which the stop message is sent while the start is still in progress.
   */
  lemma EndangeredLosesStart(m: Machine, s: Step, failOnPull: bool)
    requires Starts(m) && Enabled(m, s) && Endangers(m, s)
    ensures var run := [s, Order(TASK_STOPPED, 0), Refresh, Consider(s.container, true)];
      && CanRun(m, run, failOnPull)
      && Run(m, run, failOnPull).messages[(s.container, STOPPED)] > 0
      && Run(m, run, failOnPull).inflight[(s.container, RUNNING)] > 0
  {
    var i := s.container;
    var rest := [Order(TASK_STOPPED, 0), Refresh, Consider(i, true)];
    EndangeredIsExposed(m, s, failOnPull);
    ExposedLosesStart(Next(m, s, failOnPull), i, failOnPull);
    RunCons(m, s, rest, failOnPull);
    assert [s] + rest == [s, Order(TASK_STOPPED, 0), Refresh, Consider(i, true)];
  }

  lemma ExposedLosesStart(n: Machine, i: nat, failOnPull: bool)
    requires Exposed(n, i)
    ensures var run := [Order(TASK_STOPPED, 0), Refresh, Consider(i, true)];
      && CanRun(n, run, failOnPull)
      && Run(n, run, failOnPull).messages[(i, STOPPED)] > 0 && Run(n, run, failOnPull).inflight[(i, RUNNING)] > 0
  {
    OrderedToStop(n, i, failOnPull);
    var o := Next(n, Order(TASK_STOPPED, 0), failOnPull);
    var p := Next(o, Refresh, failOnPull);
    ConsiderSendsStop(p, i, failOnPull);
    RunCons(p, Consider(i, true), [], failOnPull);
    assert [Consider(i, true)] + [] == [Consider(i, true)];
    RunCons(o, Refresh, [Consider(i, true)], failOnPull);
    assert [Refresh] + [Consider(i, true)] == [Refresh, Consider(i, true)];
    RunCons(n, Order(TASK_STOPPED, 0), [Refresh, Consider(i, true)], failOnPull);
    assert [Order(TASK_STOPPED, 0)] + [Refresh, Consider(i, true)] == [Order(TASK_STOPPED, 0), Refresh, Consider(i, true)];
  }

  lemma ConsiderSendsStop(p: Machine, i: nat, failOnPull: bool)
    requires Exposed(p, i) && p.task.containers[i].desired == STOPPED
    ensures Enabled(p, Consider(i, true))
    ensures var q := Next(p, Consider(i, true), failOnPull); q.messages[(i, STOPPED)] > 0 && q.inflight[(i, RUNNING)] > 0
  {
    assert Next(p, Consider(i, true), failOnPull) == p.(messages := p.messages + multiset{(i, STOPPED)});
  }
}
