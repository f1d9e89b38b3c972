/**
 Stop accounting of a managed task: when it joins and leaves the stop group.
 */
module TaskStop {
  import opened TaskState
  import opened TaskMachine
  import opened TaskRuns

  /** Before and after the main loop: at most one Add, with the stop sequence number; at most one Done. */
  ghost predicate Accounting(m: Machine) {
    && (if m.task.stopSeq == 0 then m.adds == [] else m.adds == [m.task.stopSeq] && m.task.desired == TASK_STOPPED)
    && (!m.over ==> m.dones == [])
    && (m.dones == [] || m.dones == m.adds)
  }

  lemma AccountingStep(m: Machine, s: Step, failOnPull: bool)
    requires ValidMachine(m) && Accounting(m) && Enabled(m, s)
    ensures Accounting(Next(m, s, failOnPull))
    ensures m.task.stopSeq != 0 ==> Next(m, s, failOnPull).task.stopSeq == m.task.stopSeq
    ensures m.over ==> Next(m, s, failOnPull).over && Next(m, s, failOnPull).dones == m.dones
    ensures m.task.desired == TASK_STOPPED ==> Next(m, s, failOnPull).adds == m.adds
  {
    StepForward(m, s, failOnPull);
    match s
    case Docker(i, status, err) => HandleEventGrows(m.task, i, status, err, failOnPull);
    case Complete(i, status, err) => HandleEventGrows(m.task, i, status, err, failOnPull);
    case Deliver(i, status) => HandleEventGrows(m.task, i, status, NoError, failOnPull);
    case Refresh => UpdateStatusGrows(m.task);
    case _ =>
  }

  lemma {:induction false} AccountingForever(m: Machine, run: seq<Step>, failOnPull: bool)
    requires ValidMachine(m) && Accounting(m) && CanRun(m, run, failOnPull)
    ensures Accounting(Run(m, run, failOnPull))
    ensures m.task.stopSeq != 0 ==> Run(m, run, failOnPull).task.stopSeq == m.task.stopSeq
    ensures m.over ==> Run(m, run, failOnPull).dones == m.dones
    ensures m.task.desired == TASK_STOPPED ==> Run(m, run, failOnPull).adds == m.adds
    decreases run
  {
    if run != [] {
      StepForward(m, run[0], failOnPull);
      AccountingStep(m, run[0], failOnPull);
      AccountingForever(Next(m, run[0], failOnPull), run[1..], failOnPull);
    }
  }

  /**
   Over any run from the start of a task, the stop sequence is set at most once, the task is added at
   most once and with that number, Done is called at most once, after the Add and with the same
   number, and once the task is meant to stop there is no further Add.
   */
  lemma StopAccounting(m: Machine, run: seq<Step>, more: seq<Step>, failOnPull: bool)
    requires Start(m) && CanRun(m, run, failOnPull) && CanRun(Run(m, run, failOnPull), more, failOnPull)
    ensures var n, o := Run(m, run, failOnPull), Run(Run(m, run, failOnPull), more, failOnPull);
      && (if o.task.stopSeq == 0 then o.adds == [] else o.adds == [o.task.stopSeq])
      && (o.dones == [] || o.dones == o.adds)
      && (n.task.stopSeq != 0 ==> o.task.stopSeq == n.task.stopSeq)
      && (n.task.desired == TASK_STOPPED ==> o.adds == n.adds)
      && (n.over ==> o.dones == n.dones)
  {
    RunForward(m, run, failOnPull);
    AccountingForever(m, run, failOnPull);
    AccountingForever(Run(m, run, failOnPull), more, failOnPull);
  }

  /**
   Leaving the main loop balances the group for good exactly when the task's desired status is
   STOPPED at that point; otherwise a later stop order joins the group and never leaves it.
   */
  lemma ExitBalancesIff(m: Machine, failOnPull: bool)
    requires ValidMachine(m) && Accounting(m) && Enabled(m, Exit)
    ensures m.task.desired == TASK_STOPPED <==>
              forall run | CanRun(Next(m, Exit, failOnPull), run, failOnPull) ::
                Run(Next(m, Exit, failOnPull), run, failOnPull).dones == Run(Next(m, Exit, failOnPull), run, failOnPull).adds
  {
    var n := Next(m, Exit, failOnPull);
    AccountingStep(m, Exit, failOnPull);
    StepForward(m, Exit, failOnPull);
    if m.task.desired == TASK_STOPPED {
      forall run | CanRun(n, run, failOnPull) ensures Run(n, run, failOnPull).dones == Run(n, run, failOnPull).adds {
        AccountingForever(n, run, failOnPull);
      }
    } else {
      var late := [Order(TASK_STOPPED, 7)] + [];
      var o := Next(n, Order(TASK_STOPPED, 7), failOnPull);
      RunCons(n, Order(TASK_STOPPED, 7), [], failOnPull);
      assert o.adds == [7] && o.dones == [];
      assert CanRun(n, late, failOnPull) && Run(n, late, failOnPull).dones != Run(n, late, failOnPull).adds;
    }
  }

  // --- when a stopped task is also meant to be stopped ----------------------------------------

  ghost predicate HasEssential(cs: seq<Container>) {
    exists i | 0 <= i < |cs| :: cs[i].essential
  }

  lemma {:induction false} EarliestStopped(cs: seq<Container>)
    requires forall i | 0 <= i < |cs| :: ValidContainer(cs[i])
    ensures cs != [] ==> (Earliest(cs) == TASK_STOPPED <==> forall i | 0 <= i < |cs| :: cs[i].known == STOPPED)
    ensures Earliest(cs) >= TASK_STOPPED <==> forall i | 0 <= i < |cs| :: cs[i].known == STOPPED
  {
    if cs != [] {
      var front := cs[..|cs| - 1];
      EarliestStopped(front);
      EarliestInRange(cs);
      assert forall i | 0 <= i < |front| :: front[i] == cs[i];
    }
  }

  /** An updated task is known to be stopped only if all its containers are. */
  lemma StoppedMeansAllStopped(t: Task)
    requires ValidTask(t) && t.known < TASK_STOPPED
    ensures UpdateStatus(t).known == TASK_STOPPED <==>
              t.containers != [] && forall i | 0 <= i < |t.containers| :: t.containers[i].known == STOPPED
  {
    EarliestStopped(t.containers);
    EarliestInRange(t.containers);
    if t.containers != [] && forall i | 0 <= i < |t.containers| :: t.containers[i].known == STOPPED {
      assert ValidContainer(t.containers[Slowest(t.containers)]);
    }
  }

  ghost predicate StoppedIsMeant(t: Task) {
    t.known == TASK_STOPPED ==> t.desired == TASK_STOPPED
  }

  /** Stopping on purpose is guaranteed by the task itself. */
  ghost predicate Guarded(t: Task) {
    t.containers == [] || HasEssential(t.containers) || t.desired == TASK_STOPPED
  }

  lemma UpdateIsMeant(t: Task)
    requires ValidTask(t) && StoppedIsMeant(t) && Guarded(t)
    ensures StoppedIsMeant(UpdateStatus(t))
  {
    if t.known < TASK_STOPPED { StoppedMeansAllStopped(t); }
  }

  lemma EventIsMeant(t: Task, i: nat, status: int, err: Failure, failOnPull: bool)
    requires ValidTask(t) && StoppedIsMeant(t) && Guarded(t)
    requires i < |t.containers| && NONE <= status <= STOPPED
    ensures StoppedIsMeant(HandleEvent(t, i, status, err, failOnPull))
  {
    var c := t.containers[i];
    if status > c.known {
      var o := ApplyEvent(c, status, err, failOnPull);
      var u := t.(containers := t.containers[i := o.container], desired := if o.stopTask then TASK_STOPPED else t.desired);
      assert ValidContainer(o.container);
      if HasEssential(t.containers) {
        var e :| 0 <= e < |t.containers| && t.containers[e].essential;
        assert u.containers[e].essential;
      }
      if o.proceed { UpdateIsMeant(u); }
    }
  }

  lemma MeantStep(m: Machine, s: Step, failOnPull: bool)
    requires ValidMachine(m) && StoppedIsMeant(m.task) && Guarded(m.task) && Enabled(m, s)
    ensures StoppedIsMeant(Next(m, s, failOnPull).task) && Guarded(Next(m, s, failOnPull).task)
  {
    StepForward(m, s, failOnPull);
    if HasEssential(m.task.containers) {
      var i :| 0 <= i < |m.task.containers| && m.task.containers[i].essential;
      assert Next(m, s, failOnPull).task.containers[i].essential;
    }
    match s
    case Docker(i, status, err) => EventIsMeant(m.task, i, status, err, failOnPull);
    case Complete(i, status, err) => EventIsMeant(m.task, i, status, err, failOnPull);
    case Deliver(i, status) => EventIsMeant(m.task, i, status, NoError, failOnPull);
    case Refresh => UpdateIsMeant(m.task);
    case _ =>
  }

  lemma {:induction false} MeantForever(m: Machine, run: seq<Step>, failOnPull: bool)
    requires ValidMachine(m) && StoppedIsMeant(m.task) && Guarded(m.task) && CanRun(m, run, failOnPull)
    ensures StoppedIsMeant(Run(m, run, failOnPull).task)
    decreases run
  {
    if run != [] {
      StepForward(m, run[0], failOnPull);
      MeantStep(m, run[0], failOnPull);
      MeantForever(Next(m, run[0], failOnPull), run[1..], failOnPull);
    }
  }

  lemma NonEssentialStops(t: Task, k: nat, failOnPull: bool)
    requires ValidTask(t) && !HasEssential(t.containers) && k < |t.containers|
    ensures var u := HandleEvent(t, k, STOPPED, NoError, failOnPull);
            && u.desired == t.desired && |u.containers| == |t.containers| && u.containers[k].known == STOPPED
            && forall i | 0 <= i < |t.containers| :: !u.containers[i].essential
  {
  }

  /** Docker reports the containers from k on as stopped, one after the other. */
  lemma {:induction false} StopAll(m: Machine, k: nat, failOnPull: bool) returns (run: seq<Step>)
    requires ValidMachine(m) && m.task.containers != [] && !HasEssential(m.task.containers)
    requires k <= |m.task.containers| && forall i | 0 <= i < k :: m.task.containers[i].known == STOPPED
    ensures CanRun(m, run, failOnPull)
    ensures Run(m, run, failOnPull).task.known == TASK_STOPPED && Run(m, run, failOnPull).task.desired == m.task.desired
    decreases |m.task.containers| - k
  {
    if k == |m.task.containers| {
      run := [Refresh];
      assert run[1..] == [];
      assert Run(m, run, failOnPull) == Next(m, Refresh, failOnPull);
      if m.task.known < TASK_STOPPED { StoppedMeansAllStopped(m.task); } else { UpdateStatusGrows(m.task); }
      assert !EssentialEnding(UpdateKnown(m.task).containers);
    } else {
      var s := Docker(k, STOPPED, NoError);
      var n := Next(m, s, failOnPull);
      StepForward(m, s, failOnPull);
      NonEssentialStops(m.task, k, failOnPull);
      var rest := StopAll(n, k + 1, failOnPull);
      run := [s] + rest;
      assert run[1..] == rest;
    }
  }

  /**
   In every run a task known to be stopped is also meant to be stopped, exactly when the task has
   an essential container, or no container at all, or was ordered to stop from the start.
   */
  lemma StoppedIsMeantIff(m: Machine, failOnPull: bool)
    requires Start(m)
    ensures Guarded(m.task) <==>
              forall run | CanRun(m, run, failOnPull) :: StoppedIsMeant(Run(m, run, failOnPull).task)
  {
    if Guarded(m.task) {
      forall run | CanRun(m, run, failOnPull) ensures StoppedIsMeant(Run(m, run, failOnPull).task) {
        MeantForever(m, run, failOnPull);
      }
    } else {
      var run := StopAll(m, 0, failOnPull);
      assert !StoppedIsMeant(Run(m, run, failOnPull).task);
    }
  }
}
