/**
 Runs of a managed task: backend orders, Docker events, transitions completing with any error,
 and the main loop, in any order.
 */
module TaskMachine {
  import opened TaskState

  /**
   `inflight` holds the transition calls in progress, `messages` the status changes that need no
   call and are still on their way to the task's goroutine; both name a container and a status.
   `over` is set once the main loop was left, which is when Done is decided.
   */
  datatype Machine = Machine(
    task: Task,
    inflight: multiset<(nat, int)>,
    messages: multiset<(nat, int)>,
    spent: bool,
    over: bool,
    adds: seq<int>,
    dones: seq<int>,
    moves: nat)

  datatype Step =
    | Order(desired: int, seqnum: int)
    | Docker(container: nat, status: int, err: Failure)
    | Complete(container: nat, status: int, err: Failure)
    | Deliver(container: nat, status: int)
    | Consider(container: nat, resolved: bool)
    | ResourceFailed
    | Refresh
    | GiveUp
    | Exit

  predicate Enabled(m: Machine, s: Step) {
    match s
    case Order(desired, _) => TASK_NONE <= desired <= TASK_STOPPED
    case Docker(i, status, _) => i < |m.task.containers| && NONE <= status <= STOPPED
    case Complete(i, status, _) => i < |m.task.containers| && m.inflight[(i, status)] > 0
    case Deliver(i, status) => i < |m.task.containers| && m.messages[(i, status)] > 0
    case Consider(i, _) => i < |m.task.containers| && !m.over && m.task.known != TASK_STOPPED
    case ResourceFailed => true
    case Refresh => true
    case GiveUp => !m.over && m.task.known != TASK_STOPPED
    case Exit => !m.over && m.task.known == TASK_STOPPED
  }

  // handleContainerChange
  function Handle(m: Machine, i: nat, status: int, err: Failure, failOnPull: bool): Machine
    requires i < |m.task.containers|
  {
    var c := m.task.containers[i];
    var t := HandleEvent(m.task, i, status, err, failOnPull);
    m.(task := t,
       spent := m.spent || CameBack(c, status),
       inflight := if StartsStop(c, status, err, failOnPull, m.spent) then m.inflight + multiset{(i, STOPPED)} else m.inflight,
       moves := if i < |t.containers| && t.containers[i].known != c.known then m.moves + 1 else m.moves)
  }

  // handleDesiredStatusChange
  function DoOrder(m: Machine, desired: int, seqnum: int): Machine {
    m.(task := ChangeDesired(m.task, desired, seqnum),
       adds := if AddsToGroup(m.task, desired, seqnum) then m.adds + [seqnum] else m.adds)
  }

  // one iteration of startContainerTransitions
  function DoConsider(m: Machine, i: nat, resolved: bool): Machine
    requires i < |m.task.containers|
  {
    var c := m.task.containers[i];
    match NextState(c, resolved)
    case Blocked => m
    case Message(status) => m.(messages := m.messages + multiset{(i, status)})
    case Action(status) =>
      if c.applied != NONE then m
      else m.(task := m.task.(containers := m.task.containers[i := c.(applied := status)]),
              inflight := m.inflight + multiset{(i, status)})
  }

  // handleContainersUnableToTransitionState
  function DoGiveUp(m: Machine): Machine {
    if m.task.desired == TASK_STOPPED then m.(task := m.task.(known := TASK_STOPPED))
    else DoOrder(m, TASK_STOPPED, 0)
  }

  function Next(m: Machine, s: Step, failOnPull: bool): Machine
    requires Enabled(m, s)
  {
    match s
    case Order(desired, seqnum) => DoOrder(m, desired, seqnum)
    case Docker(i, status, err) => Handle(m, i, status, err, failOnPull)
    case Complete(i, status, err) => Handle(m.(inflight := m.inflight - multiset{(i, status)}), i, status, err, failOnPull)
    case Deliver(i, status) => Handle(m.(messages := m.messages - multiset{(i, status)}), i, status, NoError, failOnPull)
    case Consider(i, resolved) => DoConsider(m, i, resolved)
    case ResourceFailed => m.(task := m.task.(desired := TASK_STOPPED))
    case Refresh => m.(task := UpdateStatus(m.task))
    case GiveUp => DoGiveUp(m)
    case Exit => m.(over := true, dones := if m.task.stopSeq != 0 then m.dones + [m.task.stopSeq] else m.dones)
  }

  /** A task at the start of its goroutine, with no stop ordered yet. */
  ghost predicate Start(m: Machine) {
    && ValidTask(m.task) && m.task.stopSeq == 0 && m.task.known < TASK_STOPPED
    && (forall i | 0 <= i < |m.task.containers| :: m.task.containers[i].applied == NONE)
    && m == Machine(m.task, multiset{}, multiset{}, false, false, [], [], 0)
  }

  predicate CanRun(m: Machine, run: seq<Step>, failOnPull: bool)
    decreases run
  {
    run == [] || (Enabled(m, run[0]) && CanRun(Next(m, run[0], failOnPull), run[1..], failOnPull))
  }

  function Run(m: Machine, run: seq<Step>, failOnPull: bool): Machine
    requires CanRun(m, run, failOnPull)
    decreases run
  {
    if run == [] then m else Run(Next(m, run[0], failOnPull), run[1..], failOnPull)
  }

  lemma RunCons(m: Machine, s: Step, run: seq<Step>, failOnPull: bool)
    requires Enabled(m, s) && CanRun(Next(m, s, failOnPull), run, failOnPull)
    ensures CanRun(m, [s] + run, failOnPull) && Run(m, [s] + run, failOnPull) == Run(Next(m, s, failOnPull), run, failOnPull)
  {
    assert ([s] + run)[1..] == run;
  }

  lemma {:induction false} RunSnoc(m: Machine, run: seq<Step>, s: Step, failOnPull: bool)
    requires CanRun(m, run, failOnPull) && Enabled(Run(m, run, failOnPull), s)
    ensures CanRun(m, run + [s], failOnPull)
    ensures Run(m, run + [s], failOnPull) == Next(Run(m, run, failOnPull), s, failOnPull)
    decreases run
  {
    if run == [] {
      assert (run + [s])[1..] == [];
    } else {
      RunSnoc(Next(m, run[0], failOnPull), run[1..], s, failOnPull);
      assert (run + [s])[1..] == run[1..] + [s];
    }
  }

  lemma RunTwo(m: Machine, s: Step, t: Step, failOnPull: bool)
    requires Enabled(m, s) && Enabled(Next(m, s, failOnPull), t)
    ensures CanRun(m, [s, t], failOnPull) && Run(m, [s, t], failOnPull) == Next(Next(m, s, failOnPull), t, failOnPull)
  {
    var n := Next(m, s, failOnPull);
    RunCons(n, t, [], failOnPull);
    RunCons(m, s, [t] + [], failOnPull);
    assert [s] + ([t] + []) == [s, t];
  }

  lemma RunTail(m: Machine, run: seq<Step>, failOnPull: bool)
    requires run != [] && CanRun(m, run, failOnPull)
    ensures Enabled(m, run[0]) && CanRun(Next(m, run[0], failOnPull), run[1..], failOnPull)
    ensures Run(Next(m, run[0], failOnPull), run[1..], failOnPull) == Run(m, run, failOnPull)
  {
  }

  lemma {:induction false} RunConcat(m: Machine, run: seq<Step>, more: seq<Step>, failOnPull: bool)
    requires CanRun(m, run, failOnPull) && CanRun(Run(m, run, failOnPull), more, failOnPull)
    ensures CanRun(m, run + more, failOnPull)
    ensures Run(m, run + more, failOnPull) == Run(Run(m, run, failOnPull), more, failOnPull)
    decreases run
  {
    if run == [] {
      assert run + more == more;
    } else {
      var next, rest := Next(m, run[0], failOnPull), run[1..];
      RunTail(m, run, failOnPull);
      RunConcat(next, rest, more, failOnPull);
      RunCons(m, run[0], rest + more, failOnPull);
      assert [run[0]] + (rest + more) == run + more;
    }
  }

  // --- statuses only go forward ---------------------------------------------------------------

  ghost predicate Grew(c: Container, d: Container) {
    && c.known <= d.known && c.desired <= d.desired && (d.applied == c.applied || d.applied == NONE)
    && d.steady == c.steady && d.essential == c.essential
  }

  ghost predicate TaskGrew(t: Task, u: Task) {
    && t.known <= u.known && t.desired <= u.desired && |t.containers| == |u.containers|
    && forall i | 0 <= i < |t.containers| :: Grew(t.containers[i], u.containers[i])
  }

  lemma {:induction false} EarliestInRange(cs: seq<Container>)
    ensures TASK_NONE <= Earliest(cs) <= TASK_ZOMBIE
    ensures cs != [] ==> Earliest(cs) <= TASK_STOPPED
  {
    if cs != [] { EarliestInRange(cs[..|cs| - 1]); }
  }

  lemma UpdateStatusGrows(t: Task)
    requires ValidTask(t)
    ensures ValidTask(UpdateStatus(t)) && TaskGrew(t, UpdateStatus(t))
    ensures UpdateStatus(t).stopSeq == t.stopSeq
    ensures forall i | 0 <= i < |t.containers| ::
              UpdateStatus(t).containers[i].known == t.containers[i].known && UpdateStatus(t).containers[i].applied == t.containers[i].applied
  {
  }

  lemma ApplyEventGrows(c: Container, status: int, err: Failure, failOnPull: bool)
    requires ValidContainer(c) && c.known < status && NONE <= status <= STOPPED
    ensures var d := ApplyEvent(c, status, err, failOnPull).container;
            && ValidContainer(d) && Grew(c, d)
            && (d.known == c.known || (d.known == status && (CREATED <= status <= RESOURCES_PROVISIONED ==> err == NoError)))
  {
  }

  lemma HandleEventGrows(t: Task, i: nat, status: int, err: Failure, failOnPull: bool)
    requires ValidTask(t) && i < |t.containers| && NONE <= status <= STOPPED
    ensures var u := HandleEvent(t, i, status, err, failOnPull);
            && ValidTask(u) && TaskGrew(t, u) && u.stopSeq == t.stopSeq
            && (forall k | 0 <= k < |t.containers| && k != i ::
                  u.containers[k].known == t.containers[k].known && u.containers[k].applied == t.containers[k].applied)
            && (u.containers[i].known != t.containers[i].known ==>
                  u.containers[i].known == status && (CREATED <= status <= RESOURCES_PROVISIONED ==> err == NoError))
  {
    var c := t.containers[i];
    if status > c.known {
      var o := ApplyEvent(c, status, err, failOnPull);
      ApplyEventGrows(c, status, err, failOnPull);
      var u := t.(containers := t.containers[i := o.container], desired := if o.stopTask then TASK_STOPPED else t.desired);
      ReplacedGrows(t, i, o.container, o.stopTask);
      UpdateStatusGrows(u);
      GrewTwice(t, u, UpdateStatus(u));
    }
  }

  lemma ReplacedGrows(t: Task, i: nat, d: Container, stop: bool)
    requires ValidTask(t) && i < |t.containers| && ValidContainer(d) && Grew(t.containers[i], d)
    ensures var u := t.(containers := t.containers[i := d], desired := if stop then TASK_STOPPED else t.desired);
            ValidTask(u) && TaskGrew(t, u)
  {
  }

  lemma GrewTwice(t: Task, u: Task, v: Task)
    requires TaskGrew(t, u) && TaskGrew(u, v)
    ensures TaskGrew(t, v)
  {
  }
}
