/**
 Theorems about whole runs of a managed task.
 */
module TaskRuns {
  import opened TaskState
  import opened TaskMachine

  // --- known statuses -------------------------------------------------------------------------

  function Total(cs: seq<Container>): int {
    if cs == [] then 0 else cs[0].known + Total(cs[1..])
  }

  lemma {:induction false} TotalBounds(cs: seq<Container>)
    requires forall i | 0 <= i < |cs| :: ValidContainer(cs[i])
    ensures 0 <= Total(cs) <= STOPPED * |cs|
  {
    if cs != [] { TotalBounds(cs[1..]); }
  }

  /** One known status went up, the others stayed: so does the total. */
  lemma {:induction false} TotalMoves(cs: seq<Container>, ds: seq<Container>, i: nat)
    requires |cs| == |ds| && i < |cs| && cs[i].known <= ds[i].known
    requires forall k | 0 <= k < |cs| && k != i :: cs[k].known == ds[k].known
    ensures Total(ds) - Total(cs) == ds[i].known - cs[i].known
  {
    if i == 0 {
      TotalSame(cs[1..], ds[1..]);
    } else {
      TotalMoves(cs[1..], ds[1..], i - 1);
    }
  }

  lemma {:induction false} TotalSame(cs: seq<Container>, ds: seq<Container>)
    requires |cs| == |ds| && forall k | 0 <= k < |cs| :: cs[k].known == ds[k].known
    ensures Total(ds) == Total(cs)
  {
    if cs != [] { TotalSame(cs[1..], ds[1..]); }
  }

  ghost predicate Forward(t: Task, u: Task) {
    && t.known <= u.known && t.desired <= u.desired && |t.containers| == |u.containers|
    && forall i | 0 <= i < |t.containers| ::
         && t.containers[i].known <= u.containers[i].known && t.containers[i].desired <= u.containers[i].desired
         && t.containers[i].essential == u.containers[i].essential
  }

  ghost predicate ValidMachine(m: Machine) {
    && ValidTask(m.task)
    && (forall p | p in m.inflight :: NONE <= p.1 <= STOPPED)
    && (forall p | p in m.messages :: NONE <= p.1 <= STOPPED)
  }

  lemma HandleForward(m: Machine, i: nat, status: int, err: Failure, failOnPull: bool)
    requires ValidMachine(m) && i < |m.task.containers| && NONE <= status <= STOPPED
    ensures var n := Handle(m, i, status, err, failOnPull);
            && ValidMachine(n) && Forward(m.task, n.task)
            && n.moves - m.moves <= Total(n.task.containers) - Total(m.task.containers)
  {
    HandleEventGrows(m.task, i, status, err, failOnPull);
    TotalMoves(m.task.containers, Handle(m, i, status, err, failOnPull).task.containers, i);
  }

  lemma ConsiderForward(m: Machine, i: nat, resolved: bool)
    requires ValidMachine(m) && i < |m.task.containers|
    ensures var n := DoConsider(m, i, resolved);
            && ValidMachine(n) && Forward(m.task, n.task)
            && n.moves == m.moves && Total(n.task.containers) == Total(m.task.containers)
  {
    NextStateInRange(m.task.containers[i], resolved);
    var n := DoConsider(m, i, resolved);
    assert forall k | 0 <= k < |m.task.containers| && k != i :: n.task.containers[k] == m.task.containers[k];
    assert ValidContainer(n.task.containers[i]);
    TotalSame(m.task.containers, n.task.containers);
  }

  lemma NextStateInRange(c: Container, resolved: bool)
    requires ValidContainer(c)
    ensures match NextState(c, resolved)
            case Action(status) => PULLED <= status <= STOPPED
            case Message(status) => status == NONE || status == STOPPED
            case Blocked => true
  {
  }

  lemma OrderForward(m: Machine, desired: int, seqnum: int)
    requires ValidMachine(m) && TASK_NONE <= desired <= TASK_STOPPED
    ensures var n := DoOrder(m, desired, seqnum);
            && ValidMachine(n) && Forward(m.task, n.task)
            && n.moves == m.moves && Total(n.task.containers) == Total(m.task.containers)
  {
    TotalSame(m.task.containers, DoOrder(m, desired, seqnum).task.containers);
  }

  lemma RefreshForward(m: Machine, failOnPull: bool)
    requires ValidMachine(m)
    ensures var n := Next(m, Refresh, failOnPull);
            && ValidMachine(n) && Forward(m.task, n.task)
            && n.moves == m.moves && Total(n.task.containers) == Total(m.task.containers)
  {
    UpdateStatusGrows(m.task);
    TotalSame(m.task.containers, UpdateStatus(m.task).containers);
  }

  lemma CompleteForward(m: Machine, i: nat, status: int, err: Failure, failOnPull: bool)
    requires ValidMachine(m) && Enabled(m, Complete(i, status, err))
    ensures var n := Next(m, Complete(i, status, err), failOnPull);
            && ValidMachine(n) && Forward(m.task, n.task)
            && n.moves - m.moves <= Total(n.task.containers) - Total(m.task.containers)
  {
    HandleForward(m.(inflight := m.inflight - multiset{(i, status)}), i, status, err, failOnPull);
  }

  lemma DeliverForward(m: Machine, i: nat, status: int, failOnPull: bool)
    requires ValidMachine(m) && Enabled(m, Deliver(i, status))
    ensures var n := Next(m, Deliver(i, status), failOnPull);
            && ValidMachine(n) && Forward(m.task, n.task)
            && n.moves - m.moves <= Total(n.task.containers) - Total(m.task.containers)
  {
    HandleForward(m.(messages := m.messages - multiset{(i, status)}), i, status, NoError, failOnPull);
  }

  lemma StepForward(m: Machine, s: Step, failOnPull: bool)
    requires ValidMachine(m) && Enabled(m, s)
    ensures var n := Next(m, s, failOnPull);
            && ValidMachine(n) && Forward(m.task, n.task)
            && n.moves - m.moves <= Total(n.task.containers) - Total(m.task.containers)
  {
    match s
    case Order(desired, seqnum) => OrderForward(m, desired, seqnum);
    case Docker(i, status, err) => HandleForward(m, i, status, err, failOnPull);
    case Complete(i, status, err) => CompleteForward(m, i, status, err, failOnPull);
    case Deliver(i, status) => DeliverForward(m, i, status, failOnPull);
    case Consider(i, resolved) => ConsiderForward(m, i, resolved);
    case Refresh => RefreshForward(m, failOnPull);
    case GiveUp => OrderForward(m, TASK_STOPPED, 0);
    case _ =>
  }

  lemma {:induction false} RunForward(m: Machine, run: seq<Step>, failOnPull: bool)
    requires ValidMachine(m) && CanRun(m, run, failOnPull)
    ensures var n := Run(m, run, failOnPull);
            && ValidMachine(n) && Forward(m.task, n.task)
            && n.moves - m.moves <= Total(n.task.containers) - Total(m.task.containers)
    decreases run
  {
    if run != [] {
      StepForward(m, run[0], failOnPull);
      RunForward(Next(m, run[0], failOnPull), run[1..], failOnPull);
    }
  }

  /**
   Whatever the events and their errors, the known and desired statuses of the task and of its
   containers never decrease, and the known statuses change at most five times per container in
   all.
   */
  lemma StatusesOnlyAdvance(m: Machine, run: seq<Step>, failOnPull: bool)
    requires Start(m) && CanRun(m, run, failOnPull)
    ensures Forward(m.task, Run(m, run, failOnPull).task)
    ensures Run(m, run, failOnPull).moves <= STOPPED * |m.task.containers|
  {
    RunForward(m, run, failOnPull);
    TotalBounds(m.task.containers);
    TotalBounds(Run(m, run, failOnPull).task.containers);
  }

  /** A container becomes created, running or provisioned only by an event without an error. */
  lemma ForwardOnlyWithoutError(m: Machine, s: Step, failOnPull: bool, i: nat)
    requires ValidMachine(m) && Enabled(m, s) && i < |m.task.containers|
    requires i < |Next(m, s, failOnPull).task.containers|
    requires Next(m, s, failOnPull).task.containers[i].known != m.task.containers[i].known
    requires CREATED <= Next(m, s, failOnPull).task.containers[i].known <= RESOURCES_PROVISIONED
    ensures var reached := Next(m, s, failOnPull).task.containers[i].known;
            s == Docker(i, reached, NoError) || s == Complete(i, reached, NoError) || s == Deliver(i, reached)
  {
    match s
    case Docker(k, status, err) => HandleEventGrows(m.task, k, status, err, failOnPull);
    case Complete(k, status, err) => HandleEventGrows(m.task, k, status, err, failOnPull);
    case Deliver(k, status) => HandleEventGrows(m.task, k, status, NoError, failOnPull);
    case _ => OthersKeepKnown(m, s, failOnPull, i);
  }

  lemma OthersKeepKnown(m: Machine, s: Step, failOnPull: bool, i: nat)
    requires ValidMachine(m) && Enabled(m, s) && i < |m.task.containers| && !s.Docker? && !s.Complete? && !s.Deliver?
    ensures i < |Next(m, s, failOnPull).task.containers|
    ensures Next(m, s, failOnPull).task.containers[i].known == m.task.containers[i].known
  {
  }
}
