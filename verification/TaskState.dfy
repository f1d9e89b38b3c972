/**
 Tasks, containers and the status arithmetic of the task manager, as functions on values.
 */
module TaskState {
  // Container statuses, in order
  const NONE: int := 0
  const PULLED: int := 1
  const CREATED: int := 2
  const RUNNING: int := 3
  const RESOURCES_PROVISIONED: int := 4
  const STOPPED: int := 5

  // Task statuses, in order
  const TASK_NONE: int := 0
  const TASK_CREATED: int := 2
  const TASK_RUNNING: int := 3
  const TASK_STOPPED: int := 4
  const TASK_ZOMBIE: int := 5

  predicate IsRunning(status: int) { status == RUNNING || status == RESOURCES_PROVISIONED }

  /** `applied` is the transition in progress, NONE when there is none. */
  datatype Container = Container(known: int, desired: int, applied: int, steady: int, essential: bool)

  datatype Task = Task(known: int, desired: int, stopSeq: int, containers: seq<Container>)

  ghost predicate ValidContainer(c: Container) {
    && NONE <= c.known <= STOPPED
    && NONE <= c.applied <= STOPPED
    && CREATED <= c.steady <= RESOURCES_PROVISIONED
    && (NONE <= c.desired <= c.steady || c.desired == STOPPED)
  }

  ghost predicate ValidTask(t: Task) {
    && TASK_NONE <= t.known <= TASK_STOPPED
    && TASK_NONE <= t.desired <= TASK_STOPPED
    && forall i | 0 <= i < |t.containers| :: ValidContainer(t.containers[i])
  }

  // SetKnownStatus: a transition that the new status completes is no longer in progress
  function SetKnown(c: Container, status: int): Container {
    c.(known := status, applied := if c.applied <= status then NONE else c.applied)
  }

  function MapContainerToTask(known: int, steady: int): int {
    if known == NONE then TASK_NONE
    else if known == steady then TASK_RUNNING
    else if known == CREATED then TASK_CREATED
    else if known == STOPPED then TASK_STOPPED
    else if known == RUNNING && steady == RESOURCES_PROVISIONED then TASK_CREATED
    else TASK_NONE
  }

  function MapTaskToContainer(desired: int, steady: int): int {
    if desired == TASK_CREATED then CREATED
    else if desired == TASK_RUNNING then steady
    else if desired == TASK_STOPPED then STOPPED
    else NONE
  }

  // --- updateTaskKnownStatus ---

  /** The task status that all containers have reached. */
  function Earliest(cs: seq<Container>): int {
    if cs == [] then TASK_ZOMBIE
    else
      var rest := Earliest(cs[..|cs| - 1]);
      var last := MapContainerToTask(cs[|cs| - 1].known, cs[|cs| - 1].steady);
      if last < rest then last else rest
  }

  /** The first container with the lowest known status. */
  function Slowest(cs: seq<Container>): nat
    requires cs != []
    ensures Slowest(cs) < |cs|
  {
    if |cs| == 1 then 0
    else
      var i := Slowest(cs[..|cs| - 1]);
      if cs[|cs| - 1].known < cs[i].known then |cs| - 1 else i
  }

  predicate EssentialStopped(cs: seq<Container>) {
    exists i | 0 <= i < |cs| :: cs[i].essential && cs[i].known == STOPPED
  }

  /** A stopped essential container holds the status back while the slowest one is still steady. */
  predicate HeldBack(cs: seq<Container>)
    requires cs != []
  {
    cs[Slowest(cs)].known == cs[Slowest(cs)].steady && EssentialStopped(cs)
  }

  function UpdateKnown(t: Task): Task {
    if t.containers == [] || HeldBack(t.containers) then t
    else if t.known < Earliest(t.containers) then t.(known := Earliest(t.containers)) else t
  }

  // --- UpdateDesiredStatus ---

  predicate EssentialEnding(cs: seq<Container>) {
    exists i | 0 <= i < |cs| :: cs[i].essential && (cs[i].known == STOPPED || cs[i].desired == STOPPED)
  }

  function RaiseDesired(c: Container, taskDesired: int): Container {
    var target := MapTaskToContainer(taskDesired, c.steady);
    if c.desired < target then c.(desired := target) else c
  }

  function RaiseAll(cs: seq<Container>, taskDesired: int): (r: seq<Container>)
    ensures |r| == |cs|
    ensures forall i | 0 <= i < |cs| :: r[i] == RaiseDesired(cs[i], taskDesired)
  {
    seq(|cs|, i requires 0 <= i < |cs| => RaiseDesired(cs[i], taskDesired))
  }

  function UpdateDesired(t: Task): Task {
    var desired := if EssentialEnding(t.containers) then TASK_STOPPED else t.desired;
    t.(desired := desired, containers := RaiseAll(t.containers, desired))
  }

  function UpdateStatus(t: Task): Task { UpdateDesired(UpdateKnown(t)) }

  // --- handleDesiredStatusChange ---

  predicate AddsToGroup(t: Task, desired: int, seqnum: int) {
    t.desired < desired && desired == TASK_STOPPED && seqnum != 0 && t.stopSeq == 0
  }

  function ChangeDesired(t: Task, desired: int, seqnum: int): Task {
    if desired <= t.desired then t
    else UpdateDesired(t.(desired := desired, stopSeq := if AddsToGroup(t, desired, seqnum) then seqnum else t.stopSeq))
  }

  // --- handleContainerChange ---

  datatype Failure = NoError | Timeout | CannotInspect | StartEof | RetriableStop | OtherError

  datatype Outcome = Outcome(container: Container, stopTask: bool, proceed: bool, forceStop: bool)

  /** A change to a higher status, up to the task update. */
  function ApplyEvent(c: Container, status: int, err: Failure, failOnPull: bool): Outcome {
    var moved := SetKnown(c, status);
    var back := SetKnown(moved, c.known);
    if err == NoError then Outcome(moved, false, true, false)
    else if status == PULLED then Outcome(moved, failOnPull, !failOnPull, false)
    else if status == STOPPED then
      if err == Timeout || err == RetriableStop then Outcome(back, false, false, false)
      else Outcome(SetKnown(moved, STOPPED).(desired := STOPPED), false, true, false)
    else if status == NONE || status == CREATED then Outcome(back.(desired := STOPPED), false, false, false)
    else Outcome(back.(desired := STOPPED), false, false, err == Timeout || err == CannotInspect || err == StartEof)
  }

  /** A stopped container that turns up running is stopped again, once per task. */
  predicate CameBack(c: Container, status: int) {
    status <= c.known && c.known == STOPPED && IsRunning(status)
  }

  function HandleEvent(t: Task, i: nat, status: int, err: Failure, failOnPull: bool): Task
    requires i < |t.containers|
  {
    var c := t.containers[i];
    if status <= c.known then t
    else
      var o := ApplyEvent(c, status, err, failOnPull);
      var u := t.(containers := t.containers[i := o.container], desired := if o.stopTask then TASK_STOPPED else t.desired);
      if o.proceed then UpdateStatus(u) else u
  }

  /** Whether handling the event starts a stop call of its own. */
  predicate StartsStop(c: Container, status: int, err: Failure, failOnPull: bool, spent: bool) {
    if status <= c.known then CameBack(c, status) && !spent
    else ApplyEvent(c, status, err, failOnPull).forceStop
  }

  // --- containerNextState ---

  datatype Transition = Blocked | Message(status: int) | Action(status: int)

  function NextKnown(c: Container): int {
    if c.known == c.steady then STOPPED else c.known + 1
  }

  /** `resolved` tells whether the dependency graph lets the container move. */
  function NextState(c: Container, resolved: bool): Transition {
    if c.known >= c.desired || !resolved then Blocked
    else if c.desired == STOPPED then
      if IsRunning(c.known) then Action(STOPPED)
      else if c.applied == RUNNING then Message(NONE)
      else Message(STOPPED)
    else Action(NextKnown(c))
  }
}
