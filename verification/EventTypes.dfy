/**
 Values handled by the task event handler: container and task state changes, the
 events queued for them, and the decision whether an event still has to be sent.

 A status is an integer in the order of the agent's status enumerations; NONE is 0.
 */
module EventTypes {
  import opened Basics
  import TaskState

  const STATUS_NONE: int := 0
  const TASK_STOPPED: int := 4

  /** A task or container object whose SentStatus the handler keeps up to date. */
  datatype Ref = TaskRef(arn: string, id: nat) | ContainerRef(arn: string, name: string)

  datatype ContainerChange = ContainerChange(arn: string, name: string, status: int) {
    function Target(): Ref { ContainerRef(arn, name) }
  }

  /** `task` names the task object, `attachment` the ENI attachment, that the change points to. */
  datatype TaskChange = TaskChange(arn: string, status: int, task: Option<nat>, attachment: Option<nat>,
                                   containers: seq<ContainerChange>)
  {
    /** All carried container changes belong to this task. */
    ghost predicate WellFormed() {
      forall c | c in containers :: c.arn == arn
    }
  }

  /** An entry of a task's event list. `sent` is set once the backend has accepted the event. */
  datatype Event =
    | ContainerEvent(container: ContainerChange, sent: bool)
    | TaskEvent(task: TaskChange, sent: bool)
  {
    function Arn(): string {
      match this
      case ContainerEvent(c, _) => c.arn
      case TaskEvent(t, _) => t.arn
    }

    function Carried(): seq<ContainerChange> {
      match this
      case ContainerEvent(c, _) => [c]
      case TaskEvent(t, _) => t.containers
    }

    /** Container changes the backend client puts on the wire: none when an attachment is present. */
    function Payload(): seq<ContainerChange> {
      if TaskEvent? && task.attachment.Some? then [] else Supported(Carried())
    }
  }

  /** The container statuses that the backend client sends. */
  predicate IsSupported(status: int) { status == TaskState.RUNNING || status == TaskState.STOPPED }

  /** The changes with such a status; the client leaves the others out. */
  function Supported(cs: seq<ContainerChange>): seq<ContainerChange> {
    if cs == [] then [] else (if IsSupported(cs[0].status) then [cs[0]] else []) + Supported(cs[1..])
  }

  lemma {:induction false} SupportedCount(cs: seq<ContainerChange>, c: ContainerChange)
    ensures multiset(Supported(cs))[c] == if c.status == TaskState.RUNNING || c.status == TaskState.STOPPED then multiset(cs)[c] else 0
    decreases cs
  {
    if cs != [] {
      SupportedCount(cs[1..], c);
      assert cs == [cs[0]] + cs[1..];
    }
  }

  /** The mutable objects that events point to. A missing entry is the zero status. */
  datatype Objects = Objects(sent: map<Ref, int>, known: map<Ref, int>, attached: set<nat>) {
    function Sent(r: Ref): int { if r in sent then sent[r] else STATUS_NONE }
    function Known(r: Ref): int { if r in known then known[r] else STATUS_NONE }
  }

  datatype Kind = AsContainer | AsTask | AsAttachment

  predicate ContainerShouldBeSent(o: Objects, e: Event) {
    e.ContainerEvent? && !e.sent && o.Sent(e.container.Target()) < e.container.status
  }

  predicate TaskShouldBeSent(o: Objects, e: Event) {
    && e.TaskEvent?
    && !e.sent
    && e.task.task.Some?
    && (|| o.Sent(TaskRef(e.task.arn, e.task.task.value)) < e.task.status
        || exists c | c in e.task.containers :: o.Sent(c.Target()) < o.Known(c.Target()))
  }

  predicate AttachmentShouldBeSent(o: Objects, e: Event, expired: bool) {
    && e.TaskEvent?
    && e.task.status == STATUS_NONE
    && e.task.attachment.Some?
    && !expired
    && e.task.attachment.value !in o.attached
  }

  /** How the head event is submitted, or None when it is redundant. */
  function SubmitAs(o: Objects, e: Event, expired: bool): (k: Option<Kind>)
  {
    if ContainerShouldBeSent(o, e) then Some(AsContainer)
    else if TaskShouldBeSent(o, e) then Some(AsTask)
    else if AttachmentShouldBeSent(o, e, expired) then Some(AsAttachment)
    else None
  }

  /** SentStatus updates to attempt after the backend accepted the event, in order. */
  function Marks(e: Event, k: Kind): seq<(Ref, int)> {
    MarksOf(e, k, e.Carried())
  }

  /** The task, if it is submitted as one, and then these containers. */
  function MarksOf(e: Event, k: Kind, cs: seq<ContainerChange>): seq<(Ref, int)> {
    match k
    case AsContainer => ContainerMarks(cs)
    case AsAttachment => []
    case AsTask =>
      (if e.TaskEvent? && e.task.task.Some? then [(TaskRef(e.task.arn, e.task.task.value), e.task.status)] else [])
      + ContainerMarks(cs)
  }

  /**
   Statuses the backend client puts on the wire for the event. A change with an attachment is sent as
   the attachment alone, whatever else it holds; otherwise the containers with other statuses than
   RUNNING and STOPPED are left out.
   */
  function Wire(e: Event, k: Kind): seq<(Ref, int)> {
    if e.TaskEvent? && e.task.attachment.Some? then [] else MarksOf(e, k, e.Payload())
  }

  function ContainerMarks(cs: seq<ContainerChange>): (m: seq<(Ref, int)>)
    ensures |m| == |cs|
    ensures forall i | 0 <= i < |cs| :: m[i] == (cs[i].Target(), cs[i].status)
  {
    if cs == [] then [] else [(cs[0].Target(), cs[0].status)] + ContainerMarks(cs[1..])
  }

  lemma MarksOfMembers(e: Event, k: Kind, cs: seq<ContainerChange>, ds: seq<ContainerChange>)
    requires forall c | c in cs :: c in ds
    ensures forall m | m in MarksOf(e, k, cs) :: m in MarksOf(e, k, ds)
  {
    forall m | m in ContainerMarks(cs) ensures m in ContainerMarks(ds) {
      var i :| 0 <= i < |cs| && m == ContainerMarks(cs)[i];
      assert cs[i] in ds;
      var j :| 0 <= j < |ds| && ds[j] == cs[i];
      assert m == ContainerMarks(ds)[j];
    }
  }

  lemma PayloadIsCarried(e: Event)
    ensures multiset(e.Payload()) <= multiset(e.Carried())
    ensures forall c | c in e.Payload() :: c in e.Carried()
  {
    var sent, all := multiset(e.Payload()), multiset(e.Carried());
    forall c ensures sent[c] <= all[c] { SupportedCount(e.Carried(), c); }
    forall c | c in e.Payload() ensures c in e.Carried() { assert sent[c] > 0; }
  }

  /** Only what an object is marked with goes over the wire. */
  lemma WireIsMarked(e: Event, k: Kind)
    ensures forall m | m in Wire(e, k) :: m in Marks(e, k)
  {
    PayloadIsCarried(e);
    MarksOfMembers(e, k, e.Payload(), e.Carried());
  }
}
