/**
 The task event handler as a machine of atomic steps.

 The handler lock and the per-list lock make each step atomic. A list outlives its entry
 in the ARN map, so lists have identities of their own: their index in `lists`.
 `submitters` holds, per list, the goroutines still draining it; `removers` holds, per ARN,
 the goroutines that stopped draining and have yet to delete the map entry.
 */
module EventMachine {
  import opened Basics
  import opened EventTypes

  /** Where the submission of a list's head event stands. The list lock is free only when Idle. */
  datatype Progress =
    | Idle
    | Sending(kind: Kind)
    | Marking(todo: seq<(Ref, int)>)
    | Writing(mark: (Ref, int), rest: seq<(Ref, int)>)

  datatype EventList = EventList(arn: string, events: seq<Event>, sending: bool, at: Progress)

  datatype Handler = Handler(
    tasksToEvents: map<string, nat>,
    batches: map<string, seq<ContainerChange>>,
    lists: seq<EventList>,
    held: Option<(nat, Event)>,   // event in hand of the goroutine that holds the handler lock
    submitters: multiset<nat>,
    removers: multiset<string>)

  /** What happened so far. */
  datatype Log = Log(
    accepted: multiset<ContainerChange>,
    delivered: multiset<ContainerChange>,    // on the wire of an accepted submission
    unreported: multiset<ContainerChange>,   // left off the wire of an accepted submission
    redundant: multiset<ContainerChange>,
    rejected: multiset<ContainerChange>,
    highest: map<Ref, int>,                  // highest status the backend was sent and accepted
    announced: multiset<nat>,                // attachments of the events that were accepted as attachments
    pushed: seq<seq<TaskChange>>,            // per list: task events pushed
    popped: seq<nat>,                        // per list: how many of them have left the list
    tried: seq<seq<nat>>)                    // per list: positions of the submitted events, in order
  {
    function Highest(r: Ref): int { if r in highest then highest[r] else STATUS_NONE }
  }

  datatype World = World(h: Handler, objs: Objects, log: Log)

  datatype Reply = Accepted | InvalidParameter | Failed

  datatype Step =
    | AddContainer(change: ContainerChange)
    | Flush(task: TaskChange)
    | Push
    | Attempt(list: nat, expired: bool)
    | Answer(list: nat, reply: Reply)
    | MarkRead(list: nat)
    | MarkWrite(list: nat)
    | FinishSend(list: nat)
    | RemoveEntry(arn: string)
    | SetKnown(container: Ref, status: int)

  predicate HasHead(h: Handler, l: nat) {
    l < |h.lists| && h.submitters[l] > 0 && h.lists[l].events != []
  }

  ghost predicate Enabled(w: World, s: Step) {
    match s
    // A change reports at most the status its container is known to have.
    case AddContainer(c) => w.h.held.None? && c.status <= w.objs.Known(c.Target())
    case Flush(t) =>
      && w.h.held.None?
      && t.WellFormed()
      && forall c | c in t.containers :: c.status <= w.objs.Known(c.Target())
    case Push => w.h.held.Some? && w.h.held.value.0 < |w.h.lists| && w.h.lists[w.h.held.value.0].at.Idle?
    case Attempt(l, _) => l < |w.h.lists| && w.h.submitters[l] > 0 && w.h.lists[l].at.Idle?
    case Answer(l, _) => HasHead(w.h, l) && w.h.lists[l].at.Sending?
    case MarkRead(l) => HasHead(w.h, l) && w.h.lists[l].at.Marking? && w.h.lists[l].at.todo != []
    case MarkWrite(l) => HasHead(w.h, l) && w.h.lists[l].at.Writing?
    case FinishSend(l) => HasHead(w.h, l) && w.h.lists[l].at == Marking([])
    case RemoveEntry(a) => w.h.removers[a] > 0 && w.h.held.None?
    // A known status may be set and set back again, but not below a status that was reported.
    case SetKnown(r, status) => ReportsAtMost(w.h, r, status)
  }

  predicate AtMost(cs: seq<ContainerChange>, r: Ref, status: int) {
    forall c | c in cs && c.Target() == r :: c.status <= status
  }

  /** No change of this object that the handler still holds reports more than this status. */
  ghost predicate ReportsAtMost(h: Handler, r: Ref, status: int) {
    && (forall a | a in h.batches :: AtMost(h.batches[a], r, status))
    && (h.held.Some? ==> AtMost(h.held.value.1.Carried(), r, status))
    && (forall l | 0 <= l < |h.lists| :: ListAtMost(h.lists[l], r, status))
  }

  ghost predicate ListAtMost(x: EventList, r: Ref, status: int) {
    forall i | 0 <= i < |x.events| :: AtMost(x.events[i].Carried(), r, status)
  }

  function Batch(h: Handler, arn: string): seq<ContainerChange> {
    if arn in h.batches then h.batches[arn] else []
  }

  function SetList(h: Handler, l: nat, x: EventList): Handler
    requires l < |h.lists|
  {
    h.(lists := h.lists[l := x])
  }

  /** End of submitFirstEvent: an emptied list stops sending and its goroutine leaves the loop. */
  function Settle(h: Handler, l: nat): Handler
    requires l < |h.lists|
  {
    if h.lists[l].events != [] then h
    else SetList(h, l, h.lists[l].(sending := false))
         .(submitters := h.submitters - multiset{l}, removers := h.removers + multiset{h.lists[l].arn})
  }

  function DropHead(h: Handler, l: nat): Handler
    requires l < |h.lists| && h.lists[l].events != []
  {
    SetList(h, l, h.lists[l].(events := h.lists[l].events[1..], at := Idle))
  }

  function CountPop(log: Log, l: nat): Log {
    if l < |log.popped| then log.(popped := log.popped[l := log.popped[l] + 1]) else log
  }

  function CountTry(log: Log, l: nat): Log {
    if l < |log.tried| && l < |log.popped| then log.(tried := log.tried[l := log.tried[l] + [log.popped[l]]]) else log
  }

  /** Records that the backend accepted these statuses. */
  function Raise(highest: map<Ref, int>, marks: seq<(Ref, int)>): map<Ref, int>
    decreases marks
  {
    if marks == [] then highest
    else
      var (r, s) := marks[0];
      var prev := if r in highest then highest[r] else STATUS_NONE;
      Raise(highest[r := if prev < s then s else prev], marks[1..])
  }

  // batchContainerEventUnsafe
  function DoAddContainer(w: World, c: ContainerChange): World {
    w.(h := w.h.(batches := w.h.batches[c.arn := Batch(w.h, c.arn) + [c]]),
       log := w.log.(accepted := w.log.accepted + multiset{c}))
  }

  // flushBatchUnsafe up to sendChange: take the batch, find or create the list
  function DoFlush(w: World, t: TaskChange): World {
    var e := TaskEvent(t.(containers := t.containers + Batch(w.h, t.arn)), false);
    var log := w.log.(accepted := w.log.accepted + multiset(t.containers));
    var h := w.h.(batches := w.h.batches - {t.arn});
    if t.arn in h.tasksToEvents then
      w.(h := h.(held := Some((h.tasksToEvents[t.arn], e))), log := log)
    else
      var l := |h.lists|;
      w.(h := h.(tasksToEvents := h.tasksToEvents[t.arn := l],
                 lists := h.lists + [EventList(t.arn, [], false, Idle)],
                 held := Some((l, e))),
         log := log.(pushed := log.pushed + [[]], popped := log.popped + [0], tried := log.tried + [[]]))
  }

  // sendChange: push, and start a submitter unless one is running
  function DoPush(w: World): World
    requires w.h.held.Some? && w.h.held.value.0 < |w.h.lists|
  {
    var (l, e) := w.h.held.value;
    var x := w.h.lists[l];
    var h := SetList(w.h, l, x.(events := x.events + [e], sending := true)).(held := None);
    w.(h := if x.sending then h else h.(submitters := h.submitters + multiset{l}),
       log := if e.TaskEvent? && l < |w.log.pushed|
              then w.log.(pushed := w.log.pushed[l := w.log.pushed[l] + [e.task]]) else w.log)
  }

  // submitFirstEvent up to the backend call: how to submit the head, or None to drop it
  function Decide(w: World, l: nat, expired: bool): Option<Kind>
    requires l < |w.h.lists|
  {
    if w.h.lists[l].events == [] then None else SubmitAs(w.objs, w.h.lists[l].events[0], expired)
  }

  function DoAttempt(w: World, l: nat, decision: Option<Kind>): World
    requires l < |w.h.lists|
  {
    var x := w.h.lists[l];
    if x.events == [] then w.(h := Settle(w.h, l))
    else
      match decision
      case Some(k) => w.(h := SetList(w.h, l, x.(at := Sending(k))), log := CountTry(w.log, l))
      case None =>
        w.(h := Settle(DropHead(w.h, l), l),
           log := CountPop(w.log, l).(redundant := w.log.redundant + multiset(x.events[0].Carried())))
  }

  /** The attachment that an accepted event leaves at the backend. */
  function Announces(e: Event, kind: Kind): multiset<nat> {
    if kind.AsAttachment? && e.TaskEvent? && e.task.attachment.Some? then multiset{e.task.attachment.value} else multiset{}
  }

  // the backend's answer: setSent, or handleInvalidParamException, or retry later
  function DoAnswer(w: World, l: nat, reply: Reply): World
    requires l < |w.h.lists| && w.h.lists[l].events != [] && w.h.lists[l].at.Sending?
  {
    var x := w.h.lists[l];
    var e := x.events[0];
    var kind := x.at.kind;
    match reply
    case Failed => w.(h := SetList(w.h, l, x.(at := Idle)))
    case InvalidParameter =>
      if kind.AsContainer? then w.(h := SetList(w.h, l, x.(at := Idle)))
      else w.(h := DropHead(w.h, l),
              log := CountPop(w.log, l).(rejected := w.log.rejected + multiset(e.Carried())))
    case Accepted =>
      var marks := Marks(e, kind);
      World(SetList(w.h, l, x.(events := x.events[0 := e.(sent := true)], at := Marking(marks))),
            if kind.AsAttachment? && e.TaskEvent? && e.task.attachment.Some?
            then w.objs.(attached := w.objs.attached + {e.task.attachment.value}) else w.objs,
            w.log.(delivered := w.log.delivered + multiset(e.Payload()),
                   unreported := w.log.unreported + (multiset(e.Carried()) - multiset(e.Payload())),
                   highest := Raise(w.log.highest, Wire(e, kind)),
                   announced := w.log.announced + Announces(e, kind)))
  }

  // setTaskChangeSent, one object at a time: read the sent status ...
  function DoMarkRead(w: World, l: nat): World
    requires l < |w.h.lists| && w.h.lists[l].at.Marking? && w.h.lists[l].at.todo != []
  {
    var x := w.h.lists[l];
    var todo := x.at.todo;
    w.(h := SetList(w.h, l, x.(at := if w.objs.Sent(todo[0].0) < todo[0].1 then Writing(todo[0], todo[1..])
                                     else Marking(todo[1..]))))
  }

  // ... and write it in a separate critical section of the object's lock
  function DoMarkWrite(w: World, l: nat): World
    requires l < |w.h.lists| && w.h.lists[l].at.Writing?
  {
    var x := w.h.lists[l];
    w.(h := SetList(w.h, l, x.(at := Marking(x.at.rest))),
       objs := w.objs.(sent := w.objs.sent[x.at.mark.0 := x.at.mark.1]))
  }

  function DoFinishSend(w: World, l: nat): World
    requires l < |w.h.lists| && w.h.lists[l].events != []
  {
    w.(h := Settle(DropHead(w.h, l), l), log := CountPop(w.log, l))
  }

  // removeTaskEvents
  function DoRemoveEntry(w: World, a: string): World {
    w.(h := w.h.(tasksToEvents := w.h.tasksToEvents - {a}, removers := w.h.removers - multiset{a}))
  }

  function Next(w: World, s: Step): World
    requires Enabled(w, s)
  {
    match s
    case AddContainer(c) => DoAddContainer(w, c)
    case Flush(t) => DoFlush(w, t)
    case Push => DoPush(w)
    case Attempt(l, expired) => DoAttempt(w, l, Decide(w, l, expired))
    case Answer(l, reply) => DoAnswer(w, l, reply)
    case MarkRead(l) => DoMarkRead(w, l)
    case MarkWrite(l) => DoMarkWrite(w, l)
    case FinishSend(l) => DoFinishSend(w, l)
    case RemoveEntry(a) => DoRemoveEntry(w, a)
    case SetKnown(r, status) => w.(objs := w.objs.(known := w.objs.known[r := status]))
  }

  /** An empty handler; the objects may hold any statuses restored from the agent's state file. */
  ghost predicate Init(w: World) {
    && w.h == Handler(map[], map[], [], None, multiset{}, multiset{})
    && w.log == Log(multiset{}, multiset{}, multiset{}, multiset{}, multiset{}, w.objs.sent, multiset{}, [], [], [])
  }

  /** The steps are possible one after the other, from w. */
  ghost predicate CanRun(w: World, run: seq<Step>)
    decreases run
  {
    run == [] || (Enabled(w, run[0]) && CanRun(Next(w, run[0]), run[1..]))
  }

  function Run(w: World, run: seq<Step>): World
    requires CanRun(w, run)
    decreases run
  {
    if run == [] then w else Run(Next(w, run[0]), run[1..])
  }

  /** Builds a run from its last step backwards. */
  lemma RunCons(w: World, s: Step, run: seq<Step>)
    requires Enabled(w, s) && CanRun(Next(w, s), run)
    ensures CanRun(w, [s] + run) && Run(w, [s] + run) == Run(Next(w, s), run)
  {
  }

  lemma RunOne(w: World, s: Step)
    requires Enabled(w, s)
    ensures CanRun(w, [s]) && Run(w, [s]) == Next(w, s)
  {
  }

  lemma {:induction false} RunConcat(w: World, run: seq<Step>, more: seq<Step>)
    requires CanRun(w, run) && CanRun(Run(w, run), more)
    ensures CanRun(w, run + more) && Run(w, run + more) == Run(Run(w, run), more)
    decreases run
  {
    if run == [] {
      assert run + more == more;
    } else {
      var next, rest := Next(w, run[0]), run[1..];
      RunTail(w, run);
      RunConcat(next, rest, more);
      RunCons(w, run[0], rest + more);
      assert [run[0]] + (rest + more) == run + more;
    }
  }

  lemma RunTail(w: World, run: seq<Step>)
    requires run != [] && CanRun(w, run)
    ensures Enabled(w, run[0]) && CanRun(Next(w, run[0]), run[1..]) && Run(Next(w, run[0]), run[1..]) == Run(w, run)
  {
  }

  lemma RunTwo(w: World, s: Step, t: Step)
    requires Enabled(w, s) && Enabled(Next(w, s), t)
    ensures CanRun(w, [s] + [t]) && Run(w, [s] + [t]) == Next(Next(w, s), t)
  {
    RunOne(Next(w, s), t);
    RunCons(w, s, [t]);
  }
}
