/**
 What every interleaving of the event handler keeps: one submitter per list, no stranded
 event and strict submission order.
 */
module EventSafety {
  import opened Basics
  import opened EventTypes
  import opened EventMachine

  // --- one submitter, nothing stranded, submission in push order -----------------------------

  ghost predicate EventsOK(x: EventList) {
    forall i | 0 <= i < |x.events| ::
      && x.events[i].TaskEvent?
      && x.events[i].task.arn == x.arn
      && x.events[i].task.WellFormed()
      && (x.events[i].sent <==> i == 0 && (x.at.Marking? || x.at.Writing?))
  }

  ghost predicate ProgressOK(x: EventList) {
    && (!x.at.Idle? ==> x.events != [])
    && (x.events != [] ==> x.sending)
    && (x.at == Sending(AsTask) ==> x.events[0].TaskEvent? && x.events[0].task.task.Some?)
    && (x.at == Sending(AsAttachment) ==> x.events[0].TaskEvent? && x.events[0].task.attachment.Some?)
    && x.at != Sending(AsContainer)
    && (x.at.Marking? ==> forall m | m in x.at.todo :: m.0.arn == x.arn)
    && (x.at.Writing? ==> x.at.mark.0.arn == x.arn && forall m | m in x.at.rest :: m.0.arn == x.arn)
  }

  /** The list holds what was pushed and not yet popped; submissions never went backwards. */
  ghost predicate OrderOK(x: EventList, pushed: seq<TaskChange>, popped: nat, tried: seq<nat>) {
    && popped + |x.events| == |pushed|
    && (forall i | 0 <= i < |x.events| :: x.events[i].TaskEvent? && x.events[i].task == pushed[popped + i])
    && (forall i, j | 0 <= i < j < |tried| :: tried[i] <= tried[j])
    && (forall i | 0 <= i < |tried| :: tried[i] < |pushed| && tried[i] <= popped)
    && (!x.at.Idle? ==> tried != [] && tried[|tried| - 1] == popped)
  }

  /** One list, the number of goroutines draining it, and its history. */
  ghost predicate ListOK(x: EventList, drainers: nat, pushed: seq<TaskChange>, popped: nat, tried: seq<nat>) {
    && drainers == (if x.sending then 1 else 0)
    && EventsOK(x)
    && ProgressOK(x)
    && OrderOK(x, pushed, popped, tried)
  }

  ghost predicate ListAt(w: World, l: nat) {
    && l < |w.h.lists| == |w.log.pushed| == |w.log.popped| == |w.log.tried|
    && ListOK(w.h.lists[l], w.h.submitters[l], w.log.pushed[l], w.log.popped[l], w.log.tried[l])
  }

  ghost predicate MapOK(h: Handler) {
    && (forall a | a in h.tasksToEvents :: h.tasksToEvents[a] < |h.lists| && h.lists[h.tasksToEvents[a]].arn == a)
    && (forall a | a in h.batches :: forall c | c in h.batches[a] :: c.arn == a)
    && (h.held.Some? ==>
          var (l, e) := h.held.value;
          && e.TaskEvent? && !e.sent && e.task.WellFormed()
          && e.task.arn in h.tasksToEvents && h.tasksToEvents[e.task.arn] == l)
    && (forall l | l in h.submitters :: l < |h.lists|)
  }

  ghost predicate Safe(w: World) {
    && |w.h.lists| == |w.log.pushed| == |w.log.popped| == |w.log.tried|
    && MapOK(w.h)
    && forall l | 0 <= l < |w.h.lists| :: ListAt(w, l)
  }

  /** Nothing but list l, its drainers and its history differ. */
  ghost predicate OnlyList(w: World, v: World, l: nat) {
    && l < |w.h.lists| == |v.h.lists| == |w.log.pushed| == |w.log.popped| == |w.log.tried|
    && |w.log.pushed| == |v.log.pushed| == |v.log.popped| == |v.log.tried|
    && v.h.lists[l].arn == w.h.lists[l].arn
    && forall k | 0 <= k < |w.h.lists| && k != l ::
         && v.h.lists[k] == w.h.lists[k]
         && v.h.submitters[k] == w.h.submitters[k]
         && v.log.pushed[k] == w.log.pushed[k]
         && v.log.popped[k] == w.log.popped[k]
         && v.log.tried[k] == w.log.tried[k]
  }

  lemma SafeFrame(w: World, v: World, l: nat)
    requires Safe(w) && OnlyList(w, v, l) && MapOK(v.h) && ListAt(v, l)
    ensures Safe(v)
  {
    forall k | 0 <= k < |v.h.lists| ensures ListAt(v, k) {
      if k != l { assert ListAt(w, k); }
    }
  }

  lemma MarksStayInTask(e: Event, k: Kind)
    requires e.TaskEvent? && e.task.WellFormed()
    ensures forall m | m in Marks(e, k) :: m.0.arn == e.task.arn
  {
  }

  lemma SafeStep(w: World, s: Step)
    requires Safe(w) && Enabled(w, s)
    ensures Safe(Next(w, s))
  {
    match s
    case AddContainer(c) => SafeElsewhere(w, Next(w, s));
    case Flush(t) => SafeFlush(w, t);
    case Push => SafePush(w);
    case Attempt(l, expired) => SafeAttempt(w, l, expired);
    case Answer(l, reply) => SafeAnswer(w, l, reply);
    case MarkRead(l) => SafeMarkRead(w, l);
    case MarkWrite(l) => SafeMarkWrite(w, l);
    case FinishSend(l) => SafeDrop(w, l, Next(w, s));
    case RemoveEntry(a) => SafeElsewhere(w, Next(w, s));
    case SetKnown(r, status) => SafeElsewhere(w, Next(w, s));
  }

  lemma SafeElsewhere(w: World, v: World)
    requires Safe(w) && MapOK(v.h)
    requires v.h.lists == w.h.lists && v.h.submitters == w.h.submitters
    requires v.log.pushed == w.log.pushed && v.log.popped == w.log.popped && v.log.tried == w.log.tried
    ensures Safe(v)
  {
    forall k | 0 <= k < |v.h.lists| ensures ListAt(v, k) { assert ListAt(w, k); }
  }

  lemma SafeFlush(w: World, t: TaskChange)
    requires Safe(w) && Enabled(w, Flush(t))
    ensures Safe(DoFlush(w, t))
  {
    var v := DoFlush(w, t);
    forall l | 0 <= l < |v.h.lists| ensures ListAt(v, l) {
      if l < |w.h.lists| { assert ListAt(w, l); }
    }
  }

  lemma SafePush(w: World)
    requires Safe(w) && Enabled(w, Push)
    ensures Safe(DoPush(w))
  {
    var v := DoPush(w);
    var (l, e) := w.h.held.value;
    assert ListAt(w, l);
    PushedOK(w.h.lists[l], w.h.submitters[l], w.log.pushed[l], w.log.popped[l], w.log.tried[l], e);
    SafeFrame(w, v, l);
  }

  /** A list that gets one more event, and a submitter if it had none. */
  lemma PushedOK(x: EventList, drainers: nat, pushed: seq<TaskChange>, popped: nat, tried: seq<nat>, e: Event)
    requires ListOK(x, drainers, pushed, popped, tried) && x.at.Idle?
    requires e.TaskEvent? && !e.sent && e.task.arn == x.arn && e.task.WellFormed()
    ensures ListOK(x.(events := x.events + [e], sending := true), if x.sending then drainers else drainers + 1,
                   pushed + [e.task], popped, tried)
  {
    var y := x.(events := x.events + [e], sending := true);
    assert forall i | 0 <= i < |x.events| :: y.events[i] == x.events[i];
  }

  /** The head leaves list l, in whatever way the log records it. */
  lemma SafeDrop(w: World, l: nat, v: World)
    requires Safe(w) && l < |w.h.lists| && w.h.lists[l].events != []
    requires v.h == DropHead(w.h, l) || v.h == Settle(DropHead(w.h, l), l)
    requires v.log.pushed == w.log.pushed && v.log.tried == w.log.tried
    requires v.log.popped == w.log.popped[l := w.log.popped[l] + 1]
    ensures Safe(v)
  {
    assert ListAt(w, l);
    var x, y := w.h.lists[l], v.h.lists[l];
    DroppedList(x, y, w.h.submitters[l], v.h.submitters[l], w.log.pushed[l], w.log.popped[l], w.log.tried[l]);
    SafeFrame(w, v, l);
  }

  /** The list without its head; with the last event its submitter is gone. */
  lemma DroppedList(x: EventList, y: EventList, drainers: nat, left: nat, pushed: seq<TaskChange>, popped: nat, tried: seq<nat>)
    requires ListOK(x, drainers, pushed, popped, tried) && x.events != []
    requires y == x.(events := x.events[1..], at := Idle, sending := y.sending)
    requires (y.sending && left == drainers) || (y.events == [] && !y.sending && left == drainers - 1)
    ensures ListOK(y, left, pushed, popped + 1, tried)
  {
    assert forall i | 0 <= i < |y.events| :: y.events[i] == x.events[i + 1];
    assert EventsOK(y);
  }

  lemma SafeMarkRead(w: World, l: nat)
    requires Safe(w) && Enabled(w, MarkRead(l))
    ensures Safe(DoMarkRead(w, l))
  {
    assert ListAt(w, l);
    SafeFrame(w, DoMarkRead(w, l), l);
  }

  lemma SafeMarkWrite(w: World, l: nat)
    requires Safe(w) && Enabled(w, MarkWrite(l))
    ensures Safe(DoMarkWrite(w, l))
  {
    assert ListAt(w, l);
    SafeFrame(w, DoMarkWrite(w, l), l);
  }

  lemma SafeEmpty(w: World, l: nat)
    requires Safe(w) && Enabled(w, Attempt(l, false)) && w.h.lists[l].events == []
    ensures Safe(w.(h := Settle(w.h, l)))
  {
    assert ListAt(w, l);
    SafeFrame(w, w.(h := Settle(w.h, l)), l);
  }

  ghost predicate Fits(k: Kind, e: Event) {
    match k
    case AsContainer => e.ContainerEvent?
    case AsTask => e.TaskEvent? && e.task.task.Some?
    case AsAttachment => e.TaskEvent? && e.task.attachment.Some?
  }

  lemma SafeStart(w: World, l: nat, k: Kind)
    requires Safe(w) && Enabled(w, Attempt(l, false)) && w.h.lists[l].events != [] && Fits(k, w.h.lists[l].events[0])
    ensures Safe(DoAttempt(w, l, Some(k)))
  {
    assert ListAt(w, l);
    assert w.h.lists[l].events[0].TaskEvent?;
    SafeFrame(w, DoAttempt(w, l, Some(k)), l);
  }

  lemma SafeAttempt(w: World, l: nat, expired: bool)
    requires Safe(w) && Enabled(w, Attempt(l, expired))
    ensures Safe(Next(w, Attempt(l, expired)))
  {
    var d := Decide(w, l, expired);
    if w.h.lists[l].events == [] {
      SafeEmpty(w, l);
    } else if d.Some? {
      SafeStart(w, l, d.value);
    } else {
      SafeDrop(w, l, DoAttempt(w, l, None));
    }
  }

  /** The list after its head was accepted: the head is sent and its marks are to be made. */
  lemma AcceptedList(x: EventList, y: EventList, drainers: nat, pushed: seq<TaskChange>, popped: nat, tried: seq<nat>)
    requires ListOK(x, drainers, pushed, popped, tried) && x.events != [] && x.at.Sending?
    requires y == x.(events := x.events[0 := x.events[0].(sent := true)], at := Marking(Marks(x.events[0], x.at.kind)))
    ensures ListOK(y, drainers, pushed, popped, tried)
  {
    assert y.events[1..] == x.events[1..] && y.events[0].task == x.events[0].task;
    assert ProgressOK(y) by { MarksStayInTask(x.events[0], x.at.kind); }
  }

  lemma SafeAccepted(w: World, l: nat)
    requires Safe(w) && Enabled(w, Answer(l, Accepted))
    ensures Safe(DoAnswer(w, l, Accepted))
  {
    assert ListAt(w, l);
    var v := DoAnswer(w, l, Accepted);
    AcceptedList(w.h.lists[l], v.h.lists[l], w.h.submitters[l], w.log.pushed[l], w.log.popped[l], w.log.tried[l]);
    SafeFrame(w, v, l);
  }

  lemma SafeAnswer(w: World, l: nat, reply: Reply)
    requires Safe(w) && Enabled(w, Answer(l, reply))
    ensures Safe(DoAnswer(w, l, reply))
  {
    assert ListAt(w, l);
    match reply
    case Failed => SafeFrame(w, DoAnswer(w, l, reply), l);
    case InvalidParameter => SafeDrop(w, l, DoAnswer(w, l, reply));
    case Accepted => SafeAccepted(w, l);
  }
}
