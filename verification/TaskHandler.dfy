/**
 The task event handler as an object: each method is one critical section of the source, run by
 itself; FlushIsRun and SubmitIsRun show the larger ones to be runs of the step machine, and the others are
 single steps.
 */
module TaskHandler {
  import opened Basics
  import opened EventTypes
  import opened EventMachine
  import opened EventSafety
  import opened EventRuns
  import opened EventDrain

  datatype StateChange = OfTask(task: TaskChange) | OfContainer(container: ContainerChange) | OfAttachment

  /** What the engine knows about a task: its object and its known status. */
  datatype TaskInfo = TaskInfo(id: nat, known: int)

  /** A whole call of submitFirstEvent that nothing interrupts, once the head's fate is decided. */
  function Submit(w: World, l: nat, d: Option<Kind>, reply: Reply): World
    requires l < |w.h.lists|
  {
    if w.h.lists[l].events == [] || d.None? then DoAttempt(w, l, None)
    else
      var e := w.h.lists[l].events[0];
      match reply
      case Accepted => AcceptHead(w, l, e, d.value)
      case InvalidParameter => if d.value.AsContainer? then w.(log := CountTry(w.log, l)) else RejectHead(w, l, e)
      case Failed => w.(log := CountTry(w.log, l))
  }

  function AcceptHead(w: World, l: nat, e: Event, k: Kind): World
    requires l < |w.h.lists| && w.h.lists[l].events != []
  {
    World(Settle(DropHead(w.h, l), l), MarkAll(Attached(w.objs, e, k), Marks(e, k)), AcceptedLog(w.log, l, e, k))
  }

  function AcceptedLog(before: Log, l: nat, e: Event, k: Kind): Log {
    var log := CountTry(before, l);
    CountPop(log.(delivered := log.delivered + multiset(e.Payload()),
                  unreported := log.unreported + (multiset(e.Carried()) - multiset(e.Payload())),
                  highest := Raise(log.highest, Wire(e, k)),
                  announced := log.announced + Announces(e, k)), l)
  }

  function RejectHead(w: World, l: nat, e: Event): World
    requires l < |w.h.lists| && w.h.lists[l].events != []
  {
    var log := CountTry(w.log, l);
    w.(h := DropHead(w.h, l), log := CountPop(log, l).(rejected := log.rejected + multiset(e.Carried())))
  }

  function Attached(o: Objects, e: Event, k: Kind): Objects {
    if k.AsAttachment? && e.TaskEvent? && e.task.attachment.Some?
    then o.(attached := o.attached + {e.task.attachment.value}) else o
  }

  lemma RefusedIsAnswer(w: World, l: nat, k: Kind, reply: Reply)
    requires l < |w.h.lists| && w.h.lists[l].events != [] && w.h.lists[l].at.Idle? && reply != Accepted
    ensures DoAnswer(DoAttempt(w, l, Some(k)), l, reply) == Submit(w, l, Some(k), reply)
  {
  }

  lemma AcceptedIsFinish(w: World, l: nat, k: Kind)
    requires l < |w.h.lists| && w.h.lists[l].events != [] && w.h.lists[l].at.Idle?
    ensures var v := DoAnswer(DoAttempt(w, l, Some(k)), l, Accepted);
            DoFinishSend(World(SetList(v.h, l, v.h.lists[l].(at := Marking([]))),
                               MarkAll(v.objs, v.h.lists[l].at.todo), v.log), l)
            == AcceptHead(w, l, w.h.lists[l].events[0], k)
  {
    var v := DoAnswer(DoAttempt(w, l, Some(k)), l, Accepted);
    var h := SetList(v.h, l, v.h.lists[l].(at := Marking([])));
    assert h.lists[l].events[1..] == w.h.lists[l].events[1..];
    assert DropHead(h, l).lists == DropHead(w.h, l).lists;
  }

  /** An uninterrupted addition of a task event is a run, once the lock of its list is free. */
  lemma FlushIsRun(w: World, t: TaskChange)
    requires Safe(w) && Enabled(w, Flush(t))
    requires t.arn in w.h.tasksToEvents ==> w.h.lists[w.h.tasksToEvents[t.arn]].at.Idle?
    ensures CanRun(w, [Flush(t), Push]) && Run(w, [Flush(t), Push]) == DoPush(DoFlush(w, t))
  {
    SafeStep(w, Flush(t));
    RunTwo(w, Flush(t), Push);
    assert [Flush(t)] + [Push] == [Flush(t), Push];
  }

  /** An uninterrupted attempt is a run of steps on its list. */
  lemma SubmitIsRun(w: World, l: nat, expired: bool, reply: Reply) returns (run: seq<Step>)
    requires Enabled(w, Attempt(l, expired))
    ensures CanRun(w, run) && Run(w, run) == Submit(w, l, Decide(w, l, expired), reply)
    ensures forall s | s in run :: OnList(s, l)
  {
    var attempt := Attempt(l, expired);
    var d := Decide(w, l, expired);
    if d.None? {
      RunOne(w, attempt);
      run := [attempt];
    } else {
      run := AnsweredIsRun(w, l, expired, d.value, reply);
    }
  }

  lemma AnsweredIsRun(w: World, l: nat, expired: bool, k: Kind, reply: Reply) returns (run: seq<Step>)
    requires Enabled(w, Attempt(l, expired)) && w.h.lists[l].events != []
    requires Next(w, Attempt(l, expired)) == DoAttempt(w, l, Some(k))
    ensures CanRun(w, run) && Run(w, run) == Submit(w, l, Some(k), reply)
    ensures forall s | s in run :: OnList(s, l)
  {
    if reply == Accepted {
      run := AcceptedIsRun(w, l, expired, k);
    } else {
      RunTwo(w, Attempt(l, expired), Answer(l, reply));
      run := [Attempt(l, expired)] + [Answer(l, reply)];
      RefusedIsAnswer(w, l, k, reply);
    }
  }

  lemma AcceptedIsRun(w: World, l: nat, expired: bool, k: Kind) returns (run: seq<Step>)
    requires Enabled(w, Attempt(l, expired)) && w.h.lists[l].events != []
    requires Next(w, Attempt(l, expired)) == DoAttempt(w, l, Some(k))
    ensures CanRun(w, run) && Run(w, run) == AcceptHead(w, l, w.h.lists[l].events[0], k)
    ensures forall s | s in run :: OnList(s, l)
  {
    var first := [Attempt(l, expired)] + [Answer(l, Accepted)];
    RunTwo(w, Attempt(l, expired), Answer(l, Accepted));
    var v := Run(w, first);
    assert v == DoAnswer(DoAttempt(w, l, Some(k)), l, Accepted);
    var rest := MarkedIsRun(v, l);
    AcceptedIsFinish(w, l, k);
    RunConcat(w, first, rest);
    run := first + rest;
  }

  lemma OneMore<T>(m: multiset<T>, x: T)
    ensures m + multiset{x} != m
  {
    assert (m + multiset{x})[x] == m[x] + 1;
  }

  class Handler {
    var tasksToEvents: map<string, nat>
    var tasksToContainerStates: map<string, seq<ContainerChange>>
    var lists: seq<EventList>
    var submitters: multiset<nat>
    var removers: multiset<string>
    var objs: Objects
    ghost var log: Log

    ghost function View(): World
      reads this
    {
      World(EventMachine.Handler(tasksToEvents, tasksToContainerStates, lists, None, submitters, removers), objs, log)
    }

    constructor (restored: Objects)
      ensures Init(View()) && objs == restored
    {
      tasksToEvents, tasksToContainerStates, lists := map[], map[], [];
      submitters, removers, objs := multiset{}, multiset{}, restored;
      log := Log(multiset{}, multiset{}, multiset{}, multiset{}, multiset{}, restored.sent, multiset{}, [], [], []);
    }

    /** Task events go to the task's list, container events to its batch, anything else is refused. */
    method AddStateChangeEvent(change: StateChange) returns (accepted: bool)
      requires change.OfTask? && change.task.arn in tasksToEvents ==>
                 tasksToEvents[change.task.arn] < |lists|
      modifies this
      ensures accepted == !change.OfAttachment?
      ensures match change
              case OfContainer(c) => View() == DoAddContainer(old(View()), c)
              case OfTask(t) => View() == DoPush(DoFlush(old(View()), t))
              case OfAttachment => View() == old(View())
    {
      match change
      case OfContainer(c) => BatchContainerEvent(c); accepted := true;
      case OfTask(t) => FlushBatch(t); accepted := true;
      case OfAttachment => accepted := false;
    }

    method BatchContainerEvent(c: ContainerChange)
      modifies this
      ensures View() == DoAddContainer(old(View()), c)
    {
      var batch := if c.arn in tasksToContainerStates then tasksToContainerStates[c.arn] else [];
      tasksToContainerStates := tasksToContainerStates[c.arn := batch + [c]];
      log := log.(accepted := log.accepted + multiset{c});
    }

    method FlushBatch(t: TaskChange)
      requires t.arn in tasksToEvents ==> tasksToEvents[t.arn] < |lists|
      modifies this
      ensures View() == DoPush(DoFlush(old(View()), t))
    {
      ghost var w := DoPush(DoFlush(View(), t));
      var batch := if t.arn in tasksToContainerStates then tasksToContainerStates[t.arn] else [];
      var e := TaskEvent(t.(containers := t.containers + batch), false);
      tasksToContainerStates := tasksToContainerStates - {t.arn};
      var l := GetTaskEvents(t.arn);
      SendChange(l, e);
      log := w.log;
    }

    /** Finds the list of a task, or creates an empty one. */
    method GetTaskEvents(arn: string) returns (l: nat)
      requires arn in tasksToEvents ==> tasksToEvents[arn] < |lists|
      modifies this`tasksToEvents, this`lists
      ensures arn in tasksToEvents && tasksToEvents[arn] == l < |lists|
      ensures if arn in old(tasksToEvents) then tasksToEvents == old(tasksToEvents) && lists == old(lists)
              else && tasksToEvents == old(tasksToEvents)[arn := |old(lists)|]
                   && lists == old(lists) + [EventList(arn, [], false, Idle)]
    {
      if arn !in tasksToEvents {
        tasksToEvents := tasksToEvents[arn := |lists|];
        lists := lists + [EventList(arn, [], false, Idle)];
      }
      l := tasksToEvents[arn];
    }

    /** Pushes the event and starts a submitter unless one is running. */
    method SendChange(l: nat, e: Event)
      requires l < |lists|
      modifies this`lists, this`submitters
      ensures lists == old(lists)[l := old(lists)[l].(events := old(lists)[l].events + [e], sending := true)]
      ensures submitters == if old(lists)[l].sending then old(submitters) else old(submitters) + multiset{l}
    {
      var x := lists[l];
      lists := lists[l := x.(events := x.events + [e], sending := true)];
      if !x.sending { submitters := submitters + multiset{l}; }
    }

    /** The loop over the carried containers of taskShouldBeSent. */
    method SomeContainerUnsent(cs: seq<ContainerChange>) returns (found: bool)
      ensures found <==> exists c | c in cs :: objs.Sent(c.Target()) < objs.Known(c.Target())
    {
      for i := 0 to |cs|
        invariant forall j | 0 <= j < i :: objs.Sent(cs[j].Target()) >= objs.Known(cs[j].Target())
      {
        if objs.Sent(cs[i].Target()) < objs.Known(cs[i].Target()) { return true; }
      }
      return false;
    }

    method ChooseSubmission(e: Event, expired: bool) returns (k: Option<Kind>)
      ensures k == SubmitAs(objs, e, expired)
    {
      if ContainerShouldBeSent(objs, e) { return Some(AsContainer); }
      if e.TaskEvent? && !e.sent && e.task.task.Some? {
        if objs.Sent(TaskRef(e.task.arn, e.task.task.value)) < e.task.status { return Some(AsTask); }
        var found := SomeContainerUnsent(e.task.containers);
        if found { return Some(AsTask); }
      }
      return if AttachmentShouldBeSent(objs, e, expired) then Some(AsAttachment) else None;
    }

    /** The loop of setTaskChangeSent. */
    method SetSent(marks: seq<(Ref, int)>)
      modifies this`objs
      ensures objs == MarkAll(old(objs), marks)
    {
      for i := 0 to |marks|
        invariant MarkAll(objs, marks[i..]) == MarkAll(old(objs), marks)
      {
        assert marks[i..][0] == marks[i] && marks[i..][1..] == marks[i + 1..];
        var (r, status) := marks[i];
        if objs.Sent(r) < status { objs := objs.(sent := objs.sent[r := status]); }
      }
    }

    /** Removes the head of the list. */
    method DropFirst(l: nat)
      requires l < |lists| && lists[l].events != []
      modifies this`lists
      ensures View().h == DropHead(old(View().h), l)
    {
      lists := lists[l := lists[l].(events := lists[l].events[1..], at := Idle)];
    }

    /** An emptied list stops sending, and its goroutine goes on to delete the map entry. */
    method StopIfEmpty(l: nat) returns (done: bool)
      requires l < |lists|
      modifies this`lists, this`submitters, this`removers
      ensures View().h == Settle(old(View().h), l)
      ensures done == (removers != old(removers))
    {
      done := lists[l].events == [];
      if done {
        lists := lists[l := lists[l].(sending := false)];
        submitters := submitters - multiset{l};
        OneMore(removers, lists[l].arn);
        removers := removers + multiset{lists[l].arn};
      }
    }

    method DropAndStop(l: nat) returns (done: bool)
      requires l < |lists| && lists[l].events != []
      modifies this`lists, this`submitters, this`removers
      ensures View().h == Settle(DropHead(old(View().h), l), l)
      ensures done == (removers != old(removers))
    {
      DropFirst(l);
      done := StopIfEmpty(l);
    }

    /** One attempt on the head of list l, with the backend's reply in case it is asked. */
    method SubmitFirstEvent(l: nat, expired: bool, reply: Reply) returns (done: bool, failed: bool)
      requires l < |lists| && submitters[l] > 0 && lists[l].at.Idle?
      modifies this
      ensures View() == Submit(old(View()), l, Decide(old(View()), l, expired), reply)
      ensures done == (removers != old(removers))
      ensures failed == (Decide(old(View()), l, expired).Some? && reply != Accepted)
    {
      var k: Option<Kind> := None;
      if lists[l].events != [] { k := ChooseSubmission(lists[l].events[0], expired); }
      done, failed := SubmitAsChosen(l, k, reply);
    }

    method SubmitAsChosen(l: nat, k: Option<Kind>, reply: Reply) returns (done: bool, failed: bool)
      requires l < |lists| && lists[l].at.Idle? && (lists[l].events == [] ==> k.None?)
      modifies this
      ensures View() == Submit(old(View()), l, k, reply)
      ensures done == (removers != old(removers))
      ensures failed == (k.Some? && reply != Accepted)
    {
      failed := k.Some? && reply != Accepted;
      if failed {
        done := false;
        RefuseFirst(l, k.value, reply);
      } else if k.Some? {
        done := AcceptFirst(l, k.value);
      } else {
        ghost var log' := DoAttempt(View(), l, None).log;
        if lists[l].events == [] { done := StopIfEmpty(l); } else { done := DropAndStop(l); }
        log := log';
      }
    }

    /** The backend took the head: its objects are marked and it leaves the list. */
    method AcceptFirst(l: nat, k: Kind) returns (done: bool)
      requires l < |lists| && lists[l].events != []
      modifies this
      ensures View() == AcceptHead(old(View()), l, old(lists)[l].events[0], k)
      ensures done == (removers != old(removers))
    {
      var e := lists[l].events[0];
      ghost var h := View().h;
      objs := Attached(objs, e, k);
      SetSent(Marks(e, k));
      assert View().h == h;
      done := DropAndStop(l);
      assert View().h == Settle(DropHead(h, l), l);
      log := AcceptedLog(log, l, e, k);
    }

    /** The backend refused the head: it is dropped if it is invalid, else it stays for a retry. */
    method RefuseFirst(l: nat, k: Kind, reply: Reply)
      requires l < |lists| && lists[l].events != [] && reply != Accepted
      modifies this
      ensures View() == Submit(old(View()), l, Some(k), reply) && removers == old(removers)
    {
      ghost var log' := Submit(View(), l, Some(k), reply).log;
      if reply == InvalidParameter && !k.AsContainer? { DropFirst(l); }
      log := log';
    }

    method RemoveTaskEvents(arn: string)
      requires removers[arn] > 0
      modifies this`tasksToEvents, this`removers
      ensures View() == DoRemoveEntry(old(View()), arn)
    {
      tasksToEvents := tasksToEvents - {arn};
      removers := removers - multiset{arn};
    }

    /**
     The ticker's view: one event, without containers, for exactly those tasks that have a batch,
     are known to the engine and have not stopped.
     */
    method TaskStateChangesToSend(engine: map<string, TaskInfo>) returns (events: seq<TaskChange>)
      ensures forall i, j | 0 <= i < j < |events| :: events[i].arn != events[j].arn
      ensures forall t | t in events ::
                && t.arn in tasksToContainerStates && t.arn in engine && engine[t.arn].known < TASK_STOPPED
                && t == TaskChange(t.arn, engine[t.arn].known, Some(engine[t.arn].id), None, [])
      ensures forall a | a in tasksToContainerStates && a in engine && engine[a].known < TASK_STOPPED ::
                TaskChange(a, engine[a].known, Some(engine[a].id), None, []) in events
    {
      events := [];
      var left := tasksToContainerStates.Keys;
      while left != {}
        invariant left <= tasksToContainerStates.Keys
        invariant forall i, j | 0 <= i < j < |events| :: events[i].arn != events[j].arn
        invariant forall t | t in events ::
                    && t.arn in tasksToContainerStates && t.arn !in left
                    && t.arn in engine && engine[t.arn].known < TASK_STOPPED
                    && t == TaskChange(t.arn, engine[t.arn].known, Some(engine[t.arn].id), None, [])
        invariant forall a | a in tasksToContainerStates && a !in left && a in engine && engine[a].known < TASK_STOPPED ::
                    TaskChange(a, engine[a].known, Some(engine[a].id), None, []) in events
      {
        var arn :| arn in left;
        left := left - {arn};
        if arn in engine && engine[arn].known < TASK_STOPPED {
          events := events + [TaskChange(arn, engine[arn].known, Some(engine[arn].id), None, [])];
        }
      }
    }
  }
}
