/**
 Where the promises of the event handler end: every way to leave the conditions of the theorems in
 EventRuns has a run that breaks what they promise.
 */
module EventLimits {
  import opened Basics
  import opened EventTypes
  import opened EventMachine
  import opened EventSafety
  import opened EventChanges
  import opened EventSent
  import opened EventRuns
  import opened EventDrain

  /** A change that is handed in can become the only event of its list, with nothing new told to the backend. */
  lemma {:induction false} FlushToHead(w: World, t: TaskChange) returns (run: seq<Step>, l: nat)
    requires Safe(w) && Enabled(w, Flush(t))
    ensures run != [] && run[0] == Flush(t) && CanRun(w, run)
    ensures var u := Run(w, run);
      && Safe(u) && Kept(w, u) && u.h.held.None?
      && l < |u.h.lists| && u.h.lists[l] == EventList(t.arn, [TaskEvent(Flushed(w.h, t), false)], true, Idle)
      && u.h.submitters[l] > 0 && t.arn in u.h.tasksToEvents && u.h.tasksToEvents[t.arn] == l
  {
    var w1 := Next(w, Flush(t));
    SafeStep(w, Flush(t));
    l := w1.h.held.value.0;
    var drain := DrainAll(w1, l);
    var w2 := Run(w1, drain);
    assert w2.h.lists[l] == EventList(t.arn, [], false, Idle) by { assert ListAt(w1, l); }
    PushAlone(w2, l);
    RunConcat(w1, drain, [Push]);
    RunCons(w, Flush(t), drain + [Push]);
    run := [Flush(t)] + (drain + [Push]);
    SafeForever(w, run);
  }

  /** The event in hand goes to a list that is empty and at rest. */
  lemma PushAlone(w: World, l: nat)
    requires l < |w.h.lists| && w.h.held.Some? && w.h.held.value.0 == l
    requires w.h.lists[l].events == [] && !w.h.lists[l].sending && w.h.lists[l].at.Idle?
    ensures CanRun(w, [Push])
    ensures var u := Run(w, [Push]);
      && Kept(w, u) && u.h.held.None? && |u.h.lists| == |w.h.lists| && u.h.tasksToEvents == w.h.tasksToEvents
      && u.h.lists[l] == EventList(w.h.lists[l].arn, [w.h.held.value.1], true, Idle) && u.h.submitters[l] > 0
  {
    RunOne(w, Push);
    assert [] + [w.h.held.value.1] == [w.h.held.value.1];
  }

  /** What the lemmas below need of a state holds in every state of every run. */
  lemma {:induction false} EveryState(w: World, run: seq<Step>)
    requires Safe(w) && Covered(w, NoRef()) && CanRun(w, run)
    ensures Safe(Run(w, run)) && Covered(Run(w, run), NoRef())
    decreases run
  {
    if run != [] {
      SafeStep(w, run[0]);
      CoveredStep(w, run[0], NoRef());
      EveryState(Next(w, run[0]), run[1..]);
    }
  }

  /** The backend accepts the head: some of it goes over the wire, and all of it will be marked. */
  lemma HeadAccepted(u: World, l: nat) returns (run: seq<Step>)
    requires l < |u.h.lists| && u.h.submitters[l] > 0 && u.h.lists[l].at.Idle? && u.h.lists[l].events != []
    requires TaskShouldBeSent(u.objs, u.h.lists[l].events[0])
    ensures CanRun(u, run)
    ensures var v, e := Run(u, run), u.h.lists[l].events[0];
      && v.log.delivered == u.log.delivered + multiset(e.Payload())
      && v.log.unreported == u.log.unreported + (multiset(e.Carried()) - multiset(e.Payload()))
      && v.log.highest == Raise(u.log.highest, Wire(e, AsTask)) && v.objs == u.objs
      && HasHead(v.h, l) && v.h.lists[l].at == Marking(Marks(e, AsTask))
  {
    assert Decide(u, l, true) == Some(AsTask);
    RunTwo(u, Attempt(l, true), Answer(l, Accepted));
    run := [Attempt(l, true)] + [Answer(l, Accepted)];
  }

  // --- a change that is not truthful ------------------------------------------------------------------

  /** The change will be marked with a status that the backend still lacks after accepting it. */
  predicate Overclaims(log: Log, t: TaskChange, m: (Ref, int)) {
    t.task.Some? && m in Marks(TaskEvent(t, false), AsTask) && After(log, t, m.0) < m.1
  }

  /** The record of the object is ahead of what the backend accepted. */
  predicate Ahead(w: World, r: Ref) { w.log.Highest(r) < w.objs.Sent(r) }

  /**
   Such a status is above what the backend has, and is the task's own next to an attachment, or a
   container's that is neither RUNNING nor STOPPED or comes next to an attachment.
   */
  lemma UntruthfulOverclaims(log: Log, t: TaskChange)
    ensures !Truthful(log, t, AnyRef()) <==> exists m :: Overclaims(log, t, m)
    ensures forall m | Overclaims(log, t, m) ::
      && log.Highest(m.0) < m.1
      && (t.attachment.Some? || exists c :: c in t.containers && m == (c.Target(), c.status) && !IsSupported(c.status))
  {
    if !Truthful(log, t, AnyRef()) {
      var m :| m in Marks(TaskEvent(t, false), AsTask) && After(log, t, m.0) < m.1;
      assert Overclaims(log, t, m);
    }
    forall m | Overclaims(log, t, m)
      ensures log.Highest(m.0) < m.1
      ensures t.attachment.Some? || exists c :: c in t.containers && m == (c.Target(), c.status) && !IsSupported(c.status)
    {
      TopBounds(Told(t), m.0, log.Highest(m.0));
      if t.attachment.None? { LeftOut(t, m); }
    }
  }

  /** Without an attachment only the statuses that the client does not send stay off the wire. */
  lemma LeftOut(t: TaskChange, m: (Ref, int))
    requires t.task.Some? && t.attachment.None? && m in Marks(TaskEvent(t, false), AsTask) && m !in Told(t)
    ensures exists c :: c in t.containers && m == (c.Target(), c.status) && !IsSupported(c.status)
  {
    assert m != (TaskRef(t.arn, t.task.value), t.status) by {
      assert Told(t)[0] == (TaskRef(t.arn, t.task.value), t.status);
    }
    var i :| 0 <= i < |t.containers| && m == ContainerMarks(t.containers)[i];
    PayloadIsTold(t, t.containers[i]);
  }

  /**
   The condition of SentWithinBackend is exact: whenever a change is handed in that overclaims a status,
   there is a run in which the recorded sent status of that object gets ahead of the backend.
   */
  lemma {:induction false} UntruthfulOutrunsBackend(w: World, t: TaskChange, m: (Ref, int)) returns (run: seq<Step>)
    requires Safe(w) && Covered(w, NoRef()) && Enabled(w, Flush(t)) && Overclaims(w.log, Flushed(w.h, t), m)
    ensures run != [] && run[0] == Flush(t) && CanRun(w, run) && Ahead(Run(w, run), m.0)
  {
    var l;
    run, l := FlushToHead(w, t);
    var u := Run(w, run);
    TopBounds(Told(Flushed(w.h, t)), m.0, w.log.Highest(m.0));
    if u.objs.Sent(m.0) < m.1 {
      CarriedIsKnown(w, t);
      UnsentIsSent(u.objs, Flushed(w.h, t), m);
      var last := MarkedAll(u, l, m);
      RunConcat(w, run, last);
      run := run + last;
    }
  }

  /** So it is after any run from an empty handler. */
  lemma {:induction false} OverclaimOutruns(w: World, run: seq<Step>, t: TaskChange, m: (Ref, int)) returns (more: seq<Step>)
    requires Init(w) && CanRun(w, run) && Enabled(Run(w, run), Flush(t))
    requires Overclaims(Run(w, run).log, Flushed(Run(w, run).h, t), m)
    ensures more != [] && more[0] == Flush(t) && CanRun(w, run + more) && Ahead(Run(w, run + more), m.0)
  {
    EveryState(w, run);
    more := UntruthfulOutrunsBackend(Run(w, run), t, m);
    RunConcat(w, run, more);
  }

  lemma CarriedIsKnown(w: World, t: TaskChange)
    requires Covered(w, NoRef()) && Enabled(w, Flush(t))
    ensures forall c | c in Flushed(w.h, t).containers :: c.status <= w.objs.Known(c.Target())
  {
    if t.arn in w.h.batches { assert Reported(w.objs, w.h.batches[t.arn]); }
  }

  /** A change with an unsent mark is submitted as a task change. */
  lemma UnsentIsSent(o: Objects, t: TaskChange, m: (Ref, int))
    requires t.task.Some? && m in Marks(TaskEvent(t, false), AsTask) && o.Sent(m.0) < m.1
    requires forall c | c in t.containers :: c.status <= o.Known(c.Target())
    ensures TaskShouldBeSent(o, TaskEvent(t, false))
  {
    if m != (TaskRef(t.arn, t.task.value), t.status) {
      var i :| 0 <= i < |t.containers| && m == ContainerMarks(t.containers)[i];
      assert t.containers[i] in t.containers;
    }
  }

  /** The head is accepted and all its marks are made. */
  lemma MarkedAll(u: World, l: nat, m: (Ref, int)) returns (run: seq<Step>)
    requires l < |u.h.lists| && u.h.submitters[l] > 0 && u.h.lists[l].at.Idle? && u.h.lists[l].events != []
    requires TaskShouldBeSent(u.objs, u.h.lists[l].events[0]) && m in Marks(u.h.lists[l].events[0], AsTask)
    ensures CanRun(u, run)
    ensures m.1 <= Run(u, run).objs.Sent(m.0)
    ensures Run(u, run).log.Highest(m.0) == After(u.log, u.h.lists[l].events[0].task, m.0)
  {
    run := HeadAccepted(u, l);
    var v := Run(u, run);
    var rest := MarkedIsRun(v, l);
    MarkAllReaches(v.objs, v.h.lists[l].at.todo, m.0);
    TopBounds(v.h.lists[l].at.todo, m.0, v.objs.Sent(m.0));
    RaisedTop(u.log, v.log, Wire(u.h.lists[l].events[0], AsTask), m.0);
    RunConcat(u, run, rest);
    run := run + rest;
  }

  // --- a change that is lost ----------------------------------------------------------------------------

  /**
   The condition of DropsOnlyCovered is exact: whenever a change is handed in with a container whose
   status the backend lacks after accepting it, there is a run in which either everything it carries is
   dropped as redundant and the backend is told nothing, or the backend is told the payload only and
   the rest goes unreported; and that container is lost either way.
   */
  lemma UnreachingLosesChange(w: World, t: TaskChange, c: ContainerChange)
      returns (before: seq<Step>, last: seq<Step>, l: nat)
    requires Safe(w) && Enabled(w, Flush(t))
    requires c in Flushed(w.h, t).containers && After(w.log, Flushed(w.h, t), c.Target()) < c.status
    ensures before != [] && before[0] == Flush(t) && CanRun(w, before) && CanRun(Run(w, before), last)
    ensures var u, v, e := Run(w, before), Run(Run(w, before), last), TaskEvent(Flushed(w.h, t), false);
      && l < |u.h.lists| && u.h.lists[l].events == [e]
      && u.log.delivered == w.log.delivered && u.log.highest == w.log.highest
      && (DroppedWhole(u.log, v.log, e) || ToldInPart(u.log, v.log, e))
      && Lost(v.log, c) && !NoneLost(v.log)
  {
    before, l := FlushToHead(w, t);
    var u := Run(w, before);
    last := LeavesUntold(u, l, c);
  }

  predicate DroppedWhole(log: Log, log': Log, e: Event) {
    && log'.redundant == log.redundant + multiset(e.Carried())
    && log'.delivered == log.delivered && log'.highest == log.highest
  }

  predicate ToldInPart(log: Log, log': Log, e: Event) {
    && log'.unreported == log.unreported + (multiset(e.Carried()) - multiset(e.Payload()))
    && log'.delivered == log.delivered + multiset(e.Payload()) && log'.highest == Raise(log.highest, Wire(e, AsTask))
  }

  predicate Lost(log: Log, c: ContainerChange) {
    (c in log.redundant || c in log.unreported) && log.Highest(c.Target()) < c.status
  }

  /** The head leaves the queue for the log, and the container with it. */
  lemma LeavesUntold(u: World, l: nat, c: ContainerChange) returns (run: seq<Step>)
    requires l < |u.h.lists| && u.h.submitters[l] > 0 && u.h.lists[l].at.Idle? && u.h.lists[l].events != []
    requires u.h.lists[l].events[0].TaskEvent? && !u.h.lists[l].events[0].sent
    requires var t := u.h.lists[l].events[0].task; c in t.containers && After(u.log, t, c.Target()) < c.status
    ensures CanRun(u, run)
    ensures var v, e := Run(u, run), u.h.lists[l].events[0];
      (DroppedWhole(u.log, v.log, e) || ToldInPart(u.log, v.log, e)) && Lost(v.log, c)
  {
    var e := u.h.lists[l].events[0];
    TopBounds(Told(e.task), c.Target(), u.log.Highest(c.Target()));
    if TaskShouldBeSent(u.objs, e) {
      run := HeadAccepted(u, l);
      RaisedTop(u.log, Run(u, run).log, Wire(e, AsTask), c.Target());
      PayloadIsTold(e.task, c);
    } else {
      run := DroppedWith(u, l);
    }
  }

  /** A head whose task status need not be sent, and whose attachment, if any, has expired. */
  lemma DroppedWith(u: World, l: nat) returns (run: seq<Step>)
    requires l < |u.h.lists| && u.h.submitters[l] > 0 && u.h.lists[l].at.Idle? && u.h.lists[l].events != []
    requires u.h.lists[l].events[0].TaskEvent? && !TaskShouldBeSent(u.objs, u.h.lists[l].events[0])
    ensures CanRun(u, run) && DroppedWhole(u.log, Run(u, run).log, u.h.lists[l].events[0])
  {
    assert Decide(u, l, true) == None;
    RunOne(u, Attempt(l, true));
    run := [Attempt(l, true)];
  }

  // --- two live lists of one task -----------------------------------------------------------------------

  /** Two live, idle lists whose heads report statuses low < high of the same task object r. */
  ghost predicate Overlap(w: World, k: nat, l: nat, r: Ref, low: int, high: int) {
    && k != l && k < |w.h.lists| && l < |w.h.lists|
    && w.h.submitters[k] > 0 && w.h.submitters[l] > 0
    && w.h.lists[k].at.Idle? && w.h.lists[l].at.Idle?
    && Reports(w.h.lists[k], r, low) && Reports(w.h.lists[l], r, high)
    && w.objs.Sent(r) < low < high
  }

  predicate Reports(x: EventList, r: Ref, status: int) {
    && x.events != [] && x.events[0].TaskEvent? && !x.events[0].sent
    && x.events[0].task.task.Some?
    && r == TaskRef(x.events[0].task.arn, x.events[0].task.task.value)
    && x.events[0].task.status == status
  }

  /** Submits the head of list k and reads, but does not yet write, the sent status of its task. */
  lemma ReadStale(w: World, k: nat, r: Ref, status: int) returns (v: World)
    requires k < |w.h.lists| && w.h.submitters[k] > 0 && w.h.lists[k].at.Idle?
    requires Reports(w.h.lists[k], r, status) && w.objs.Sent(r) < status
    ensures CanRun(w, [Attempt(k, false), Answer(k, Accepted), MarkRead(k)])
    ensures v == Run(w, [Attempt(k, false), Answer(k, Accepted), MarkRead(k)])
    ensures |v.h.lists| == |w.h.lists| && v.h.submitters == w.h.submitters && v.objs == w.objs
    ensures v.log.highest == Raise(w.log.highest, Wire(w.h.lists[k].events[0], AsTask))
    ensures v.h.lists[k].events != [] && v.h.lists[k].at.Writing? && v.h.lists[k].at.mark == (r, status)
    ensures forall j | 0 <= j < |w.h.lists| && j != k :: v.h.lists[j] == w.h.lists[j]
  {
    assert Decide(w, k, false) == Some(AsTask);
    var w1 := Next(w, Attempt(k, false));
    var w2 := Next(w1, Answer(k, Accepted));
    assert w2.h.lists[k].at.todo[0] == (r, status);
    v := Next(w2, MarkRead(k));
    RunCons(w2, MarkRead(k), []);
    RunCons(w1, Answer(k, Accepted), [MarkRead(k)]);
    RunCons(w, Attempt(k, false), [Answer(k, Accepted), MarkRead(k)]);
    assert [MarkRead(k)] + [] == [MarkRead(k)];
    assert [Answer(k, Accepted)] + [MarkRead(k)] == [Answer(k, Accepted), MarkRead(k)];
    assert [Attempt(k, false)] + [Answer(k, Accepted), MarkRead(k)] == [Attempt(k, false), Answer(k, Accepted), MarkRead(k)];
  }

  /**
   Reading and writing the sent status are separate critical sections: whenever two lists overlap
   on a task, the agent's record can fall back from a status the backend has to a lower one.
   */
  lemma OverlapLowersSent(w: World, k: nat, l: nat, r: Ref, low: int, high: int) returns (run: seq<Step>)
    requires Overlap(w, k, l, r, low, high)
    ensures CanRun(w, run) && Enabled(Run(w, run), MarkWrite(k))
    ensures Run(w, run).objs.Sent(r) == high
    ensures Next(Run(w, run), MarkWrite(k)).objs.Sent(r) == low
  {
    var first := [Attempt(k, false), Answer(k, Accepted), MarkRead(k)];
    var second := [Attempt(l, false), Answer(l, Accepted), MarkRead(l)];
    var v := ReadStale(w, k, r, low);
    var u := ReadStale(v, l, r, high);
    RunCons(u, MarkWrite(l), []);
    RunConcat(v, second, [MarkWrite(l)] + []);
    RunConcat(w, first, second + ([MarkWrite(l)] + []));
    run := first + (second + ([MarkWrite(l)] + []));
  }

  /** An event restarted the list and its map entry is deleted; the next one gets a list of its own. */
  lemma SecondList(w: World, t: TaskChange) returns (run: seq<Step>, v: World)
    requires Safe(w) && Enabled(w, Push) && !OutsideWindow(w, Push)
    requires t.arn == w.h.held.value.1.Arn() && t.containers == []
    ensures CanRun(w, run) && v == Run(w, run) && v.objs == w.objs && v.h.held.None?
    ensures var l, k := w.h.held.value.0, |w.h.lists|;
      && l < k && |v.h.lists| == k + 1
      && v.h.lists[l].arn == t.arn && v.h.lists[l].sending && v.h.lists[l].at.Idle?
      && Live(v, k, t)
  {
    var l := w.h.held.value.0;
    var w1 := Next(w, Push);
    var w2 := Next(w1, RemoveEntry(t.arn));
    v := NewList(w2, t);
    RunCons(w1, RemoveEntry(t.arn), [Flush(t), Push]);
    RunCons(w, Push, [RemoveEntry(t.arn)] + [Flush(t), Push]);
    run := [Push] + ([RemoveEntry(t.arn)] + [Flush(t), Push]);
    assert v.h.lists[l] == w1.h.lists[l];
  }

  /** List k is live and at rest, with a head that reports t. */
  ghost predicate Live(w: World, k: nat, t: TaskChange) {
    && k < |w.h.lists| && w.h.submitters[k] > 0 && w.h.lists[k].at.Idle?
    && w.h.lists[k].events != [] && w.h.lists[k].events[0].TaskEvent? && !w.h.lists[k].events[0].sent
    && w.h.lists[k].events[0].task.(containers := []) == t
  }

  /** The old list is drained, its submitter deletes the entry of list k, and t gets a third list. */
  lemma ThirdList(w: World, l: nat, k: nat, low: TaskChange, t: TaskChange) returns (run: seq<Step>, v: World)
    requires Safe(w) && w.h.held.None? && l < |w.h.lists| && l != k && Live(w, k, low)
    requires w.h.lists[l].arn == t.arn && w.h.lists[l].sending && w.h.lists[l].at.Idle? && t.containers == []
    ensures CanRun(w, run) && v == Run(w, run) && v.objs == w.objs
    ensures Live(v, k, low) && Live(v, |w.h.lists|, t)
  {
    var drain := DrainAll(w, l);
    var w1 := Run(w, drain);
    var w2 := Next(w1, RemoveEntry(t.arn));
    v := NewList(w2, t);
    RunCons(w1, RemoveEntry(t.arn), [Flush(t), Push]);
    RunConcat(w, drain, [RemoveEntry(t.arn)] + [Flush(t), Push]);
    run := drain + ([RemoveEntry(t.arn)] + [Flush(t), Push]);
    assert v.h.lists[k] == w.h.lists[k];
  }

  /**
   The guard of GuardedSentOnlyGrows is exact: whenever an event is about to be pushed inside the
   window, then for every object of that task and any two statuses above its sent one, there is a run
   after which the record falls from the higher status, which was accepted, to the lower one.
   */
  lemma WindowLowersSent(w: World, id: nat, low: int, high: int) returns (run: seq<Step>, k: nat)
    requires Safe(w) && Enabled(w, Push) && !OutsideWindow(w, Push)
    requires w.objs.Sent(TaskRef(w.h.held.value.1.Arn(), id)) < low < high
    ensures var r := TaskRef(w.h.held.value.1.Arn(), id);
      && CanRun(w, run) && Enabled(Run(w, run), MarkWrite(k))
      && Run(w, run).objs.Sent(r) == high && Next(Run(w, run), MarkWrite(k)).objs.Sent(r) == low
  {
    var (l, e) := w.h.held.value;
    var a := e.Arn();
    var t, u := TaskChange(a, low, Some(id), None, []), TaskChange(a, high, Some(id), None, []);
    k := |w.h.lists|;
    var first, w1 := SecondList(w, t);
    SafeForever(w, first);
    var second, w2 := ThirdList(w1, l, k, t, u);
    var third := OverlapLowersSent(w2, k, |w1.h.lists|, TaskRef(a, id), low, high);
    RunConcat(w1, second, third);
    RunConcat(w, first, second + third);
    run := first + (second + third);
  }

  /** The window is open to every task in every state that a run can be in. */
  lemma WindowReachable(w: World, arn: string) returns (run: seq<Step>)
    requires Safe(w) && w.h.held.None?
    ensures CanRun(w, run)
    ensures var v := Run(w, run); Enabled(v, Push) && !OutsideWindow(v, Push) && v.h.held.value.1.Arn() == arn
  {
    var t := TaskChange(arn, STATUS_NONE, None, None, []);
    var l;
    run, l := FlushToHead(w, t);
    var u := Run(w, run);
    var drain := DrainAll(u, l);
    var v := Run(u, drain);
    assert v.h == Emptied(u.h, l);
    RunOne(v, Flush(t));
    RunConcat(u, drain, [Flush(t)]);
    RunConcat(w, run, drain + [Flush(t)]);
    run := run + (drain + [Flush(t)]);
  }
}
