/**
 What the SentStatus of tasks and containers says about the backend: in every run, and in the
 runs that keep at most one list per task alive.
 */
module EventSent {
  import opened Basics
  import opened EventTypes
  import opened EventMachine
  import opened EventSafety
  import opened EventChanges

  /** Sent-status updates that an accepted submission still owes. */
  function Pending(x: EventList): seq<(Ref, int)> {
    match x.at
    case Marking(todo) => todo
    case Writing(mark, rest) => [mark] + rest
    case _ => []
  }

  // --- sent statuses never run ahead of the backend, if changes are truthful --------------------

  ghost predicate Reported(o: Objects, cs: seq<ContainerChange>) {
    forall c | c in cs :: c.status <= o.Known(c.Target())
  }

  ghost predicate CoveredList(x: EventList, o: Objects, log: Log, q: Ref -> bool) {
    && (forall m | m in Pending(x) && q(m.0) :: m.1 <= log.Highest(m.0))
    && (forall i | 0 <= i < |x.events| :: Reported(o, x.events[i].Carried()))
  }

  /** For the objects in q, nothing is or will be recorded as sent that the backend did not accept. */
  ghost predicate Covered(w: World, q: Ref -> bool) {
    && (forall r: Ref | q(r) :: w.objs.Sent(r) <= w.log.Highest(r))
    && (forall a | a in w.h.batches :: Reported(w.objs, w.h.batches[a]))
    && (w.h.held.Some? ==> Reported(w.objs, w.h.held.value.1.Carried()))
    && (forall l | 0 <= l < |w.h.lists| :: CoveredList(w.h.lists[l], w.objs, w.log, q))
  }

  /** Known and accepted statuses only grew, and the listed places hold nothing new but list l. */
  lemma CoveredFrame(w: World, v: World, l: nat, q: Ref -> bool)
    requires Covered(w, q)
    requires forall r: Ref :: w.objs.Known(r) <= v.objs.Known(r)
    requires forall r: Ref :: w.log.Highest(r) <= v.log.Highest(r)
    requires forall r: Ref | q(r) :: v.objs.Sent(r) <= v.log.Highest(r)
    requires forall a | a in v.h.batches :: a in w.h.batches && v.h.batches[a] == w.h.batches[a]
    requires v.h.held == w.h.held || v.h.held.None?
    requires |v.h.lists| == |w.h.lists| && forall k | 0 <= k < |v.h.lists| && k != l :: v.h.lists[k] == w.h.lists[k]
    requires l < |v.h.lists| ==> CoveredList(v.h.lists[l], v.objs, v.log, q)
    ensures Covered(v, q)
  {
  }

  lemma CoveredStep(w: World, s: Step, q: Ref -> bool)
    requires Safe(w) && Covered(w, q) && AllTruthful(w, q) && Enabled(w, s)
    ensures Covered(Next(w, s), q)
  {
    match s
    case AddContainer(d) => CoveredAdd(w, d, q);
    case Flush(t) => CoveredFlush(w, t, q);
    case Push => CoveredPush(w, q);
    case Attempt(l, expired) => CoveredAttempt(w, l, Decide(w, l, expired), q);
    case Answer(l, reply) => CoveredAnswer(w, l, reply, q);
    case MarkRead(l) => CoveredFrame(w, Next(w, s), l, q);
    case MarkWrite(l) => CoveredMarkWrite(w, l, q);
    case FinishSend(l) => CoveredFinish(w, l, q);
    case RemoveEntry(a) =>
    case SetKnown(r, status) => CoveredSetKnown(w, r, status, q);
  }

  lemma CoveredSetKnown(w: World, r: Ref, status: int, q: Ref -> bool)
    requires Covered(w, q) && Enabled(w, SetKnown(r, status))
    ensures Covered(Next(w, SetKnown(r, status)), q)
  {
    var v := Next(w, SetKnown(r, status));
    forall l | 0 <= l < |v.h.lists| ensures CoveredList(v.h.lists[l], v.objs, v.log, q) {
      assert CoveredList(w.h.lists[l], w.objs, w.log, q) && ListAtMost(w.h.lists[l], r, status);
      forall i | 0 <= i < |v.h.lists[l].events| ensures Reported(v.objs, v.h.lists[l].events[i].Carried()) {
        assert Reported(w.objs, w.h.lists[l].events[i].Carried()) && AtMost(w.h.lists[l].events[i].Carried(), r, status);
      }
    }
    forall a | a in v.h.batches ensures Reported(v.objs, v.h.batches[a]) {
      assert Reported(w.objs, w.h.batches[a]) && AtMost(w.h.batches[a], r, status);
    }
  }

  /** Only marks went over the wire, and with it the backend has all of them. */
  ghost predicate Backs(wire: seq<(Ref, int)>, marks: seq<(Ref, int)>, log: Log, q: Ref -> bool) {
    && (forall m | m in wire :: m in marks)
    && (forall m | m in marks && q(m.0) :: m.1 <= Top(wire, m.0, log.Highest(m.0)))
  }

  lemma HeadIsBacked(x: EventList, log: Log, q: Ref -> bool)
    requires EventsOK(x) && ProgressOK(x) && x.at.Sending? && ListTasks(x, t => Truthful(log, t, q))
    ensures x.events[0].TaskEvent? && Backs(Wire(x.events[0], x.at.kind), Marks(x.events[0], x.at.kind), log, q)
  {
    var t := x.events[0].task;
    assert x.events[0] == TaskEvent(t, false) && Truthful(log, t, q);
    WireIsMarked(x.events[0], x.at.kind);
  }

  lemma CoveredFlush(w: World, t: TaskChange, q: Ref -> bool)
    requires Covered(w, q) && Enabled(w, Flush(t))
    ensures Covered(DoFlush(w, t), q)
  {
  }

  lemma CoveredAdd(w: World, d: ContainerChange, q: Ref -> bool)
    requires Covered(w, q) && Enabled(w, AddContainer(d))
    ensures Covered(DoAddContainer(w, d), q)
  {
  }

  lemma CoveredFinish(w: World, l: nat, q: Ref -> bool)
    requires Covered(w, q) && Enabled(w, FinishSend(l))
    ensures Covered(DoFinishSend(w, l), q)
  {
  }

  lemma CoveredPush(w: World, q: Ref -> bool)
    requires Covered(w, q) && Enabled(w, Push)
    ensures Covered(DoPush(w), q)
  {
  }

  lemma CoveredMarkWrite(w: World, l: nat, q: Ref -> bool)
    requires Safe(w) && Covered(w, q) && Enabled(w, MarkWrite(l))
    ensures Covered(DoMarkWrite(w, l), q)
  {
  }

  lemma CoveredAttempt(w: World, l: nat, d: Option<Kind>, q: Ref -> bool)
    requires Covered(w, q) && Enabled(w, Attempt(l, false))
    ensures Covered(DoAttempt(w, l, d), q)
  {
    if w.h.lists[l].events != [] && d.None? {
      CoveredDrop(w, l, d, q);
    } else {
      var v := DoAttempt(w, l, d);
      CoveredPart(w.h.lists[l], v.h.lists[l], w.objs, w.log, v.log, q);
      CoveredFrame(w, v, l, q);
    }
  }

  lemma CoveredDrop(w: World, l: nat, d: Option<Kind>, q: Ref -> bool)
    requires Covered(w, q) && Enabled(w, Attempt(l, false)) && w.h.lists[l].events != [] && d.None?
    ensures Covered(DoAttempt(w, l, d), q)
  {
    var v := DoAttempt(w, l, d);
    var h := DropHead(w.h, l);
    assert v.h.lists[l].events == h.lists[l].events == w.h.lists[l].events[1..] && v.h.lists[l].at == Idle;
    CoveredPart(w.h.lists[l], v.h.lists[l], w.objs, w.log, v.log, q);
    CoveredFrame(w, v, l, q);
  }

  /** A list that owes no update and holds no new event stays covered. */
  lemma CoveredPart(x: EventList, y: EventList, o: Objects, log: Log, log': Log, q: Ref -> bool)
    requires CoveredList(x, o, log, q) && Pending(y) == [] && (y.events == x.events || (x.events != [] && y.events == x.events[1..]))
    ensures CoveredList(y, o, log', q)
  {
  }

  lemma AcceptedRaises(log: Log, marks: seq<(Ref, int)>)
    ensures forall r: Ref :: log.Highest(r) <= Lookup(Raise(log.highest, marks), r)
    ensures forall m | m in marks :: m.1 <= Lookup(Raise(log.highest, marks), m.0)
  {
    forall r: Ref ensures log.Highest(r) <= Lookup(Raise(log.highest, marks), r) {
      RaiseIsTop(log.highest, marks, r);
      TopBounds(marks, r, log.Highest(r));
    }
    forall m | m in marks ensures m.1 <= Lookup(Raise(log.highest, marks), m.0) {
      RaiseIsTop(log.highest, marks, m.0);
      TopBounds(marks, m.0, log.Highest(m.0));
    }
  }

  /** The head was accepted: the updates it owes are what the backend has been told. */
  lemma CoveredHead(x: EventList, y: EventList, o: Objects, o': Objects, log: Log, log': Log, wire: seq<(Ref, int)>, q: Ref -> bool)
    requires CoveredList(x, o, log, q) && x.events != [] && y.at.Marking?
    requires y.events == x.events[0 := x.events[0].(sent := true)]
    requires o'.known == o.known && log'.highest == Raise(log.highest, wire) && Backs(wire, y.at.todo, log, q)
    ensures CoveredList(y, o', log', q)
  {
    forall m | m in Pending(y) && q(m.0) ensures m.1 <= log'.Highest(m.0) { RaisedTop(log, log', wire, m.0); }
    forall i | 0 <= i < |y.events| ensures Reported(o', y.events[i].Carried()) {
      assert y.events[i].Carried() == x.events[i].Carried();
      assert Reported(o, x.events[i].Carried());
    }
  }

  lemma CoveredAccepted(w: World, l: nat, q: Ref -> bool)
    requires Covered(w, q) && Enabled(w, Answer(l, Accepted))
    requires var x := w.h.lists[l]; Backs(Wire(x.events[0], x.at.kind), Marks(x.events[0], x.at.kind), w.log, q)
    ensures Covered(DoAnswer(w, l, Accepted), q)
  {
    var v := DoAnswer(w, l, Accepted);
    var x := w.h.lists[l];
    var wire := Wire(x.events[0], x.at.kind);
    assert CoveredList(x, w.objs, w.log, q);
    CoveredHead(x, v.h.lists[l], w.objs, v.objs, w.log, v.log, wire, q);
    AcceptedRaises(w.log, wire);
    assert forall r: Ref :: v.log.Highest(r) == Lookup(v.log.highest, r);
    CoveredFrame(w, v, l, q);
  }

  lemma CoveredAnswer(w: World, l: nat, reply: Reply, q: Ref -> bool)
    requires Safe(w) && Covered(w, q) && AllTruthful(w, q) && Enabled(w, Answer(l, reply))
    ensures Covered(DoAnswer(w, l, reply), q)
  {
    if reply == Accepted {
      assert ListAt(w, l) && ListTasks(w.h.lists[l], t => Truthful(w.log, t, q));
      HeadIsBacked(w.h.lists[l], w.log, q);
      CoveredAccepted(w, l, q);
    } else {
      assert CoveredList(w.h.lists[l], w.objs, w.log, q);
      CoveredFrame(w, DoAnswer(w, l, reply), l, q);
    }
  }

  /**
   An event of a task is dropped as redundant only when the backend has already accepted a
   status at least as high for the task and for every container change the event carries, as far as
   they are among the objects that are covered.
   */
  lemma RedundantWasCovered(w: World, l: nat, expired: bool, q: Ref -> bool)
    requires Safe(w) && Covered(w, q) && Enabled(w, Attempt(l, expired))
    requires w.h.lists[l].events != [] && SubmitAs(w.objs, w.h.lists[l].events[0], expired).None?
    requires w.h.lists[l].events[0].TaskEvent? && w.h.lists[l].events[0].task.task.Some?
    ensures var t := w.h.lists[l].events[0].task;
            && (q(TaskRef(t.arn, t.task.value)) ==> t.status <= w.log.Highest(TaskRef(t.arn, t.task.value)))
            && forall c | c in t.containers && q(c.Target()) :: c.status <= w.log.Highest(c.Target())
  {
    assert ListAt(w, l) && CoveredList(w.h.lists[l], w.objs, w.log, q);
    var e := w.h.lists[l].events[0];
    assert !e.sent;
    assert Reported(w.objs, e.Carried());
  }

  // --- runs that keep one list per task alive -------------------------------------------------

  /** No two lists of one task are being drained at the same time. */
  ghost predicate OneLive(h: Handler) {
    forall k, l | 0 <= k < |h.lists| && 0 <= l < |h.lists| && h.lists[k].sending && h.lists[l].sending ::
      h.lists[k].arn == h.lists[l].arn ==> k == l
  }

  ghost predicate Dead(h: Handler, arn: string) {
    forall l | 0 <= l < |h.lists| && h.lists[l].arn == arn :: !h.lists[l].sending
  }

  /** The sent status is the highest accepted one, up to the updates that are still owed. */
  ghost predicate InStepAt(w: World, r: Ref) {
    && (Dead(w.h, r.arn) ==> w.objs.Sent(r) == w.log.Highest(r))
    && (forall l | 0 <= l < |w.h.lists| && w.h.lists[l].arn == r.arn && w.h.lists[l].sending ::
          w.log.Highest(r) == Top(Pending(w.h.lists[l]), r, w.objs.Sent(r)))
  }

  ghost predicate WriteGuard(w: World, l: nat)
    requires l < |w.h.lists|
  {
    w.h.lists[l].at.Writing? ==> w.objs.Sent(w.h.lists[l].at.mark.0) < w.h.lists[l].at.mark.1
  }

  /** A sent status that is about to be written is still below the new one. */
  ghost predicate Guards(w: World) {
    forall l | 0 <= l < |w.h.lists| :: WriteGuard(w, l)
  }

  /** No sent status changed, and no list but l moved. */
  lemma GuardsFrame(w: World, v: World, l: nat)
    requires Guards(w) && v.objs.sent == w.objs.sent && |w.h.lists| <= |v.h.lists|
    requires forall k | 0 <= k < |w.h.lists| && k != l :: v.h.lists[k] == w.h.lists[k]
    requires forall k | |w.h.lists| <= k < |v.h.lists| :: v.h.lists[k].at.Idle?
    requires l < |w.h.lists| ==> WriteGuard(v, l)
    ensures Guards(v)
  {
    forall k | 0 <= k < |v.h.lists| ensures WriteGuard(v, k) {
      if k < |w.h.lists| { assert WriteGuard(w, k); }
    }
  }

  lemma GuardsAttempt(w: World, l: nat, d: Option<Kind>)
    requires Guards(w) && Enabled(w, Attempt(l, false))
    ensures Guards(DoAttempt(w, l, d))
  {
    if w.h.lists[l].events != [] && d.None? {
      GuardsDrop(w, l, DoAttempt(w, l, d));
    } else {
      GuardsFrame(w, DoAttempt(w, l, d), l);
    }
  }

  lemma GuardsDrop(w: World, l: nat, v: World)
    requires Guards(w) && l < |w.h.lists| && w.h.lists[l].events != []
    requires v.h == Settle(DropHead(w.h, l), l) && v.objs == w.objs
    ensures Guards(v)
  {
    GuardsFrame(w, v, l);
  }

  lemma GuardsPush(w: World)
    requires Guards(w) && Enabled(w, Push)
    ensures Guards(DoPush(w))
  {
    GuardsFrame(w, DoPush(w), w.h.held.value.0);
  }

  lemma GuardsAnswer(w: World, l: nat, reply: Reply)
    requires Guards(w) && Enabled(w, Answer(l, reply))
    ensures Guards(DoAnswer(w, l, reply))
  {
    GuardsFrame(w, DoAnswer(w, l, reply), l);
  }

  lemma GuardsMarkWrite(w: World, l: nat)
    requires Safe(w) && OneLive(w.h) && Guards(w) && Enabled(w, MarkWrite(l))
    ensures Guards(DoMarkWrite(w, l))
  {
    var v := DoMarkWrite(w, l);
    assert ListAt(w, l);
    forall k | 0 <= k < |v.h.lists| ensures WriteGuard(v, k) {
      assert WriteGuard(w, k) && ListAt(w, k);
    }
  }

  lemma GuardsStep(w: World, s: Step)
    requires Safe(w) && OneLive(w.h) && Guards(w) && Enabled(w, s)
    ensures Guards(Next(w, s))
  {
    match s
    case Flush(t) => GuardsFrame(w, Next(w, s), |w.h.lists|);
    case Push => GuardsPush(w);
    case Attempt(l, expired) => GuardsAttempt(w, l, Decide(w, l, expired));
    case Answer(l, reply) => GuardsAnswer(w, l, reply);
    case MarkRead(l) => GuardsFrame(w, Next(w, s), l);
    case MarkWrite(l) => GuardsMarkWrite(w, l);
    case FinishSend(l) => GuardsDrop(w, l, Next(w, s));
    case _ => GuardsFrame(w, Next(w, s), |w.h.lists|);
  }

  ghost predicate InStep(w: World) { forall r: Ref :: InStepAt(w, r) }

  lemma InStepStep(w: World, s: Step)
    requires Safe(w) && OneLive(w.h) && Guards(w) && InStep(w) && AllTruthful(w, AnyRef())
    requires Enabled(w, s) && OneLive(Next(w, s).h)
    ensures InStep(Next(w, s))
  {
    match s
    case AddContainer(d) => InStepElsewhere(w, Next(w, s));
    case Flush(t) => InStepFlush(w, t);
    case Push => InStepPush(w);
    case Attempt(l, expired) => InStepAttempt(w, l, Decide(w, l, expired));
    case Answer(l, reply) => InStepAnswer(w, l, reply);
    case MarkRead(l) => InStepMarkRead(w, l);
    case MarkWrite(l) => InStepMarkWrite(w, l);
    case FinishSend(l) => InStepFinish(w, l);
    case RemoveEntry(a) => InStepElsewhere(w, Next(w, s));
    case SetKnown(r, status) => InStepElsewhere(w, Next(w, s));
  }

  lemma InStepElsewhere(w: World, v: World)
    requires InStep(w) && v.h.lists == w.h.lists && v.objs.sent == w.objs.sent && v.log.highest == w.log.highest
    ensures InStep(v)
  {
    forall r: Ref ensures InStepAt(v, r) { assert InStepAt(w, r); }
  }

  lemma InStepFlush(w: World, t: TaskChange)
    requires InStep(w)
    ensures InStep(DoFlush(w, t))
  {
    var v := DoFlush(w, t);
    forall r: Ref ensures InStepAt(v, r) {
      assert InStepAt(w, r);
      assert Dead(v.h, r.arn) ==> Dead(w.h, r.arn) by {
        assert forall l | 0 <= l < |w.h.lists| :: v.h.lists[l] == w.h.lists[l];
      }
    }
  }

  /** Only list l changed; it owes nothing before or after. */
  lemma InStepQuiet(w: World, v: World, l: nat)
    requires InStep(w) && OneLive(w.h) && OneLive(v.h) && l < |w.h.lists| == |v.h.lists|
    requires v.objs.sent == w.objs.sent && v.log.highest == w.log.highest
    requires v.h.lists == w.h.lists[l := v.h.lists[l]] && v.h.lists[l].arn == w.h.lists[l].arn
    requires Pending(w.h.lists[l]) == [] && Pending(v.h.lists[l]) == []
    requires w.h.lists[l].sending || v.h.lists[l].sending
    ensures InStep(v)
  {
    forall r: Ref ensures InStepAt(v, r) {
      assert InStepAt(w, r);
      if r.arn == w.h.lists[l].arn {
        if !w.h.lists[l].sending {
          assert Dead(w.h, r.arn) by {
            forall k | 0 <= k < |w.h.lists| && w.h.lists[k].arn == r.arn ensures !w.h.lists[k].sending {
              if k != l { assert v.h.lists[k] == w.h.lists[k]; }
            }
          }
        }
        assert w.objs.Sent(r) == w.log.Highest(r);
      } else {
        assert Dead(v.h, r.arn) ==> Dead(w.h, r.arn) by {
          assert forall k | 0 <= k < |w.h.lists| && k != l :: v.h.lists[k] == w.h.lists[k];
        }
      }
    }
  }

  lemma InStepPush(w: World)
    requires Safe(w) && OneLive(w.h) && InStep(w) && Enabled(w, Push) && OneLive(DoPush(w).h)
    ensures InStep(DoPush(w))
  {
    InStepQuiet(w, DoPush(w), w.h.held.value.0);
  }

  /** List l is alive before and after and the claim about its own objects still holds. */
  lemma InStepBusy(w: World, v: World, l: nat)
    requires Safe(w) && InStep(w) && OneLive(w.h) && l < |w.h.lists| == |v.h.lists|
    requires v.h.lists == w.h.lists[l := v.h.lists[l]] && v.h.lists[l].arn == w.h.lists[l].arn
    requires w.h.lists[l].sending && v.h.lists[l].sending
    requires forall r: Ref | r.arn == w.h.lists[l].arn :: v.log.Highest(r) == Top(Pending(v.h.lists[l]), r, v.objs.Sent(r))
    requires forall r: Ref | r.arn != w.h.lists[l].arn ::
               v.log.Highest(r) == w.log.Highest(r) && v.objs.Sent(r) == w.objs.Sent(r)
    ensures InStep(v)
  {
    assert forall k | 0 <= k < |w.h.lists| && k != l :: v.h.lists[k] == w.h.lists[k];
    forall r: Ref ensures InStepAt(v, r) {
      assert InStepAt(w, r);
      if r.arn == w.h.lists[l].arn {
        assert !Dead(v.h, r.arn);
      } else {
        assert Dead(v.h, r.arn) ==> Dead(w.h, r.arn);
      }
    }
  }

  lemma InStepMarkRead(w: World, l: nat)
    requires Safe(w) && OneLive(w.h) && InStep(w) && Enabled(w, MarkRead(l))
    ensures InStep(DoMarkRead(w, l))
  {
    assert ListAt(w, l);
    var v := DoMarkRead(w, l);
    var todo := w.h.lists[l].at.todo;
    assert [todo[0]] + todo[1..] == todo;
    forall r: Ref | r.arn == w.h.lists[l].arn
      ensures v.log.Highest(r) == Top(Pending(v.h.lists[l]), r, v.objs.Sent(r))
    {
      assert InStepAt(w, r);
    }
    InStepBusy(w, v, l);
  }

  lemma InStepMarkWrite(w: World, l: nat)
    requires Safe(w) && OneLive(w.h) && Guards(w) && InStep(w) && Enabled(w, MarkWrite(l))
    ensures InStep(DoMarkWrite(w, l))
  {
    assert ListAt(w, l) && WriteGuard(w, l);
    var v := DoMarkWrite(w, l);
    var x := w.h.lists[l];
    assert ([x.at.mark] + x.at.rest)[1..] == x.at.rest;
    forall r: Ref | r.arn == x.arn ensures v.log.Highest(r) == Top(Pending(v.h.lists[l]), r, v.objs.Sent(r)) {
      assert InStepAt(w, r);
    }
    InStepBusy(w, v, l);
  }

  lemma InStepAttempt(w: World, l: nat, d: Option<Kind>)
    requires Safe(w) && OneLive(w.h) && InStep(w) && Enabled(w, Attempt(l, false))
    requires OneLive(DoAttempt(w, l, d).h)
    ensures InStep(DoAttempt(w, l, d))
  {
    assert ListAt(w, l);
    InStepQuiet(w, DoAttempt(w, l, d), l);
  }

  lemma InStepFinish(w: World, l: nat)
    requires Safe(w) && OneLive(w.h) && InStep(w) && Enabled(w, FinishSend(l)) && OneLive(DoFinishSend(w, l).h)
    ensures InStep(DoFinishSend(w, l))
  {
    assert ListAt(w, l);
    InStepQuiet(w, DoFinishSend(w, l), l);
  }

  /** What the list owes after the answer is the difference between the record and the backend. */
  lemma OwesAll(log: Log, log': Log, marks: seq<(Ref, int)>, wire: seq<(Ref, int)>, r: Ref)
    requires log'.highest == Raise(log.highest, wire) && Backs(wire, marks, log, AnyRef())
    ensures log'.Highest(r) == Top(marks, r, log.Highest(r))
  {
    var base := log.Highest(r);
    RaisedTop(log, log', wire, r);
    TopBounds(wire, r, base);
    TopBounds(marks, r, base);
    TopLeast(marks, r, base, Top(wire, r, base));
    TopLeast(wire, r, base, Top(marks, r, base));
  }

  lemma OwesElsewhere(log: Log, log': Log, marks: seq<(Ref, int)>, wire: seq<(Ref, int)>, r: Ref)
    requires log'.highest == Raise(log.highest, wire) && Backs(wire, marks, log, AnyRef())
    requires forall m | m in marks :: m.0 != r
    ensures log'.Highest(r) == log.Highest(r)
  {
    OwesAll(log, log', marks, wire, r);
    TopElsewhere(marks, r, log.Highest(r));
  }

  /** Until the head is accepted its list owes nothing. */
  lemma NothingOwed(w: World, l: nat, r: Ref)
    requires InStep(w) && l < |w.h.lists| && w.h.lists[l].sending && w.h.lists[l].at.Sending? && r.arn == w.h.lists[l].arn
    ensures w.log.Highest(r) == w.objs.Sent(r)
  {
    assert InStepAt(w, r);
  }

  lemma AcceptedIs(w: World, l: nat)
    requires l < |w.h.lists| && w.h.lists[l].events != [] && w.h.lists[l].at.Sending?
    ensures var x, v := w.h.lists[l], DoAnswer(w, l, Accepted);
      && l < |v.h.lists| && Pending(v.h.lists[l]) == Marks(x.events[0], x.at.kind) && v.objs.sent == w.objs.sent
      && v.log.highest == Raise(w.log.highest, Wire(x.events[0], x.at.kind))
  {
  }

  lemma OwedAfter(w: World, l: nat, r: Ref)
    requires InStep(w) && Enabled(w, Answer(l, Accepted)) && w.h.lists[l].sending && r.arn == w.h.lists[l].arn
    requires var x := w.h.lists[l]; Backs(Wire(x.events[0], x.at.kind), Marks(x.events[0], x.at.kind), w.log, AnyRef())
    ensures var v := DoAnswer(w, l, Accepted);
      v.log.Highest(r) == Top(Pending(v.h.lists[l]), r, v.objs.Sent(r))
  {
    var x, v := w.h.lists[l], DoAnswer(w, l, Accepted);
    var marks, wire := Marks(x.events[0], x.at.kind), Wire(x.events[0], x.at.kind);
    AcceptedIs(w, l);
    NothingOwed(w, l, r);
    OwesAll(w.log, v.log, marks, wire, r);
    assert v.objs.Sent(r) == w.objs.Sent(r);
  }

  lemma InStepAccepted(w: World, l: nat, marks: seq<(Ref, int)>)
    requires Safe(w) && OneLive(w.h) && InStep(w) && Enabled(w, Answer(l, Accepted)) && w.h.lists[l].sending
    requires marks == Marks(w.h.lists[l].events[0], w.h.lists[l].at.kind)
    requires Backs(Wire(w.h.lists[l].events[0], w.h.lists[l].at.kind), marks, w.log, AnyRef())
    requires forall m | m in marks :: m.0.arn == w.h.lists[l].arn
    ensures InStep(DoAnswer(w, l, Accepted))
  {
    var v, arn := DoAnswer(w, l, Accepted), w.h.lists[l].arn;
    forall r: Ref | r.arn == arn ensures v.log.Highest(r) == Top(Pending(v.h.lists[l]), r, v.objs.Sent(r)) { OwedAfter(w, l, r); }
    forall r: Ref | r.arn != arn ensures v.log.Highest(r) == w.log.Highest(r) {
      OwesElsewhere(w.log, v.log, marks, Wire(w.h.lists[l].events[0], w.h.lists[l].at.kind), r);
    }
    InStepBusy(w, v, l);
  }

  lemma InStepAnswer(w: World, l: nat, reply: Reply)
    requires Safe(w) && OneLive(w.h) && InStep(w) && AllTruthful(w, AnyRef())
    requires Enabled(w, Answer(l, reply)) && OneLive(DoAnswer(w, l, reply).h)
    ensures InStep(DoAnswer(w, l, reply))
  {
    var x := w.h.lists[l];
    assert ListAt(w, l);
    if reply == Accepted {
      assert ListTasks(x, t => Truthful(w.log, t, AnyRef()));
      HeadIsBacked(x, w.log, AnyRef());
      MarksStayInTask(x.events[0], x.at.kind);
      InStepAccepted(w, l, Marks(x.events[0], x.at.kind));
    } else {
      InStepQuiet(w, DoAnswer(w, l, reply), l);
    }
  }

  /** While every write still to come is above the record, no step lowers a sent status. */
  lemma SentNeverDrops(w: World, s: Step, r: Ref)
    requires Guards(w) && Enabled(w, s)
    ensures w.objs.Sent(r) <= Next(w, s).objs.Sent(r)
  {
    if s.MarkWrite? { assert WriteGuard(w, s.list); }
  }
}
