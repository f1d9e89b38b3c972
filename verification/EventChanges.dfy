/**
 Properties of the task changes that the handler holds, as far as they follow from what its callers
 hand in.
 */
module EventChanges {
  import opened Basics
  import opened EventTypes
  import opened EventMachine

  // --- the highest accepted status ------------------------------------------------------------------

  /** The largest of `base` and the statuses that `marks` gives to r. */
  function Top(marks: seq<(Ref, int)>, r: Ref, base: int): int {
    if marks == [] then base
    else Top(marks[1..], r, if marks[0].0 == r && base < marks[0].1 then marks[0].1 else base)
  }

  function Lookup(m: map<Ref, int>, r: Ref): int { if r in m then m[r] else STATUS_NONE }

  lemma {:induction false} RaiseIsTop(highest: map<Ref, int>, marks: seq<(Ref, int)>, r: Ref)
    ensures Lookup(Raise(highest, marks), r) == Top(marks, r, Lookup(highest, r))
    decreases marks
  {
    if marks != [] {
      var (q, s) := marks[0];
      var prev := Lookup(highest, q);
      RaiseIsTop(highest[q := if prev < s then s else prev], marks[1..], r);
    }
  }

  lemma {:induction false} TopBounds(marks: seq<(Ref, int)>, r: Ref, base: int)
    ensures base <= Top(marks, r, base)
    ensures forall m | m in marks && m.0 == r :: m.1 <= Top(marks, r, base)
    decreases marks
  {
    if marks != [] {
      TopBounds(marks[1..], r, if marks[0].0 == r && base < marks[0].1 then marks[0].1 else base);
      assert marks == [marks[0]] + marks[1..];
    }
  }

  lemma {:induction false} TopElsewhere(marks: seq<(Ref, int)>, r: Ref, base: int)
    requires forall m | m in marks :: m.0 != r
    ensures Top(marks, r, base) == base
    decreases marks
  {
    if marks != [] { TopElsewhere(marks[1..], r, base); }
  }

  lemma RaisedTop(log: Log, log': Log, marks: seq<(Ref, int)>, r: Ref)
    requires log'.highest == Raise(log.highest, marks)
    ensures log'.Highest(r) == Top(marks, r, log.Highest(r))
  {
    RaiseIsTop(log.highest, marks, r);
  }

  /** ... and it is the least bound. */
  lemma {:induction false} TopLeast(marks: seq<(Ref, int)>, r: Ref, base: int, bound: int)
    requires base <= bound && forall m | m in marks && m.0 == r :: m.1 <= bound
    ensures Top(marks, r, base) <= bound
    decreases marks
  {
    if marks != [] { TopLeast(marks[1..], r, if marks[0].0 == r && base < marks[0].1 then marks[0].1 else base, bound); }
  }

  lemma TopGrows(marks: seq<(Ref, int)>, r: Ref, base: int, base': int)
    requires base <= base'
    ensures Top(marks, r, base) <= Top(marks, r, base')
  {
    TopBounds(marks, r, base');
    TopLeast(marks, r, base, Top(marks, r, base'));
  }

  // --- what a change claims and what it tells -------------------------------------------------------

  /** What the backend learns from the change when it accepts it as a task change. */
  function Told(t: TaskChange): seq<(Ref, int)> {
    if t.task.Some? then Wire(TaskEvent(t, false), AsTask) else []
  }

  /** The status of the object at the backend once it has accepted the change. */
  function After(log: Log, t: TaskChange, r: Ref): int { Top(Told(t), r, log.Highest(r)) }

  /** For the objects in q the change is marked with nothing that the backend lacks after accepting it. */
  predicate Truthful(log: Log, t: TaskChange, q: Ref -> bool) {
    t.task.None? || forall m | m in Marks(TaskEvent(t, false), AsTask) && q(m.0) :: m.1 <= After(log, t, m.0)
  }

  /** The containers of the change go over the wire with it, or the backend already has their statuses. */
  predicate Reaches(log: Log, t: TaskChange) {
    forall c | c in t.containers :: c.status <= After(log, t, c.Target())
  }

  function AnyRef(): Ref -> bool { (r: Ref) => true }

  function ContainerRefs(): Ref -> bool { (r: Ref) => r.ContainerRef? }

  function NoRef(): Ref -> bool { (r: Ref) => false }

  lemma ReachesIsTruthful(log: Log, t: TaskChange)
    requires Reaches(log, t)
    ensures Truthful(log, t, ContainerRefs())
  {
    if t.task.Some? {
      forall m | m in Marks(TaskEvent(t, false), AsTask) && m.0.ContainerRef? ensures m.1 <= After(log, t, m.0) {
        var i :| 0 <= i < |t.containers| && m == ContainerMarks(t.containers)[i];
        assert t.containers[i] in t.containers;
      }
    }
  }

  /** Without an attachment the containers that run or have stopped go over the wire. */
  lemma PayloadIsTold(t: TaskChange, c: ContainerChange)
    requires t.task.Some?
    ensures t.attachment.None? && c in t.containers && IsSupported(c.status) ==> c in TaskEvent(t, false).Payload()
    ensures c in TaskEvent(t, false).Payload() ==> (c.Target(), c.status) in Told(t)
  {
    var sent := TaskEvent(t, false).Payload();
    SupportedCount(t.containers, c);
    assert c in t.containers ==> multiset(t.containers)[c] > 0;
    if c in sent {
      var i :| 0 <= i < |sent| && sent[i] == c;
      assert ContainerMarks(sent)[i] in Told(t);
    }
  }

  /** A change without an attachment whose containers run or have stopped tells all that it claims. */
  lemma PlainIsTruthful(log: Log, t: TaskChange)
    requires t.task.Some? && t.attachment.None? && forall c | c in t.containers :: IsSupported(c.status)
    ensures Truthful(log, t, AnyRef()) && Reaches(log, t)
  {
    PlainReaches(log, t);
    ReachesIsTruthful(log, t);
    var own := TaskRef(t.arn, t.task.value);
    TopBounds(Told(t), own, log.Highest(own));
    assert Told(t)[0] == (own, t.status);
    forall m | m in Marks(TaskEvent(t, false), AsTask) ensures m.1 <= After(log, t, m.0) {
      if !m.0.ContainerRef? { assert m == (own, t.status); }
    }
  }

  lemma PlainReaches(log: Log, t: TaskChange)
    requires t.task.Some? && t.attachment.None? && forall c | c in t.containers :: IsSupported(c.status)
    ensures Reaches(log, t)
  {
    forall c | c in t.containers ensures c.status <= After(log, t, c.Target()) {
      PayloadIsTold(t, c);
      TopBounds(Told(t), c.Target(), log.Highest(c.Target()));
    }
  }

  lemma AfterGrows(log: Log, log': Log, t: TaskChange)
    requires forall r: Ref :: log.Highest(r) <= log'.Highest(r)
    ensures forall r: Ref :: After(log, t, r) <= After(log', t, r)
  {
    forall r: Ref ensures After(log, t, r) <= After(log', t, r) { TopGrows(Told(t), r, log.Highest(r), log'.Highest(r)); }
  }

  // --- a property of every queued change ------------------------------------------------------------

  ghost predicate ListTasks(x: EventList, p: TaskChange -> bool) {
    forall i | 0 <= i < |x.events| && x.events[i].TaskEvent? :: p(x.events[i].task)
  }

  /** Every queued change, and the one in hand, has this property. */
  ghost predicate AllTasks(h: Handler, p: TaskChange -> bool) {
    && (h.held.Some? && h.held.value.1.TaskEvent? ==> p(h.held.value.1.task))
    && forall l | 0 <= l < |h.lists| :: ListTasks(h.lists[l], p)
  }

  /** The change as it is queued: with the batch of its task. */
  function Flushed(h: Handler, t: TaskChange): TaskChange { t.(containers := t.containers + Batch(h, t.arn)) }

  /** What the step queues, if anything, has the property. */
  ghost predicate Admits(w: World, s: Step, p: TaskChange -> bool) {
    s.Flush? ==> p(Flushed(w.h, s.task))
  }

  lemma AllTasksFrame(h: Handler, g: Handler, l: nat, p: TaskChange -> bool)
    requires AllTasks(h, p) && (g.held == h.held || g.held.None?)
    requires |g.lists| == |h.lists| && forall k | 0 <= k < |h.lists| && k != l :: g.lists[k] == h.lists[k]
    requires l < |h.lists| ==> g.lists[l].events == h.lists[l].events || ListTasks(g.lists[l], p)
    ensures AllTasks(g, p)
  {
    forall k | 0 <= k < |g.lists| ensures ListTasks(g.lists[k], p) { assert ListTasks(h.lists[k], p); }
  }

  lemma TailTasks(x: EventList, y: EventList, p: TaskChange -> bool)
    requires ListTasks(x, p) && x.events != [] && y.events == x.events[1..]
    ensures ListTasks(y, p)
  {
  }

  lemma AttemptTasks(w: World, l: nat, d: Option<Kind>, p: TaskChange -> bool)
    requires AllTasks(w.h, p) && l < |w.h.lists|
    ensures AllTasks(DoAttempt(w, l, d).h, p)
  {
    var v := DoAttempt(w, l, d);
    assert ListTasks(w.h.lists[l], p);
    if w.h.lists[l].events != [] && d.None? { TailTasks(w.h.lists[l], v.h.lists[l], p); }
    AllTasksFrame(w.h, v.h, l, p);
  }

  lemma SentTasks(x: EventList, y: EventList, p: TaskChange -> bool)
    requires ListTasks(x, p) && x.events != [] && y.events == x.events[0 := x.events[0].(sent := true)]
    ensures ListTasks(y, p)
  {
    forall i | 0 <= i < |y.events| && y.events[i].TaskEvent? ensures p(y.events[i].task) {
      assert x.events[i].TaskEvent? && y.events[i].task == x.events[i].task;
    }
  }

  lemma AnswerTasks(w: World, l: nat, reply: Reply, p: TaskChange -> bool)
    requires AllTasks(w.h, p) && Enabled(w, Answer(l, reply))
    ensures AllTasks(DoAnswer(w, l, reply).h, p)
  {
    var v := DoAnswer(w, l, reply);
    var x, y := w.h.lists[l], v.h.lists[l];
    assert ListTasks(x, p);
    if reply == Accepted {
      SentTasks(x, y, p);
    } else if y.events != x.events {
      TailTasks(x, y, p);
    }
    AllTasksFrame(w.h, v.h, l, p);
  }

  lemma PushTasks(w: World, p: TaskChange -> bool)
    requires AllTasks(w.h, p) && Enabled(w, Push)
    ensures AllTasks(DoPush(w).h, p)
  {
    var v := DoPush(w);
    var l := w.h.held.value.0;
    assert ListTasks(w.h.lists[l], p);
    AllTasksFrame(w.h, v.h, l, p);
  }

  lemma FlushTasks(w: World, t: TaskChange, p: TaskChange -> bool)
    requires AllTasks(w.h, p) && p(Flushed(w.h, t))
    ensures AllTasks(DoFlush(w, t).h, p)
  {
    var v := DoFlush(w, t);
    forall k | 0 <= k < |v.h.lists| ensures ListTasks(v.h.lists[k], p) {
      if k < |w.h.lists| { assert ListTasks(w.h.lists[k], p); }
    }
  }

  lemma FinishTasks(w: World, l: nat, p: TaskChange -> bool)
    requires AllTasks(w.h, p) && l < |w.h.lists| && w.h.lists[l].events != []
    ensures AllTasks(DoFinishSend(w, l).h, p)
  {
    var v := DoFinishSend(w, l);
    assert ListTasks(w.h.lists[l], p);
    TailTasks(w.h.lists[l], v.h.lists[l], p);
    AllTasksFrame(w.h, v.h, l, p);
  }

  lemma AllTasksStep(w: World, s: Step, p: TaskChange -> bool)
    requires AllTasks(w.h, p) && Enabled(w, s) && Admits(w, s, p)
    ensures AllTasks(Next(w, s).h, p)
  {
    match s
    case Flush(t) => FlushTasks(w, t, p);
    case Push => PushTasks(w, p);
    case Attempt(l, expired) => AttemptTasks(w, l, Decide(w, l, expired), p);
    case Answer(l, reply) => AnswerTasks(w, l, reply, p);
    case MarkRead(l) => AllTasksFrame(w.h, Next(w, s).h, l, p);
    case MarkWrite(l) => AllTasksFrame(w.h, Next(w, s).h, l, p);
    case FinishSend(l) => FinishTasks(w, l, p);
    case _ => AllTasksFrame(w.h, Next(w, s).h, |w.h.lists|, p);
  }

  lemma RaisesHighest(w: World, s: Step, r: Ref)
    requires Enabled(w, s)
    ensures w.log.Highest(r) <= Next(w, s).log.Highest(r)
  {
    if s.Answer? && s.reply == Accepted {
      var x := w.h.lists[s.list];
      RaisedTop(w.log, Next(w, s).log, Wire(x.events[0], x.at.kind), r);
      TopBounds(Wire(x.events[0], x.at.kind), r, w.log.Highest(r));
    }
  }

  // --- changes that stay truthful -------------------------------------------------------------------

  ghost predicate AllTruthful(w: World, q: Ref -> bool) { AllTasks(w.h, t => Truthful(w.log, t, q)) }

  ghost predicate AdmitsTruthful(w: World, s: Step, q: Ref -> bool) { s.Flush? ==> Truthful(w.log, Flushed(w.h, s.task), q) }

  lemma TruthfulStep(w: World, s: Step, q: Ref -> bool)
    requires AllTruthful(w, q) && Enabled(w, s) && AdmitsTruthful(w, s, q)
    ensures AllTruthful(Next(w, s), q)
  {
    AllTasksStep(w, s, t => Truthful(w.log, t, q));
    forall r: Ref { RaisesHighest(w, s, r); }
    forall t | Truthful(w.log, t, q) ensures Truthful(Next(w, s).log, t, q) { AfterGrows(w.log, Next(w, s).log, t); }
  }

  ghost predicate AllReach(w: World) { AllTasks(w.h, t => Reaches(w.log, t)) }

  ghost predicate AdmitsReaching(w: World, s: Step) { s.Flush? ==> Reaches(w.log, Flushed(w.h, s.task)) }

  lemma ReachStep(w: World, s: Step)
    requires AllReach(w) && Enabled(w, s) && AdmitsReaching(w, s)
    ensures AllReach(Next(w, s))
  {
    AllTasksStep(w, s, t => Reaches(w.log, t));
    forall r: Ref { RaisesHighest(w, s, r); }
    forall t | Reaches(w.log, t) ensures Reaches(Next(w, s).log, t) { AfterGrows(w.log, Next(w, s).log, t); }
  }

  lemma AllReachIsTruthful(w: World)
    requires AllReach(w)
    ensures AllTruthful(w, ContainerRefs())
  {
    forall t | Reaches(w.log, t) ensures Truthful(w.log, t, ContainerRefs()) { ReachesIsTruthful(w.log, t); }
  }
}
