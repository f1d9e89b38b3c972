/**
 Theorems about whole runs of the event handler.
 */
module EventRuns {
  import opened Basics
  import opened EventTypes
  import opened EventMachine
  import opened EventSafety
  import opened EventConservation
  import opened EventChanges
  import opened EventSent

  // --- every interleaving ---------------------------------------------------------------------

  ghost predicate Good(w: World) {
    Safe(w) && forall c: ContainerChange :: Conserved(w, c)
  }

  lemma {:induction false} GoodForever(w: World, run: seq<Step>)
    requires Good(w) && CanRun(w, run)
    ensures Good(Run(w, run))
    decreases run
  {
    if run != [] {
      SafeStep(w, run[0]);
      forall c: ContainerChange { ConservedStep(w, run[0], c); }
      GoodForever(Next(w, run[0]), run[1..]);
    }
  }

  /**
   In every state of every run: a list has exactly one goroutine draining it while it is sending
   and none otherwise; a list with events is sending, whether or not the ARN map still knows it;
   events were submitted in push order and none was skipped or left behind; and every accepted
   container change is batched, in hand, queued, delivered, unreported, redundant or rejected,
   exactly once.
   */
  lemma EveryRun(w: World, run: seq<Step>)
    requires Init(w) && CanRun(w, run)
    ensures var v := Run(w, run);
            && |v.h.lists| == |v.log.pushed| == |v.log.popped| == |v.log.tried|
            && (forall l | 0 <= l < |v.h.lists| ::
                  && v.h.submitters[l] == (if v.h.lists[l].sending then 1 else 0)
                  && (v.h.lists[l].events != [] ==> v.h.lists[l].sending))
            && (forall l | 0 <= l < |v.h.lists| :: OrderOK(v.h.lists[l], v.log.pushed[l], v.log.popped[l], v.log.tried[l]))
            && (forall c: ContainerChange :: Conserved(v, c))
  {
    GoodForever(w, run);
    var v := Run(w, run);
    forall l | 0 <= l < |v.h.lists|
      ensures v.h.submitters[l] == (if v.h.lists[l].sending then 1 else 0)
      ensures v.h.lists[l].events != [] ==> v.h.lists[l].sending
      ensures OrderOK(v.h.lists[l], v.log.pushed[l], v.log.popped[l], v.log.tried[l])
    {
      assert ListAt(v, l);
    }
  }

  // --- a queued event is never stranded -------------------------------------------------------

  predicate OnList(s: Step, l: nat) {
    match s
    case Attempt(k, _) => k == l
    case Answer(k, _) => k == l
    case MarkRead(k) => k == l
    case MarkWrite(k) => k == l
    case FinishSend(k) => k == l
    case _ => false
  }

  function NextOn(x: EventList, l: nat): Step {
    match x.at
    case Idle => Attempt(l, false)
    case Sending(_) => Answer(l, Accepted)
    case Writing(_, _) => MarkWrite(l)
    case Marking(todo) => if todo == [] then FinishSend(l) else MarkRead(l)
  }

  function EventWork(e: Event): nat { 6 + 2 * |e.Carried()| }

  function TailWork(events: seq<Event>): nat {
    if events == [] then 0 else EventWork(events[0]) + TailWork(events[1..])
  }

  /** An upper bound on the steps that the list's submitter still takes. */
  function Work(x: EventList): nat {
    if !x.sending then 0
    else if x.events == [] then 1
    else
      1 + TailWork(x.events[1..]) +
      match x.at
      case Idle => EventWork(x.events[0])
      case Sending(_) => 5 + 2 * |x.events[0].Carried()|
      case Marking(todo) => 1 + 2 * |todo|
      case Writing(_, rest) => 2 + 2 * |rest|
  }

  lemma WorkShrinks(w: World, s: Step, l: nat)
    requires Safe(w) && Enabled(w, s) && OnList(s, l) && l < |w.h.lists|
    requires !(s.Answer? && s.reply == Failed)
    ensures l < |Next(w, s).h.lists| && Work(Next(w, s).h.lists[l]) < Work(w.h.lists[l])
  {
    assert ListAt(w, l);
    LiveWorkShrinks(w, s, l);
  }

  lemma LiveWorkShrinks(w: World, s: Step, l: nat)
    requires Enabled(w, s) && OnList(s, l) && l < |w.h.lists|
    requires w.h.lists[l].sending && w.h.lists[l].at != Sending(AsContainer)
    requires !(s.Answer? && s.reply == Failed)
    ensures l < |Next(w, s).h.lists| && Work(Next(w, s).h.lists[l]) < Work(w.h.lists[l])
  {
    match s
    case Attempt(_, expired) => AttemptShrinks(w, l, Decide(w, l, expired));
    case Answer(_, reply) => AnswerShrinks(w, l, reply);
    case FinishSend(_) => FinishShrinks(w, l);
    case MarkRead(_) => MarkReadShrinks(w, l);
    case MarkWrite(_) =>
  }

  lemma FinishShrinks(w: World, l: nat)
    requires l < |w.h.lists| && w.h.lists[l].sending && w.h.lists[l].events != [] && w.h.lists[l].at == Marking([])
    ensures Work(DoFinishSend(w, l).h.lists[l]) < Work(w.h.lists[l])
  {
  }

  lemma MarkReadShrinks(w: World, l: nat)
    requires Enabled(w, MarkRead(l)) && w.h.lists[l].sending
    ensures Work(DoMarkRead(w, l).h.lists[l]) < Work(w.h.lists[l])
  {
  }

  lemma AttemptShrinks(w: World, l: nat, d: Option<Kind>)
    requires l < |w.h.lists| && w.h.lists[l].sending && w.h.lists[l].at.Idle?
    ensures Work(DoAttempt(w, l, d).h.lists[l]) < Work(w.h.lists[l])
  {
  }

  lemma AnswerShrinks(w: World, l: nat, reply: Reply)
    requires reply != Failed && l < |w.h.lists| && w.h.lists[l].events != [] && w.h.lists[l].sending
    requires w.h.lists[l].at.Sending? && !w.h.lists[l].at.kind.AsContainer?
    ensures Work(DoAnswer(w, l, reply).h.lists[l]) < Work(w.h.lists[l])
  {
  }

  /** While a list holds an event, its submitter can take a step. */
  lemma NeverStranded(w: World, l: nat)
    requires Safe(w) && l < |w.h.lists| && w.h.lists[l].events != []
    ensures Enabled(w, NextOn(w.h.lists[l], l)) && OnList(NextOn(w.h.lists[l], l), l)
  {
    assert ListAt(w, l);
  }

  /** Unless the backend keeps failing, the submitter of a list takes at most Work more steps. */
  lemma {:induction false} DrainBound(w: World, l: nat, run: seq<Step>)
    requires Safe(w) && l < |w.h.lists| && CanRun(w, run)
    requires forall s | s in run :: OnList(s, l) && !(s.Answer? && s.reply == Failed)
    ensures |run| <= Work(w.h.lists[l])
    decreases run
  {
    if run != [] {
      SafeStep(w, run[0]);
      WorkShrinks(w, run[0], l);
      DrainBound(Next(w, run[0]), l, run[1..]);
    }
  }

  // --- sent statuses and the backend ------------------------------------------------------------

  ghost predicate Backed(w: World, q: Ref -> bool) { Safe(w) && Covered(w, q) && AllTruthful(w, q) }

  ghost predicate AlwaysTruthful(w: World, run: seq<Step>, q: Ref -> bool)
    requires CanRun(w, run)
    decreases run
  {
    run == [] || (AdmitsTruthful(w, run[0], q) && AlwaysTruthful(Next(w, run[0]), run[1..], q))
  }

  lemma BackedStep(w: World, s: Step, q: Ref -> bool)
    requires Backed(w, q) && Enabled(w, s) && AdmitsTruthful(w, s, q)
    ensures Backed(Next(w, s), q)
  {
    SafeStep(w, s);
    CoveredStep(w, s, q);
    TruthfulStep(w, s, q);
  }

  lemma {:induction false} BackedForever(w: World, run: seq<Step>, q: Ref -> bool)
    requires Backed(w, q) && CanRun(w, run) && AlwaysTruthful(w, run, q)
    ensures Backed(Run(w, run), q)
    decreases run
  {
    if run != [] {
      BackedStep(w, run[0], q);
      BackedForever(Next(w, run[0]), run[1..], q);
    }
  }

  /**
   If no change that is handed in is marked with more than the backend has after accepting it, then in
   every run no recorded sent status exceeds what the backend was sent and accepted.
   */
  lemma SentWithinBackend(w: World, run: seq<Step>, r: Ref)
    requires Init(w) && CanRun(w, run) && AlwaysTruthful(w, run, AnyRef())
    ensures Run(w, run).objs.Sent(r) <= Run(w, run).log.Highest(r)
  {
    BackedForever(w, run, AnyRef());
  }

  // --- changes that the backend never gets --------------------------------------------------------

  /** Whatever was dropped as redundant or left off the wire is covered by what the backend has. */
  ghost predicate NoneLost(log: Log) {
    forall c | c in log.redundant || c in log.unreported :: c.status <= log.Highest(c.Target())
  }

  ghost predicate Lossless(w: World) { Safe(w) && Covered(w, ContainerRefs()) && AllReach(w) && NoneLost(w.log) }

  lemma DropLosesNone(w: World, l: nat, expired: bool)
    requires Lossless(w) && Enabled(w, Attempt(l, expired)) && w.h.lists[l].events != [] && Decide(w, l, expired).None?
    ensures forall c | c in w.h.lists[l].events[0].Carried() :: c.status <= w.log.Highest(c.Target())
  {
    var e := w.h.lists[l].events[0];
    assert ListAt(w, l) && ListTasks(w.h.lists[l], t => Reaches(w.log, t));
    assert e.TaskEvent? && Reaches(w.log, e.task);
    if e.task.task.Some? { RedundantWasCovered(w, l, expired, ContainerRefs()); }
  }

  lemma AcceptLosesNone(w: World, l: nat)
    requires Lossless(w) && Enabled(w, Answer(l, Accepted))
    ensures forall c | c in w.h.lists[l].events[0].Carried() :: c.status <= DoAnswer(w, l, Accepted).log.Highest(c.Target())
  {
    var x := w.h.lists[l];
    var e, v := x.events[0], DoAnswer(w, l, Accepted);
    assert ListAt(w, l) && ListTasks(x, t => Reaches(w.log, t));
    assert e == TaskEvent(e.task, false) && Reaches(w.log, e.task);
    forall c | c in e.Carried() ensures c.status <= v.log.Highest(c.Target()) {
      RaisedTop(w.log, v.log, Wire(e, x.at.kind), c.Target());
      TopBounds(Wire(e, x.at.kind), c.Target(), w.log.Highest(c.Target()));
    }
  }

  /** The step drops the head as redundant, or has it accepted. */
  ghost predicate SettlesHead(w: World, s: Step) {
    (s.Attempt? || (s.Answer? && s.reply == Accepted)) && s.list < |w.h.lists| && w.h.lists[s.list].events != []
  }

  /** No other way leads to the redundant and the unreported changes. */
  lemma SettledByHead(w: World, s: Step, c: ContainerChange)
    requires Enabled(w, s) && c !in w.log.redundant && c !in w.log.unreported
    requires c in Next(w, s).log.redundant || c in Next(w, s).log.unreported
    ensures SettlesHead(w, s) && c in w.h.lists[s.list].events[0].Carried()
    ensures s.Attempt? ==> Decide(w, s.list, s.expired).None?
  {
  }

  lemma NoneLostStep(w: World, s: Step)
    requires Lossless(w) && Enabled(w, s)
    ensures NoneLost(Next(w, s).log)
  {
    var v := Next(w, s);
    forall c | c in v.log.redundant || c in v.log.unreported ensures c.status <= v.log.Highest(c.Target()) {
      RaisesHighest(w, s, c.Target());
      if c !in w.log.redundant && c !in w.log.unreported {
        SettledByHead(w, s, c);
        if s.Attempt? { DropLosesNone(w, s.list, s.expired); } else { AcceptLosesNone(w, s.list); }
      }
    }
  }

  ghost predicate AlwaysReaching(w: World, run: seq<Step>)
    requires CanRun(w, run)
    decreases run
  {
    run == [] || (AdmitsReaching(w, run[0]) && AlwaysReaching(Next(w, run[0]), run[1..]))
  }

  lemma {:induction false} LosslessForever(w: World, run: seq<Step>)
    requires Lossless(w) && CanRun(w, run) && AlwaysReaching(w, run)
    ensures Lossless(Run(w, run))
    decreases run
  {
    if run != [] {
      SafeStep(w, run[0]);
      AllReachIsTruthful(w);
      CoveredStep(w, run[0], ContainerRefs());
      ReachStep(w, run[0]);
      NoneLostStep(w, run[0]);
      LosslessForever(Next(w, run[0]), run[1..]);
    }
  }

  /**
   If the backend has the statuses of all containers of every change that is handed in, and of the
   batch it finds, after accepting it, then in every run a container change is dropped as redundant or
   left off the wire only if the backend has that status or a higher one.
   */
  lemma DropsOnlyCovered(w: World, run: seq<Step>)
    requires Init(w) && CanRun(w, run) && AlwaysReaching(w, run)
    ensures NoneLost(Run(w, run).log)
  {
    LosslessForever(w, run);
  }

  // --- one live list per task -----------------------------------------------------------------

  ghost predicate AlwaysOneLive(w: World, run: seq<Step>)
    requires CanRun(w, run)
    decreases run
  {
    OneLive(w.h) && (run == [] || AlwaysOneLive(Next(w, run[0]), run[1..]))
  }

  /** In a run that never has two live lists of one task no sent status ever decreases. */
  lemma {:induction false} SentOnlyGrows(w: World, run: seq<Step>, r: Ref)
    requires Safe(w) && Guards(w) && CanRun(w, run) && AlwaysOneLive(w, run)
    ensures w.objs.Sent(r) <= Run(w, run).objs.Sent(r)
    decreases run
  {
    if run != [] {
      SafeStep(w, run[0]);
      GuardsStep(w, run[0]);
      SentNeverDrops(w, run[0], r);
      SentOnlyGrows(Next(w, run[0]), run[1..], r);
    }
  }

  /** What makes sent statuses follow the backend. */
  ghost predicate Tracking(w: World) { Safe(w) && Guards(w) && InStep(w) && AllTruthful(w, AnyRef()) }

  /**
   In a run of truthful changes that never has two live lists of one task, the sent status of every
   task and container without an unfinished submission is the highest accepted one.
   */
  lemma {:induction false} SentTracksBackend(w: World, run: seq<Step>)
    requires Tracking(w) && CanRun(w, run) && AlwaysOneLive(w, run) && AlwaysTruthful(w, run, AnyRef())
    ensures Tracking(Run(w, run))
    ensures forall r: Ref | Dead(Run(w, run).h, r.arn) :: Run(w, run).objs.Sent(r) == Run(w, run).log.Highest(r)
    decreases run
  {
    if run == [] {
      forall r: Ref | Dead(w.h, r.arn) ensures w.objs.Sent(r) == w.log.Highest(r) { assert InStepAt(w, r); }
    } else {
      var v := Next(w, run[0]);
      SafeStep(w, run[0]);
      GuardsStep(w, run[0]);
      TruthfulStep(w, run[0], AnyRef());
      assert OneLive(v.h) by { assert AlwaysOneLive(v, run[1..]); }
      InStepStep(w, run[0]);
      SentTracksBackend(v, run[1..]);
    }
  }

  /** A push that does not restart a list whose map entry is about to be deleted. */
  ghost predicate OutsideWindow(w: World, s: Step) {
    s.Push? && w.h.held.Some? ==> w.h.removers[w.h.held.value.1.Arn()] == 0
  }

  ghost predicate Guarded(w: World, run: seq<Step>)
    requires CanRun(w, run)
    decreases run
  {
    run == [] || (OutsideWindow(w, run[0]) && Guarded(Next(w, run[0]), run[1..]))
  }

  /** A live list is the one the ARN map knows, and nobody is about to delete that entry. */
  ghost predicate Mapped(h: Handler) {
    forall l | 0 <= l < |h.lists| && h.lists[l].sending ::
      h.lists[l].arn in h.tasksToEvents && h.tasksToEvents[h.lists[l].arn] == l && h.removers[h.lists[l].arn] == 0
  }

  /** A submitter's step on list l keeps the list alive, or ends with a pending entry removal. */
  ghost predicate ListStep(h: Handler, g: Handler, l: nat) {
    && l < |h.lists| && |g.lists| == |h.lists| && g.tasksToEvents == h.tasksToEvents
    && g.lists == h.lists[l := g.lists[l]] && g.lists[l].arn == h.lists[l].arn
    && (|| (g.lists[l].sending == h.lists[l].sending && g.removers == h.removers)
        || (h.lists[l].sending && !g.lists[l].sending && g.removers == h.removers + multiset{h.lists[l].arn}))
  }

  lemma OnListIsListStep(w: World, s: Step, l: nat)
    requires Safe(w) && Enabled(w, s) && OnList(s, l)
    ensures ListStep(w.h, Next(w, s).h, l)
  {
    assert ListAt(w, l);
    match s
    case Attempt(_, expired) => AttemptIsListStep(w, l, Decide(w, l, expired));
    case Answer(_, reply) => AnswerIsListStep(w, l, reply);
    case FinishSend(_) => SettleIsListStep(w.h, l);
    case _ =>
  }

  lemma SettleIsListStep(h: Handler, l: nat)
    requires l < |h.lists| && h.lists[l].sending && h.lists[l].events != []
    ensures ListStep(h, Settle(DropHead(h, l), l), l)
  {
  }

  lemma AttemptIsListStep(w: World, l: nat, d: Option<Kind>)
    requires l < |w.h.lists| && w.h.lists[l].sending
    ensures ListStep(w.h, DoAttempt(w, l, d).h, l)
  {
    if w.h.lists[l].events != [] && d.None? { SettleIsListStep(w.h, l); }
  }

  lemma AnswerIsListStep(w: World, l: nat, reply: Reply)
    requires l < |w.h.lists| && w.h.lists[l].events != [] && w.h.lists[l].at.Sending?
    ensures ListStep(w.h, DoAnswer(w, l, reply).h, l)
  {
  }

  lemma MappedListStep(h: Handler, g: Handler, l: nat)
    requires Mapped(h) && ListStep(h, g, l)
    ensures Mapped(g)
  {
  }

  lemma MappedStep(w: World, s: Step)
    requires Safe(w) && Mapped(w.h) && Enabled(w, s) && OutsideWindow(w, s)
    ensures Mapped(Next(w, s).h)
  {
    match s
    case AddContainer(_) =>
    case SetKnown(_, _) =>
    case RemoveEntry(_) =>
    case Push =>
    case Flush(t) =>
      assert forall l | 0 <= l < |w.h.lists| :: Next(w, s).h.lists[l] == w.h.lists[l];
    case _ =>
      OnListIsListStep(w, s, s.list);
      MappedListStep(w.h, Next(w, s).h, s.list);
  }

  /**
   Runs in which no task event restarts a list between the end of its submitter's loop and the
   deletion of its map entry have at most one live list per task in every state.
   */
  lemma {:induction false} GuardedHasOneLive(w: World, run: seq<Step>)
    requires Safe(w) && Mapped(w.h) && CanRun(w, run) && Guarded(w, run)
    ensures AlwaysOneLive(w, run)
    decreases run
  {
    if run != [] {
      SafeStep(w, run[0]);
      MappedStep(w, run[0]);
      GuardedHasOneLive(Next(w, run[0]), run[1..]);
    }
  }

  /** Started empty, a guarded run never lowers a sent status. */
  lemma GuardedSentOnlyGrows(w: World, run: seq<Step>, r: Ref)
    requires Init(w) && CanRun(w, run) && Guarded(w, run)
    ensures w.objs.Sent(r) <= Run(w, run).objs.Sent(r)
  {
    GuardedHasOneLive(w, run);
    SentOnlyGrows(w, run, r);
  }

  /** Started empty, a guarded run of truthful changes keeps the sent statuses equal to what the backend accepted. */
  lemma GuardedSentTracksBackend(w: World, run: seq<Step>)
    requires Init(w) && CanRun(w, run) && Guarded(w, run) && AlwaysTruthful(w, run, AnyRef())
    ensures var v := Run(w, run);
            && OneLive(v.h)
            && (forall r: Ref :: w.objs.Sent(r) <= v.objs.Sent(r) <= v.log.Highest(r))
            && (forall r: Ref | Dead(v.h, r.arn) :: v.objs.Sent(r) == v.log.Highest(r))
  {
    GuardedHasOneLive(w, run);
    SentTracksBackend(w, run);
    forall r: Ref { SentOnlyGrows(w, run, r); }
    BackedForever(w, run, AnyRef());
    LastOneLive(w, run);
  }

  lemma {:induction false} LastOneLive(w: World, run: seq<Step>)
    requires CanRun(w, run) && AlwaysOneLive(w, run)
    ensures OneLive(Run(w, run).h)
    decreases run
  {
    if run != [] { LastOneLive(Next(w, run[0]), run[1..]); }
  }

  /**
   The guard is exact: whenever a task event is about to be pushed inside the window, four more
   steps lead to two live lists of that task.
   */
  lemma WindowBreaksOneLive(w: World) returns (run: seq<Step>)
    requires Safe(w) && Enabled(w, Push) && !OutsideWindow(w, Push)
    ensures CanRun(w, run) && !OneLive(Run(w, run).h)
  {
    var (l, e) := w.h.held.value;
    var a := e.Arn();
    var t := TaskChange(a, STATUS_NONE, None, None, []);
    var w1 := Next(w, Push);
    assert w1.h.lists[l].arn == a && w1.h.lists[l].sending && |w1.h.lists| == |w.h.lists|;
    var w2 := Next(w1, RemoveEntry(a));
    var v := NewList(w2, t);
    RunCons(w1, RemoveEntry(a), [Flush(t), Push]);
    RunCons(w, Push, [RemoveEntry(a)] + [Flush(t), Push]);
    run := [Push] + ([RemoveEntry(a)] + [Flush(t), Push]);
    assert v.h.lists[l].arn == v.h.lists[|w.h.lists|].arn;
  }

  /** An event of a task without a list in the map starts a list of its own. */
  lemma NewList(w: World, t: TaskChange) returns (v: World)
    requires w.h.held.None? && t.containers == [] && t.arn !in w.h.tasksToEvents
    ensures CanRun(w, [Flush(t), Push]) && v == Run(w, [Flush(t), Push])
    ensures v.h.lists == w.h.lists + [EventList(t.arn, [TaskEvent(Flushed(w.h, t), false)], true, Idle)]
    ensures v.h.tasksToEvents == w.h.tasksToEvents[t.arn := |w.h.lists|] && v.h.held.None?
    ensures v.h.submitters == w.h.submitters + multiset{|w.h.lists|} && v.h.removers == w.h.removers
    ensures v.objs == w.objs
  {
    var w1 := Next(w, Flush(t));
    v := Next(w1, Push);
    assert [] + [TaskEvent(Flushed(w.h, t), false)] == [TaskEvent(Flushed(w.h, t), false)];
    RunTwo(w, Flush(t), Push);
    assert [Flush(t)] + [Push] == [Flush(t), Push];
  }
}
