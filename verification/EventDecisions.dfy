/**
 What the submitter decides about the head of a list, in terms of what the backend has been told.
 */
module EventDecisions {
  import opened Basics
  import opened EventTypes
  import opened EventMachine
  import opened EventSafety
  import opened EventChanges
  import opened EventSent
  import opened EventRuns

  /** The head of list l has left it, unsent. */
  ghost predicate Dropped(w: World, v: World, l: nat)
    requires l < |w.h.lists| && w.h.lists[l].events != []
  {
    && |v.h.lists| == |w.h.lists| && v.h.lists[l].events == w.h.lists[l].events[1..] && v.h.lists[l].at.Idle?
    && v.log.redundant == w.log.redundant + multiset(w.h.lists[l].events[0].Carried())
  }

  lemma AttemptDrops(w: World, l: nat)
    requires l < |w.h.lists| && w.h.lists[l].events != []
    ensures Dropped(w, DoAttempt(w, l, None), l)
  {
  }

  // --- attachments ------------------------------------------------------------------------------------

  /** The attachments recorded as sent are those of the start and those that were accepted since. */
  ghost predicate Recorded(start: set<nat>, w: World) {
    forall a: nat :: a in w.objs.attached <==> a in start || a in w.log.announced
  }

  lemma RecordedAnswer(start: set<nat>, w: World, l: nat, reply: Reply)
    requires Recorded(start, w) && Enabled(w, Answer(l, reply))
    ensures Recorded(start, DoAnswer(w, l, reply))
  {
  }

  lemma RecordedStep(start: set<nat>, w: World, s: Step)
    requires Recorded(start, w) && Enabled(w, s)
    ensures Recorded(start, Next(w, s))
  {
    match s
    case Answer(l, reply) => RecordedAnswer(start, w, l, reply);
    case _ => OthersKeepAttached(w, s);
  }

  lemma {:induction false} RecordedForever(start: set<nat>, w: World, run: seq<Step>)
    requires Safe(w) && Recorded(start, w) && CanRun(w, run)
    ensures Safe(Run(w, run)) && Recorded(start, Run(w, run))
    decreases run
  {
    if run != [] {
      SafeStep(w, run[0]);
      RecordedStep(start, w, run[0]);
      RecordedForever(start, Next(w, run[0]), run[1..]);
    }
  }

  lemma DecidesAttachment(start: set<nat>, w: World, l: nat, expired: bool)
    requires Safe(w) && Recorded(start, w) && Enabled(w, Attempt(l, expired)) && w.h.lists[l].events != []
    requires w.h.lists[l].events[0].TaskEvent?
    requires w.h.lists[l].events[0].task.task.None? && w.h.lists[l].events[0].task.attachment.Some?
    ensures var t, v := w.h.lists[l].events[0].task, Next(w, Attempt(l, expired));
      if t.status == STATUS_NONE && !expired && t.attachment.value !in start && w.log.announced[t.attachment.value] == 0
      then v.h.lists[l] == w.h.lists[l].(at := Sending(AsAttachment))
      else Dropped(w, v, l)
  {
    assert ListAt(w, l);
    AttemptDrops(w, l);
  }

  /**
   After every run, an attempt at an event that has an attachment and no task submits the attachment if it
   comes without a status, has not expired, and was neither sent before the start nor accepted since; and
   it drops the event in every other case.
   */
  lemma AttachmentSentIff(start: World, run: seq<Step>, l: nat, expired: bool)
    requires Init(start) && CanRun(start, run) && Enabled(Run(start, run), Attempt(l, expired))
    requires Run(start, run).h.lists[l].events != [] && Run(start, run).h.lists[l].events[0].TaskEvent?
    requires var t := Run(start, run).h.lists[l].events[0].task; t.task.None? && t.attachment.Some?
    ensures var w := Run(start, run);
      var t, v := w.h.lists[l].events[0].task, Next(w, Attempt(l, expired));
      if t.status == STATUS_NONE && !expired && t.attachment.value !in start.objs.attached && w.log.announced[t.attachment.value] == 0
      then v.h.lists[l] == w.h.lists[l].(at := Sending(AsAttachment))
      else Dropped(w, v, l)
  {
    RecordedForever(start.objs.attached, start, run);
    DecidesAttachment(start.objs.attached, Run(start, run), l, expired);
  }

  /** No list is submitting this attachment. */
  ghost predicate Quiet(w: World, a: nat) {
    forall l | 0 <= l < |w.h.lists| :: !Submitting(w.h.lists[l], a)
  }

  predicate Submitting(x: EventList, a: nat) {
    x.at == Sending(AsAttachment) && x.events != [] && x.events[0].TaskEvent? && x.events[0].task.attachment == Some(a)
  }

  /** If the step is an attempt at an event with this attachment, then that has expired. */
  predicate FindsExpired(w: World, s: Step, a: nat) {
    var applies := s.Attempt? && s.list < |w.h.lists| && w.h.lists[s.list].events != []
      && w.h.lists[s.list].events[0].TaskEvent? && w.h.lists[s.list].events[0].task.attachment == Some(a);
    applies ==> s.expired
  }

  ghost predicate AlwaysExpired(w: World, run: seq<Step>, a: nat)
    requires CanRun(w, run)
    decreases run
  {
    run == [] || (FindsExpired(w, run[0], a) && AlwaysExpired(Next(w, run[0]), run[1..], a))
  }

  /** One list changed, and does not submit the attachment. */
  lemma QuietList(w: World, v: World, a: nat, l: nat)
    requires Quiet(w, a) && |v.h.lists| >= |w.h.lists| && forall k | 0 <= k < |w.h.lists| && k != l :: v.h.lists[k] == w.h.lists[k]
    requires forall k | |w.h.lists| <= k < |v.h.lists| :: v.h.lists[k].at.Idle?
    requires l < |v.h.lists| ==> !Submitting(v.h.lists[l], a)
    ensures Quiet(v, a)
  {
  }

  lemma QuietDecision(w: World, l: nat, d: Option<Kind>, a: nat)
    requires l < |w.h.lists| && Quiet(w, a)
    requires var x := w.h.lists[l];
      x.events != [] && x.events[0].TaskEvent? && x.events[0].task.attachment == Some(a) ==> d != Some(AsAttachment)
    ensures Quiet(DoAttempt(w, l, d), a)
  {
    if w.h.lists[l].events != [] && d.None? { AttemptDrops(w, l); }
    QuietList(w, DoAttempt(w, l, d), a, l);
  }

  lemma QuietAttempt(w: World, l: nat, expired: bool, a: nat)
    requires Enabled(w, Attempt(l, expired)) && Quiet(w, a) && (a in w.objs.attached || FindsExpired(w, Attempt(l, expired), a))
    ensures Quiet(DoAttempt(w, l, Decide(w, l, expired)), a)
  {
    QuietDecision(w, l, Decide(w, l, expired), a);
  }

  lemma QuietAnswer(w: World, l: nat, reply: Reply, a: nat)
    requires Enabled(w, Answer(l, reply)) && Quiet(w, a)
    ensures Quiet(DoAnswer(w, l, reply), a) && DoAnswer(w, l, reply).log.announced[a] == w.log.announced[a]
  {
    assert !Submitting(w.h.lists[l], a);
    QuietList(w, DoAnswer(w, l, reply), a, l);
  }

  lemma QuietFinish(w: World, l: nat, a: nat)
    requires Enabled(w, FinishSend(l)) && Quiet(w, a)
    ensures Quiet(DoFinishSend(w, l), a)
  {
    QuietList(w, DoFinishSend(w, l), a, l);
  }

  lemma QuietPush(w: World, a: nat)
    requires Enabled(w, Push) && Quiet(w, a)
    ensures Quiet(DoPush(w), a)
  {
    QuietList(w, DoPush(w), a, w.h.held.value.0);
  }

  lemma QuietFlush(w: World, t: TaskChange, a: nat)
    requires Enabled(w, Flush(t)) && Quiet(w, a)
    ensures Quiet(DoFlush(w, t), a)
  {
    QuietList(w, DoFlush(w, t), a, |w.h.lists|);
  }

  /** Marking keeps the other lists and submits nothing. */
  lemma QuietMark(w: World, s: Step, a: nat)
    requires Enabled(w, s) && (s.MarkRead? || s.MarkWrite?) && Quiet(w, a)
    ensures Quiet(Next(w, s), a)
  {
    QuietList(w, Next(w, s), a, s.list);
  }

  /** Every other step leaves the attachments and their count alone. */
  lemma OthersKeepAttached(w: World, s: Step)
    requires Enabled(w, s) && !s.Answer?
    ensures Next(w, s).objs.attached == w.objs.attached && Next(w, s).log.announced == w.log.announced
  {
  }

  lemma QuietStep(w: World, s: Step, a: nat)
    requires Enabled(w, s) && Quiet(w, a) && (a in w.objs.attached || FindsExpired(w, s, a))
    ensures var v := Next(w, s);
      && Quiet(v, a) && v.log.announced[a] == w.log.announced[a] && (a in w.objs.attached ==> a in v.objs.attached)
  {
    if !s.Answer? { OthersKeepAttached(w, s); }
    match s
    case Attempt(l, expired) => QuietAttempt(w, l, expired, a);
    case Answer(l, reply) => QuietAnswer(w, l, reply, a);
    case Flush(t) => QuietFlush(w, t, a);
    case Push => QuietPush(w, a);
    case MarkRead(_) => QuietMark(w, s, a);
    case MarkWrite(_) => QuietMark(w, s, a);
    case FinishSend(l) => QuietFinish(w, l, a);
    case _ => QuietList(w, Next(w, s), a, |w.h.lists|);
  }

  /**
   An attachment that was accepted, or has expired, is not submitted in any run from there on, and the
   backend is told of it no more often.
   */
  lemma {:induction false} NeverAnnouncedAgain(w: World, run: seq<Step>, a: nat)
    requires CanRun(w, run) && Quiet(w, a) && (a in w.objs.attached || AlwaysExpired(w, run, a))
    ensures Quiet(Run(w, run), a) && Run(w, run).log.announced[a] == w.log.announced[a]
    decreases run
  {
    if run != [] {
      QuietStep(w, run[0], a);
      NeverAnnouncedAgain(Next(w, run[0]), run[1..], a);
    }
  }

  // --- task events --------------------------------------------------------------------------------------

  /** The backend has the status of the task and the known status of each of the containers. */
  ghost predicate HasAll(w: World, t: TaskChange) {
    && (t.task.Some? ==> t.status <= w.log.Highest(TaskRef(t.arn, t.task.value)))
    && forall c | c in t.containers :: w.objs.Known(c.Target()) <= w.log.Highest(c.Target())
  }

  lemma IdleIsInStep(w: World, l: nat, r: Ref)
    requires Tracking(w) && l < |w.h.lists| && w.h.lists[l].events != [] && w.h.lists[l].at.Idle? && r.arn == w.h.lists[l].arn
    ensures w.objs.Sent(r) == w.log.Highest(r)
  {
    assert ListAt(w, l) && InStepAt(w, r);
  }

  lemma DecidesIff(w: World, l: nat, expired: bool)
    requires Tracking(w) && Enabled(w, Attempt(l, expired)) && w.h.lists[l].events != [] && w.h.lists[l].events[0].TaskEvent?
    requires var t := w.h.lists[l].events[0].task; t.task.Some? && (t.attachment.None? || expired)
    ensures var t, v := w.h.lists[l].events[0].task, Next(w, Attempt(l, expired));
      if HasAll(w, t) then Dropped(w, v, l) else v.h.lists[l] == w.h.lists[l].(at := Sending(AsTask))
  {
    assert ListAt(w, l);
    AttemptDrops(w, l);
    var t := w.h.lists[l].events[0].task;
    IdleIsInStep(w, l, TaskRef(t.arn, t.task.value));
    forall c | c in t.containers ensures w.objs.Sent(c.Target()) == w.log.Highest(c.Target()) { IdleIsInStep(w, l, c.Target()); }
  }

  /**
   In a guarded run of truthful changes, an attempt at a task event drops it exactly when the backend has
   its status and all that is known of its containers, and submits it otherwise.
   */
  lemma DroppedIffCovered(start: World, run: seq<Step>, l: nat, expired: bool)
    requires Init(start) && CanRun(start, run) && Guarded(start, run) && AlwaysTruthful(start, run, AnyRef())
    requires Enabled(Run(start, run), Attempt(l, expired))
    requires Run(start, run).h.lists[l].events != [] && Run(start, run).h.lists[l].events[0].TaskEvent?
    requires var t := Run(start, run).h.lists[l].events[0].task; t.task.Some? && (t.attachment.None? || expired)
    ensures var w := Run(start, run);
      var t, v := w.h.lists[l].events[0].task, Next(w, Attempt(l, expired));
      if HasAll(w, t) then Dropped(w, v, l) else v.h.lists[l] == w.h.lists[l].(at := Sending(AsTask))
  {
    GuardedHasOneLive(start, run);
    SentTracksBackend(start, run);
    DecidesIff(Run(start, run), l, expired);
  }

  /** In any state, an event whose task and containers are marked sent is not submitted again. */
  lemma MarkedIsDropped(w: World, l: nat, expired: bool)
    requires Safe(w) && Enabled(w, Attempt(l, expired)) && w.h.lists[l].events != [] && w.h.lists[l].events[0].TaskEvent?
    requires var t := w.h.lists[l].events[0].task;
      && t.task.Some? && t.status <= w.objs.Sent(TaskRef(t.arn, t.task.value)) && (t.attachment.None? || expired)
      && forall c | c in t.containers :: w.objs.Known(c.Target()) <= w.objs.Sent(c.Target())
    ensures Dropped(w, Next(w, Attempt(l, expired)), l)
  {
    assert ListAt(w, l);
    AttemptDrops(w, l);
  }

  /** A submission that fails leaves everything as it was before the attempt, so the head is tried again. */
  lemma FailedIsRetried(w: World, l: nat, expired: bool)
    requires Enabled(w, Attempt(l, expired)) && w.h.lists[l].events != [] && Decide(w, l, expired).Some?
    ensures var u := Next(w, Attempt(l, expired));
      && Enabled(u, Answer(l, Failed))
      && var v := Next(u, Answer(l, Failed));
      v.h == w.h && v.objs == w.objs && v.log == w.log.(tried := v.log.tried)
  {
    assert w.h.lists[l := w.h.lists[l].(at := Idle)] == w.h.lists;
  }
}
