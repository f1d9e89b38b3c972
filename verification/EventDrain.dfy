/**
 Runs that bring a list to rest: its submitter finishes the head or has it refused, event by event.
 */
module EventDrain {
  import opened EventTypes
  import opened EventMachine
  import opened EventSafety
  import opened EventChanges
  import opened EventSent
  import opened EventRuns

  /** The objects after all marks: each is raised, never lowered. */
  function MarkAll(o: Objects, marks: seq<(Ref, int)>): Objects
    decreases marks
  {
    if marks == [] then o
    else
      var (r, status) := marks[0];
      MarkAll(if o.Sent(r) < status then o.(sent := o.sent[r := status]) else o, marks[1..])
  }

  /** The first update: read, and written if it raises the status. */
  lemma OneMark(w: World, l: nat) returns (run: seq<Step>)
    requires HasHead(w.h, l) && w.h.lists[l].at.Marking? && w.h.lists[l].at.todo != []
    ensures CanRun(w, run) && forall s | s in run :: OnList(s, l)
    ensures var (r, status) := w.h.lists[l].at.todo[0];
      Run(w, run) == World(SetList(w.h, l, w.h.lists[l].(at := Marking(w.h.lists[l].at.todo[1..]))),
                           if w.objs.Sent(r) < status then w.objs.(sent := w.objs.sent[r := status]) else w.objs, w.log)
  {
    var v := Next(w, MarkRead(l));
    if v.h.lists[l].at.Writing? {
      RunTwo(w, MarkRead(l), MarkWrite(l));
      run := [MarkRead(l)] + [MarkWrite(l)];
      assert Next(v, MarkWrite(l)).h.lists == w.h.lists[l := w.h.lists[l].(at := Marking(w.h.lists[l].at.todo[1..]))];
    } else {
      RunOne(w, MarkRead(l));
      run := [MarkRead(l)];
    }
  }

  lemma {:induction false} MarksAreRun(w: World, l: nat) returns (run: seq<Step>)
    requires HasHead(w.h, l) && w.h.lists[l].at.Marking?
    ensures CanRun(w, run) && forall s | s in run :: OnList(s, l)
    ensures Run(w, run) == World(SetList(w.h, l, w.h.lists[l].(at := Marking([]))), MarkAll(w.objs, w.h.lists[l].at.todo), w.log)
    decreases w.h.lists[l].at.todo
  {
    if w.h.lists[l].at.todo == [] {
      run := [];
      assert w.h.lists[l := w.h.lists[l]] == w.h.lists;
    } else {
      run := OneMark(w, l);
      var v := Run(w, run);
      var rest := MarksAreRun(v, l);
      RunConcat(w, run, rest);
      run := run + rest;
      assert v.h.lists[l := v.h.lists[l].(at := Marking([]))] == w.h.lists[l := w.h.lists[l].(at := Marking([]))];
    }
  }

  /** From the accepted answer on: all marks, then the head leaves the list. */
  lemma MarkedIsRun(v: World, l: nat) returns (run: seq<Step>)
    requires HasHead(v.h, l) && v.h.lists[l].at.Marking?
    ensures CanRun(v, run) && forall s | s in run :: OnList(s, l)
    ensures Run(v, run) == DoFinishSend(World(SetList(v.h, l, v.h.lists[l].(at := Marking([]))),
                                              MarkAll(v.objs, v.h.lists[l].at.todo), v.log), l)
  {
    var marks := MarksAreRun(v, l);
    RunOne(Run(v, marks), FinishSend(l));
    RunConcat(v, marks, [FinishSend(l)]);
    run := marks + [FinishSend(l)];
  }

  // --- one event leaves the list ----------------------------------------------------------------

  /** What draining a list leaves alone: what the backend has, and what is known. */
  ghost predicate Kept(w: World, v: World) {
    && v.log.highest == w.log.highest && v.log.delivered == w.log.delivered
    && v.objs.known == w.objs.known
  }

  lemma {:induction false} MarkAllKeepsKnown(o: Objects, marks: seq<(Ref, int)>)
    ensures MarkAll(o, marks).known == o.known
    decreases marks
  {
    if marks != [] {
      var (r, status) := marks[0];
      MarkAllKeepsKnown(if o.Sent(r) < status then o.(sent := o.sent[r := status]) else o, marks[1..]);
    }
  }

  lemma {:induction false} MarkAllReaches(o: Objects, marks: seq<(Ref, int)>, r: Ref)
    ensures MarkAll(o, marks).Sent(r) == Top(marks, r, o.Sent(r))
    decreases marks
  {
    if marks != [] {
      var (q, status) := marks[0];
      MarkAllReaches(if o.Sent(q) < status then o.(sent := o.sent[q := status]) else o, marks[1..], r);
    }
  }

  /** The head was submitted: the backend calls it invalid. */
  lemma Refused(w: World, l: nat) returns (run: seq<Step>)
    requires Safe(w) && l < |w.h.lists| && w.h.lists[l].events != [] && w.h.lists[l].at.Sending?
    ensures CanRun(w, run) && Run(w, run).h == Settle(DropHead(w.h, l), l)
    ensures Kept(w, Run(w, run)) && Run(w, run).objs == w.objs
  {
    assert ListAt(w, l);
    var v := Next(w, Answer(l, InvalidParameter));
    assert v.h == DropHead(w.h, l) && v.objs == w.objs && Kept(w, v);
    RunOne(w, Answer(l, InvalidParameter));
    run := [Answer(l, InvalidParameter)];
    if v.h.lists[l].events == [] {
      RunTwo(w, Answer(l, InvalidParameter), Attempt(l, false));
      run := [Answer(l, InvalidParameter)] + [Attempt(l, false)];
    }
  }

  /** The head waits: it is dropped as redundant, or submitted and called invalid. */
  lemma Tried(w: World, l: nat) returns (run: seq<Step>)
    requires Safe(w) && l < |w.h.lists| && w.h.lists[l].at.Idle? && w.h.lists[l].events != []
    ensures CanRun(w, run) && Run(w, run).h == Settle(DropHead(w.h, l), l)
    ensures Kept(w, Run(w, run)) && Run(w, run).objs == w.objs
  {
    assert ListAt(w, l);
    var attempt := Attempt(l, false);
    var v := Next(w, attempt);
    RunOne(w, attempt);
    run := [attempt];
    if Decide(w, l, false).Some? {
      SafeStep(w, attempt);
      var rest := Refused(v, l);
      assert DropHead(v.h, l) == DropHead(w.h, l) by { assert v.h.lists[l := DropHead(v.h, l).lists[l]] == DropHead(w.h, l).lists; }
      RunConcat(w, run, rest);
      run := run + rest;
    }
  }

  /** The head was accepted: its updates are made and it leaves. */
  lemma Finished(w: World, l: nat) returns (run: seq<Step>)
    requires HasHead(w.h, l) && w.h.lists[l].at.Marking?
    ensures CanRun(w, run) && Run(w, run).h == Settle(DropHead(w.h, l), l) && Kept(w, Run(w, run))
  {
    run := MarkedIsRun(w, l);
    var h := SetList(w.h, l, w.h.lists[l].(at := Marking([])));
    assert DropHead(h, l) == DropHead(w.h, l) by { assert DropHead(h, l).lists == DropHead(w.h, l).lists; }
    MarkAllKeepsKnown(w.objs, w.h.lists[l].at.todo);
  }

  lemma Written(w: World, l: nat) returns (run: seq<Step>)
    requires HasHead(w.h, l) && w.h.lists[l].at.Writing?
    ensures CanRun(w, run) && Run(w, run).h == Settle(DropHead(w.h, l), l) && Kept(w, Run(w, run))
  {
    var v := Next(w, MarkWrite(l));
    var rest := Finished(v, l);
    assert DropHead(v.h, l) == DropHead(w.h, l) by { assert DropHead(v.h, l).lists == DropHead(w.h, l).lists; }
    RunCons(w, MarkWrite(l), rest);
    run := [MarkWrite(l)] + rest;
  }

  /** Wherever the head is, it can leave the list; with no update owed, the objects stay as they are. */
  lemma DropOne(w: World, l: nat) returns (run: seq<Step>)
    requires Safe(w) && l < |w.h.lists| && w.h.lists[l].events != []
    ensures CanRun(w, run) && Run(w, run).h == Settle(DropHead(w.h, l), l) && Kept(w, Run(w, run))
    ensures Pending(w.h.lists[l]) == [] && !w.h.lists[l].at.Marking? ==> Run(w, run).objs == w.objs
  {
    assert ListAt(w, l);
    match w.h.lists[l].at
    case Idle => run := Tried(w, l);
    case Sending(_) => run := Refused(w, l);
    case Marking(_) => run := Finished(w, l);
    case Writing(_, _) => run := Written(w, l);
  }

  // --- the list is emptied ------------------------------------------------------------------------

  lemma {:induction false} SafeForever(w: World, run: seq<Step>)
    requires Safe(w) && CanRun(w, run)
    ensures Safe(Run(w, run))
    decreases run
  {
    if run != [] {
      SafeStep(w, run[0]);
      SafeForever(Next(w, run[0]), run[1..]);
    }
  }

  /** List l is empty and at rest; if it was live, its submitter is now about to delete the map entry. */
  function Emptied(h: Handler, l: nat): Handler
    requires l < |h.lists|
  {
    var x := h.lists[l];
    if !x.sending then h
    else h.(lists := h.lists[l := EventList(x.arn, [], false, Idle)],
            submitters := h.submitters - multiset{l}, removers := h.removers + multiset{x.arn})
  }

  lemma EmptiedTwice(h: Handler, l: nat)
    requires l < |h.lists| && h.lists[l].sending && |h.lists[l].events| > 1
    ensures Emptied(Settle(DropHead(h, l), l), l) == Emptied(h, l)
  {
    assert Emptied(DropHead(h, l), l).lists == Emptied(h, l).lists;
  }

  /** A list can always be emptied without telling the backend anything new. */
  lemma {:induction false} DrainAll(w: World, l: nat) returns (run: seq<Step>)
    requires Safe(w) && l < |w.h.lists|
    ensures CanRun(w, run) && Run(w, run).h == Emptied(w.h, l) && Kept(w, Run(w, run))
    ensures w.h.lists[l].at.Idle? ==> Run(w, run).objs == w.objs
    decreases |w.h.lists[l].events|
  {
    assert ListAt(w, l);
    var x := w.h.lists[l];
    if !x.sending {
      run := [];
    } else if x.events == [] {
      RunOne(w, Attempt(l, false));
      run := [Attempt(l, false)];
    } else {
      run := DropOne(w, l);
      var v := Run(w, run);
      SafeForever(w, run);
      if |x.events| > 1 {
        var rest := DrainAll(v, l);
        EmptiedTwice(w.h, l);
        RunConcat(w, run, rest);
        run := run + rest;
      } else {
        assert v.h.lists == Emptied(w.h, l).lists;
      }
    }
  }
}
