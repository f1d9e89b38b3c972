/**
 Goroutines that wait in the sequential wait group. A waiter looks at the counts under one lock and
 goes to sleep under another, and a broadcast takes neither, so a wake-up can fall in between.
 */
module StopWaiters {
  import opened WaitGroup

  /** Checking: about to look. Parking: it must wait and is about to sleep. */
  datatype At = Checking | Parking | Parked | Over

  /** `missed`: a broadcast came between the waiter's last look and its sleep. */
  datatype Waiter = Waiter(sequence: int, at: At, missed: bool)

  datatype Group = Group(counts: map<int, int>, waiters: map<nat, Waiter>)

  datatype Step =
    | Begin(waiter: nat, sequence: int)
    | AddStop(sequence: int, delta: int)
    | DoneStop(sequence: int)
    | Check(waiter: nat)
    | Park(waiter: nat)

  /** No stop with this or a lower number is open. */
  predicate Clear(counts: map<int, int>, sequence: int) { forall s | s in counts :: s > sequence }

  predicate Enabled(g: Group, step: Step) {
    match step
    case Begin(t, _) => t !in g.waiters
    case AddStop(_, _) => true
    case DoneStop(_) => true
    // From its look to its sleep a waiter holds the lock of the condition variable.
    case Check(t) => t in g.waiters && g.waiters[t].at.Checking? && forall u | u in g.waiters :: !g.waiters[u].at.Parking?
    case Park(t) => t in g.waiters && g.waiters[t].at.Parking?
  }

  function Woken(w: Waiter): Waiter {
    match w.at
    case Parked => w.(at := Checking)
    case Parking => w.(missed := true)
    case _ => w
  }

  function Broadcast(waiters: map<nat, Waiter>): map<nat, Waiter> { map t | t in waiters :: Woken(waiters[t]) }

  function Next(g: Group, step: Step): Group
    requires Enabled(g, step)
  {
    match step
    case Begin(t, sequence) => g.(waiters := g.waiters[t := Waiter(sequence, Checking, false)])
    case AddStop(s, delta) =>
      var counts := AddTo(g.counts, s, delta);
      Group(counts, if s !in counts then Broadcast(g.waiters) else g.waiters)
    case DoneStop(s) =>
      var counts := DoneAt(g.counts, s);
      Group(counts, if s in g.counts && s !in counts then Broadcast(g.waiters) else g.waiters)
    case Check(t) =>
      var w := g.waiters[t];
      g.(waiters := g.waiters[t := w.(at := if Clear(g.counts, w.sequence) then Over else Parking, missed := false)])
    case Park(t) => g.(waiters := g.waiters[t := g.waiters[t].(at := Parked)])
  }

  predicate CanRun(g: Group, steps: seq<Step>)
    decreases steps
  {
    steps == [] || (Enabled(g, steps[0]) && CanRun(Next(g, steps[0]), steps[1..]))
  }

  function Run(g: Group, steps: seq<Step>): Group
    requires CanRun(g, steps)
    decreases steps
  {
    if steps == [] then g else Run(Next(g, steps[0]), steps[1..])
  }

  /** The waiter sleeps, or is about to, although its wait is over. */
  predicate Stranded(g: Group, t: nat) {
    t in g.waiters && (g.waiters[t].at.Parked? || g.waiters[t].at.Parking?) && Clear(g.counts, g.waiters[t].sequence)
  }

  ghost predicate Positive(counts: map<int, int>) { forall s | s in counts :: counts[s] > 0 }

  ghost predicate Inv(g: Group) {
    Positive(g.counts) && forall t | Stranded(g, t) :: g.waiters[t].missed
  }

  lemma InvStep(g: Group, step: Step)
    requires Inv(g) && Enabled(g, step)
    ensures Inv(Next(g, step))
  {
    var h := Next(g, step);
    forall t | Stranded(h, t) ensures h.waiters[t].missed {
      match step
      case AddStop(s, delta) => Closed(g, h, s, t);
      case DoneStop(s) => Closed(g, h, s, t);
      case Begin(_, _) => assert Stranded(g, t);
      case Check(u) => assert t == u || Stranded(g, t);
      case Park(_) => assert Stranded(g, t);
    }
  }

  /** Counts changed for one number: if that closed it, everybody was told. */
  lemma Closed(g: Group, h: Group, s: int, t: nat)
    requires Inv(g) && Stranded(h, t)
    requires forall q | q != s :: q in g.counts <==> q in h.counts
    requires h.waiters == Broadcast(g.waiters) || (h.waiters == g.waiters && (s in g.counts ==> s in h.counts))
    ensures h.waiters[t].missed
  {
  }

  lemma {:induction false} InvForever(g: Group, steps: seq<Step>)
    requires Inv(g) && CanRun(g, steps)
    ensures Inv(Run(g, steps))
    decreases steps
  {
    if steps != [] {
      InvStep(g, steps[0]);
      InvForever(Next(g, steps[0]), steps[1..]);
    }
  }

  /**
   In every run of adds, dones and waits, a waiter that sleeps although no stop with its number or a
   lower one is open has missed a broadcast between its last look and its sleep.
   */
  lemma SleepsOnlyIfMissed(steps: seq<Step>, t: nat)
    requires CanRun(Group(map[], map[]), steps) && Stranded(Run(Group(map[], map[]), steps), t)
    ensures Run(Group(map[], map[]), steps).waiters[t].missed
  {
    InvForever(Group(map[], map[]), steps);
  }

  // --- what a waiter does -------------------------------------------------------------------------

  /** A wait ends only by a look that finds no stop with its number or a lower one open. */
  lemma EndsOnlyByClearLook(g: Group, step: Step, t: nat)
    requires Enabled(g, step) && t in g.waiters && !g.waiters[t].at.Over?
    requires t in Next(g, step).waiters && Next(g, step).waiters[t].at.Over?
    ensures step == Check(t) && forall s | s in g.counts :: s > g.waiters[t].sequence
  {
  }

  /** A waiter with nothing to wait for that missed nothing is about to look, and its look ends the wait. */
  lemma UnmissedEnds(g: Group, t: nat)
    requires Inv(g) && t in g.waiters && !g.waiters[t].at.Over? && !g.waiters[t].missed
    requires forall s | s in g.counts :: s > g.waiters[t].sequence
    requires forall u | u in g.waiters :: !g.waiters[u].at.Parking?
    ensures Enabled(g, Check(t)) && Next(g, Check(t)) == g.(waiters := g.waiters[t := g.waiters[t].(at := Over)])
  {
    assert !Stranded(g, t);
  }

  /** The step closes the stop it names, or is an Add that leaves it closed. */
  predicate Closes(g: Group, step: Step) {
    match step
    case DoneStop(s) => s in g.counts && g.counts[s] <= 1
    case AddStop(s, delta) => (if s in g.counts then g.counts[s] else 0) + delta <= 0
    case _ => false
  }

  lemma MissedStep(g: Group, step: Step, t: nat)
    requires Enabled(g, step) && t in Next(g, step).waiters && Next(g, step).waiters[t].missed
    ensures t in g.waiters && step != Check(t) && (g.waiters[t].missed || (g.waiters[t].at.Parking? && Closes(g, step)))
  {
  }

  lemma {:induction false} RunSnoc(g: Group, steps: seq<Step>)
    requires steps != [] && CanRun(g, steps)
    ensures var n := |steps| - 1;
      CanRun(g, steps[..n]) && Enabled(Run(g, steps[..n]), steps[n]) && Run(g, steps) == Next(Run(g, steps[..n]), steps[n])
    decreases steps
  {
    if |steps| > 1 {
      RunSnoc(Next(g, steps[0]), steps[1..]);
      assert steps[1..][..|steps| - 2] == steps[..|steps| - 1][1..];
    }
  }

  /** A missed broadcast has happened: a stop was closed while the waiter stood between its last look and its sleep. */
  lemma {:induction false} MissedHappened(steps: seq<Step>, t: nat) returns (k: nat)
    requires CanRun(Group(map[], map[]), steps)
    requires t in Run(Group(map[], map[]), steps).waiters && Run(Group(map[], map[]), steps).waiters[t].missed
    ensures k < |steps| && CanRun(Group(map[], map[]), steps[..k])
    ensures var g := Run(Group(map[], map[]), steps[..k]);
      Closes(g, steps[k]) && t in g.waiters && g.waiters[t].at.Parking? && Check(t) !in steps[k..]
    decreases steps
  {
    var n := |steps| - 1;
    RunSnoc(Group(map[], map[]), steps);
    var g := Run(Group(map[], map[]), steps[..n]);
    MissedStep(g, steps[n], t);
    if g.waiters[t].missed {
      k := MissedHappened(steps[..n], t);
      assert steps[..n][..k] == steps[..k] && steps[k..] == steps[..n][k..] + [steps[n]];
    } else {
      k := n;
      assert steps[n..] == [steps[n]];
    }
  }

  /** A new waiter has its number and is about to look; the others are as they were. */
  lemma BeginsByLooking(g: Group, t: nat, sequence: int)
    requires Enabled(g, Begin(t, sequence))
    ensures var h := Next(g, Begin(t, sequence));
      && t !in g.waiters && h.waiters.Keys == g.waiters.Keys + {t} && (forall u | u in g.waiters :: h.waiters[u] == g.waiters[u])
      && h.waiters[t].sequence == sequence && h.waiters[t].at.Checking? && h.counts == g.counts
  {
  }

  // --- it does happen -------------------------------------------------------------------------------

  lemma RunCons(g: Group, step: Step, rest: seq<Step>)
    requires Enabled(g, step) && CanRun(Next(g, step), rest)
    ensures CanRun(g, [step] + rest) && Run(g, [step] + rest) == Run(Next(g, step), rest)
  {
    assert ([step] + rest)[1..] == rest;
  }

  lemma {:induction false} RunConcat(g: Group, steps: seq<Step>, more: seq<Step>)
    requires CanRun(g, steps) && CanRun(Run(g, steps), more)
    ensures CanRun(g, steps + more) && Run(g, steps + more) == Run(Run(g, steps), more)
    decreases steps
  {
    if steps == [] {
      assert steps + more == more;
    } else {
      RunConcat(Next(g, steps[0]), steps[1..], more);
      assert (steps + more)[0] == steps[0] && (steps + more)[1..] == steps[1..] + more;
    }
  }

  /** The waiter is about to sleep, and stays so whatever is broadcast. */
  ghost predicate Parks(g: Group, t: nat, sequence: int) {
    t in g.waiters && g.waiters[t].at.Parking? && g.waiters[t].sequence == sequence
  }

  /** All stops with number s end. */
  lemma {:induction false} CloseOne(g: Group, s: int, t: nat, sequence: int) returns (steps: seq<Step>)
    requires Positive(g.counts) && s in g.counts && Parks(g, t, sequence)
    ensures CanRun(g, steps) && Run(g, steps).counts == g.counts - {s} && Parks(Run(g, steps), t, sequence)
    ensures forall step | step in steps :: step.DoneStop?
    decreases g.counts[s]
  {
    var h := Next(g, DoneStop(s));
    steps := [];
    if s in h.counts {
      steps := CloseOne(h, s, t, sequence);
      assert h.counts - {s} == g.counts - {s};
    }
    RunCons(g, DoneStop(s), steps);
    steps := [DoneStop(s)] + steps;
  }

  function Below(counts: map<int, int>, sequence: int): set<int> { set s | s in counts && s <= sequence }

  /** All stops up to a number end. */
  lemma {:induction false} CloseAll(g: Group, t: nat, sequence: int) returns (steps: seq<Step>)
    requires Positive(g.counts) && Parks(g, t, sequence)
    ensures CanRun(g, steps) && Clear(Run(g, steps).counts, sequence) && Parks(Run(g, steps), t, sequence)
    ensures forall step | step in steps :: step.DoneStop?
    decreases |Below(g.counts, sequence)|
  {
    steps := [];
    if !Clear(g.counts, sequence) {
      var s :| s in g.counts && s <= sequence;
      steps := CloseOne(g, s, t, sequence);
      var h := Run(g, steps);
      assert Below(h.counts, sequence) == Below(g.counts, sequence) - {s};
      var rest := CloseAll(h, t, sequence);
      RunConcat(g, steps, rest);
      steps := steps + rest;
    }
  }

  /**
   Whenever a waiter looks while it has to wait, the ends of the open stops can all come before its
   sleep: it then sleeps with nothing left to wait for, and neither of its own steps is enabled.
   */
  lemma WakeUpCanBeMissed(g: Group, t: nat) returns (ends: seq<Step>)
    requires Inv(g) && Enabled(g, Check(t)) && !Clear(g.counts, g.waiters[t].sequence)
    ensures forall step | step in ends :: step.DoneStop?
    ensures var steps := [Check(t)] + (ends + [Park(t)]);
      && CanRun(g, steps)
      && var h := Run(g, steps);
      Stranded(h, t) && h.waiters[t].at.Parked? && !Enabled(h, Check(t)) && !Enabled(h, Park(t))
  {
    var a := Next(g, Check(t));
    ends := CloseAll(a, t, g.waiters[t].sequence);
    var b := Run(a, ends);
    RunCons(b, Park(t), []);
    assert [Park(t)] + [] == [Park(t)];
    RunConcat(a, ends, [Park(t)]);
    RunCons(g, Check(t), ends + [Park(t)]);
  }
}
