/**
 The rate-limited state saver. Times are nanoseconds; `version` counts the changes of the saved
 objects, so a write covers every change up to the version it marshals.
 */
module StateSaver {
  import opened Basics

  const MIN_SAVE_INTERVAL := 10_000_000_000

  /** A goroutine in Save: a client that wants its change saved, or the goroutine of a planned save. */
  datatype Caller = Client(wants: nat) | Sleeper {
    function Wants(): nat { if Client? then wants else 0 }
  }

  /** The holder of the save-times lock while it saves. */
  datatype Saving = Saving(caller: Caller, began: int, data: Option<nat>)

  datatype Write = Write(began: int, ended: int)

  datatype Saver = Saver(
    now: int,
    version: nat,
    lastSave: Option<int>,        // None is the zero time
    planned: Option<int>,
    sleepers: multiset<int>,      // goroutines asleep, by due time
    waiting: multiset<Caller>,    // goroutines waiting for the save-times lock
    busy: Option<Saving>,
    returned: nat,                // newest version a returned client wanted saved
    attempted: nat,               // newest version handed to a write
    durable: nat,                 // newest version written without error
    writes: seq<Write>)           // what Save wrote; direct forced saves are not rate limited

  datatype Step =
    | Tick(d: nat)
    | Change
    | Call
    | Wake(due: int)
    | Enter(caller: Caller)
    | Marshal
    | Finish(ok: bool)
    | Force(ok: bool)

  function Max(a: nat, b: nat): nat { if a < b then b else a }

  predicate Enabled(s: Saver, step: Step) {
    match step
    case Tick(_) => true
    case Change => true
    case Call => true
    case Wake(due) => due in s.sleepers && due <= s.now
    case Enter(c) => s.busy.None? && c in s.waiting
    case Marshal => s.busy.Some? && s.busy.value.data.None?
    case Finish(_) => s.busy.Some? && s.busy.value.data.Some?
    case Force(_) => s.busy.None? || s.busy.value.data.None?   // the saving lock is free
  }

  /** The zero time is longer ago than any interval. */
  predicate Due(lastSave: Option<int>, now: int) {
    lastSave.None? || now - lastSave.value >= MIN_SAVE_INTERVAL
  }

  function DoEnter(s: Saver, c: Caller): Saver {
    var t := s.(waiting := s.waiting - multiset{c});
    if Due(s.lastSave, s.now) then t.(busy := Some(Saving(c, s.now, None)))
    else if s.planned.None? then
      var next := s.lastSave.value + MIN_SAVE_INTERVAL;
      t.(planned := Some(next), sleepers := s.sleepers + multiset{next}, returned := Max(s.returned, c.Wants()))
    else t.(returned := Max(s.returned, c.Wants()))
  }

  function DoFinish(s: Saver, ok: bool): Saver
    requires Enabled(s, Finish(ok))
  {
    var saving := s.busy.value;
    s.(busy := None,
       lastSave := Some(s.now),
       planned := None,
       returned := Max(s.returned, saving.caller.Wants()),
       attempted := saving.data.value,
       durable := if ok then saving.data.value else s.durable,
       writes := s.writes + [Write(saving.began, s.now)])
  }

  function Next(s: Saver, step: Step): Saver
    requires Enabled(s, step)
  {
    match step
    case Tick(d) => s.(now := s.now + d)
    case Change => s.(version := s.version + 1)
    case Call => s.(waiting := s.waiting + multiset{Client(s.version)})
    case Wake(due) => s.(sleepers := s.sleepers - multiset{due}, waiting := s.waiting + multiset{Sleeper})
    case Enter(c) => DoEnter(s, c)
    case Marshal => s.(busy := Some(s.busy.value.(data := Some(s.version))))
    case Finish(ok) => DoFinish(s, ok)
    case Force(ok) => s.(attempted := s.version, durable := if ok then s.version else s.durable)
  }

  function Start(now: int): Saver {
    Saver(now, 0, None, None, multiset{}, multiset{}, None, 0, 0, 0, [])
  }

  predicate CanRun(s: Saver, steps: seq<Step>)
    decreases steps
  {
    steps == [] || (Enabled(s, steps[0]) && CanRun(Next(s, steps[0]), steps[1..]))
  }

  function Run(s: Saver, steps: seq<Step>): Saver
    requires CanRun(s, steps)
    decreases steps
  {
    if steps == [] then s else Run(Next(s, steps[0]), steps[1..])
  }

  lemma RunCons(s: Saver, step: Step, rest: seq<Step>)
    requires Enabled(s, step) && CanRun(Next(s, step), rest)
    ensures CanRun(s, [step] + rest) && Run(s, [step] + rest) == Run(Next(s, step), rest)
  {
  }

  // --- what every run keeps ---------------------------------------------------------------------

  /** A planned save has a goroutine that will make it: asleep until it is due, or already up. */
  predicate PlanHasSaver(s: Saver) {
    s.planned.Some? ==>
      && s.lastSave.Some?
      && s.planned.value == s.lastSave.value + MIN_SAVE_INTERVAL
      && (s.planned.value in s.sleepers || (s.planned.value <= s.now && (Sleeper in s.waiting || s.busy.Some?)))
  }

  /** Whatever a returned client wanted has been handed to a write, or a save is planned. */
  predicate Covered(s: Saver) {
    s.returned <= s.attempted || s.planned.Some?
  }

  predicate Versions(s: Saver) {
    && s.durable <= s.attempted <= s.version
    && s.returned <= s.version
    && (forall c | c in s.waiting :: c.Wants() <= s.version)
    && (s.busy.Some? ==> s.busy.value.caller.Wants() <= s.version)
    && (s.busy.Some? && s.busy.value.data.Some? ==>
          && s.attempted <= s.busy.value.data.value <= s.version
          && Max(s.returned, s.busy.value.caller.Wants()) <= s.busy.value.data.value)
  }

  predicate Spaced(writes: seq<Write>) {
    && (forall i | 0 <= i < |writes| :: writes[i].began <= writes[i].ended)
    && (forall i, j | 0 <= i < j < |writes| :: writes[i].ended + MIN_SAVE_INTERVAL <= writes[j].began)
  }

  predicate Times(s: Saver) {
    && Spaced(s.writes)
    && (s.lastSave.None? <==> s.writes == [])
    && (s.lastSave.Some? ==> s.writes[|s.writes| - 1].ended == s.lastSave.value <= s.now)
    && (s.busy.Some? ==> s.busy.value.began <= s.now && Due(s.lastSave, s.busy.value.began))
  }

  predicate Inv(s: Saver) {
    PlanHasSaver(s) && Covered(s) && Versions(s) && Times(s)
  }

  lemma TimesStep(s: Saver, step: Step)
    requires Times(s) && Enabled(s, step)
    ensures Times(Next(s, step))
  {
  }

  lemma VersionsStep(s: Saver, step: Step)
    requires Versions(s) && Enabled(s, step)
    ensures Versions(Next(s, step))
  {
  }

  lemma InvStep(s: Saver, step: Step)
    requires Inv(s) && Enabled(s, step)
    ensures Inv(Next(s, step))
  {
    TimesStep(s, step);
    VersionsStep(s, step);
  }

  lemma {:induction false} InvForever(s: Saver, steps: seq<Step>)
    requires Inv(s) && CanRun(s, steps)
    ensures Inv(Run(s, steps))
    decreases steps
  {
    if steps != [] {
      InvStep(s, steps[0]);
      InvForever(Next(s, steps[0]), steps[1..]);
    }
  }

  /** However Saves and wake-ups interleave, no returned request is left without a write or a plan. */
  lemma NoRequestDropped(now: int, steps: seq<Step>)
    requires CanRun(Start(now), steps)
    ensures var s := Run(Start(now), steps);
      s.returned <= s.attempted ||
      (s.lastSave.Some? && s.planned == Some(s.lastSave.value + MIN_SAVE_INTERVAL) &&
       (s.planned.value in s.sleepers || (s.planned.value <= s.now && (Sleeper in s.waiting || s.busy.Some?))))
  {
    InvForever(Start(now), steps);
  }

  /** The writes of Save start at least an interval after the end of every earlier one. */
  lemma WritesAreSpaced(now: int, steps: seq<Step>, i: nat, j: nat)
    requires CanRun(Start(now), steps) && i < j < |Run(Start(now), steps).writes|
    ensures var w := Run(Start(now), steps).writes; w[j].began >= w[i].ended + MIN_SAVE_INTERVAL >= w[i].began + MIN_SAVE_INTERVAL
  {
    InvForever(Start(now), steps);
  }

  predicate Good(step: Step) { (step.Finish? || step.Force?) ==> step.ok }

  lemma {:induction false} GoodWritesKeepUp(s: Saver, steps: seq<Step>)
    requires s.durable == s.attempted && CanRun(s, steps) && forall i | 0 <= i < |steps| :: Good(steps[i])
    ensures Run(s, steps).durable == Run(s, steps).attempted
    decreases steps
  {
    if steps != [] {
      assert Good(steps[0]);
      GoodWritesKeepUp(Next(s, steps[0]), steps[1..]);
    }
  }

  /** When every write succeeds, whatever a returned client wanted is on disk or planned. */
  lemma GoodWritesLoseNothing(now: int, steps: seq<Step>)
    requires CanRun(Start(now), steps) && forall i | 0 <= i < |steps| :: Good(steps[i])
    ensures var s := Run(Start(now), steps); s.returned <= s.durable || s.planned.Some?
  {
    InvForever(Start(now), steps);
    GoodWritesKeepUp(Start(now), steps);
  }

  /** A plan is dropped only by the end of a write that covers everything returned so far. */
  lemma PlanEndsInWrite(s: Saver, step: Step)
    requires Inv(s) && Enabled(s, step) && s.planned.Some?
    ensures var t := Next(s, step);
      t.planned == s.planned || (step.Finish? && t.returned <= t.attempted && |t.writes| == |s.writes| + 1)
  {
  }

  /** Once a planned save is due, the first goroutine to get the lock writes, and fulfils the plan. */
  lemma DuePlanWrites(s: Saver, c: Caller)
    requires Inv(s) && s.busy.None? && s.planned.Some? && s.planned.value <= s.now && c in s.waiting
    ensures var steps := [Enter(c), Marshal, Finish(true)];
      CanRun(s, steps) && Run(s, steps).returned <= Run(s, steps).durable && Run(s, steps).planned.None?
  {
    var a := Next(s, Enter(c));
    var b := Next(a, Marshal);
    VersionsStep(s, Enter(c));
    VersionsStep(a, Marshal);
    RunCons(b, Finish(true), []);
    RunCons(a, Marshal, [Finish(true)]);
    RunCons(s, Enter(c), [Marshal, Finish(true)]);
    assert [Enter(c)] + [Marshal, Finish(true)] == [Enter(c), Marshal, Finish(true)];
    assert [Marshal] + [Finish(true)] == [Marshal, Finish(true)] && [Finish(true)] + [] == [Finish(true)];
  }

  /** The client that wanted this version is waiting, or saving, or has returned. */
  predicate Accounted(s: Saver, version: nat) {
    || version <= s.returned
    || Client(version) in s.waiting
    || (s.busy.Some? && s.busy.value.caller == Client(version))
  }

  lemma {:induction false} AccountedForever(s: Saver, steps: seq<Step>, version: nat)
    requires Accounted(s, version) && CanRun(s, steps)
    ensures Accounted(Run(s, steps), version)
    decreases steps
  {
    if steps != [] { AccountedForever(Next(s, steps[0]), steps[1..], version); }
  }

  /** No call gets lost: from then on its client is waiting for the lock, saving, or counted among the returned. */
  lemma CallsAreAccounted(s: Saver, steps: seq<Step>)
    requires Enabled(s, Call) && CanRun(Next(s, Call), steps)
    ensures Accounted(Run(Next(s, Call), steps), s.version)
  {
    AccountedForever(Next(s, Call), steps, s.version);
  }

  /** The holder of the lock writes what there is. */
  lemma HolderFinishes(s: Saver) returns (steps: seq<Step>)
    requires Versions(s) && s.busy.Some?
    ensures CanRun(s, steps)
    ensures var t := Run(s, steps); t.returned <= t.durable && t.planned.None? && t.sleepers == s.sleepers && t.busy.None?
  {
    if s.busy.value.data.None? {
      var a := Next(s, Marshal);
      VersionsStep(s, Marshal);
      RunCons(a, Finish(true), []);
      RunCons(s, Marshal, [Finish(true)] + []);
      steps := [Marshal] + ([Finish(true)] + []);
    } else {
      RunCons(s, Finish(true), []);
      steps := [Finish(true)] + [];
    }
  }

  /** A goroutine that enters when a save is due writes. */
  lemma EnteredFinishes(s: Saver, c: Caller) returns (steps: seq<Step>)
    requires Versions(s) && s.busy.None? && c in s.waiting && Due(s.lastSave, s.now)
    ensures CanRun(s, steps)
    ensures var t := Run(s, steps); t.returned <= t.durable && t.planned.None? && t.sleepers == s.sleepers && t.busy.None?
  {
    var a := Next(s, Enter(c));
    VersionsStep(s, Enter(c));
    var rest := HolderFinishes(a);
    RunCons(s, Enter(c), rest);
    steps := [Enter(c)] + rest;
  }

  /**
   A plan can be fulfilled from every state of every run: the holder of the lock finishes, or time passes
   until the plan is due and not longer, and the goroutine of the plan wakes up, enters and writes.
   */
  lemma PlanIsFulfilled(s: Saver) returns (steps: seq<Step>)
    requires Inv(s) && s.planned.Some?
    ensures CanRun(s, steps)
    ensures var t := Run(s, steps); t.returned <= t.durable && t.planned.None? && t.busy.None?
    ensures s.busy.None? ==> var t := Run(s, steps);
      t.sleepers == if Sleeper in s.waiting && s.planned.value <= s.now then s.sleepers else s.sleepers - multiset{s.planned.value}
  {
    if s.busy.Some? {
      steps := HolderFinishes(s);
    } else if Sleeper in s.waiting && s.planned.value <= s.now {
      steps := EnteredFinishes(s, Sleeper);
    } else {
      var d: nat := if s.now < s.planned.value then s.planned.value - s.now else 0;
      var a := Next(s, Tick(d));
      var b := Next(a, Wake(s.planned.value));
      var rest := EnteredFinishes(b, Sleeper);
      RunCons(a, Wake(s.planned.value), rest);
      RunCons(s, Tick(d), [Wake(s.planned.value)] + rest);
      steps := [Tick(d)] + ([Wake(s.planned.value)] + rest);
    }
  }

  // --- failed writes --------------------------------------------------------------------------------

  /** Some goroutine will still enter Save. */
  predicate Alive(s: Saver) { s.sleepers != multiset{} || s.waiting != multiset{} || s.busy.Some? }

  /** A wanted change is neither on disk nor going to be written. */
  predicate Lost(s: Saver) { s.returned > s.durable && !Alive(s) }

  /** The write under way, or a returned client, wants something new, and no other goroutine is on its way. */
  predicate AtStake(s: Saver) {
    && s.busy.Some? && (s.returned > s.durable || s.busy.value.caller.Wants() > s.durable)
    && s.sleepers == multiset{} && s.waiting == multiset{}
  }

  /**
   Save forgets its plan even when the write failed. Exactly when the write fails, something newer
   than the last good write was wanted, and no other goroutine is on its way, a wanted change is lost.
   */
  lemma FailedWriteLosesIff(s: Saver, ok: bool)
    requires Inv(s) && Enabled(s, Finish(ok))
    ensures Lost(Next(s, Finish(ok))) <==> !ok && AtStake(s)
  {
  }

  /** No other step loses anything. */
  lemma OnlyFinishLoses(s: Saver, step: Step)
    requires Inv(s) && Enabled(s, step) && !Lost(s) && Lost(Next(s, step))
    ensures step == Finish(false) && AtStake(s)
  {
    if step.Finish? { FailedWriteLosesIff(s, step.ok); }
  }

  lemma {:induction false} RunSnoc(s: Saver, steps: seq<Step>)
    requires steps != [] && CanRun(s, steps)
    ensures var n := |steps| - 1;
      CanRun(s, steps[..n]) && Enabled(Run(s, steps[..n]), steps[n]) && Run(s, steps) == Next(Run(s, steps[..n]), steps[n])
    decreases steps
  {
    if |steps| > 1 {
      RunSnoc(Next(s, steps[0]), steps[1..]);
      assert steps[1..][..|steps| - 2] == steps[..|steps| - 1][1..];
    }
  }

  /** Step k is a failed write with something at stake, and nothing was lost before it. */
  ghost predicate LosesAt(s: Saver, steps: seq<Step>, k: nat)
    requires k < |steps|
  {
    CanRun(s, steps[..k]) && steps[k] == Finish(false) && !Lost(Run(s, steps[..k])) && AtStake(Run(s, steps[..k]))
  }

  /**
   In every run a request is lost only at a failed write that nobody follows: if a run ends with a
   request lost, then such a write is in it, and the request is lost in every state since.
   */
  lemma {:induction false} LostOnlyByFailedWrite(now: int, steps: seq<Step>) returns (k: nat)
    requires CanRun(Start(now), steps) && Lost(Run(Start(now), steps))
    ensures k < |steps| && LosesAt(Start(now), steps, k)
    ensures forall j | k < j <= |steps| :: CanRun(Start(now), steps[..j]) && Lost(Run(Start(now), steps[..j]))
    decreases steps
  {
    var n := |steps| - 1;
    assert steps[..|steps|] == steps;
    RunSnoc(Start(now), steps);
    var before := Run(Start(now), steps[..n]);
    if Lost(before) {
      k := LostOnlyByFailedWrite(now, steps[..n]);
      assert forall j | 0 <= j <= n :: steps[..n][..j] == steps[..j];
    } else {
      InvForever(Start(now), steps[..n]);
      OnlyFinishLoses(before, steps[n]);
      k := n;
    }
  }

  /** It happens to the very first save: one client asks, the write fails, and the saver is at rest. */
  lemma FirstWriteCanLose(now: int)
    ensures var s := Start(now).(version := 1, waiting := multiset{Client(1)});
      && CanRun(Start(now), [Change, Call]) && Run(Start(now), [Change, Call]) == s
      && CanRun(s, SaveSteps(s, Client(1), 0, false))
      && var t := Run(s, SaveSteps(s, Client(1), 0, false));
      t.returned == 1 && t.durable == 0 && t.planned.None? && !Alive(t)
  {
    var s0 := Start(now);
    var s := s0.(version := 1, waiting := multiset{Client(1)});
    RunCons(Next(s0, Change), Call, []);
    RunCons(s0, Change, [Call]);
    assert [Call] + [] == [Call] && [Change] + [Call] == [Change, Call];
    assert Next(Next(s0, Change), Call) == s;
    SaveIsRun(s, Client(1), 0, false);
    assert s.waiting - multiset{Client(1)} == multiset{};
  }

  // --- the manager ------------------------------------------------------------------------------------

  /** Save as one goroutine sees it, entering at `start` and reading the clock again at `end`. */
  function SaveSteps(s: Saver, c: Caller, d: nat, ok: bool): seq<Step> {
    if Due(s.lastSave, s.now) then [Enter(c), Marshal, Tick(d), Finish(ok)] else [Enter(c)]
  }

  class StateManager {
    var lastSave: Option<int>
    var nextPlannedSave: Option<int>

    constructor ()
      ensures lastSave.None? && nextPlannedSave.None?
    {
      lastSave, nextPlannedSave := None, None;
    }

    /**
     `sleeper` is the due time of the goroutine it starts. The effect is that of its steps on any
     machine state with the same two fields.
     */
    method Save(start: int, d: nat, ok: bool, ghost s: Saver, ghost c: Caller)
      returns (err: bool, sleeper: Option<int>)
      requires s.lastSave == lastSave && s.planned == nextPlannedSave && s.now == start
      requires s.busy.None? && c in s.waiting
      modifies this
      ensures CanRun(s, SaveSteps(s, c, d, ok))
      ensures var t := Run(s, SaveSteps(s, c, d, ok));
        && lastSave == t.lastSave && nextPlannedSave == t.planned
        && t.sleepers == s.sleepers + (if sleeper.Some? then multiset{sleeper.value} else multiset{})
        && (err <==> |t.writes| > |s.writes| && !ok)
    {
      SaveIsRun(s, c, d, ok);
      if lastSave.None? || start - lastSave.value >= MIN_SAVE_INTERVAL {
        var failed := !ok;                     // the outcome of ForceSave
        lastSave := Some(start + d);
        nextPlannedSave := None;
        return failed, None;
      } else if nextPlannedSave.None? {
        var next := lastSave.value + MIN_SAVE_INTERVAL;
        nextPlannedSave := Some(next);
        return false, Some(next);
      }
      return false, None;
    }
  }

  lemma SaveIsRun(s: Saver, c: Caller, d: nat, ok: bool)
    requires s.busy.None? && c in s.waiting
    ensures CanRun(s, SaveSteps(s, c, d, ok))
    ensures Run(s, SaveSteps(s, c, d, ok)) == if Due(s.lastSave, s.now) then Saved(s, c, d, ok) else DoEnter(s, c)
  {
    if Due(s.lastSave, s.now) {
      DueSaveIsRun(s, c, d, ok);
    } else {
      RunCons(s, Enter(c), []);
      assert [Enter(c)] + [] == [Enter(c)];
    }
  }

  lemma DueSaveIsRun(s: Saver, c: Caller, d: nat, ok: bool)
    requires s.busy.None? && c in s.waiting && Due(s.lastSave, s.now)
    ensures var steps := [Enter(c), Marshal, Tick(d), Finish(ok)];
      CanRun(s, steps) && Run(s, steps) == Saved(s, c, d, ok)
  {
    var left := s.waiting - multiset{c};
    var t := s.(waiting := left);
    var rest := [Marshal, Tick(d), Finish(ok)];
    SavingIsRun(t, c, d, ok);
    assert Next(s, Enter(c)) == t.(busy := Some(Saving(c, s.now, None)));
    RunCons(s, Enter(c), rest);
    assert [Enter(c)] + rest == [Enter(c), Marshal, Tick(d), Finish(ok)];
  }

  /** The state after a Save by c that writes for d nanoseconds. */
  function Saved(s: Saver, c: Caller, d: nat, ok: bool): Saver {
    s.(now := s.now + d, waiting := s.waiting - multiset{c}, lastSave := Some(s.now + d), planned := None,
       returned := Max(s.returned, c.Wants()), attempted := s.version,
       durable := if ok then s.version else s.durable, writes := s.writes + [Write(s.now, s.now + d)])
  }

  lemma SavingIsRun(s: Saver, c: Caller, d: nat, ok: bool)
    requires s.busy.None?
    ensures var a := s.(busy := Some(Saving(c, s.now, None)));
      && CanRun(a, [Marshal, Tick(d), Finish(ok)])
      && Run(a, [Marshal, Tick(d), Finish(ok)]) == Saved(s, c, d, ok).(waiting := s.waiting)
  {
    var a := s.(busy := Some(Saving(c, s.now, None)));
    var b := s.(busy := Some(Saving(c, s.now, Some(s.version))));
    var e := b.(now := s.now + d);
    RunCons(e, Finish(ok), []);
    assert [Finish(ok)] + [] == [Finish(ok)];
    RunCons(b, Tick(d), [Finish(ok)]);
    assert [Tick(d)] + [Finish(ok)] == [Tick(d), Finish(ok)];
    RunCons(a, Marshal, [Tick(d), Finish(ok)]);
    assert [Marshal] + [Tick(d), Finish(ok)] == [Marshal, Tick(d), Finish(ok)];
  }
}
