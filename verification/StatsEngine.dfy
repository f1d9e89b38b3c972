/**
 The stats engine's three maps: the containers it collects metrics from, the containers whose health
 it reports, and the task definitions. A stats container is an object of its own, numbered in the
 order of creation; `running` holds the objects whose collector was started and not yet cancelled, by
 the engine or by itself.
 */
module StatsEngine {
  import opened Basics

  type Watched = map<string, map<string, nat>>

  datatype Definition = Definition(family: string, version: string)

  datatype Engine = Engine(
    tracked: Watched,
    health: Watched,
    definitions: map<string, Definition>,
    running: set<nat>,
    made: seq<(string, string)>)      // the stats containers made so far: task and Docker ID

  const EMPTY := Engine(map[], map[], map[], {}, [])

  predicate Watches(m: Watched, arn: string, id: string) { arn in m && id in m[arn] }

  function Put(m: Watched, arn: string, id: string, obj: nat): Watched {
    if Watches(m, arn, id) then m
    else m[arn := (if arn in m then m[arn] else map[])[id := obj]]
  }

  /** Removes containers, and the task with its last one. */
  function Cut(m: Watched, arn: string, ids: set<string>): Watched {
    if arn !in m then m
    else if m[arn] - ids == map[] then m - {arn}
    else m[arn := m[arn] - ids]
  }

  function Add(e: Engine, metrics: bool, arn: string, def: Definition, id: string, reported: bool): Engine {
    var obj := |e.made|;
    Engine(if metrics then Put(e.tracked, arn, id, obj) else e.tracked,
           if reported then Put(e.health, arn, id, obj) else e.health,
           e.definitions[arn := def],
           if metrics && !Watches(e.tracked, arn, id) then e.running + {obj} else e.running,
           e.made + [(arn, id)])
  }

  function Remove(e: Engine, obj: nat, arn: string, id: string): Engine {
    var tracked := Cut(e.tracked, arn, {id});
    Engine(tracked,
           if Watches(e.health, arn, id) then Cut(e.health, arn, {id}) else e.health,
           if arn in tracked then e.definitions else e.definitions - {arn},
           e.running - {obj},
           e.made)
  }

  function ObjectsOf(inner: map<string, nat>, ids: set<string>): set<nat> { set id | id in ids && id in inner :: inner[id] }

  /** Removes several containers of a task at once, given as in `containers`, one of the inner maps. */
  function Reaped(e: Engine, arn: string, containers: map<string, nat>, ids: set<string>): Engine {
    if ids == {} then e
    else
      var tracked := Cut(e.tracked, arn, ids);
      Engine(tracked, Cut(e.health, arn, ids),
             if arn in tracked then e.definitions else e.definitions - {arn},
             e.running - ObjectsOf(containers, ids), e.made)
  }

  /** The health containers of the task that a health report looks at: none without a definition. */
  function Examined(e: Engine, arn: string): map<string, nat> {
    if arn in e.definitions && arn in e.health then e.health[arn] else map[]
  }

  /**
   The engine, and the Docker IDs that the task engine no longer knows or knows to be terminal. They
   stay so.
   */
  datatype World = World(e: Engine, over: set<string>)

  const START := World(EMPTY, {})

  datatype Step =
    | AddContainer(arn: string, def: Definition, id: string, reported: bool)
    | RemoveTracked(arn: string, id: string)   // a stop event, or found to be over while collecting metrics
    | ReportHealth(arn: string)                // removes the examined containers that are over
    | Ends(id: string)
    | StopsItself(obj: nat)                    // a collector lost its stream and finds its container to be over

  predicate Enabled(w: World, step: Step) {
    match step
    case AddContainer(_, _, _, _) => true
    case RemoveTracked(arn, id) => Watches(w.e.tracked, arn, id)
    case ReportHealth(_) => true
    case Ends(_) => true
    case StopsItself(obj) => obj in w.e.running && obj < |w.e.made| && w.e.made[obj].1 in w.over
  }

  function Reported(w: World, arn: string): Engine {
    var examined := Examined(w.e, arn);
    Reaped(w.e, arn, examined, examined.Keys * w.over)
  }

  function Next(w: World, metrics: bool, step: Step): World
    requires Enabled(w, step)
  {
    match step
    case AddContainer(arn, def, id, reported) => w.(e := Add(w.e, metrics, arn, def, id, reported))
    case RemoveTracked(arn, id) => w.(e := Remove(w.e, w.e.tracked[arn][id], arn, id))
    case ReportHealth(arn) => w.(e := Reported(w, arn))
    case Ends(id) => w.(over := w.over + {id})
    case StopsItself(obj) => w.(e := w.e.(running := w.e.running - {obj}))
  }

  predicate CanRun(w: World, metrics: bool, steps: seq<Step>)
    decreases steps
  {
    steps == [] || (Enabled(w, steps[0]) && CanRun(Next(w, metrics, steps[0]), metrics, steps[1..]))
  }

  function Run(w: World, metrics: bool, steps: seq<Step>): World
    requires CanRun(w, metrics, steps)
    decreases steps
  {
    if steps == [] then w else Run(Next(w, metrics, steps[0]), metrics, steps[1..])
  }

  lemma RunCons(w: World, metrics: bool, step: Step, rest: seq<Step>)
    requires Enabled(w, step) && CanRun(Next(w, metrics, step), metrics, rest)
    ensures CanRun(w, metrics, [step] + rest) && Run(w, metrics, [step] + rest) == Run(Next(w, metrics, step), metrics, rest)
  {
  }

  // --- what every run keeps, with metrics enabled -----------------------------------------------------

  predicate NoEmptyTask(m: Watched) { forall arn | arn in m :: m[arn] != map[] }

  ghost predicate Subset(a: Watched, b: Watched) {
    forall arn, id | Watches(a, arn, id) :: Watches(b, arn, id)
  }

  ghost predicate Inv(e: Engine) {
    && NoEmptyTask(e.tracked) && NoEmptyTask(e.health)
    && Subset(e.health, e.tracked)
    && e.definitions.Keys == e.tracked.Keys
  }

  lemma PutWatches(m: Watched, arn: string, id: string, obj: nat)
    ensures forall a, i :: Watches(Put(m, arn, id, obj), a, i) <==> Watches(m, a, i) || (a == arn && i == id)
    ensures NoEmptyTask(m) ==> NoEmptyTask(Put(m, arn, id, obj))
    ensures Put(m, arn, id, obj).Keys == m.Keys + {arn}
  {
  }

  lemma CutWatches(m: Watched, arn: string, ids: set<string>)
    ensures forall a, i :: Watches(Cut(m, arn, ids), a, i) <==> Watches(m, a, i) && !(a == arn && i in ids)
    ensures NoEmptyTask(m) ==> NoEmptyTask(Cut(m, arn, ids))
    ensures Cut(m, arn, ids).Keys == m.Keys || Cut(m, arn, ids).Keys == m.Keys - {arn}
  {
    var t := Cut(m, arn, ids);
    forall a, i ensures Watches(t, a, i) <==> Watches(m, a, i) && !(a == arn && i in ids) {
      if a == arn && a in m && a !in t { assert i !in m[arn] - ids; }
    }
  }

  lemma InvAdd(e: Engine, arn: string, def: Definition, id: string, reported: bool)
    requires Inv(e)
    ensures Inv(Add(e, true, arn, def, id, reported))
  {
    PutWatches(e.tracked, arn, id, |e.made|);
    PutWatches(e.health, arn, id, |e.made|);
  }

  lemma InvRemove(e: Engine, obj: nat, arn: string, id: string)
    requires Inv(e)
    ensures Inv(Remove(e, obj, arn, id))
  {
    CutWatches(e.tracked, arn, {id});
    CutWatches(e.health, arn, {id});
  }

  lemma InvReaped(e: Engine, arn: string, containers: map<string, nat>, ids: set<string>)
    requires Inv(e)
    ensures Inv(Reaped(e, arn, containers, ids))
  {
    CutWatches(e.tracked, arn, ids);
    CutWatches(e.health, arn, ids);
  }

  lemma InvStep(w: World, step: Step)
    requires Inv(w.e) && Enabled(w, step)
    ensures Inv(Next(w, true, step).e)
  {
    match step
    case AddContainer(arn, def, id, reported) => InvAdd(w.e, arn, def, id, reported);
    case RemoveTracked(arn, id) => InvRemove(w.e, w.e.tracked[arn][id], arn, id);
    case ReportHealth(arn) => InvReaped(w.e, arn, Examined(w.e, arn), Examined(w.e, arn).Keys * w.over);
    case Ends(_) =>
    case StopsItself(_) =>
  }

  lemma {:induction false} InvForever(w: World, steps: seq<Step>)
    requires Inv(w.e) && CanRun(w, true, steps)
    ensures Inv(Run(w, true, steps).e)
    decreases steps
  {
    if steps != [] {
      InvStep(w, steps[0]);
      InvForever(Next(w, true, steps[0]), steps[1..]);
    }
  }

  /**
   No empty task is kept, health checks are a part of what is tracked, and so are the definitions
   exactly; so a health report leaves no task out.
   */
  lemma MapsAgree(steps: seq<Step>)
    requires CanRun(START, true, steps)
    ensures var e := Run(START, true, steps).e;
      && NoEmptyTask(e.tracked) && NoEmptyTask(e.health)
      && (forall arn, id | Watches(e.health, arn, id) :: Watches(e.tracked, arn, id))
      && e.definitions.Keys == e.tracked.Keys
      && (forall arn | arn in e.health :: Examined(e, arn) == e.health[arn])
  {
    InvForever(START, steps);
    var e := Run(START, true, steps).e;
    forall arn | arn in e.health ensures Examined(e, arn) == e.health[arn] {
      var id :| id in e.health[arn].Keys;
      assert Watches(e.health, arn, id);
    }
  }

  // --- collectors ---------------------------------------------------------------------------------------

  predicate IsAt(m: Watched, arn: string, id: string, obj: nat) { Watches(m, arn, id) && m[arn][id] == obj }

  /** Every object stands for its own container: those in the maps and those that collect. */
  ghost predicate Named(e: Engine) {
    && (forall o | o in e.running :: o < |e.made|)
    && (forall arn, id, o: nat | IsAt(e.tracked, arn, id, o) :: o < |e.made| && e.made[o] == (arn, id))
    && (forall arn, id, o: nat | IsAt(e.health, arn, id, o) :: o < |e.made| && e.made[o] == (arn, id))
  }

  ghost predicate IsTracked(e: Engine, o: nat)
    requires o < |e.made|
  {
    IsAt(e.tracked, e.made[o].0, e.made[o].1, o)
  }

  /** No collector runs on for an object that the engine no longer tracks. */
  ghost predicate Collects(e: Engine)
    requires Named(e)
  {
    forall o | o in e.running :: IsTracked(e, o)
  }

  /**
   A tracked object without a collector is over: it has stopped itself. A collector without a tracked
   object is over, so it stops itself when it looks.
   */
  ghost predicate Reconciled(w: World)
    requires Named(w.e)
  {
    && (forall arn, id, o: nat | IsAt(w.e.tracked, arn, id, o) && o !in w.e.running :: id in w.over)
    && (forall o | o in w.e.running && !IsTracked(w.e, o) :: w.e.made[o].1 in w.over)
  }

  lemma PutAt(m: Watched, arn: string, id: string, obj: nat)
    ensures forall a, i, o: nat :: IsAt(Put(m, arn, id, obj), a, i, o) <==>
      IsAt(m, a, i, o) || (!Watches(m, arn, id) && a == arn && i == id && o == obj)
  {
  }

  lemma CutAt(m: Watched, arn: string, ids: set<string>)
    ensures forall a, i, o: nat :: IsAt(Cut(m, arn, ids), a, i, o) <==> IsAt(m, a, i, o) && !(a == arn && i in ids)
  {
    CutWatches(m, arn, ids);
  }

  lemma NamedAdd(e: Engine, metrics: bool, arn: string, def: Definition, id: string, reported: bool)
    requires Named(e)
    ensures Named(Add(e, metrics, arn, def, id, reported))
  {
    PutAt(e.tracked, arn, id, |e.made|);
    PutAt(e.health, arn, id, |e.made|);
  }

  lemma NamedReaped(e: Engine, arn: string, containers: map<string, nat>, ids: set<string>)
    requires Named(e)
    ensures Named(Reaped(e, arn, containers, ids))
  {
    CutAt(e.tracked, arn, ids);
    CutAt(e.health, arn, ids);
  }

  lemma NamedRemove(e: Engine, obj: nat, arn: string, id: string)
    requires Named(e)
    ensures Named(Remove(e, obj, arn, id))
  {
    CutAt(e.tracked, arn, {id});
    CutAt(e.health, arn, {id});
  }

  lemma NamedStep(w: World, metrics: bool, step: Step)
    requires Named(w.e) && Enabled(w, step)
    ensures Named(Next(w, metrics, step).e)
  {
    match step
    case AddContainer(arn, def, id, reported) => NamedAdd(w.e, metrics, arn, def, id, reported);
    case RemoveTracked(arn, id) => NamedRemove(w.e, w.e.tracked[arn][id], arn, id);
    case ReportHealth(arn) => NamedReaped(w.e, arn, Examined(w.e, arn), Examined(w.e, arn).Keys * w.over);
    case Ends(_) =>
    case StopsItself(_) =>
  }

  lemma ReconciledAdd(w: World, metrics: bool, step: Step)
    requires step.AddContainer? && Named(w.e) && Reconciled(w)
    ensures Named(Next(w, metrics, step).e) && Reconciled(Next(w, metrics, step))
  {
    NamedStep(w, metrics, step);
    PutAt(w.e.tracked, step.arn, step.id, |w.e.made|);
  }

  lemma ReconciledRemove(w: World, metrics: bool, step: Step)
    requires step.RemoveTracked? && Enabled(w, step) && Named(w.e) && Reconciled(w)
    ensures Named(Next(w, metrics, step).e) && Reconciled(Next(w, metrics, step))
  {
    NamedStep(w, metrics, step);
    CutAt(w.e.tracked, step.arn, {step.id});
    assert IsAt(w.e.tracked, step.arn, step.id, w.e.tracked[step.arn][step.id]);
  }

  lemma ReconciledReport(w: World, metrics: bool, step: Step)
    requires step.ReportHealth? && Named(w.e) && Reconciled(w)
    ensures Named(Next(w, metrics, step).e) && Reconciled(Next(w, metrics, step))
  {
    NamedStep(w, metrics, step);
    var arn, v := step.arn, Next(w, metrics, step);
    var gone := Examined(w.e, arn).Keys * w.over;
    CutAt(w.e.tracked, arn, gone);
    forall a, i, o: nat | IsAt(v.e.tracked, a, i, o) && o !in v.e.running ensures i in v.over {
      if o in w.e.running { assert exists id :: id in gone && IsAt(w.e.health, arn, id, o); }
    }
  }

  lemma ReconciledStep(w: World, metrics: bool, step: Step)
    requires Enabled(w, step) && Named(w.e) && Reconciled(w)
    ensures Named(Next(w, metrics, step).e) && Reconciled(Next(w, metrics, step))
  {
    match step
    case AddContainer(_, _, _, _) => ReconciledAdd(w, metrics, step);
    case RemoveTracked(_, _) => ReconciledRemove(w, metrics, step);
    case ReportHealth(_) => ReconciledReport(w, metrics, step);
    case Ends(_) =>
    case StopsItself(_) =>
  }

  lemma {:induction false} ReconciledForever(w: World, metrics: bool, steps: seq<Step>)
    requires CanRun(w, metrics, steps) && Named(w.e) && Reconciled(w)
    ensures Named(Run(w, metrics, steps).e) && Reconciled(Run(w, metrics, steps))
    decreases steps
  {
    if steps != [] {
      ReconciledStep(w, metrics, steps[0]);
      ReconciledForever(Next(w, metrics, steps[0]), metrics, steps[1..]);
    }
  }

  /**
   In every run, a tracked container has its collector or is over, and a collector that outlived its
   place in the map belongs to a container that is over: its own check can stop it at once.
   */
  lemma CollectorsReconcile(metrics: bool, steps: seq<Step>)
    requires CanRun(START, metrics, steps)
    ensures var w := Run(START, metrics, steps);
      && (forall arn, id | Watches(w.e.tracked, arn, id) :: w.e.tracked[arn][id] in w.e.running || id in w.over)
      && (forall o | o in w.e.running :: o < |w.e.made| && (IsTracked(w.e, o) || Enabled(w, StopsItself(o))))
  {
    ReconciledForever(START, metrics, steps);
    var w := Run(START, metrics, steps);
    forall arn, id | Watches(w.e.tracked, arn, id) ensures w.e.tracked[arn][id] in w.e.running || id in w.over {
      assert IsAt(w.e.tracked, arn, id, w.e.tracked[arn][id]);
    }
  }

  /** After a removal neither map has the container and its collector is stopped; everything else is as it was. */
  lemma RemovedIsGone(w: World, metrics: bool, arn: string, id: string)
    requires Named(w.e) && Enabled(w, RemoveTracked(arn, id))
    ensures var own, e := w.e.tracked[arn][id], Next(w, metrics, RemoveTracked(arn, id)).e;
      && own !in e.running
      && (forall o: nat | o != own :: o in e.running <==> o in w.e.running)
      && (forall a, i, o: nat :: IsAt(e.tracked, a, i, o) <==> IsAt(w.e.tracked, a, i, o) && !(a == arn && i == id))
      && (forall a, i, o: nat :: IsAt(e.health, a, i, o) <==> IsAt(w.e.health, a, i, o) && !(a == arn && i == id))
      && (forall a :: a in e.definitions <==> a in w.e.definitions && (a == arn ==> exists i :: i != id && Watches(w.e.tracked, a, i)))
  {
    CutAt(w.e.tracked, arn, {id});
    CutAt(w.e.health, arn, {id});
    CutWatches(w.e.tracked, arn, {id});
    var t := Cut(w.e.tracked, arn, {id});
    if arn in t {
      var i :| i in t[arn].Keys;
      assert Watches(t, arn, i);
    } else {
      forall i | Watches(w.e.tracked, arn, i) ensures i == id { assert !Watches(t, arn, i); }
    }
  }

  /** A collector that stops itself is the only thing to change. */
  lemma StopsOnlyItself(w: World, metrics: bool, obj: nat)
    requires Enabled(w, StopsItself(obj))
    ensures var v := Next(w, metrics, StopsItself(obj));
      && v == w.(e := w.e.(running := v.e.running)) && obj !in v.e.running
      && forall o: nat | o != obj :: o in v.e.running <==> o in w.e.running
  {
  }

  // --- collectors that are left over ----------------------------------------------------------------------

  /**
   Stopping a container leaves no collector behind exactly when the object in hand is the tracked one,
   or the tracked one's collector has stopped itself.
   */
  lemma CollectsRemoveIff(e: Engine, obj: nat, arn: string, id: string)
    requires Named(e) && Collects(e) && Watches(e.tracked, arn, id)
    ensures Named(Remove(e, obj, arn, id))
    ensures Collects(Remove(e, obj, arn, id)) <==> e.tracked[arn][id] == obj || e.tracked[arn][id] !in e.running
  {
    var t := Remove(e, obj, arn, id);
    NamedRemove(e, obj, arn, id);
    CutAt(e.tracked, arn, {id});
    var own := e.tracked[arn][id];
    assert IsAt(e.tracked, arn, id, own);
    if own != obj && own in e.running { assert own in t.running && !IsTracked(t, own); }
  }

  /** Health is not reported for a container that is tracked without it and still collects. */
  predicate Timely(w: World, step: Step) {
    var late := step.AddContainer? && step.reported
      && Watches(w.e.tracked, step.arn, step.id) && !Watches(w.e.health, step.arn, step.id);
    late ==> w.e.tracked[step.arn][step.id] !in w.e.running
  }

  /** Where a tracked container collects, the health map holds the same object. */
  ghost predicate SameObjects(e: Engine) {
    forall arn, id, o: nat, p: nat | IsAt(e.health, arn, id, o) && IsAt(e.tracked, arn, id, p) && p in e.running :: o == p
  }

  ghost predicate Collecting(w: World) { Inv(w.e) && Named(w.e) && Collects(w.e) && SameObjects(w.e) }

  lemma CollectsAdd(w: World, step: Step)
    requires Named(w.e) && Collects(w.e) && step.AddContainer?
    ensures Named(Next(w, true, step).e) && Collects(Next(w, true, step).e)
  {
    NamedStep(w, true, step);
    var v := Next(w, true, step).e;
    PutAt(w.e.tracked, step.arn, step.id, |w.e.made|);
    forall o | o in v.running ensures IsTracked(v, o) {
      if o in w.e.running { assert IsTracked(w.e, o); }
    }
  }

  lemma SameObjectsAdd(w: World, step: Step)
    requires Inv(w.e) && Named(w.e) && SameObjects(w.e) && step.AddContainer? && Timely(w, step)
    ensures SameObjects(Next(w, true, step).e)
  {
    PutAt(w.e.tracked, step.arn, step.id, |w.e.made|);
    PutAt(w.e.health, step.arn, step.id, |w.e.made|);
  }

  lemma SameObjectsRemove(w: World, step: Step)
    requires SameObjects(w.e) && step.RemoveTracked? && Enabled(w, step)
    ensures SameObjects(Next(w, true, step).e)
  {
    CutAt(w.e.tracked, step.arn, {step.id});
    CutAt(w.e.health, step.arn, {step.id});
  }

  /** The report removes the containers from both maps, with their collectors. */
  lemma CollectsReport(w: World, step: Step)
    requires Named(w.e) && Collects(w.e) && SameObjects(w.e) && step.ReportHealth?
    ensures Named(Next(w, true, step).e) && Collects(Next(w, true, step).e)
  {
    NamedStep(w, true, step);
    var arn, v := step.arn, Next(w, true, step).e;
    var examined := Examined(w.e, arn);
    var gone := examined.Keys * w.over;
    CutAt(w.e.tracked, arn, gone);
    forall o | o in v.running ensures IsTracked(v, o) {
      assert IsTracked(w.e, o);
      var (a, i) := w.e.made[o];
      if a == arn && i in gone {
        assert IsAt(w.e.health, a, i, examined[i]);
        assert examined[i] in ObjectsOf(examined, gone);
      }
    }
  }

  lemma SameObjectsReport(w: World, step: Step)
    requires SameObjects(w.e) && step.ReportHealth?
    ensures SameObjects(Next(w, true, step).e)
  {
    var gone := Examined(w.e, step.arn).Keys * w.over;
    CutAt(w.e.tracked, step.arn, gone);
    CutAt(w.e.health, step.arn, gone);
  }

  lemma CollectingStep(w: World, step: Step)
    requires Collecting(w) && Enabled(w, step) && Timely(w, step)
    ensures Collecting(Next(w, true, step))
  {
    InvStep(w, step);
    match step
    case AddContainer(_, _, _, _) =>
      CollectsAdd(w, step);
      SameObjectsAdd(w, step);
    case RemoveTracked(arn, id) =>
      CollectsRemoveIff(w.e, w.e.tracked[arn][id], arn, id);
      SameObjectsRemove(w, step);
    case ReportHealth(_) =>
      CollectsReport(w, step);
      SameObjectsReport(w, step);
    case Ends(_) =>
    case StopsItself(_) =>
  }

  ghost predicate AlwaysTimely(w: World, steps: seq<Step>)
    requires CanRun(w, true, steps)
    decreases steps
  {
    steps == [] || (Timely(w, steps[0]) && AlwaysTimely(Next(w, true, steps[0]), steps[1..]))
  }

  lemma {:induction false} CollectingForever(w: World, steps: seq<Step>)
    requires Collecting(w) && CanRun(w, true, steps) && AlwaysTimely(w, steps)
    ensures Collecting(Run(w, true, steps))
    decreases steps
  {
    if steps != [] {
      CollectingStep(w, steps[0]);
      CollectingForever(Next(w, true, steps[0]), steps[1..]);
    }
  }

  /**
   If health is never reported late, then in every run each running collector belongs to a tracked
   container, and a tracked container without one is over.
   */
  lemma CollectsAlways(steps: seq<Step>)
    requires CanRun(START, true, steps) && AlwaysTimely(START, steps)
    ensures var w := Run(START, true, steps);
      && (forall o | o in w.e.running :: o < |w.e.made| && IsTracked(w.e, o))
      && (forall arn, id | Watches(w.e.tracked, arn, id) :: w.e.tracked[arn][id] in w.e.running || id in w.over)
  {
    CollectingForever(START, steps);
    CollectorsReconcile(true, steps);
  }

  /** A collector that runs although no map holds its object. */
  ghost predicate LeftOver(e: Engine, o: nat) {
    o in e.running && forall arn, id :: !IsAt(e.tracked, arn, id, o) && !IsAt(e.health, arn, id, o)
  }

  /**
   The condition is exact: once a late report is followed by the end of the container, the next health
   report leaves its collector running, held by no map.
   */
  lemma LateHealthLeaks(w: World, step: Step)
    requires Collecting(w) && Enabled(w, step) && !Timely(w, step)
    ensures var steps := [step] + ([Ends(step.id)] + ([ReportHealth(step.arn)] + []));
      CanRun(w, true, steps) && LeftOver(Run(w, true, steps).e, w.e.tracked[step.arn][step.id])
  {
    var arn, id := step.arn, step.id;
    var own := w.e.tracked[arn][id];
    assert IsAt(w.e.tracked, arn, id, own);
    var v := Next(w, true, step);
    InvStep(w, step);
    NamedStep(w, true, step);
    PutAt(w.e.tracked, arn, id, |w.e.made|);
    PutAt(w.e.health, arn, id, |w.e.made|);
    assert IsAt(v.e.tracked, arn, id, own) && IsAt(v.e.health, arn, id, |w.e.made|);
    var u := Next(v, true, Ends(id));
    LeftByReport(u, arn, id, own);
    RunCons(u, true, ReportHealth(arn), []);
    RunCons(v, true, Ends(id), [ReportHealth(arn)] + []);
    RunCons(w, true, step, [Ends(id)] + ([ReportHealth(arn)] + []));
  }

  lemma LeftByReport(w: World, arn: string, id: string, own: nat)
    requires Inv(w.e) && Named(w.e) && IsAt(w.e.tracked, arn, id, own) && own in w.e.running
    requires Watches(w.e.health, arn, id) && w.e.health[arn][id] != own && id in w.over
    ensures LeftOver(Reported(w, arn), own)
  {
    var gone := Examined(w.e, arn).Keys * w.over;
    CutAt(w.e.tracked, arn, gone);
    CutAt(w.e.health, arn, gone);
    assert Examined(w.e, arn) == w.e.health[arn] && id in gone;
    forall i | i in gone ensures w.e.health[arn][i] != own { assert IsAt(w.e.health, arn, i, w.e.health[arn][i]); }
  }

  lemma LeftOverStep(w: World, metrics: bool, step: Step, o: nat)
    requires Enabled(w, step) && Named(w.e) && LeftOver(w.e, o) && step != StopsItself(o)
    ensures LeftOver(Next(w, metrics, step).e, o)
  {
    match step
    case AddContainer(arn, _, id, _) =>
      PutAt(w.e.tracked, arn, id, |w.e.made|);
      PutAt(w.e.health, arn, id, |w.e.made|);
    case RemoveTracked(arn, id) =>
      CutAt(w.e.tracked, arn, {id});
      CutAt(w.e.health, arn, {id});
      assert IsAt(w.e.tracked, arn, id, w.e.tracked[arn][id]);
    case ReportHealth(arn) =>
      var gone := Examined(w.e, arn).Keys * w.over;
      CutAt(w.e.tracked, arn, gone);
      CutAt(w.e.health, arn, gone);
      forall i | i in gone ensures w.e.health[arn][i] != o { assert IsAt(w.e.health, arn, i, w.e.health[arn][i]); }
    case Ends(_) =>
    case StopsItself(_) =>
  }

  /** Nothing that the engine does stops a collector that is left over: it runs until it stops itself. */
  lemma {:induction false} LeftOverStopsItself(w: World, metrics: bool, steps: seq<Step>, o: nat)
    requires Named(w.e) && LeftOver(w.e, o) && CanRun(w, metrics, steps)
    ensures StopsItself(o) in steps || LeftOver(Run(w, metrics, steps).e, o)
    decreases steps
  {
    if steps != [] && steps[0] != StopsItself(o) {
      LeftOverStep(w, metrics, steps[0], o);
      NamedStep(w, metrics, steps[0]);
      LeftOverStopsItself(Next(w, metrics, steps[0]), metrics, steps[1..], o);
    }
  }

  // --- with metrics disabled ------------------------------------------------------------------------------

  lemma {:induction false} DisabledTracksNothing(w: World, steps: seq<Step>)
    requires w.e.tracked == map[] && w.e.running == {} && NoEmptyTask(w.e.health) && CanRun(w, false, steps)
    ensures var e := Run(w, false, steps).e; e.tracked == map[] && e.running == {} && NoEmptyTask(e.health)
    decreases steps
  {
    if steps != [] {
      match steps[0] {
        case AddContainer(arn, _, id, _) => PutWatches(w.e.health, arn, id, |w.e.made|);
        case ReportHealth(arn) => CutWatches(w.e.health, arn, Examined(w.e, arn).Keys * w.over);
        case _ =>
      }
      DisabledTracksNothing(Next(w, false, steps[0]), steps[1..]);
    }
  }

  /** The task has health containers but no definition, so no health report looks at it. */
  predicate Forgotten(e: Engine, arn: string) { arn in e.health && arn !in e.definitions }

  /**
   Nothing is tracked then, so a report that removes any container of a task drops its definition. It
   leaves the task behind exactly when some of the containers are over and some are not.
   */
  lemma DisabledDropsDefinitionIff(w: World, arn: string)
    requires w.e.tracked == map[] && arn in w.e.health && arn in w.e.definitions
    ensures Forgotten(Reported(w, arn), arn) <==>
      (exists id :: Watches(w.e.health, arn, id) && id in w.over) && (exists id :: Watches(w.e.health, arn, id) && id !in w.over)
  {
    var inner := w.e.health[arn];
    var gone := inner.Keys * w.over;
    assert forall id | Watches(w.e.health, arn, id) && id in w.over :: id in gone;
    if gone != {} {
      var id :| id in gone;
      assert Watches(w.e.health, arn, id);
      if inner - gone == map[] {
        forall other | Watches(w.e.health, arn, other) ensures other in w.over { assert other in inner - gone || other in gone; }
      } else {
        var other :| other in (inner - gone).Keys;
        assert Watches(w.e.health, arn, other);
      }
    }
  }

  lemma ForgottenStep(w: World, step: Step, arn: string)
    requires w.e.tracked == map[] && Forgotten(w.e, arn) && Enabled(w, step) && !(step.AddContainer? && step.arn == arn)
    ensures var v := Next(w, false, step);
      v.e.tracked == map[] && Forgotten(v.e, arn) && v.e.health[arn] == w.e.health[arn]
  {
  }

  /**
   A forgotten task keeps its health containers, whether they end or not, and none of them is
   reported, in every run until a container of that task is added.
   */
  lemma {:induction false} ForgottenUntilAdded(w: World, steps: seq<Step>, arn: string)
    requires w.e.tracked == map[] && Forgotten(w.e, arn) && CanRun(w, false, steps)
    requires forall step | step in steps :: !(step.AddContainer? && step.arn == arn)
    ensures var e := Run(w, false, steps).e;
      Forgotten(e, arn) && e.health[arn] == w.e.health[arn] && Examined(e, arn) == map[]
    decreases steps
  {
    if steps != [] {
      ForgottenStep(w, steps[0], arn);
      ForgottenUntilAdded(Next(w, false, steps[0]), steps[1..], arn);
    }
  }

  /** Adding one, whether its health is reported or not, makes the next report look at all of them again. */
  lemma AddingRemembers(w: World, arn: string, def: Definition, id: string, reported: bool)
    requires w.e.tracked == map[] && Forgotten(w.e, arn)
    ensures var v := Next(w, false, AddContainer(arn, def, id, reported));
      && Examined(v.e, arn).Keys == w.e.health[arn].Keys + (if reported then {id} else {})
      && forall i :: Watches(Reported(v, arn).health, arn, i) <==> i in Examined(v.e, arn) && i !in w.over
  {
    var v := Next(w, false, AddContainer(arn, def, id, reported));
    CutWatches(v.e.health, arn, v.e.health[arn].Keys * v.over);
  }

  // --- removing everything --------------------------------------------------------------------------------

  /** removeAll empties the tracked map only: its second loop deletes from that map again. */
  function RemoveAllOf(e: Engine): Engine {
    Engine(map[], e.health, e.definitions, e.running - Objects(e.tracked), e.made)
  }

  function Objects(m: Watched): set<nat> { set arn, id | arn in m && id in m[arn] :: m[arn][id] }

  /**
   It stops every collector exactly when none is left over, and breaks the agreement of the maps exactly
   when anything was tracked.
   */
  lemma RemoveAllKeepsIff(e: Engine)
    requires Inv(e) && Named(e)
    ensures RemoveAllOf(e).running == {} <==> Collects(e)
    ensures Inv(RemoveAllOf(e)) <==> e.tracked == map[]
  {
    forall o | o in e.running ensures IsTracked(e, o) <==> o in Objects(e.tracked) {
      if o in Objects(e.tracked) {
        var arn, id :| Watches(e.tracked, arn, id) && e.tracked[arn][id] == o;
        assert IsAt(e.tracked, arn, id, o);
      }
    }
    if !Collects(e) {
      var o :| o in e.running && !IsTracked(e, o);
      assert o in RemoveAllOf(e).running;
    }
  }

  // --- the engine -------------------------------------------------------------------------------------------

  datatype Task = Task(arn: string, def: Definition, terminal: bool)

  lemma CutMore(m: Watched, arn: string, ids: set<string>, id: string)
    ensures Cut(Cut(m, arn, ids), arn, {id}) == Cut(m, arn, ids + {id})
  {
    if arn in m {
      assert m[arn] - ids - {id} == m[arn] - (ids + {id});
      if m[arn] - ids == map[] { assert m[arn] - (ids + {id}) == map[]; }
    }
  }

  lemma CutOther(m: Watched, arn: string, id: string)
    requires NoEmptyTask(m) && !Watches(m, arn, id)
    ensures Cut(m, arn, {id}) == m
  {
    if arn in m { assert m[arn] - {id} == m[arn]; }
  }

  /** Removing one more container of the task. */
  lemma ReapedMore(e: Engine, arn: string, containers: map<string, nat>, ids: set<string>, id: string)
    requires NoEmptyTask(e.health) && id in containers
    ensures Remove(Reaped(e, arn, containers, ids), containers[id], arn, id) == Reaped(e, arn, containers, ids + {id})
  {
    ObjectsMore(containers, ids, id);
    if ids == {} {
      assert ids + {id} == {id} && ObjectsOf(containers, ids) == {};
      if !Watches(e.health, arn, id) { CutOther(e.health, arn, id); }
    } else {
      CutMore(e.tracked, arn, ids, id);
      ReapedHealth(e.health, arn, ids, id);
      CutWatches(Cut(e.tracked, arn, ids), arn, {id});
    }
  }

  lemma ReapedHealth(health: Watched, arn: string, ids: set<string>, id: string)
    requires NoEmptyTask(health)
    ensures var h := Cut(health, arn, ids);
      (if Watches(h, arn, id) then Cut(h, arn, {id}) else h) == Cut(health, arn, ids + {id})
  {
    CutMore(health, arn, ids, id);
    CutWatches(health, arn, ids);
    var h := Cut(health, arn, ids);
    if !Watches(h, arn, id) { CutOther(h, arn, id); }
  }

  lemma ObjectsMore(inner: map<string, nat>, ids: set<string>, id: string)
    requires id in inner
    ensures ObjectsOf(inner, ids + {id}) == ObjectsOf(inner, ids) + {inner[id]}
  {
  }

  function ObjectsIn(m: Watched, tasks: set<string>): set<nat> {
    set arn, id | arn in m && id in m[arn] && arn in tasks :: m[arn][id]
  }

  /** Some tasks stopped and deleted from the tracked map. */
  function StopTasks(e: Engine, tasks: set<string>): Engine {
    e.(tracked := e.tracked - tasks, running := e.running - ObjectsIn(e.tracked, tasks))
  }

  function StopOne(e: Engine, arn: string): Engine
    requires arn in e.tracked
  {
    e.(tracked := e.tracked - {arn}, running := e.running - ObjectsOf(e.tracked[arn], e.tracked[arn].Keys))
  }

  lemma StopTasksMore(e: Engine, tasks: set<string>, arn: string)
    requires arn in e.tracked && arn !in tasks
    ensures arn in StopTasks(e, tasks).tracked
    ensures StopOne(StopTasks(e, tasks), arn) == StopTasks(e, tasks + {arn})
  {
  }

  function WithoutTracked(e: Engine, tasks: set<string>): Engine { e.(tracked := e.tracked - tasks) }

  lemma StopAllTasks(e: Engine)
    ensures StopTasks(e, e.tracked.Keys) == RemoveAllOf(e)
    ensures StopTasks(e, {}) == e
  {
  }

  class DockerStatsEngine {
    var tasksToContainers: Watched
    var tasksToHealthCheckContainers: Watched
    var tasksToDefinitions: map<string, Definition>
    var collecting: set<nat>        // the stats containers whose collection was started and not stopped
    var made: seq<(string, string)>
    const disableMetrics: bool

    ghost function View(): Engine reads this {
      Engine(tasksToContainers, tasksToHealthCheckContainers, tasksToDefinitions, collecting, made)
    }

    constructor (disableMetrics: bool)
      ensures View() == EMPTY && this.disableMetrics == disableMetrics
    {
      tasksToContainers, tasksToHealthCheckContainers, tasksToDefinitions := map[], map[], map[];
      collecting, made := {}, [];
      this.disableMetrics := disableMetrics;
    }

    static method AddToMap(m: Watched, arn: string, id: string, obj: nat) returns (r: Watched, added: bool)
      ensures r == Put(m, arn, id, obj) && added == !Watches(m, arn, id)
    {
      r := m;
      if arn in r {
        if id in r[arn] { return r, false; }
      } else {
        r := r[arn := map[]];
      }
      var inner: map<string, nat> := r[arn][id := obj];
      r := r[arn := inner];
      assert arn !in m ==> r == m[arn := map[id := obj]];
      return r, true;
    }

    /**
     Adds and starts a container: `task` is what the resolver says of it, `known` whether a stats
     container can be made, `reported` whether its health is to be reported, when that can be resolved.
     */
    method AddAndStart(id: string, task: Option<Task>, known: bool, reported: Option<bool>)
      modifies this
      ensures if task.Some? && task.value.arn != "" && task.value.def.family != "" && !task.value.terminal && known
        then View() == Add(old(View()), !disableMetrics, task.value.arn, task.value.def, id, reported == Some(true))
        else View() == old(View())
    {
      if task.None? { return; }
      var arn := task.value.arn;
      if |arn| == 0 || |task.value.def.family| == 0 { return; }
      if task.value.terminal { return; }
      if !known { return; }
      var obj := |made|;
      made := made + [(arn, id)];
      tasksToDefinitions := tasksToDefinitions[arn := task.value.def];
      var watch := false;
      if !disableMetrics {
        tasksToContainers, watch := AddToMap(tasksToContainers, arn, id, obj);
      }
      if reported.Some? && reported.value {
        var added;
        tasksToHealthCheckContainers, added := AddToMap(tasksToHealthCheckContainers, arn, id, obj);
      }
      if disableMetrics || !watch { return; }
      collecting := collecting + {obj};
    }

    /** Deletes the container from the inner map, and the task when that is empty. */
    static method Delete(m: Watched, arn: string, id: string) returns (r: Watched)
      ensures r == Cut(m, arn, {id})
    {
      if arn !in m { return m; }
      var inner := m[arn] - {id};
      if |inner| == 0 { return m - {arn}; }
      return m[arn := inner];
    }

    method DoRemove(obj: nat, arn: string, id: string)
      modifies this
      ensures View() == Remove(old(View()), obj, arn, id)
    {
      collecting := collecting - {obj};
      tasksToContainers := Delete(tasksToContainers, arn, id);
      if arn !in tasksToContainers {
        tasksToDefinitions := tasksToDefinitions - {arn};
      }
      if arn !in tasksToHealthCheckContainers || id !in tasksToHealthCheckContainers[arn] { return; }
      tasksToHealthCheckContainers := Delete(tasksToHealthCheckContainers, arn, id);
    }

    /** A stop event of the container; `task` is what the resolver says of it. */
    method RemoveContainer(id: string, task: Option<string>)
      modifies this
      ensures if task.Some? && Watches(old(tasksToContainers), task.value, id)
        then View() == Remove(old(View()), old(tasksToContainers)[task.value][id], task.value, id)
        else View() == old(View())
    {
      if task.None? { return; }
      if task.value !in tasksToContainers { return; }
      if id !in tasksToContainers[task.value] { return; }
      DoRemove(tasksToContainers[task.value][id], task.value, id);
    }

    /**
     The clean-up inside the collection of a task's metrics: the containers that are terminal or no
     longer known are removed one by one, in any order.
     */
    method ReapTask(arn: string, gone: set<string>) returns (kept: set<string>)
      requires NoEmptyTask(tasksToHealthCheckContainers)
      modifies this
      ensures arn !in old(tasksToContainers) ==> View() == old(View()) && kept == {}
      ensures arn in old(tasksToContainers) ==> var containers := old(tasksToContainers)[arn];
        kept == containers.Keys - gone && View() == Reaped(old(View()), arn, containers, containers.Keys * gone)
      ensures old(Inv(View())) ==> Inv(View())
    {
      kept := {};
      if arn !in tasksToContainers { return; }
      ghost var containers := tasksToContainers[arn];
      kept := ReapContainers(arn, tasksToContainers[arn], gone);
      if old(Inv(View())) { InvReaped(old(View()), arn, containers, containers.Keys * gone); }
    }

    /**
     The health report of a task: `over` are the containers that the resolver does not know or knows to
     be terminal, and `kept` those whose health is looked up.
     */
    method GetTaskHealth(arn: string, over: set<string>) returns (kept: set<string>)
      requires NoEmptyTask(tasksToHealthCheckContainers)
      modifies this
      ensures View() == Reported(World(old(View()), over), arn)
      ensures kept == Examined(old(View()), arn).Keys - over
    {
      kept := {};
      if arn !in tasksToDefinitions { return; }
      if arn !in tasksToHealthCheckContainers { return; }
      kept := ReapContainers(arn, tasksToHealthCheckContainers[arn], over);
    }

    method ReapContainers(arn: string, containers: map<string, nat>, gone: set<string>) returns (kept: set<string>)
      requires NoEmptyTask(tasksToHealthCheckContainers)
      modifies this
      ensures kept == containers.Keys - gone && View() == Reaped(old(View()), arn, containers, containers.Keys * gone)
    {
      kept := {};
      ghost var start := View();
      var todo, all := containers.Keys, containers.Keys;
      SplitStart(all, gone);
      while todo != {}
        invariant todo <= all && kept == (all - todo) - gone
        invariant View() == Reaped(start, arn, containers, (all - todo) * gone)
        decreases |todo|
      {
        var id :| id in todo;
        SplitMore(all, todo, gone, id);
        if id in gone {
          ReapedMore(start, arn, containers, (all - todo) * gone, id);
          DoRemove(containers[id], arn, id);
        } else {
          kept := kept + {id};
        }
        todo := todo - {id};
      }
      SplitStart(all, gone);
    }

    /** Stops the collectors of a task and deletes the task. */
    method StopTask(arn: string)
      requires arn in tasksToContainers
      modifies this
      ensures View() == StopOne(old(View()), arn)
    {
      var todo, containers := tasksToContainers[arn].Keys, tasksToContainers[arn];
      ghost var seen: set<string> := {};
      while todo != {}
        invariant seen + todo == containers.Keys && seen !! todo
        invariant collecting == old(collecting) - ObjectsOf(containers, seen)
        invariant unchanged(`tasksToContainers)
        invariant unchanged(`tasksToHealthCheckContainers) && unchanged(`tasksToDefinitions) && unchanged(`made)
        decreases |todo|
      {
        var id :| id in todo;
        ObjectsMore(containers, seen, id);
        collecting := collecting - {containers[id]};
        todo, seen := todo - {id}, seen + {id};
      }
      tasksToContainers := tasksToContainers - {arn};
    }

    /** The first loop: every tracked task. */
    method StopEveryTask()
      modifies this
      ensures View() == StopTasks(old(View()), old(tasksToContainers).Keys)
    {
      ghost var start := View();
      var todo, all := tasksToContainers.Keys, tasksToContainers.Keys;
      StopAllTasks(start);
      SetMinus(all, all, "");
      while todo != {}
        invariant todo <= all == start.tracked.Keys
        invariant View() == StopTasks(start, all - todo)
        decreases |todo|
      {
        var arn :| arn in todo;
        SetMinus(all, todo, arn);
        StopTasksMore(start, all - todo, arn);
        assert View().tracked == tasksToContainers;
        StopTask(arn);
        todo := todo - {arn};
      }
      SetMinus(all, {}, "");
    }

    /** The second loop: the tasks with health checks, deleted from the map of tracked ones again. */
    method DeleteHealthTasks()
      modifies this
      ensures View() == WithoutTracked(old(View()), old(tasksToHealthCheckContainers).Keys)
    {
      ghost var start := View();
      var todo, all := tasksToHealthCheckContainers.Keys, tasksToHealthCheckContainers.Keys;
      SetMinus(all, all, "");
      assert start.tracked - {} == start.tracked;
      while todo != {}
        invariant todo <= all
        invariant View() == WithoutTracked(start, all - todo)
        decreases |todo|
      {
        var arn :| arn in todo;
        SetMinus(all, todo, arn);
        WithoutMore(start, all - todo, arn);
        tasksToContainers := tasksToContainers - {arn};
        todo := todo - {arn};
      }
      SetMinus(all, {}, "");
    }

    method RemoveAll()
      modifies this
      ensures View() == RemoveAllOf(old(View()))
    {
      StopAllTasks(View());
      StopEveryTask();
      assert View() == RemoveAllOf(old(View()));
      DeleteHealthTasks();
      assert EMPTY.tracked - old(tasksToHealthCheckContainers).Keys == EMPTY.tracked;
    }
  }

  lemma SplitStart(all: set<string>, gone: set<string>)
    ensures (all - all) * gone == {} && all - all - gone == {} && all - {} == all
  {
  }

  lemma SplitMore(all: set<string>, todo: set<string>, gone: set<string>, x: string)
    requires x in todo && todo <= all
    ensures x !in (all - todo) * gone
    ensures (all - (todo - {x})) * gone == if x in gone then (all - todo) * gone + {x} else (all - todo) * gone
    ensures all - (todo - {x}) - gone == if x in gone then all - todo - gone else all - todo - gone + {x}
  {
  }

  lemma SetMinus(all: set<string>, todo: set<string>, x: string)
    ensures x in todo && todo <= all ==> all - (todo - {x}) == (all - todo) + {x} && x !in all - todo && x in all
    ensures all - all == {} && all - {} == all
  {
  }

  lemma WithoutMore(e: Engine, done: set<string>, arn: string)
    ensures WithoutTracked(WithoutTracked(e, done), {arn}) == WithoutTracked(e, done + {arn})
  {
  }
}
