/**
 The Windows state writer as a protocol of crash-prone steps: a new file is written and flushed, a
 registry value is pointed at it, and the file the value named before is removed.

 A crash keeps the contents of flushed files; others get any contents or vanish, and removed files
 may reappear. A registry write that was not flushed may be undone by a crash.
 */
module WindowsStateFile {
  import opened Basics

  datatype File = File(content: string, synced: bool)

  datatype Disk = Disk(
    files: map<string, File>,
    erased: map<string, File>,          // removed files that may still be on disk
    path: Option<string>,               // the registry value
    earlier: set<Option<string>>)       // registry values that may still be the ones on disk

  /** How far writeFile has come. `before` is the path read first, "" when there was none. */
  datatype At =
    | Idle
    | Started(before: string, data: string)
    | Created(before: string, name: string, data: string)
    | Written(before: string, name: string, data: string)
    | Synced(before: string, name: string, data: string)
    | Pointed(before: string, data: string)

  /** As for the POSIX writer: the last acknowledged data, and newer data that may be found. */
  datatype Machine = Machine(disk: Disk, at: At, acked: Option<string>, since: set<string>)

  datatype Step =
    | GetPath(data: string)
    | Create(name: string)
    | WriteNew(n: nat)
    | SyncNew
    | SetPath(flushed: bool)
    | FlushRegistry
    | RemoveOld
    | Return                                          // nil, when there is no old file
    | Fail                                            // any error return
    | Crash(path: Option<string>, junk: map<string, string>, back: set<string>)

  /** What readFile returns: no data without a registry value or without the file it names. */
  function Read(path: Option<string>, files: map<string, File>): Option<string> {
    if path.Some? && path.value in files then Some(files[path.value].content) else None
  }

  function AfterCrash(d: Disk, junk: map<string, string>, back: set<string>): map<string, File> {
    map f | f in d.files.Keys + (d.erased.Keys * back) && (f in d.files && !d.files[f].synced ==> f in junk) ::
      if f in d.files then File(if d.files[f].synced then d.files[f].content else junk[f], true)
      else d.erased[f].(synced := true)
  }

  predicate Enabled(m: Machine, step: Step) {
    match step
    case GetPath(_) => m.at.Idle?
    case Create(name) => m.at.Started? && name != "" && name !in m.disk.files
    case WriteNew(n) => m.at.Created? && n <= |m.at.data|
    case SyncNew => m.at.Written? && m.at.name in m.disk.files
    case SetPath(_) => m.at.Synced?
    case FlushRegistry => true
    case RemoveOld => m.at.Pointed? && m.at.before != "" && m.at.before in m.disk.files
    case Return => m.at.Pointed? && m.at.before == ""
    case Fail => !m.at.Idle?
    case Crash(path, _, _) => path == m.disk.path || path in m.disk.earlier
  }

  function Next(m: Machine, step: Step): Machine
    requires Enabled(m, step)
  {
    var d := m.disk;
    match step
    case GetPath(data) => m.(at := Started(if d.path.Some? then d.path.value else "", data))
    case Create(name) =>
      m.(at := Created(m.at.before, name, m.at.data),
         disk := d.(files := d.files[name := File("", false)], erased := d.erased - {name}))
    case WriteNew(n) =>
      m.(at := if n == |m.at.data| then Written(m.at.before, m.at.name, m.at.data) else Idle,
         disk := d.(files := d.files[m.at.name := File(m.at.data[..n], false)]))
    case SyncNew =>
      m.(at := Synced(m.at.before, m.at.name, m.at.data),
         disk := d.(files := d.files[m.at.name := d.files[m.at.name].(synced := true)]))
    case SetPath(flushed) =>
      m.(at := Pointed(m.at.before, m.at.data),
         since := m.since + {m.at.data},
         disk := d.(path := Some(m.at.name), earlier := if flushed then {} else d.earlier + {d.path}))
    case FlushRegistry => m.(disk := d.(earlier := {}))
    case RemoveOld =>
      m.(at := Idle, acked := Some(m.at.data), since := {},
         disk := d.(files := d.files - {m.at.before}, erased := d.erased[m.at.before := d.files[m.at.before]]))
    case Return => m.(at := Idle, acked := Some(m.at.data), since := {})
    case Fail => m.(at := Idle)
    case Crash(path, junk, back) =>
      var files := AfterCrash(d, junk, back);
      Machine(Disk(files, map[], path, {}), Idle, Read(path, files), {})
  }

  const START := Machine(Disk(map[], map[], None, {}), Idle, None, {})

  predicate CanRun(m: Machine, steps: seq<Step>)
    decreases steps
  {
    steps == [] || (Enabled(m, steps[0]) && CanRun(Next(m, steps[0]), steps[1..]))
  }

  function Run(m: Machine, steps: seq<Step>): Machine
    requires CanRun(m, steps)
    decreases steps
  {
    if steps == [] then m else Run(Next(m, steps[0]), steps[1..])
  }

  lemma RunCons(m: Machine, step: Step, rest: seq<Step>)
    requires Enabled(m, step) && CanRun(Next(m, step), rest)
    ensures CanRun(m, [step] + rest) && Run(m, [step] + rest) == Run(Next(m, step), rest)
  {
  }

  lemma {:induction false} RunSnoc(m: Machine, steps: seq<Step>, step: Step)
    requires CanRun(m, steps) && Enabled(Run(m, steps), step)
    ensures CanRun(m, steps + [step]) && Run(m, steps + [step]) == Next(Run(m, steps), step)
    decreases steps
  {
    if steps == [] {
      assert [step][1..] == [];
    } else {
      RunSnoc(Next(m, steps[0]), steps[1..], step);
      assert (steps + [step])[1..] == steps[1..] + [step];
    }
  }

  lemma {:induction false} SettledSnoc(m: Machine, steps: seq<Step>, step: Step)
    requires CanRun(m, steps) && AlwaysSettled(m, steps) && Enabled(Run(m, steps), step) && Settled(Run(m, steps), step)
    ensures CanRun(m, steps + [step]) && AlwaysSettled(m, steps + [step])
    decreases steps
  {
    RunSnoc(m, steps, step);
    if steps == [] {
      assert ([] + [step])[1..] == [];
    } else {
      SettledSnoc(Next(m, steps[0]), steps[1..], step);
      assert (steps + [step])[1..] == steps[1..] + [step];
    }
  }

  // --- what every run keeps in which only settled writes are acknowledged --------------------------

  predicate Allowed(m: Machine, found: Option<string>) {
    found == m.acked || (found.Some? && found.value in m.since)
  }

  /** The registry names a whole, flushed, allowed file, or nothing was ever acknowledged. */
  predicate GoodPath(m: Machine, path: Option<string>) {
    if path.Some? then
      && path.value != "" && path.value in m.disk.files
      && m.disk.files[path.value].synced
      && Allowed(m, Some(m.disk.files[path.value].content))
    else m.acked.None?
  }

  predicate OldOK(m: Machine, before: string) { before == if m.disk.path.Some? then m.disk.path.value else "" }

  predicate NewOK(m: Machine, name: string) {
    name in m.disk.files && name != "" && Some(name) !in m.disk.earlier + {m.disk.path}
  }

  predicate AtOK(m: Machine) {
    match m.at
    case Idle => true
    case Started(o, _) => OldOK(m, o)
    case Created(o, name, _) => OldOK(m, o) && NewOK(m, name)
    case Written(o, name, data) => OldOK(m, o) && NewOK(m, name) && m.disk.files[name].content == data
    case Synced(o, name, data) => OldOK(m, o) && NewOK(m, name) && m.disk.files[name] == File(data, true)
    case Pointed(o, data) => m.disk.path.Some? && m.disk.path != Some(o) && Read(m.disk.path, m.disk.files) == Some(data)
  }

  predicate Inv(m: Machine) {
    && GoodPath(m, m.disk.path)
    && (forall p | p in m.disk.earlier :: GoodPath(m, p))
    && AtOK(m)
  }

  /**
   A write that is about to be acknowledged is settled: each registry value that may still be the one
   on disk finds the same data, once the old file is gone. So it is when there is no such value.
   */
  predicate Settled(m: Machine, step: Step) {
    m.at.Pointed? && (step.RemoveOld? || step.Return?) ==>
      forall p | p in m.disk.earlier :: Read(p, if step.RemoveOld? then m.disk.files - {m.at.before} else m.disk.files) == Some(m.at.data)
  }

  lemma InvStep(m: Machine, step: Step)
    requires Inv(m) && Enabled(m, step) && Settled(m, step)
    ensures Inv(Next(m, step))
  {
    match step
    case SetPath(flushed) => SetPathKeeps(m, flushed);
    case RemoveOld => RemoveKeeps(m);
    case _ =>
  }

  lemma SetPathKeeps(m: Machine, flushed: bool)
    requires Inv(m) && Enabled(m, SetPath(flushed))
    ensures Inv(Next(m, SetPath(flushed)))
  {
    var t := Next(m, SetPath(flushed));
    forall p | p in t.disk.earlier ensures GoodPath(t, p) { assert GoodPath(m, p); }
  }

  lemma RemoveKeeps(m: Machine)
    requires Inv(m) && Enabled(m, RemoveOld) && Settled(m, RemoveOld)
    ensures Inv(Next(m, RemoveOld))
  {
    var t := Next(m, RemoveOld);
    forall p | p in t.disk.earlier ensures GoodPath(t, p) { assert GoodPath(m, p); }
  }

  ghost predicate AlwaysSettled(m: Machine, steps: seq<Step>)
    requires CanRun(m, steps)
    decreases steps
  {
    steps == [] || (Settled(m, steps[0]) && AlwaysSettled(Next(m, steps[0]), steps[1..]))
  }

  lemma {:induction false} InvForever(m: Machine, steps: seq<Step>)
    requires Inv(m) && CanRun(m, steps) && AlwaysSettled(m, steps)
    ensures Inv(Run(m, steps))
    decreases steps
  {
    if steps != [] {
      InvStep(m, steps[0]);
      InvForever(Next(m, steps[0]), steps[1..]);
    }
  }

  /**
   When only settled writes are acknowledged, the loader finds the last acknowledged state or a newer
   complete one, whatever errors and crashes the run had, and after one more crash.
   */
  lemma NeverPartialOrLost(steps: seq<Step>, path: Option<string>, junk: map<string, string>, back: set<string>)
    requires CanRun(START, steps) && AlwaysSettled(START, steps)
    requires Enabled(Run(START, steps), Crash(path, junk, back))
    ensures var m := Run(START, steps);
      && Allowed(m, Read(m.disk.path, m.disk.files))
      && Allowed(m, Read(path, AfterCrash(m.disk, junk, back)))
  {
    InvForever(START, steps);
  }

  /** The condition is exact: after any other acknowledgement a crash can lose what was acknowledged. */
  lemma UnsettledAckCanBeLost(m: Machine, step: Step) returns (path: Option<string>)
    requires Inv(m) && Enabled(m, step) && !Settled(m, step)
    ensures var t, crash := Next(m, step), Crash(path, map[], {});
      && t.acked == Some(m.at.data) && Enabled(t, crash)
      && !Allowed(t, Read(path, AfterCrash(t.disk, map[], {})))
  {
    var t := Next(m, step);
    path :| path in m.disk.earlier && Read(path, t.disk.files) != Some(m.at.data);
    assert GoodPath(m, path);
  }

  // --- one write without errors -----------------------------------------------------------------------

  function OldPath(m: Machine): string { if m.disk.path.Some? then m.disk.path.value else "" }

  /** The machine once the registry names the new file. */
  function AfterSetPath(m: Machine, data: string, name: string, flushed: bool): Machine {
    m.(at := Pointed(OldPath(m), data),
       since := m.since + {data},
       disk := Disk(m.disk.files[name := File(data, true)], m.disk.erased - {name}, Some(name),
                    if flushed then {} else m.disk.earlier + {m.disk.path}))
  }

  function Steps(data: string, name: string, flushed: bool, last: Step): seq<Step> {
    [GetPath(data), Create(name), WriteNew(|data|), SyncNew, SetPath(flushed), last]
  }

  /** The last step: the old file is removed, unless there was none or it is missing. */
  function LastStep(m: Machine, name: string): Step {
    if OldPath(m) == "" then Return
    else if OldPath(m) in m.disk.files || OldPath(m) == name then RemoveOld
    else Fail
  }

  lemma WriteIsRun(m: Machine, data: string, name: string, flushed: bool)
    requires m.at.Idle? && name != "" && name !in m.disk.files
    ensures var last, t := LastStep(m, name), AfterSetPath(m, data, name, flushed);
      && Enabled(t, last) && CanRun(m, Steps(data, name, flushed, last))
      && Run(m, Steps(data, name, flushed, last)) == Next(t, last)
  {
    var last := LastStep(m, name);
    var o := OldPath(m);
    var a := m.(at := Started(o, data));
    var b := Next(a, Create(name));
    var c := Next(b, WriteNew(|data|));
    var d := Next(c, SyncNew);
    assert data[..|data|] == data;
    assert c.disk.files == m.disk.files[name := File(data, false)];
    assert d.disk.files == m.disk.files[name := File(data, true)];
    var t := AfterSetPath(m, data, name, flushed);
    assert Next(d, SetPath(flushed)) == t;
    RunCons(t, last, []);
    assert [last] + [] == [last];
    RunCons(d, SetPath(flushed), [last]);
    assert [SetPath(flushed)] + [last] == [SetPath(flushed), last];
    RunCons(c, SyncNew, [SetPath(flushed), last]);
    RunCons(b, WriteNew(|data|), [SyncNew, SetPath(flushed), last]);
    RunCons(a, Create(name), [WriteNew(|data|), SyncNew, SetPath(flushed), last]);
    RunCons(m, GetPath(data), [Create(name), WriteNew(|data|), SyncNew, SetPath(flushed), last]);
  }

  /**
   From any disk, a write without errors can be read back exactly when the new file did not get the
   name the registry already had. A registry value that names a missing file makes that possible:
   the writer then removes the file it has just written.
   */
  lemma ReadsBackIff(m: Machine, data: string, name: string, flushed: bool)
    requires m.at.Idle? && name != "" && name !in m.disk.files
    ensures var steps := Steps(data, name, flushed, LastStep(m, name));
      && CanRun(m, steps)
      && var t := Run(m, steps);
      Read(t.disk.path, t.disk.files) == Some(data) <==> m.disk.path != Some(name)
  {
    WriteIsRun(m, data, name, flushed);
  }

  /**
   A registry that is written back lazily can lose any save, the first included: the write without
   errors is acknowledged, and a crash brings back the registry value from before it.
   */
  lemma LazyRegistryLosesSave(m: Machine, name: string, data: string)
    requires Inv(m) && m.at.Idle? && name != "" && name !in m.disk.files
    ensures var steps := Steps(data, name, false, LastStep(m, name));
      && CanRun(m, steps)
      && var t, crash := Run(m, steps), Crash(m.disk.path, map[], {});
      && t.acked == Some(data) && Enabled(t, crash)
      && !Allowed(t, Read(m.disk.path, AfterCrash(t.disk, map[], {})))
  {
    WriteIsRun(m, data, name, false);
  }

  // --- the writer -------------------------------------------------------------------------------------

  /**
   What the system calls of one write do. The registry write is durable at once if `flushed`, and
   before the old file is removed if `flushedLater`.
   */
  datatype Calls = Calls(pathOk: bool, tempOk: bool, name: string, written: nat, syncOk: bool, closeOk: bool,
                         setOk: bool, flushed: bool, flushedLater: bool, removeOk: bool)
  {
    predicate SetsPath(data: string) { pathOk && tempOk && written >= |data| && syncOk && closeOk && setOk }
  }

  /** The state file as its only user, the holder of the saving lock, sees it. */
  class StateFile {
    var disk: Disk
    ghost var machine: Machine    // the machine whose disk this is
    ghost var steps: seq<Step>    // its steps since the start

    ghost predicate Valid() reads this {
      CanRun(START, steps) && Run(START, steps) == machine && machine.disk == disk
    }

    /** Only settled writes have been acknowledged. */
    ghost predicate Sound() reads this { CanRun(START, steps) && AlwaysSettled(START, steps) }

    constructor ()
      ensures Valid() && Sound() && machine == START
    {
      disk, machine, steps := START.disk, START, [];
    }

    ghost method Do(step: Step)
      requires CanRun(START, steps) && Run(START, steps) == machine && Enabled(machine, step)
      modifies this`machine, this`steps
      ensures machine == Next(old(machine), step) && CanRun(START, steps) && Run(START, steps) == machine
      ensures old(Sound()) && Settled(old(machine), step) ==> Sound()
    {
      RunSnoc(START, steps, step);
      if AlwaysSettled(START, steps) && Settled(machine, step) { SettledSnoc(START, steps, step); }
      machine, steps := Next(machine, step), steps + [step];
    }

    /** Writes the new file; on success it is whole and flushed. */
    method WriteNewFile(data: string, c: Calls) returns (err: bool)
      requires Valid() && machine.at.Started? && machine.at.data == data
      requires c.name != "" && c.name !in disk.files         // TempFile makes a new file
      modifies this
      ensures Valid() && machine.acked == old(machine.acked) && machine.since == old(machine.since)
      ensures old(Sound()) ==> Sound()
      ensures err <==> !c.tempOk || c.written < |data| || !c.syncOk || !c.closeOk
      ensures if err then machine.at.Idle? else machine.at == Synced(old(machine.at.before), c.name, data)
      ensures disk.path == old(disk.path) && disk.earlier == old(disk.earlier)
      ensures !err ==> disk.files.Keys == old(disk.files.Keys) + {c.name}
    {
      if !c.tempOk { Do(Fail); return true; }
      disk := disk.(files := disk.files[c.name := File("", false)], erased := disk.erased - {c.name});
      Do(Create(c.name));

      var n := if c.written < |data| then c.written else |data|;
      disk := disk.(files := disk.files[c.name := File(data[..n], false)]);
      Do(WriteNew(n));
      if n < |data| { return true; }

      if !c.syncOk { Do(Fail); return true; }
      disk := disk.(files := disk.files[c.name := disk.files[c.name].(synced := true)]);
      Do(SyncNew);
      if !c.closeOk { Do(Fail); return true; }
      return false;
    }

    /**
     Writes the state through the steps of the machine. Once the registry is set the new state is in
     place, even if removing the old file then fails.
     */
    method WriteFile(data: string, c: Calls) returns (err: bool)
      requires Valid() && machine.at.Idle?
      requires c.name != "" && c.name !in disk.files
      modifies this
      ensures Valid() && machine.at.Idle?
      ensures old(Sound()) && (err || c.flushed || c.flushedLater) ==> Sound()
      ensures machine.acked == (if err then old(machine.acked) else Some(data))
      ensures err <==> !c.SetsPath(data) || var o := old(OldPath(machine));
        o != "" && ((o !in old(disk.files) && o != c.name) || !c.removeOk)
      ensures machine.since == if !err then {} else if c.SetsPath(data) then old(machine.since) + {data} else old(machine.since)
      ensures disk.path == if c.SetsPath(data) then Some(c.name) else old(disk.path)
    {
      if !c.pathOk { return true; }
      var oldFile := if disk.path.Some? then disk.path.value else "";
      Do(GetPath(data));
      err := WriteNewFile(data, c);
      if err { return true; }

      if !c.setOk { Do(Fail); return true; }
      SavePath(c);
      err := RemoveOldFile(oldFile, c.removeOk);
    }

    /** Points the registry at the new file. */
    method SavePath(c: Calls)
      requires Valid() && machine.at.Synced? && machine.at.name == c.name
      modifies this
      ensures Valid() && machine.at == Pointed(old(machine.at.before), old(machine.at.data))
      ensures disk.path == Some(c.name) && disk.files == old(disk.files)
      ensures disk.earlier == if c.flushed || c.flushedLater then {} else old(disk.earlier) + {old(disk.path)}
      ensures machine.acked == old(machine.acked) && machine.since == old(machine.since) + {old(machine.at.data)}
      ensures old(Sound()) ==> Sound()
    {
      disk := disk.(path := Some(c.name), earlier := if c.flushed then {} else disk.earlier + {disk.path});
      Do(SetPath(c.flushed));
      if c.flushedLater {
        disk := disk.(earlier := {});
        Do(FlushRegistry);
      }
    }

    /** Removes the file the registry named before, if there was one. */
    method RemoveOldFile(oldFile: string, removeOk: bool) returns (err: bool)
      requires Valid() && machine.at.Pointed? && machine.at.before == oldFile
      modifies this
      ensures Valid() && machine.at.Idle? && disk.path == old(disk.path)
      ensures old(Sound()) && (err || old(disk.earlier) == {}) ==> Sound()
      ensures err <==> oldFile != "" && (oldFile !in old(disk.files) || !removeOk)
      ensures machine.acked == if err then old(machine.acked) else Some(old(machine.at.data))
      ensures machine.since == if err then old(machine.since) else {}
    {
      if oldFile == "" { Do(Return); return false; }
      if oldFile !in disk.files || !removeOk { Do(Fail); return true; }
      disk := disk.(files := disk.files - {oldFile}, erased := disk.erased[oldFile := disk.files[oldFile]]);
      Do(RemoveOld);
      return false;
    }

    /** While only settled writes are acknowledged, the loader finds an allowed state. */
    method ReadFile() returns (data: Option<string>)
      requires Valid()
      ensures data == Read(disk.path, disk.files)
      ensures Sound() ==> Allowed(machine, data)
    {
      if Sound() { InvForever(START, steps); }
      if disk.path.None? { return None; }
      if disk.path.value !in disk.files { return None; }
      return Some(disk.files[disk.path.value].content);
    }
  }
}
