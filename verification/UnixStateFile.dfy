/**
 The POSIX state writer as a protocol of crash-prone steps: a temporary file is written and synced,
 renamed over the state file, and the directory is synced.

 A crash keeps the contents of synced files and gives any contents to the others. It leaves the
 directory in its current state or in any state it had since it was last synced.
 */
module UnixStateFile {
  import opened Basics

  const DATA_FILE := "ecs_agent_data.json"

  datatype Inode = Inode(content: string, synced: bool)

  type Directory = map<string, nat>

  datatype Disk = Disk(dir: Directory, earlier: set<Directory>, inodes: map<nat, Inode>)

  /** How far writeFile has come. */
  datatype At =
    | Idle
    | Created(tmp: string, data: string)
    | Written(tmp: string, data: string)
    | Synced(tmp: string, data: string)
    | Renamed(data: string)

  /**
   `acked` is the data of the last write that returned without error, or what was found after the
   last crash; `since` holds the data of the later writes that got as far as the rename.
   */
  datatype Machine = Machine(disk: Disk, at: At, acked: Option<string>, since: set<string>)

  datatype Step =
    | Create(data: string, tmp: string, id: nat)
    | WriteTemp(n: nat)
    | SyncTemp
    | Rename
    | SyncDir
    | Fail                                           // any error return
    | Crash(dir: Directory, junk: map<nat, string>)

  /** What readFile returns: no data when the state file does not exist. */
  function Read(dir: Directory, inodes: map<nat, Inode>): Option<string> {
    if DATA_FILE in dir && dir[DATA_FILE] in inodes then Some(inodes[dir[DATA_FILE]].content) else None
  }

  function AfterCrash(inodes: map<nat, Inode>, junk: map<nat, string>): map<nat, Inode> {
    map i | i in inodes ::
      Inode(if !inodes[i].synced && i in junk then junk[i] else inodes[i].content, true)
  }

  predicate Enabled(m: Machine, step: Step) {
    match step
    case Create(_, tmp, id) => m.at.Idle? && tmp !in m.disk.dir && tmp != DATA_FILE && id !in m.disk.inodes
    case WriteTemp(n) => m.at.Created? && m.at.tmp in m.disk.dir && n <= |m.at.data|
    case SyncTemp => m.at.Written? && m.at.tmp in m.disk.dir && m.disk.dir[m.at.tmp] in m.disk.inodes
    case Rename => m.at.Synced? && m.at.tmp in m.disk.dir
    case SyncDir => m.at.Renamed?
    case Fail => !m.at.Idle?
    case Crash(dir, _) => dir == m.disk.dir || dir in m.disk.earlier
  }

  function Next(m: Machine, step: Step): Machine
    requires Enabled(m, step)
  {
    var d := m.disk;
    match step
    case Create(data, tmp, id) =>
      m.(at := Created(tmp, data),
         disk := Disk(d.dir[tmp := id], d.earlier + {d.dir}, d.inodes[id := Inode("", false)]))
    case WriteTemp(n) =>
      m.(at := if n == |m.at.data| then Written(m.at.tmp, m.at.data) else Idle,
         disk := d.(inodes := d.inodes[d.dir[m.at.tmp] := Inode(m.at.data[..n], false)]))
    case SyncTemp =>
      var id := d.dir[m.at.tmp];
      m.(at := Synced(m.at.tmp, m.at.data), disk := d.(inodes := d.inodes[id := d.inodes[id].(synced := true)]))
    case Rename =>
      m.(at := Renamed(m.at.data),
         since := m.since + {m.at.data},
         disk := d.(dir := (d.dir - {m.at.tmp})[DATA_FILE := d.dir[m.at.tmp]], earlier := d.earlier + {d.dir}))
    case SyncDir =>
      m.(at := Idle, acked := Some(m.at.data), since := {}, disk := d.(earlier := {}))
    case Fail => m.(at := Idle)
    case Crash(dir, junk) =>
      var inodes := AfterCrash(d.inodes, junk);
      Machine(Disk(dir, {}, inodes), Idle, Read(dir, inodes), {})
  }

  const START := Machine(Disk(map[], {}, map[]), Idle, None, {})

  predicate CanRun(m: Machine, steps: seq<Step>)
    decreases steps
  {
    steps == [] || (Enabled(m, steps[0]) && CanRun(Next(m, steps[0]), steps[1..]))
  }

  function Run(m: Machine, steps: seq<Step>): Machine
    requires CanRun(m, steps)
    decreases steps
  {
    if steps == [] then m else Run(Next(m, steps[0]), steps[1..])
  }

  // --- what every run keeps ---------------------------------------------------------------------

  /** The loader may find this: the last acknowledged state, or a newer one that was renamed in place. */
  predicate Allowed(m: Machine, found: Option<string>) {
    found == m.acked || (found.Some? && found.value in m.since)
  }

  /** A directory that may survive a crash: its state file, if any, is whole, synced and allowed. */
  predicate GoodDir(m: Machine, dir: Directory) {
    if DATA_FILE in dir then
      && dir[DATA_FILE] in m.disk.inodes
      && m.disk.inodes[dir[DATA_FILE]].synced
      && Allowed(m, Some(m.disk.inodes[dir[DATA_FILE]].content))
    else m.acked.None?
  }

  predicate Unlinked(dir: Directory, id: nat) { DATA_FILE in dir ==> dir[DATA_FILE] != id }

  /** The temporary file is in the directory, and no directory that may survive has it as the state file. */
  predicate TempOK(m: Machine, tmp: string) {
    && tmp != DATA_FILE && tmp in m.disk.dir && m.disk.dir[tmp] in m.disk.inodes
    && Unlinked(m.disk.dir, m.disk.dir[tmp])
    && forall e | e in m.disk.earlier :: Unlinked(e, m.disk.dir[tmp])
  }

  predicate AtOK(m: Machine) {
    match m.at
    case Idle => true
    case Created(tmp, _) => TempOK(m, tmp)
    case Written(tmp, data) => TempOK(m, tmp) && m.disk.inodes[m.disk.dir[tmp]].content == data
    case Synced(tmp, data) => TempOK(m, tmp) && m.disk.inodes[m.disk.dir[tmp]] == Inode(data, true)
    case Renamed(data) => Read(m.disk.dir, m.disk.inodes) == Some(data)
  }

  predicate Inv(m: Machine) {
    && GoodDir(m, m.disk.dir)
    && (forall e | e in m.disk.earlier :: GoodDir(m, e))
    && AtOK(m)
  }

  lemma InvStep(m: Machine, step: Step)
    requires Inv(m) && Enabled(m, step)
    ensures Inv(Next(m, step))
  {
  }

  lemma {:induction false} InvForever(m: Machine, steps: seq<Step>)
    requires Inv(m) && CanRun(m, steps)
    ensures Inv(Run(m, steps))
    decreases steps
  {
    if steps != [] {
      InvStep(m, steps[0]);
      InvForever(Next(m, steps[0]), steps[1..]);
    }
  }

  /**
   Whatever the run did, with whatever errors and crashes, the loader finds the last acknowledged
   state or a newer complete one, both now and after one more crash.
   */
  lemma NeverPartialOrLost(steps: seq<Step>, dir: Directory, junk: map<nat, string>)
    requires CanRun(START, steps) && Enabled(Run(START, steps), Crash(dir, junk))
    ensures var m := Run(START, steps);
      && Allowed(m, Read(m.disk.dir, m.disk.inodes))
      && Allowed(m, Read(dir, AfterCrash(m.disk.inodes, junk)))
  {
    InvForever(START, steps);
  }

  /** After a write that returned without error a crash changes nothing. */
  lemma AckedIsDurable(steps: seq<Step>, dir: Directory, junk: map<nat, string>)
    requires CanRun(START, steps) && Enabled(Run(START, steps), SyncDir)
    requires Enabled(Next(Run(START, steps), SyncDir), Crash(dir, junk))
    ensures Read(dir, AfterCrash(Run(START, steps).disk.inodes, junk)) == Some(Run(START, steps).at.data)
  {
    InvForever(START, steps);
    InvStep(Run(START, steps), SyncDir);
  }

  /** The sync of the directory is needed: until then a crash can bring back the state from before the rename. */
  lemma DirSyncIsNeeded(m: Machine)
    requires Inv(m) && Enabled(m, Rename)
    ensures var n, crash := Next(m, Rename), Crash(m.disk.dir, map[]);
      && Read(n.disk.dir, n.disk.inodes) == Some(m.at.data)
      && Enabled(n, crash)
      && Read(Next(n, crash).disk.dir, Next(n, crash).disk.inodes) == Read(m.disk.dir, m.disk.inodes)
  {
  }

  /** The sync of the file is needed: until then a crash can leave anything in it, though it was written whole. */
  lemma FileSyncIsNeeded(m: Machine, anything: string)
    requires Inv(m) && m.at.Created? && Enabled(m, WriteTemp(|m.at.data|))
    ensures var n, id := Next(m, WriteTemp(|m.at.data|)), m.disk.dir[m.at.tmp];
      && n.disk.inodes[id].content == m.at.data
      && Enabled(n, Crash(n.disk.dir, map[id := anything]))
      && Next(n, Crash(n.disk.dir, map[id := anything])).disk.inodes[id].content == anything
  {
    assert m.at.data[..|m.at.data|] == m.at.data;
  }

  // --- a loader that races with a save --------------------------------------------------------------

  /** The inode a loader holds open has this content, and no writer is working on it. */
  predicate Holds(m: Machine, id: nat, content: string) {
    && id in m.disk.inodes && m.disk.inodes[id].content == content
    && (m.at.Created? || m.at.Written? || m.at.Synced? ==> m.at.tmp in m.disk.dir ==> m.disk.dir[m.at.tmp] != id)
  }

  /** A loader that opened the state file reads the state that was in place then, whatever is saved meanwhile. */
  lemma {:induction false} OpenFileIsStable(m: Machine, steps: seq<Step>, id: nat, content: string)
    requires CanRun(m, steps) && Holds(m, id, content) && forall i | 0 <= i < |steps| :: !steps[i].Crash?
    ensures Holds(Run(m, steps), id, content)
    decreases steps
  {
    if steps != [] {
      assert !steps[0].Crash?;
      assert Holds(Next(m, steps[0]), id, content);
      OpenFileIsStable(Next(m, steps[0]), steps[1..], id, content);
    }
  }

  lemma OpenedIsHeld(m: Machine)
    requires Inv(m) && DATA_FILE in m.disk.dir
    ensures Holds(m, m.disk.dir[DATA_FILE], Read(m.disk.dir, m.disk.inodes).value)
  {
  }

  // --- the writer -------------------------------------------------------------------------------------

  /** What the system calls of one write do. */
  datatype Calls = Calls(tempOk: bool, tmp: string, id: nat, written: nat, syncOk: bool, renameOk: bool, openDirOk: bool, dirSyncOk: bool)

  lemma {:induction false} RunSnoc(m: Machine, steps: seq<Step>, step: Step)
    requires CanRun(m, steps) && Enabled(Run(m, steps), step)
    ensures CanRun(m, steps + [step]) && Run(m, steps + [step]) == Next(Run(m, steps), step)
    decreases steps
  {
    if steps == [] {
      assert [step][1..] == [];
    } else {
      RunSnoc(Next(m, steps[0]), steps[1..], step);
      assert (steps + [step])[1..] == steps[1..] + [step];
    }
  }

  /** The state file as its only writer, the holder of the saving lock, sees it. */
  class StateFile {
    var disk: Disk
    ghost var machine: Machine    // the machine whose disk this is
    ghost var steps: seq<Step>    // its steps since the start

    ghost predicate Valid() reads this {
      CanRun(START, steps) && Run(START, steps) == machine && machine.disk == disk
    }

    constructor ()
      ensures Valid() && machine == START
    {
      disk, machine, steps := START.disk, START, [];
    }

    ghost method Do(step: Step)
      requires CanRun(START, steps) && Run(START, steps) == machine && Enabled(machine, step)
      modifies this`machine, this`steps
      ensures machine == Next(old(machine), step) && CanRun(START, steps) && Run(START, steps) == machine
    {
      RunSnoc(START, steps, step);
      machine, steps := Next(machine, step), steps + [step];
    }

    /**
     Writes the state through the steps of the machine. An error before the rename leaves what a
     loader finds as it was; an error after it leaves the new state in place, unacknowledged.
     */
    method WriteFile(data: string, c: Calls) returns (err: bool)
      requires Valid() && machine.at.Idle?
      requires c.tmp !in disk.dir && c.tmp != DATA_FILE && c.id !in disk.inodes   // TempFile makes a new file
      modifies this
      ensures Valid() && machine.at.Idle?
      ensures err <==> !c.tempOk || c.written < |data| || !c.syncOk || !c.renameOk || !c.openDirOk || !c.dirSyncOk
      ensures machine.acked == (if err then old(machine.acked) else Some(data))
      ensures machine.since ==
        if !err then {}
        else if c.tempOk && c.written >= |data| && c.syncOk && c.renameOk then old(machine.since) + {data}
        else old(machine.since)
    {
      if !c.tempOk { return true; }
      disk := Disk(disk.dir[c.tmp := c.id], disk.earlier + {disk.dir}, disk.inodes[c.id := Inode("", false)]);
      Do(Create(data, c.tmp, c.id));

      var n := if c.written < |data| then c.written else |data|;
      disk := disk.(inodes := disk.inodes[c.id := Inode(data[..n], false)]);
      Do(WriteTemp(n));
      if n < |data| { return true; }

      if !c.syncOk { Do(Fail); return true; }
      disk := disk.(inodes := disk.inodes[c.id := disk.inodes[c.id].(synced := true)]);
      Do(SyncTemp);

      if !c.renameOk { Do(Fail); return true; }
      disk := disk.(dir := (disk.dir - {c.tmp})[DATA_FILE := c.id], earlier := disk.earlier + {disk.dir});
      Do(Rename);

      if !c.openDirOk || !c.dirSyncOk { Do(Fail); return true; }
      disk := disk.(earlier := {});
      Do(SyncDir);
      return false;
    }

    /** The loader, at rest or racing with a save, finds an allowed state. */
    method ReadFile() returns (data: Option<string>)
      requires Valid()
      ensures data == Read(disk.dir, disk.inodes) && Allowed(machine, data)
    {
      InvForever(START, steps);
      if DATA_FILE !in disk.dir { return None; }
      return Some(disk.inodes[disk.dir[DATA_FILE]].content);
    }
  }
}
