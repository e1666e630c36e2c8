/**
  The lock scopes of a vault path (src/accounts/vault.rs): a process-local flag found through a
  map of weak references, paired with an exclusive file lock.

  A flag's `strong` field is the reference count of its `Arc`; the map keeps only weak references,
  so an entry whose count is zero is dead.  A task passes through `acquire` and the drops one
  atomic step at a time, and any number of processes share the file lock.  The file lock is
  granted against other processes only, and closing any descriptor gives up the whole process's
  lock: the weakest behaviour of the platforms in use, under which exclusion must still hold.
 */
module LockRegistry {
  type Path = string
  type Process = nat
  type TaskId = nat

  datatype Slot = Slot(process: Process, path: Path)
  datatype Flag = Flag(slot: Slot, held: bool, strong: nat)

  datatype Stage =
    | Referring   // has a strong reference, before the compare-exchange
    | Flagged     // has set the flag, before the file lock
    | Holding     // `acquire` has succeeded
    | Unlocked    // the file lock is given up, the flag is still set
    | Released    // the flag is clear, the reference is still counted
  {
    predicate Owns() { Flagged? || Holding? || Unlocked? }
  }

  datatype Task = Task(slot: Slot, flag: nat, stage: Stage)

  /** `locks` is the weak map; a flag's index is the identity of its allocation. */
  datatype Table = Table(locks: map<Slot, nat>, flags: seq<Flag>)
  datatype State = State(table: Table, tasks: map<TaskId, Task>, files: map<Path, Process>)

  const INITIAL: State := State(Table(map[], []), map[], map[])

  datatype Step =
    | Lookup(task: TaskId, slot: Slot)
    | Exchange(task: TaskId)
    | LockFile(task: TaskId)
    | Abandon(task: TaskId, closes: bool)
    | Unlock(task: TaskId)
    | Clear(task: TaskId)
    | DropReference(task: TaskId)
    | Crash(process: Process)

  // ------------------------------------------------------------------ the weak map

  predicate Live(t: Table, slot: Slot) {
    slot in t.locks && t.locks[slot] < |t.flags| && t.flags[t.locks[slot]].strong > 0
  }

  /** `retain`: a process forgets its entries whose flags nobody refers to. */
  function Retained(t: Table, process: Process): map<Slot, nat> {
    map slot | slot in t.locks && (slot.process == process ==> Live(t, slot)) :: t.locks[slot]
  }

  function Strengthened(t: Table, flag: nat, change: int): Table
    requires flag < |t.flags| && t.flags[flag].strong + change >= 0
  {
    t.(flags := t.flags[flag := t.flags[flag].(strong := t.flags[flag].strong + change)])
  }

  /** The locked region of `acquire_process_lock`: the table it leaves and the flag it returns. */
  function Referred(t: Table, slot: Slot): (Table, nat) {
    if Live(t, slot) then
      (Strengthened(t.(locks := Retained(t, slot.process)), t.locks[slot], 1), t.locks[slot])
    else
      (Table(Retained(t, slot.process)[slot := |t.flags|], t.flags + [Flag(slot, false, 1)]), |t.flags|)
  }

  /** The process's static map, whose entries are all its own. */
  class LockMap {
    var locks: map<Slot, nat>
    var flags: seq<Flag>

    function Value(): Table
      reads this
    {
      Table(locks, flags)
    }

    method Retain(process: Process)
      modifies this`locks
      ensures locks == old(Retained(Value(), process))
    {
      var pending := locks.Keys;
      while pending != {}
        invariant pending <= old(locks.Keys)
        invariant locks == map s | s in old(locks)
            && (s in pending || (s.process == process ==> Live(old(Value()), s))) :: old(locks)[s]
        decreases |pending|
      {
        var slot :| slot in pending;
        pending := pending - {slot};
        if slot.process == process && !(locks[slot] < |flags| && flags[locks[slot]].strong > 0) {
          locks := locks - {slot};
        }
      }
    }

    method Refer(slot: Slot) returns (flag: nat)
      modifies this
      ensures (Value(), flag) == Referred(old(Value()), slot)
    {
      Retain(slot.process);
      if slot in locks && locks[slot] < |flags| {
        flag := locks[slot];
        if flags[flag].strong > 0 {
          flags := flags[flag := flags[flag].(strong := flags[flag].strong + 1)];
          return;
        }
      }
      flag := |flags|;
      flags := flags + [Flag(slot, false, 1)];
      locks := locks[slot := flag];
    }
  }

  // ------------------------------------------------------------------ steps

  function Moved(s: State, task: TaskId, stage: Stage): State
    requires task in s.tasks
  {
    s.(tasks := s.tasks[task := s.tasks[task].(stage := stage)])
  }

  function SetHeld(t: Table, flag: nat, held: bool): Table
    requires flag < |t.flags|
  {
    t.(flags := t.flags[flag := t.flags[flag].(held := held)])
  }

  function CloseFile(files: map<Path, Process>, slot: Slot): map<Path, Process> {
    if slot.path in files && files[slot.path] == slot.process then files - {slot.path} else files
  }

  predicate Ready(s: State, task: TaskId, stage: Stage) {
    task in s.tasks && s.tasks[task].stage == stage && s.tasks[task].flag < |s.table.flags|
  }

  function Exit(t: Table, process: Process): Table {
    Table(map slot | slot in t.locks && slot.process != process :: t.locks[slot],
          seq(|t.flags|, i requires 0 <= i < |t.flags| =>
            if t.flags[i].slot.process == process then Flag(t.flags[i].slot, false, 0) else t.flags[i]))
  }

  function Apply(s: State, step: Step): State {
    match step
    case Lookup(task, slot) =>
      if task in s.tasks then s
      else
        var (table, flag) := Referred(s.table, slot);
        s.(table := table, tasks := s.tasks[task := Task(slot, flag, Referring)])
    case Exchange(task) =>
      if !Ready(s, task, Referring) then s
      else if s.table.flags[s.tasks[task].flag].held then Moved(s, task, Released)
      else Moved(s, task, Flagged).(table := SetHeld(s.table, s.tasks[task].flag, true))
    case LockFile(task) =>
      if !Ready(s, task, Flagged) then s
      else
        var slot := s.tasks[task].slot;
        if slot.path in s.files && s.files[slot.path] != slot.process then s
        else Moved(s, task, Holding).(files := s.files[slot.path := slot.process])
    case Abandon(task, closes) =>
      if !Ready(s, task, Flagged) then s
      else
        Moved(s, task, Unlocked).(files := if closes then CloseFile(s.files, s.tasks[task].slot) else s.files)
    case Unlock(task) =>
      if !Ready(s, task, Holding) then s
      else Moved(s, task, Unlocked).(files := CloseFile(s.files, s.tasks[task].slot))
    case Clear(task) =>
      if !Ready(s, task, Unlocked) then s
      else Moved(s, task, Released).(table := SetHeld(s.table, s.tasks[task].flag, false))
    case DropReference(task) =>
      if !Ready(s, task, Released) || s.table.flags[s.tasks[task].flag].strong == 0 then s
      else s.(table := Strengthened(s.table, s.tasks[task].flag, -1), tasks := s.tasks - {task})
    case Crash(process) =>
      State(Exit(s.table, process),
            map t | t in s.tasks && s.tasks[t].slot.process != process :: s.tasks[t],
            map path | path in s.files && s.files[path] != process :: s.files[path])
  }

  function Run(steps: seq<Step>): State {
    if steps == [] then INITIAL else Apply(Run(steps[..|steps| - 1]), steps[|steps| - 1])
  }

  // ------------------------------------------------------------------ invariant

  function Referrers(tasks: map<TaskId, Task>, flag: nat): set<TaskId> {
    set t | t in tasks && tasks[t].flag == flag
  }

  /** Reference counts are exact, so a counted flag is never forgotten by the weak map. */
  ghost predicate Counted(flags: seq<Flag>, tasks: map<TaskId, Task>) {
    forall f :: 0 <= f < |flags| ==> flags[f].strong == |Referrers(tasks, f)|
  }

  ghost predicate Placed(flags: seq<Flag>, tasks: map<TaskId, Task>) {
    forall t :: t in tasks ==> tasks[t].flag < |flags| && flags[tasks[t].flag].slot == tasks[t].slot
  }

  ghost predicate Registered(locks: map<Slot, nat>, flags: seq<Flag>) {
    && (forall slot :: slot in locks ==> locks[slot] < |flags| && flags[locks[slot]].slot == slot)
    && (forall f :: 0 <= f < |flags| && flags[f].strong > 0 ==>
          flags[f].slot in locks && locks[flags[f].slot] == f)
  }

  predicate OwnedBy(tasks: map<TaskId, Task>, flag: nat, t: TaskId) {
    t in tasks && tasks[t].flag == flag && tasks[t].stage.Owns()
  }

  /** A flag is set exactly while it has an owner, and it has at most one. */
  ghost predicate Owned(flags: seq<Flag>, tasks: map<TaskId, Task>) {
    && (forall f, t, u :: OwnedBy(tasks, f, t) && OwnedBy(tasks, f, u) ==> t == u)
    && (forall f :: 0 <= f < |flags| ==> (flags[f].held <==> exists t :: OwnedBy(tasks, f, t)))
  }

  predicate HeldBy(tasks: map<TaskId, Task>, slot: Slot, t: TaskId) {
    t in tasks && tasks[t].stage.Holding? && tasks[t].slot == slot
  }

  /** A process owns the file lock exactly while one of its tasks holds the path. */
  ghost predicate Locked(tasks: map<TaskId, Task>, files: map<Path, Process>) {
    && (forall slot, t :: HeldBy(tasks, slot, t) ==> slot.path in files && files[slot.path] == slot.process)
    && (forall path :: path in files ==> exists t :: HeldBy(tasks, Slot(files[path], path), t))
  }

  ghost predicate Inv(s: State) {
    && Counted(s.table.flags, s.tasks)
    && Placed(s.table.flags, s.tasks)
    && Registered(s.table.locks, s.table.flags)
    && Owned(s.table.flags, s.tasks)
    && Locked(s.tasks, s.files)
  }

  /** A referenced flag is live, so the map finds it. */
  lemma Found(s: State, t: TaskId)
    requires Inv(s) && t in s.tasks
    ensures Live(s.table, s.tasks[t].slot) && s.table.locks[s.tasks[t].slot] == s.tasks[t].flag
  {
    hide Owned, Locked;
    assert t in Referrers(s.tasks, s.tasks[t].flag);
  }

  /** Two tasks that own a path in one process own the same flag, hence are the same task. */
  lemma OneOwner(s: State, t: TaskId, u: TaskId)
    requires Inv(s) && t in s.tasks && u in s.tasks
    requires s.tasks[t].stage.Owns() && s.tasks[u].stage.Owns() && s.tasks[t].slot == s.tasks[u].slot
    ensures t == u
  {
    hide Counted, Placed, Registered, Locked;
    Found(s, t);
    Found(s, u);
    assert OwnedBy(s.tasks, s.tasks[t].flag, t) && OwnedBy(s.tasks, s.tasks[t].flag, u);
  }

  // ------------------------------------------------------------------ what a step keeps

  /** Owners unchanged, except that a crash takes away whole flags. */
  lemma {:induction false} OwnersKept(
      flags: seq<Flag>, tasks: map<TaskId, Task>, flags': seq<Flag>, tasks': map<TaskId, Task>,
      dead: set<nat>)
    requires Owned(flags, tasks) && |flags| <= |flags'|
    requires forall f, t :: OwnedBy(tasks', f, t) <==> OwnedBy(tasks, f, t) && f !in dead
    requires forall f :: 0 <= f < |flags| ==> (flags'[f].held <==> flags[f].held && f !in dead)
    requires forall f :: |flags| <= f < |flags'| ==> !flags'[f].held && forall t :: !OwnedBy(tasks, f, t)
    ensures Owned(flags', tasks')
  {
  }

  /** The task that sets or clears a flag is its only owner. */
  lemma OwnerMoves(flags: seq<Flag>, tasks: map<TaskId, Task>, task: TaskId, stage: Stage)
    requires Owned(flags, tasks) && task in tasks && tasks[task].flag < |flags|
    requires tasks[task].stage.Owns() || !flags[tasks[task].flag].held
    ensures Owned(flags[tasks[task].flag := flags[tasks[task].flag].(held := stage.Owns())],
                  tasks[task := tasks[task].(stage := stage)])
  {
    var flag := tasks[task].flag;
    var tasks' := tasks[task := tasks[task].(stage := stage)];
    var flags' := flags[flag := flags[flag].(held := stage.Owns())];
    assert tasks[task].stage.Owns() ==> OwnedBy(tasks, flag, task);
    forall f, t | t != task ensures OwnedBy(tasks', f, t) <==> OwnedBy(tasks, f, t) && f != flag {
      assert OwnedBy(tasks, f, t) ==> f != flag;
    }
    assert OwnedBy(tasks', flag, task) <==> stage.Owns();
    forall f | 0 <= f < |flags| ensures flags'[f].held <==> exists t :: OwnedBy(tasks', f, t) {
      if f != flag && flags[f].held {
        var t :| OwnedBy(tasks, f, t);
        assert OwnedBy(tasks', f, t);
      }
    }
  }

  lemma {:induction false} HoldersKept(tasks: map<TaskId, Task>, tasks': map<TaskId, Task>, files: map<Path, Process>)
    requires Locked(tasks, files)
    requires forall slot, t :: HeldBy(tasks', slot, t) <==> HeldBy(tasks, slot, t)
    ensures Locked(tasks', files)
  {
  }

  lemma {:induction false} JoinCounts(
      flags: seq<Flag>, tasks: map<TaskId, Task>, task: TaskId, entry: Task, flags': seq<Flag>)
    requires Counted(flags, tasks) && Placed(flags, tasks) && task !in tasks
    requires |flags| <= |flags'| && entry.flag < |flags'|
    requires forall f :: 0 <= f < |flags'| ==>
      flags'[f].strong == (if f < |flags| then flags[f].strong else 0) + if f == entry.flag then 1 else 0
    ensures Counted(flags', tasks[task := entry])
  {
    forall f | 0 <= f < |flags'| ensures flags'[f].strong == |Referrers(tasks[task := entry], f)| {
      assert Referrers(tasks[task := entry], f) == Referrers(tasks, f) + if f == entry.flag then {task} else {};
      if |flags| <= f {
        assert Referrers(tasks, f) == {};
      }
    }
  }

  lemma LookupRegisters(table: Table, slot: Slot)
    requires Registered(table.locks, table.flags)
    ensures var (next, flag) := Referred(table, slot);
      && Registered(next.locks, next.flags)
      && flag < |next.flags| && next.flags[flag].slot == slot
      && (flag < |table.flags| <==> Live(table, slot))
  {
  }

  lemma LookupOwned(s: State, task: TaskId, slot: Slot)
    requires Inv(s) && task !in s.tasks
    ensures var next := Apply(s, Lookup(task, slot)); Owned(next.table.flags, next.tasks)
  {
    hide Owned, Locked, Counted, Registered, Retained;
    var next := Apply(s, Lookup(task, slot));
    OwnersKept(s.table.flags, s.tasks, next.table.flags, next.tasks, {});
  }

  lemma LookupKeeps(s: State, task: TaskId, slot: Slot)
    requires Inv(s) && task !in s.tasks
    ensures Inv(Apply(s, Lookup(task, slot)))
  {
    hide Owned, Locked, Counted, Registered, Retained;
    LookupOwned(s, task, slot);
    LookupRegisters(s.table, slot);
    var next := Apply(s, Lookup(task, slot));
    JoinCounts(s.table.flags, s.tasks, task, next.tasks[task], next.table.flags);
    HoldersKept(s.tasks, next.tasks, s.files);
  }

  lemma StageKeepsCount(flags: seq<Flag>, tasks: map<TaskId, Task>, task: TaskId, stage: Stage)
    requires Counted(flags, tasks) && task in tasks
    ensures Counted(flags, tasks[task := tasks[task].(stage := stage)])
  {
    forall f | 0 <= f < |flags|
      ensures Referrers(tasks[task := tasks[task].(stage := stage)], f) == Referrers(tasks, f)
    {
    }
  }

  lemma HeldKeepsCount(flags: seq<Flag>, tasks: map<TaskId, Task>, flag: nat, held: bool)
    requires Counted(flags, tasks) && flag < |flags|
    ensures Counted(flags[flag := flags[flag].(held := held)], tasks)
  {
  }

  /** Everything but the file lock, after a task moves on within its flag. */
  lemma MoveKeeps(s: State, task: TaskId, stage: Stage, files: map<Path, Process>)
    requires Inv(s) && task in s.tasks && s.tasks[task].flag < |s.table.flags|
    requires s.tasks[task].stage.Owns() || !s.table.flags[s.tasks[task].flag].held
    requires Locked(Moved(s, task, stage).tasks, files)
    ensures Inv(Moved(s, task, stage).(table := SetHeld(s.table, s.tasks[task].flag, stage.Owns()), files := files))
  {
    hide Owned, Locked, Counted;
    StageKeepsCount(s.table.flags, s.tasks, task, stage);
    HeldKeepsCount(s.table.flags, Moved(s, task, stage).tasks, s.tasks[task].flag, stage.Owns());
    OwnerMoves(s.table.flags, s.tasks, task, stage);
  }

  lemma ExchangeKeeps(s: State, task: TaskId)
    requires Inv(s) && Ready(s, task, Referring)
    ensures Inv(Apply(s, Exchange(task)))
  {
    hide Owned, Locked, Counted;
    var next := Apply(s, Exchange(task));
    HoldersKept(s.tasks, next.tasks, s.files);
    if s.table.flags[s.tasks[task].flag].held {
      StageKeepsCount(s.table.flags, s.tasks, task, Released);
      OwnersKept(s.table.flags, s.tasks, s.table.flags, next.tasks, {});
    } else {
      MoveKeeps(s, task, Flagged, s.files);
    }
  }

  /** An owner's flag is set already. */
  lemma OwnerSet(s: State, task: TaskId)
    requires Inv(s) && task in s.tasks && s.tasks[task].stage.Owns()
    ensures s.tasks[task].flag < |s.table.flags| && SetHeld(s.table, s.tasks[task].flag, true) == s.table
  {
    hide Counted, Registered, Locked;
    assert OwnedBy(s.tasks, s.tasks[task].flag, task);
  }

  lemma LockFileKeeps(s: State, task: TaskId)
    requires Inv(s) && Ready(s, task, Flagged)
    ensures Inv(Apply(s, LockFile(task)))
  {
    var next := Apply(s, LockFile(task));
    if next != s {
      assert Locked(next.tasks, next.files) by {
        hide Owned, Counted, Placed, Registered;
        forall path | path in next.files ensures exists t :: HeldBy(next.tasks, Slot(next.files[path], path), t) {
          if path == s.tasks[task].slot.path {
            assert HeldBy(next.tasks, s.tasks[task].slot, task);
          } else {
            var t :| HeldBy(s.tasks, Slot(s.files[path], path), t);
            assert HeldBy(next.tasks, Slot(s.files[path], path), t);
          }
        }
        forall slot, t | HeldBy(next.tasks, slot, t)
          ensures slot.path in next.files && next.files[slot.path] == slot.process
        {
          assert t != task ==> HeldBy(s.tasks, slot, t);
        }
      }
      hide Inv, Locked;
      OwnerSet(s, task);
      MoveKeeps(s, task, Holding, next.files);
    }
  }

  /** Giving up the process's file lock harms no other task: this one owns the path in its process. */
  lemma CloseKeeps(s: State, task: TaskId, files: map<Path, Process>)
    requires Inv(s) && (Ready(s, task, Flagged) || Ready(s, task, Holding))
    requires files == CloseFile(s.files, s.tasks[task].slot) || (files == s.files && Ready(s, task, Flagged))
    ensures Inv(Moved(s, task, Unlocked).(files := files))
  {
    var tasks' := Moved(s, task, Unlocked).tasks;
    var mine := s.tasks[task].slot;
    forall t | HeldBy(s.tasks, mine, t) ensures t == task {
      OneOwner(s, t, task);
    }
    assert Locked(tasks', files) by {
      hide Owned, Counted, Placed, Registered;
      forall slot, t | HeldBy(tasks', slot, t)
        ensures slot.path in files && files[slot.path] == slot.process
      {
        assert HeldBy(s.tasks, slot, t);
      }
      forall path | path in files ensures exists t :: HeldBy(tasks', Slot(files[path], path), t) {
        var t :| HeldBy(s.tasks, Slot(s.files[path], path), t);
        assert HeldBy(tasks', Slot(files[path], path), t);
      }
    }
    hide Inv, Locked;
    OwnerSet(s, task);
    MoveKeeps(s, task, Unlocked, files);
  }

  lemma ClearKeeps(s: State, task: TaskId)
    requires Inv(s) && Ready(s, task, Unlocked)
    ensures Inv(Apply(s, Clear(task)))
  {
    hide Owned, Counted, Locked;
    HoldersKept(s.tasks, Moved(s, task, Released).tasks, s.files);
    MoveKeeps(s, task, Released, s.files);
  }

  lemma DropCounts(s: State, task: TaskId)
    requires Inv(s) && Ready(s, task, Released)
    ensures s.table.flags[s.tasks[task].flag].strong > 0
    ensures var next := Apply(s, DropReference(task)); Counted(next.table.flags, next.tasks)
  {
    hide Owned, Locked, Registered;
    var next := Apply(s, DropReference(task));
    var flag := s.tasks[task].flag;
    assert task in Referrers(s.tasks, flag);
    assert next.tasks == s.tasks - {task};
    hide Apply, Ready;
    forall f | 0 <= f < |next.table.flags|
      ensures next.table.flags[f].strong == |Referrers(next.tasks, f)|
    {
      assert Referrers(next.tasks, f) == Referrers(s.tasks, f) - if f == flag then {task} else {};
    }
  }

  lemma DropKeeps(s: State, task: TaskId)
    requires Inv(s) && Ready(s, task, Released)
    ensures Inv(Apply(s, DropReference(task)))
  {
    hide Owned, Locked, Counted;
    DropCounts(s, task);
    var next := Apply(s, DropReference(task));
    OwnersKept(s.table.flags, s.tasks, next.table.flags, next.tasks, {});
    HoldersKept(s.tasks, next.tasks, s.files);
  }

  lemma CrashCounts(s: State, process: Process)
    requires Inv(s)
    ensures var next := Apply(s, Crash(process)); Counted(next.table.flags, next.tasks)
  {
    hide Owned, Locked, Registered;
    var next := Apply(s, Crash(process));
    forall f | 0 <= f < |next.table.flags|
      ensures next.table.flags[f].strong == |Referrers(next.tasks, f)|
    {
      if s.table.flags[f].slot.process == process {
        assert Referrers(next.tasks, f) == {};
      } else {
        assert Referrers(next.tasks, f) == Referrers(s.tasks, f);
      }
    }
  }

  lemma CrashLocks(s: State, process: Process)
    requires Inv(s)
    ensures var next := Apply(s, Crash(process)); Locked(next.tasks, next.files)
  {
    hide Owned, Counted, Registered, Placed;
    var next := Apply(s, Crash(process));
    forall slot, t | HeldBy(next.tasks, slot, t)
      ensures slot.path in next.files && next.files[slot.path] == slot.process
    {
      assert HeldBy(s.tasks, slot, t);
    }
    forall path | path in next.files ensures exists t :: HeldBy(next.tasks, Slot(next.files[path], path), t) {
      var t :| HeldBy(s.tasks, Slot(s.files[path], path), t);
      assert HeldBy(next.tasks, Slot(s.files[path], path), t);
    }
  }

  lemma CrashKeeps(s: State, process: Process)
    requires Inv(s)
    ensures Inv(Apply(s, Crash(process)))
  {
    hide Owned, Locked, Counted;
    CrashCounts(s, process);
    CrashLocks(s, process);
    var next := Apply(s, Crash(process));
    var dead := set f | 0 <= f < |s.table.flags| && s.table.flags[f].slot.process == process;
    OwnersKept(s.table.flags, s.tasks, next.table.flags, next.tasks, dead);
  }

  lemma StepKeeps(s: State, step: Step)
    requires Inv(s)
    ensures Inv(Apply(s, step))
  {
    hide Inv, Referred, Exit;
    match step
    case Lookup(task, slot) => if task !in s.tasks { LookupKeeps(s, task, slot); }
    case Exchange(task) => if Ready(s, task, Referring) { ExchangeKeeps(s, task); }
    case LockFile(task) => if Ready(s, task, Flagged) { LockFileKeeps(s, task); }
    case Abandon(task, closes) =>
      if Ready(s, task, Flagged) {
        CloseKeeps(s, task, if closes then CloseFile(s.files, s.tasks[task].slot) else s.files);
      }
    case Unlock(task) =>
      if Ready(s, task, Holding) { CloseKeeps(s, task, CloseFile(s.files, s.tasks[task].slot)); }
    case Clear(task) => if Ready(s, task, Unlocked) { ClearKeeps(s, task); }
    case DropReference(task) => if Ready(s, task, Released) { DropKeeps(s, task); }
    case Crash(process) => CrashKeeps(s, process);
  }

  lemma {:induction false} RunInv(steps: seq<Step>)
    ensures Inv(Run(steps))
  {
    if steps != [] {
      RunInv(steps[..|steps| - 1]);
      StepKeeps(Run(steps[..|steps| - 1]), steps[|steps| - 1]);
    }
  }

  // ------------------------------------------------------------------ theorems

  /** In every run a path has at most one holder, over all tasks of all processes. */
  lemma MutualExclusion(steps: seq<Step>, t: TaskId, u: TaskId)
    requires t in Run(steps).tasks && Run(steps).tasks[t].stage.Holding?
    requires u in Run(steps).tasks && Run(steps).tasks[u].stage.Holding?
    requires Run(steps).tasks[t].slot.path == Run(steps).tasks[u].slot.path
    ensures t == u
  {
    hide Run, Owned, Counted, Registered, Placed;
    RunInv(steps);
    var s := Run(steps);
    assert HeldBy(s.tasks, s.tasks[t].slot, t) && HeldBy(s.tasks, s.tasks[u].slot, u);
    OneOwner(s, t, u);
  }

  /** All tasks of a process that refer to a flag for a path refer to one flag, the one the map finds. */
  lemma {:induction false} OneLiveFlag(steps: seq<Step>, t: TaskId, u: TaskId)
    requires t in Run(steps).tasks && u in Run(steps).tasks
    requires Run(steps).tasks[t].slot == Run(steps).tasks[u].slot
    ensures Run(steps).tasks[t].flag == Run(steps).tasks[u].flag
    ensures Live(Run(steps).table, Run(steps).tasks[t].slot)
    ensures Run(steps).table.locks[Run(steps).tasks[t].slot] == Run(steps).tasks[t].flag
  {
    hide Run, Inv;
    RunInv(steps);
    Found(Run(steps), t);
    Found(Run(steps), u);
  }

  lemma {:induction false} FlagIsClear(s: State, task: TaskId, slot: Slot)
    requires Inv(s) && task !in s.tasks
    requires forall t :: t in s.tasks && s.tasks[t].slot == slot ==> !s.tasks[t].stage.Owns()
    ensures var next := Apply(s, Lookup(task, slot)); !next.table.flags[next.tasks[task].flag].held
  {
  }

  lemma {:induction false} FileIsFree(s: State, path: Path)
    requires Inv(s) && forall t :: t in s.tasks && s.tasks[t].slot.path == path ==> !s.tasks[t].stage.Holding?
    ensures path !in s.files
  {
  }

  /**
    No lock is lost: whatever failed, crashed or was forgotten before, a new task gets the path as
    soon as no task of its process owns it and no task of any process holds it.
   */
  lemma {:induction false} FreePathIsAcquired(steps: seq<Step>, task: TaskId, slot: Slot)
    requires task !in Run(steps).tasks
    requires forall t :: t in Run(steps).tasks ==>
      && (Run(steps).tasks[t].slot == slot ==> !Run(steps).tasks[t].stage.Owns())
      && (Run(steps).tasks[t].slot.path == slot.path ==> !Run(steps).tasks[t].stage.Holding?)
    ensures var next := Apply(Apply(Apply(Run(steps), Lookup(task, slot)), Exchange(task)), LockFile(task));
      next.tasks[task].stage == Holding
  {
    hide Run, Inv;
    RunInv(steps);
    FlagIsClear(Run(steps), task, slot);
    FileIsFree(Run(steps), slot.path);
  }

  /**
    A holder that lets go leaves no trace: its task and reference are gone, its flag is clear, nobody has
    the file, and every other task is where it was; so the path can be acquired again.
   */
  lemma {:induction false} HolderLetsGo(steps: seq<Step>, task: TaskId)
    requires task in Run(steps).tasks && Run(steps).tasks[task].stage.Holding?
    ensures var s := Run(steps);
      var flag := s.tasks[task].flag;
      var next := Apply(Apply(Apply(s, Unlock(task)), Clear(task)), DropReference(task));
      && next.tasks == s.tasks - {task} && next.files == s.files - {s.tasks[task].slot.path}
      && flag < |s.table.flags| && s.table.flags[flag].strong > 0
      && next.table == Table(s.table.locks, s.table.flags[flag :=
           Flag(s.table.flags[flag].slot, false, s.table.flags[flag].strong - 1)])
  {
    hide Run, Registered, Owned;
    RunInv(steps);
    var s := Run(steps);
    assert HeldBy(s.tasks, s.tasks[task].slot, task);
    assert task in Referrers(s.tasks, s.tasks[task].flag);
    hide Counted, Locked;
    LetsGo(s, task);
  }

  lemma LetsGo(s: State, task: TaskId)
    requires Ready(s, task, Holding) && s.table.flags[s.tasks[task].flag].strong > 0
    requires var slot := s.tasks[task].slot; slot.path in s.files && s.files[slot.path] == slot.process
    ensures var flag := s.tasks[task].flag;
      Apply(Apply(Apply(s, Unlock(task)), Clear(task)), DropReference(task)) == State(
        Table(s.table.locks, s.table.flags[flag :=
          Flag(s.table.flags[flag].slot, false, s.table.flags[flag].strong - 1)]),
        s.tasks - {task}, s.files - {s.tasks[task].slot.path})
  {
    var s1 := Apply(s, Unlock(task));
    assert s1 == s.(tasks := s.tasks[task := s.tasks[task].(stage := Unlocked)],
                    files := s.files - {s.tasks[task].slot.path});
    var s2 := Apply(s1, Clear(task));
    assert s2.tasks == s.tasks[task := s.tasks[task].(stage := Released)];
    assert s2.tasks - {task} == s.tasks - {task};
  }

  /** A task that is refused the flag or the file gives its reference back and disturbs nobody. */
  lemma {:induction false} RefusedLetsGo(steps: seq<Step>, task: TaskId, closes: bool)
    requires task in Run(steps).tasks && Run(steps).tasks[task].stage.Flagged?
    ensures var s := Run(steps);
      var next := Apply(Apply(Apply(s, Abandon(task, closes)), Clear(task)), DropReference(task));
      && next.tasks == s.tasks - {task} && next.files == s.files
  {
    hide Run, Registered;
    RunInv(steps);
    var s := Run(steps);
    assert task in Referrers(s.tasks, s.tasks[task].flag);
    assert OwnedBy(s.tasks, s.tasks[task].flag, task);
    NoFileWhileFlagged(s, task);
    hide Counted, Owned, Locked;
    GivesUp(s, task, closes);
  }

  lemma NoFileWhileFlagged(s: State, task: TaskId)
    requires Inv(s) && task in s.tasks && s.tasks[task].stage.Flagged?
    ensures var slot := s.tasks[task].slot; slot.path !in s.files || s.files[slot.path] != slot.process
  {
    hide Counted;
    var slot := s.tasks[task].slot;
    if slot.path in s.files && s.files[slot.path] == slot.process {
      var t :| HeldBy(s.tasks, Slot(s.files[slot.path], slot.path), t);
      OneOwner(s, t, task);
    }
  }

  lemma GivesUp(s: State, task: TaskId, closes: bool)
    requires Ready(s, task, Flagged) && s.table.flags[s.tasks[task].flag].strong > 0
    requires var slot := s.tasks[task].slot; slot.path !in s.files || s.files[slot.path] != slot.process
    ensures var next := Apply(Apply(Apply(s, Abandon(task, closes)), Clear(task)), DropReference(task));
      next.tasks == s.tasks - {task} && next.files == s.files
  {
    var s1 := Apply(s, Abandon(task, closes));
    assert s1 == s.(tasks := s.tasks[task := s.tasks[task].(stage := Unlocked)]);
    var s2 := Apply(s1, Clear(task));
    assert s2.tasks == s.tasks[task := s.tasks[task].(stage := Released)];
    assert s2.tasks - {task} == s.tasks - {task};
  }

  /** While a path is owned in a process, no other task of that process can set its flag. */
  lemma OwnedPathIsRefused(steps: seq<Step>, owner: TaskId, task: TaskId)
    requires owner in Run(steps).tasks && task in Run(steps).tasks
    requires Run(steps).tasks[owner].stage.Owns() && Run(steps).tasks[task].stage == Referring
    requires Run(steps).tasks[owner].slot == Run(steps).tasks[task].slot
    ensures Apply(Run(steps), Exchange(task)).tasks[task].stage == Released
  {
    hide Run, Counted, Registered, Locked;
    RunInv(steps);
    OneLiveFlag(steps, owner, task);
    assert OwnedBy(Run(steps).tasks, Run(steps).tasks[owner].flag, owner);
  }
}
