/**
 The usage sidecars of the memory scopes: read-modify-write cycles under a lock per path, with a
 temporary file and a rename.

 `UsageFiles` is the code run by one caller at a time.  `State` and `Next` are one process whose
 callers interleave at every step, fail at every I/O call, and may all be killed at any moment.
 */
module MemoryUsage {
  import opened Options

  type Path = string
  type TaskId = nat
  type LockId = nat

  /** Entry id to use count; an absent row counts as zero. */
  type Table = map<string, nat>

  /** What an existing file holds: a valid map, or bytes that do not parse. */
  datatype Contents = Corrupt | Holds(table: Table)

  datatype Op = Increment(path: Path, id: string) | Remove(path: Path, id: string)

  function CountIn(table: Table, id: string): nat {
    if id in table then table[id] else 0
  }

  /** A missing or corrupt sidecar reads as an empty map. */
  function TableAt(files: map<Path, Contents>, path: Path): Table {
    if path in files && files[path].Holds? then files[path].table else map[]
  }

  function Apply(op: Op, table: Table): Table {
    match op
    case Increment(_, id) => table[id := CountIn(table, id) + 1]
    case Remove(_, id) => table - {id}
  }

  /** A removal that finds no row succeeds without writing. */
  predicate NothingToRemove(op: Op, table: Table) {
    op.Remove? && op.id !in table
  }

  /** The sidecars after one operation: only the row it names may differ. */
  function FilesAfter(files: map<Path, Contents>, op: Op): map<Path, Contents> {
    var table := TableAt(files, op.path);
    if NothingToRemove(op, table) then files else files[op.path := Holds(Apply(op, table))]
  }

  /** The row of an entry, if the path's file holds a valid map with one. */
  function RowAt(files: map<Path, Contents>, path: Path, id: string): Option<nat> {
    if path in files && files[path].Holds? && id in files[path].table then Some(files[path].table[id]) else None
  }

  /**
   One operation changes one row: an increment makes it one higher than it was, counting from zero, and
   a removal makes it disappear.  A removal that finds no row leaves even a corrupt file as it is.
   */
  lemma {:induction false} OperationChangesOneRow(files: map<Path, Contents>, op: Op, path: Path, id: string)
    ensures RowAt(FilesAfter(files, op), path, id) ==
              if (path, id) != (op.path, op.id) then RowAt(files, path, id)
              else match op
                case Increment(_, _) => Some(RowAt(files, path, id).GetOr(0) + 1)
                case Remove(_, _) => None
    ensures path != op.path ==> (path in FilesAfter(files, op) <==> path in files)
    ensures path != op.path && path in files ==> FilesAfter(files, op)[path] == files[path]
    ensures op.Remove? && RowAt(files, op.path, op.id).None? ==> FilesAfter(files, op) == files
  {
  }

  // ---------------------------------------------------------------- the code, one caller at a time

  /** Which I/O calls succeed. */
  datatype Io = Io(createDir: bool, read: bool, write: bool, rename: bool)

  class UsageFiles {
    var files: map<Path, Contents>
    var temps: map<Path, Contents>
    var locks: map<Path, LockId>

    constructor (files: map<Path, Contents>)
      ensures Valid() && this.files == files && temps == map[] && locks == map[]
    {
      this.files, temps, locks := files, map[], map[];
    }

    /** No two paths share a lock. */
    ghost predicate Valid()
      reads this
    {
      LocksAreDistinct(locks)
    }

    method LockForPath(path: Path) returns (lock: LockId)
      requires Valid()
      modifies this`locks
      ensures Valid() && path in locks && locks[path] == lock
      ensures forall p :: p in old(locks) ==> p in locks && locks[p] == old(locks[p])
      ensures forall p :: p in locks && locks[p] == lock ==> p == path
    {
      if path !in locks {
        locks := locks[path := |locks|];
      }
      lock := locks[path];
    }

    method Read(path: Path, ok: bool) returns (table: Option<Table>)
      ensures table == if path in files && !ok then None else Some(TableAt(files, path))
    {
      if path !in files {
        return Some(map[]);
      }
      if !ok {
        return None;
      }
      match files[path] {
        case Holds(t) => return Some(t);
        case Corrupt => return Some(map[]);
      }
    }

    /** Writes the temporary file and renames it over the sidecar. */
    method Replace(path: Path, table: Table, io: Io, torn: Contents) returns (ok: bool)
      modifies this`files, this`temps
      ensures ok <==> io.write && io.rename
      ensures files == if ok then old(files)[path := Holds(table)] else old(files)
    {
      if !io.write {
        temps := temps[path := torn];
        return false;
      }
      temps := temps[path := Holds(table)];
      if !io.rename {
        return false;
      }
      files := files[path := temps[path]];
      temps := temps - {path};
      return true;
    }

    /** The new count, and a sidecar with exactly that row changed; or an error and the old sidecar. */
    method Bump(path: Path, id: string, io: Io, torn: Contents) returns (count: Option<nat>)
      requires Valid()
      modifies this
      ensures Valid()
      ensures count.Some? <==> io.createDir && (io.read || path !in old(files)) && io.write && io.rename
      ensures count.None? ==> files == old(files)
      ensures count.Some? ==> count.value == CountIn(TableAt(old(files), path), id) + 1
      ensures count.Some? ==> files == FilesAfter(old(files), Increment(path, id))
    {
      var _ := LockForPath(path);
      if !io.createDir {
        return None;
      }
      var read := Read(path, io.read);
      if read.None? {
        return None;
      }
      var table := read.value;
      if id !in table {
        table := table[id := 0];
      }
      table := table[id := table[id] + 1];
      var snapshot := table[id];
      assert table == Apply(Increment(path, id), read.value);
      var ok := Replace(path, table, io, torn);
      return if ok then Some(snapshot) else None;
    }

    /** No row for the entry, and every other row kept; or an error and the old sidecar. */
    method RemoveEntry(path: Path, id: string, io: Io, torn: Contents) returns (ok: bool)
      requires Valid()
      modifies this
      ensures Valid()
      ensures ok <==> path !in old(files) || (io.read && (id !in TableAt(old(files), path) || (io.write && io.rename)))
      ensures files == if ok then FilesAfter(old(files), Remove(path, id)) else old(files)
      ensures ok ==> TableAt(files, path) == Apply(Remove(path, id), TableAt(old(files), path))
    {
      var _ := LockForPath(path);
      var read := Read(path, io.read);
      if read.None? {
        return false;
      }
      if id !in read.value {
        assert Apply(Remove(path, id), read.value) == read.value;
        return true;
      }
      ok := Replace(path, read.value - {id}, io, torn);
    }
  }

  ghost predicate LocksAreDistinct(locks: map<Path, LockId>) {
    && (forall p :: p in locks ==> locks[p] < |locks|)
    && (forall p, q :: p in locks && q in locks && locks[p] == locks[q] ==> p == q)
  }

  // ---------------------------------------------------------------- interleaved callers

  datatype Outcome = Counted(count: nat) | Removed | Failed | Killed

  datatype Stage =
    | Started
    | Queued(lock: LockId)
    | Locked(lock: LockId)
    | Edited(lock: LockId, table: Table)
    | Staged(lock: LockId, table: Table)
    | Leaving(lock: LockId, outcome: Outcome)
    | Finished(outcome: Outcome)

  datatype Task = Task(op: Op, stage: Stage)

  datatype State = State(
    files: map<Path, Contents>,
    temps: map<Path, Contents>,
    locks: map<Path, LockId>,
    owners: map<LockId, TaskId>,
    tasks: map<TaskId, Task>)
  {
    function At(t: TaskId, stage: Stage): State
      requires t in tasks
    {
      this.(tasks := tasks[t := Task(tasks[t].op, stage)])
    }
  }

  datatype Step =
    | Spawn(t: TaskId, op: Op)
    /** One step of the task: a lock operation or one I/O call that succeeds. */
    | Advance(t: TaskId)
    /** The task's I/O call fails, a failed write leaving anything in the temporary file; or the task is dropped while it waits. */
    | Fail(t: TaskId, torn: Contents)
    /** The process dies, leaving anything in the temporary files, and another one starts. */
    | Crash(temps: map<Path, Contents>)

  function LocksWith(locks: map<Path, LockId>, path: Path): (with: map<Path, LockId>)
    ensures path in with
  {
    if path in locks then locks else locks[path := |locks|]
  }

  function OutcomeOf(op: Op, table: Table): Outcome {
    if op.Increment? then Counted(CountIn(table, op.id)) else Removed
  }

  /** Only task `t` moved, and it is still about the same operation. */
  ghost predicate OnlyMoves(s: State, s': State, t: TaskId)
    requires t in s.tasks
  {
    && s'.tasks.Keys == s.tasks.Keys && s'.tasks[t].op == s.tasks[t].op
    && forall u :: u in s.tasks && u != t ==> s'.tasks[u] == s.tasks[u]
  }

  function TakeLock(s: State, t: TaskId): (s': State)
    requires t in s.tasks
    ensures OnlyMoves(s, s', t)
  {
    var path := s.tasks[t].op.path;
    var locks := LocksWith(s.locks, path);
    s.(locks := locks).At(t, Queued(locks[path]))
  }

  function Acquire(s: State, t: TaskId, lock: LockId): (s': State)
    requires t in s.tasks
    ensures OnlyMoves(s, s', t)
  {
    if lock in s.owners then s else s.(owners := s.owners[lock := t]).At(t, Locked(lock))
  }

  function ReadAndEdit(s: State, t: TaskId, lock: LockId): (s': State)
    requires t in s.tasks
    ensures OnlyMoves(s, s', t)
  {
    var op := s.tasks[t].op;
    var table := TableAt(s.files, op.path);
    s.At(t, if NothingToRemove(op, table) then Leaving(lock, Removed) else Edited(lock, Apply(op, table)))
  }

  function WriteTemp(s: State, t: TaskId, lock: LockId, table: Table): (s': State)
    requires t in s.tasks
    ensures OnlyMoves(s, s', t)
  {
    s.(temps := s.temps[s.tasks[t].op.path := Holds(table)]).At(t, Staged(lock, table))
  }

  function Rename(s: State, t: TaskId, lock: LockId, table: Table): (s': State)
    requires t in s.tasks
    ensures OnlyMoves(s, s', t)
  {
    var op := s.tasks[t].op;
    if op.path in s.temps then
      s.(files := s.files[op.path := s.temps[op.path]], temps := s.temps - {op.path}).At(t, Leaving(lock, OutcomeOf(op, table)))
    else s.At(t, Leaving(lock, Failed))
  }

  function Release(s: State, t: TaskId, lock: LockId, outcome: Outcome): (s': State)
    requires t in s.tasks
    ensures OnlyMoves(s, s', t)
  {
    s.(owners := s.owners - {lock}).At(t, Finished(outcome))
  }

  function Proceed(s: State, t: TaskId): (s': State)
    requires t in s.tasks
    ensures OnlyMoves(s, s', t)
  {
    match s.tasks[t].stage
    case Started => TakeLock(s, t)
    case Queued(lock) => Acquire(s, t, lock)
    case Locked(lock) => ReadAndEdit(s, t, lock)
    case Edited(lock, table) => WriteTemp(s, t, lock, table)
    case Staged(lock, table) => Rename(s, t, lock, table)
    case Leaving(lock, outcome) => Release(s, t, lock, outcome)
    case Finished(_) => s
  }

  function GiveUpStage(stage: Stage): Stage {
    match stage
    case Started => Finished(Failed)
    case Queued(_) => Finished(Failed)
    case Locked(lock) => Leaving(lock, Failed)
    case Edited(lock, _) => Leaving(lock, Failed)
    case Staged(lock, _) => Leaving(lock, Failed)
    case Leaving(_, _) => stage
    case Finished(_) => stage
  }

  function GiveUp(s: State, t: TaskId, torn: Contents): (s': State)
    requires t in s.tasks
    ensures OnlyMoves(s, s', t)
  {
    var Task(op, stage) := s.tasks[t];
    s.(temps := if stage.Edited? then s.temps[op.path := torn] else s.temps).At(t, GiveUpStage(stage))
  }

  function Kill(task: Task): Task {
    if task.stage.Finished? then task else task.(stage := Finished(Killed))
  }

  /** A step that is not possible changes nothing. */
  function Next(s: State, step: Step): State {
    match step
    case Spawn(t, op) => if t in s.tasks then s else s.(tasks := s.tasks[t := Task(op, Started)])
    case Advance(t) => if t in s.tasks then Proceed(s, t) else s
    case Fail(t, torn) => if t in s.tasks then GiveUp(s, t, torn) else s
    case Crash(temps) => State(s.files, temps, map[], map[], map t | t in s.tasks :: Kill(s.tasks[t]))
  }

  function Run(s: State, steps: seq<Step>): State {
    if steps == [] then s else Next(Run(s, steps[..|steps| - 1]), steps[|steps| - 1])
  }

  /** A process that has just started on any files. */
  predicate Initial(s: State) {
    s.locks == map[] && s.owners == map[] && s.tasks == map[]
  }

  // ---------------------------------------------------------------- what has been done, in order

  datatype Entry = Entry(t: TaskId, op: Op)

  /** An operation takes effect at its rename; a removal that finds no row, at its read. */
  function Effect(s: State, step: Step): seq<Entry> {
    if !step.Advance? || step.t !in s.tasks then []
    else
      var op := s.tasks[step.t].op;
      match s.tasks[step.t].stage
      case Locked(_) => if NothingToRemove(op, TableAt(s.files, op.path)) then [Entry(step.t, op)] else []
      case Staged(_, _) => if op.path in s.temps then [Entry(step.t, op)] else []
      case _ => []
  }

  function Log(s: State, steps: seq<Step>): seq<Entry> {
    if steps == [] then []
    else
      var before := steps[..|steps| - 1];
      Log(s, before) + Effect(Run(s, before), steps[|steps| - 1])
  }

  /** The table that the logged operations on `path` make of `table`, one after the other. */
  function Replay(table: Table, log: seq<Entry>, path: Path): Table {
    if log == [] then table
    else
      var before := Replay(table, log[..|log| - 1], path);
      var op := log[|log| - 1].op;
      if op.path == path then Apply(op, before) else before
  }

  /** A failure ends the task without an effect; one that fails while it writes leaves its temporary file torn. */
  lemma {:induction false} FailureIs(s: State, t: TaskId, torn: Contents)
    requires t in s.tasks
    ensures var s', path, stage := Next(s, Fail(t, torn)), s.tasks[t].op.path, s.tasks[t].stage;
            && s'.files == s.files && s'.locks == s.locks && s'.owners == s.owners && OnlyMoves(s, s', t)
            && s'.temps == (if stage.Edited? then s.temps[path := torn] else s.temps)
            && s'.tasks[t].stage == if stage.Leaving? || stage.Finished? then stage
                                    else if Holding(stage) then Leaving(stage.lock, Failed)
                                    else Finished(Failed)
  {
  }

  /** A crash loses the locks and whatever was in the temporary files, and keeps the sidecars; what had finished stays finished. */
  lemma {:induction false} CrashIs(s: State, temps: map<Path, Contents>)
    ensures var s' := Next(s, Crash(temps));
            && s'.files == s.files && s'.temps == temps && s'.locks == map[] && s'.owners == map[] && s'.tasks.Keys == s.tasks.Keys
            && forall t :: t in s.tasks ==>
                 s'.tasks[t] == Task(s.tasks[t].op, if s.tasks[t].stage.Finished? then s.tasks[t].stage else Finished(Killed))
  {
  }

  // ---------------------------------------------------------------- mutual exclusion

  predicate Holding(stage: Stage) {
    stage.Locked? || stage.Edited? || stage.Staged? || stage.Leaving?
  }

  /** The task stands where its lock and its path's files say it does. */
  ghost predicate InPlace(s: State, t: TaskId, task: Task) {
    var path := task.op.path;
    && (task.stage.Queued? || Holding(task.stage) ==> path in s.locks && s.locks[path] == task.stage.lock)
    && (Holding(task.stage) ==> task.stage.lock in s.owners && s.owners[task.stage.lock] == t)
    && (task.stage.Edited? || task.stage.Staged? ==> task.stage.table == Apply(task.op, TableAt(s.files, path)))
    && (task.stage.Staged? ==> path in s.temps && s.temps[path] == Holds(task.stage.table))
  }

  ghost predicate Inv(s: State) {
    && LocksAreDistinct(s.locks)
    && forall t :: t in s.tasks ==> InPlace(s, t, s.tasks[t])
  }

  /** Two callers of one path are never both inside. */
  lemma {:induction false} MutualExclusion(s: State, t: TaskId, u: TaskId)
    requires Inv(s) && t in s.tasks && u in s.tasks
    requires Holding(s.tasks[t].stage) && Holding(s.tasks[u].stage) && s.tasks[t].op.path == s.tasks[u].op.path
    ensures t == u
  {
    assert InPlace(s, t, s.tasks[t]) && InPlace(s, u, s.tasks[u]);
  }

  /** A step of `t` that adds locks at most, and touches no lock or file other than its own. */
  ghost predicate KeepsToItself(s: State, s': State, t: TaskId)
    requires t in s.tasks
  {
    var Task(op, stage) := s.tasks[t];
    && OnlyMoves(s, s', t)
    && (forall p :: p in s.locks ==> p in s'.locks && s'.locks[p] == s.locks[p])
    && (forall l :: l in s.owners && !(Holding(stage) && l == stage.lock) ==> l in s'.owners && s'.owners[l] == s.owners[l])
    && (forall p :: p in s.temps && !(Holding(stage) && p == op.path) ==> p in s'.temps && s'.temps[p] == s.temps[p])
    && (forall p :: !(Holding(stage) && p == op.path) ==> TableAt(s'.files, p) == TableAt(s.files, p))
  }

  lemma {:induction false} OthersStayInPlace(s: State, s': State, t: TaskId)
    requires Inv(s) && t in s.tasks && KeepsToItself(s, s', t)
    requires LocksAreDistinct(s'.locks) && InPlace(s', t, s'.tasks[t])
    ensures Inv(s')
  {
    forall u | u in s.tasks
      ensures InPlace(s', u, s'.tasks[u])
    {
      assert InPlace(s, t, s.tasks[t]) && InPlace(s, u, s.tasks[u]);
    }
  }

  lemma {:induction false} TakeLockKeepsInv(s: State, t: TaskId)
    requires Inv(s) && t in s.tasks && s.tasks[t].stage.Started?
    ensures Inv(TakeLock(s, t))
  {
    assert InPlace(s, t, s.tasks[t]);
    OthersStayInPlace(s, TakeLock(s, t), t);
  }

  lemma {:induction false} AcquireKeepsInv(s: State, t: TaskId)
    requires Inv(s) && t in s.tasks && s.tasks[t].stage.Queued?
    ensures Inv(Acquire(s, t, s.tasks[t].stage.lock))
  {
    assert InPlace(s, t, s.tasks[t]);
    OthersStayInPlace(s, Acquire(s, t, s.tasks[t].stage.lock), t);
  }

  lemma {:induction false} ReadAndEditKeepsInv(s: State, t: TaskId)
    requires Inv(s) && t in s.tasks && s.tasks[t].stage.Locked?
    ensures Inv(ReadAndEdit(s, t, s.tasks[t].stage.lock))
  {
    assert InPlace(s, t, s.tasks[t]);
    OthersStayInPlace(s, ReadAndEdit(s, t, s.tasks[t].stage.lock), t);
  }

  lemma {:induction false} WriteTempKeepsInv(s: State, t: TaskId)
    requires Inv(s) && t in s.tasks && s.tasks[t].stage.Edited?
    ensures Inv(WriteTemp(s, t, s.tasks[t].stage.lock, s.tasks[t].stage.table))
  {
    assert InPlace(s, t, s.tasks[t]);
    OthersStayInPlace(s, WriteTemp(s, t, s.tasks[t].stage.lock, s.tasks[t].stage.table), t);
  }

  lemma {:induction false} RenameKeepsInv(s: State, t: TaskId)
    requires Inv(s) && t in s.tasks && s.tasks[t].stage.Staged?
    ensures Inv(Rename(s, t, s.tasks[t].stage.lock, s.tasks[t].stage.table))
  {
    assert InPlace(s, t, s.tasks[t]);
    OthersStayInPlace(s, Rename(s, t, s.tasks[t].stage.lock, s.tasks[t].stage.table), t);
  }

  lemma {:induction false} ReleaseKeepsInv(s: State, t: TaskId)
    requires Inv(s) && t in s.tasks && s.tasks[t].stage.Leaving?
    ensures Inv(Release(s, t, s.tasks[t].stage.lock, s.tasks[t].stage.outcome))
  {
    assert InPlace(s, t, s.tasks[t]);
    OthersStayInPlace(s, Release(s, t, s.tasks[t].stage.lock, s.tasks[t].stage.outcome), t);
  }

  lemma {:induction false} ProceedKeepsInv(s: State, t: TaskId)
    requires Inv(s) && t in s.tasks
    ensures Inv(Proceed(s, t))
  {
    match s.tasks[t].stage
    case Started => TakeLockKeepsInv(s, t);
    case Queued(_) => AcquireKeepsInv(s, t);
    case Locked(_) => ReadAndEditKeepsInv(s, t);
    case Edited(_, _) => WriteTempKeepsInv(s, t);
    case Staged(_, _) => RenameKeepsInv(s, t);
    case Leaving(_, _) => ReleaseKeepsInv(s, t);
    case Finished(_) =>
  }

  lemma {:induction false} GiveUpKeepsInv(s: State, t: TaskId, torn: Contents)
    requires Inv(s) && t in s.tasks
    ensures Inv(GiveUp(s, t, torn))
  {
    assert InPlace(s, t, s.tasks[t]);
    OthersStayInPlace(s, GiveUp(s, t, torn), t);
  }

  lemma {:induction false} SpawnKeepsInv(s: State, t: TaskId, op: Op)
    requires Inv(s) && t !in s.tasks
    ensures Inv(Next(s, Spawn(t, op)))
  {
    forall u | u in s.tasks
      ensures InPlace(Next(s, Spawn(t, op)), u, s.tasks[u])
    {
      assert InPlace(s, u, s.tasks[u]);
    }
  }

  lemma {:induction false} NextKeepsInv(s: State, step: Step)
    requires Inv(s)
    ensures Inv(Next(s, step))
  {
    match step
    case Spawn(t, op) =>
      if t !in s.tasks {
        SpawnKeepsInv(s, t, op);
      }
    case Advance(t) =>
      if t in s.tasks {
        ProceedKeepsInv(s, t);
      }
    case Fail(t, torn) =>
      if t in s.tasks {
        GiveUpKeepsInv(s, t, torn);
      }
    case Crash(_) =>
  }

  lemma {:induction false} RunKeepsInv(s: State, steps: seq<Step>)
    requires Inv(s)
    ensures Inv(Run(s, steps))
  {
    if steps != [] {
      RunKeepsInv(s, steps[..|steps| - 1]);
      NextKeepsInv(Run(s, steps[..|steps| - 1]), steps[|steps| - 1]);
    }
  }

  // ---------------------------------------------------------------- no lost update

  lemma {:induction false} EffectIsOfTheTask(s: State, t: TaskId)
    requires t in s.tasks
    ensures Effect(s, Advance(t)) == [] || Effect(s, Advance(t)) == [Entry(t, s.tasks[t].op)]
  {
  }

  /** The table after an effect of at most one entry. */
  function Effected(table: Table, effect: seq<Entry>, path: Path): Table {
    if effect != [] && effect[0].op.path == path then Apply(effect[0].op, table) else table
  }

  lemma {:induction false} ReplayAppend(table: Table, log: seq<Entry>, effect: seq<Entry>, path: Path)
    requires |effect| <= 1
    ensures Replay(table, log + effect, path) == Effected(Replay(table, log, path), effect, path)
  {
    if effect == [] {
      assert log + effect == log;
    } else {
      assert (log + effect)[..|log + effect| - 1] == log;
    }
  }

  lemma {:induction false} ProceedIsReplayed(s: State, t: TaskId, path: Path)
    requires Inv(s) && t in s.tasks
    ensures TableAt(Proceed(s, t).files, path) == Effected(TableAt(s.files, path), Effect(s, Advance(t)), path)
  {
    assert InPlace(s, t, s.tasks[t]);
    match s.tasks[t].stage
    case Started =>
    case Queued(_) =>
    case Locked(_) =>
    case Edited(_, _) =>
    case Staged(_, _) =>
    case Leaving(_, _) =>
    case Finished(_) =>
  }

  lemma {:induction false} StepIsReplayed(s: State, step: Step, path: Path)
    requires Inv(s)
    ensures |Effect(s, step)| <= 1
    ensures TableAt(Next(s, step).files, path) == Effected(TableAt(s.files, path), Effect(s, step), path)
  {
    match step
    case Advance(t) =>
      if t in s.tasks {
        EffectIsOfTheTask(s, t);
        ProceedIsReplayed(s, t, path);
      }
    case Spawn(_, _) =>
    case Fail(_, _) =>
    case Crash(_) =>
  }

  /**
   In every interleaving, with failures and crashes anywhere, a sidecar holds exactly what its
   logged operations make of what it held at first.
   */
  lemma {:induction false} SidecarIsReplay(s: State, steps: seq<Step>, path: Path)
    requires Inv(s)
    ensures TableAt(Run(s, steps).files, path) == Replay(TableAt(s.files, path), Log(s, steps), path)
  {
    if steps != [] {
      var before, step := steps[..|steps| - 1], steps[|steps| - 1];
      SidecarIsReplay(s, before, path);
      RunKeepsInv(s, before);
      StepIsReplayed(Run(s, before), step, path);
      ReplayAppend(TableAt(s.files, path), Log(s, before), Effect(Run(s, before), step), path);
    }
  }

  // ---------------------------------------------------------------- alone, the machine is the code

  lemma {:induction false} OneMore(s: State, steps: seq<Step>, t: TaskId) returns (more: seq<Step>)
    requires t in Run(s, steps).tasks
    ensures Run(s, more) == Proceed(Run(s, steps), t)
  {
    more := steps + [Advance(t)];
    assert more[..|steps|] == steps;
  }

  /** The task has finished with this outcome, and these are the sidecars and the temporary files. */
  predicate Ends(s: State, t: TaskId, op: Op, files: map<Path, Contents>, temps: map<Path, Contents>, outcome: Outcome) {
    s.files == files && s.temps == temps && t in s.tasks && s.tasks[t] == Task(op, Finished(outcome))
  }

  /** No temporary file is left where one was used. */
  function TempsAfter(files: map<Path, Contents>, temps: map<Path, Contents>, op: Op): map<Path, Contents> {
    if op.Remove? && RowAt(files, op.path, op.id).None? then temps else temps - {op.path}
  }

  lemma {:induction false} AloneFromLeaving(s: State, steps: seq<Step>, mid: State, t: TaskId) returns (more: seq<Step>)
    requires mid == Run(s, steps) && t in mid.tasks && mid.tasks[t].stage.Leaving?
    ensures Ends(Run(s, more), t, mid.tasks[t].op, mid.files, mid.temps, mid.tasks[t].stage.outcome)
  {
    more := OneMore(s, steps, t);
  }

  lemma {:induction false} AloneFromStaged(s: State, steps: seq<Step>, mid: State, t: TaskId) returns (more: seq<Step>)
    requires mid == Run(s, steps) && t in mid.tasks && mid.tasks[t].stage.Staged?
    requires var path := mid.tasks[t].op.path; path in mid.temps && mid.temps[path] == Holds(mid.tasks[t].stage.table)
    ensures Ends(Run(s, more), t, mid.tasks[t].op, mid.files[mid.tasks[t].op.path := Holds(mid.tasks[t].stage.table)],
                 mid.temps - {mid.tasks[t].op.path}, OutcomeOf(mid.tasks[t].op, mid.tasks[t].stage.table))
  {
    more := OneMore(s, steps, t);
    more := AloneFromLeaving(s, more, Proceed(mid, t), t);
  }

  lemma {:induction false} AloneFromEdited(s: State, steps: seq<Step>, mid: State, t: TaskId) returns (more: seq<Step>)
    requires mid == Run(s, steps) && t in mid.tasks && mid.tasks[t].stage.Edited?
    ensures Ends(Run(s, more), t, mid.tasks[t].op, mid.files[mid.tasks[t].op.path := Holds(mid.tasks[t].stage.table)],
                 mid.temps - {mid.tasks[t].op.path}, OutcomeOf(mid.tasks[t].op, mid.tasks[t].stage.table))
  {
    more := OneMore(s, steps, t);
    more := AloneFromStaged(s, more, Proceed(mid, t), t);
  }

  lemma {:induction false} AloneFromLocked(s: State, steps: seq<Step>, mid: State, t: TaskId, op: Op) returns (more: seq<Step>)
    requires mid == Run(s, steps) && t in mid.tasks && mid.tasks[t].stage.Locked? && mid.tasks[t].op == op
    ensures Ends(Run(s, more), t, op, FilesAfter(mid.files, op), TempsAfter(mid.files, mid.temps, op),
                 OutcomeOf(op, Apply(op, TableAt(mid.files, op.path))))
  {
    more := OneMore(s, steps, t);
    if NothingToRemove(op, TableAt(mid.files, op.path)) {
      more := AloneFromLeaving(s, more, Proceed(mid, t), t);
    } else {
      more := AloneFromEdited(s, more, Proceed(mid, t), t);
    }
  }

  lemma {:induction false} AloneItRuns(s: State, t: TaskId, op: Op) returns (steps: seq<Step>)
    requires t !in s.tasks && LocksWith(s.locks, op.path)[op.path] !in s.owners
    ensures Ends(Run(s, steps), t, op, FilesAfter(s.files, op), TempsAfter(s.files, s.temps, op),
                 OutcomeOf(op, Apply(op, TableAt(s.files, op.path))))
  {
    steps := [Spawn(t, op)];
    var s1 := Next(s, Spawn(t, op));
    assert steps[..0] == [] && Run(s, steps) == s1;
    steps := OneMore(s, steps, t);
    var s2 := TakeLock(s1, t);
    steps := OneMore(s, steps, t);
    var s3 := Acquire(s2, t, s2.tasks[t].stage.lock);
    steps := AloneFromLocked(s, steps, s3, t, op);
  }

  lemma {:induction false} OutcomeIs(files: map<Path, Contents>, op: Op)
    ensures OutcomeOf(op, Apply(op, TableAt(files, op.path))) ==
              if op.Increment? then Counted(RowAt(files, op.path, op.id).GetOr(0) + 1) else Removed
  {
  }

  /** A caller that nobody disturbs leaves what `Bump` and `RemoveEntry` leave, and is told the new count. */
  lemma {:induction false} AloneTheCodeRuns(s: State, t: TaskId, op: Op) returns (steps: seq<Step>)
    requires t !in s.tasks && LocksWith(s.locks, op.path)[op.path] !in s.owners
    ensures Ends(Run(s, steps), t, op, FilesAfter(s.files, op), TempsAfter(s.files, s.temps, op),
                 if op.Increment? then Counted(RowAt(s.files, op.path, op.id).GetOr(0) + 1) else Removed)
  {
    steps := AloneItRuns(s, t, op);
    OutcomeIs(s.files, op);
  }

  // ---------------------------------------------------------------- counts

  predicate Increments(e: Entry, path: Path, id: string) {
    e.op == Increment(path, id)
  }

  function IncrementsIn(log: seq<Entry>, path: Path, id: string): nat {
    if log == [] then 0
    else IncrementsIn(log[..|log| - 1], path, id) + if Increments(log[|log| - 1], path, id) then 1 else 0
  }

  /** The end of the last removal of the row, counted in entries. */
  function AfterLastRemoval(log: seq<Entry>, path: Path, id: string): (r: Option<nat>)
    ensures r.Some? ==> 0 < r.value <= |log| && log[r.value - 1].op == Remove(path, id)
    ensures forall i :: r.GetOr(0) <= i < |log| ==> log[i].op != Remove(path, id)
  {
    if log == [] then None
    else if log[|log| - 1].op == Remove(path, id) then Some(|log|)
    else
      var r := AfterLastRemoval(log[..|log| - 1], path, id);
      assert forall i :: 0 <= i < |log| - 1 ==> log[..|log| - 1][i] == log[i];
      r
  }

  /** The increments logged since the row was last removed, and before that what was there at first. */
  function Expected(initial: nat, log: seq<Entry>, path: Path, id: string): nat {
    match AfterLastRemoval(log, path, id)
    case Some(from) => IncrementsIn(log[from..], path, id)
    case None => initial + IncrementsIn(log, path, id)
  }

  lemma {:induction false} ReplayCounts(table: Table, log: seq<Entry>, path: Path, id: string)
    ensures CountIn(Replay(table, log, path), id) == Expected(CountIn(table, id), log, path, id)
  {
    if log != [] {
      var before, last := log[..|log| - 1], log[|log| - 1];
      ReplayCounts(table, before, path, id);
      if last.op == Remove(path, id) {
        assert log[|log|..] == [];
      } else {
        match AfterLastRemoval(before, path, id)
        case Some(from) =>
          assert log[from..][..|log[from..]| - 1] == before[from..] && log[from..][|log[from..]| - 1] == last;
        case None =>
      }
    }
  }

  /** `load` takes no lock; an unreadable sidecar reads as empty. */
  function Load(s: State, path: Path, readable: bool): Table {
    if readable then TableAt(s.files, path) else map[]
  }

  /**
   Whenever a caller loads a scope, in the middle of anything, it finds for every entry the number
   of increments that took effect since the entry was last removed.
   */
  lemma {:induction false} LoadCountsIncrementsSinceRemoval(s: State, steps: seq<Step>, path: Path, id: string)
    requires Initial(s)
    ensures CountIn(Load(Run(s, steps), path, true), id) ==
            Expected(CountIn(TableAt(s.files, path), id), Log(s, steps), path, id)
  {
    SidecarIsReplay(s, steps, path);
    ReplayCounts(TableAt(s.files, path), Log(s, steps), path, id);
  }

  /** What a load finds: the map of a readable and valid file, and otherwise nothing. */
  lemma {:induction false} LoadIs(s: State, path: Path, readable: bool)
    ensures Load(s, path, readable) == if readable && path in s.files && s.files[path].Holds? then s.files[path].table else map[]
  {
  }

  /** The row stands: it was incremented since its last removal, or it was there at first and was never removed. */
  predicate Stands(atFirst: bool, log: seq<Entry>, path: Path, id: string) {
    match AfterLastRemoval(log, path, id)
    case Some(from) => IncrementsIn(log[from..], path, id) > 0
    case None => atFirst || IncrementsIn(log, path, id) > 0
  }

  lemma {:induction false} ReplayedRowStandsIff(table: Table, log: seq<Entry>, path: Path, id: string)
    ensures id in Replay(table, log, path) <==> Stands(id in table, log, path, id)
  {
    if log != [] {
      var before, last := log[..|log| - 1], log[|log| - 1];
      ReplayedRowStandsIff(table, before, path, id);
      if last.op == Remove(path, id) {
        assert log[|log|..] == [];
      } else {
        match AfterLastRemoval(before, path, id)
        case Some(from) =>
          assert log[from..][..|log[from..]| - 1] == before[from..] && log[from..][|log[from..]| - 1] == last;
        case None =>
      }
    }
  }

  /** A removed row is gone: a load at any moment of any run finds a row exactly when it stands. */
  lemma {:induction false} LoadFindsRowIff(s: State, steps: seq<Step>, path: Path, id: string)
    requires Initial(s)
    ensures id in Load(Run(s, steps), path, true) <==> Stands(RowAt(s.files, path, id).Some?, Log(s, steps), path, id)
  {
    SidecarIsReplay(s, steps, path);
    ReplayedRowStandsIff(TableAt(s.files, path), Log(s, steps), path, id);
  }

  predicate IsCorrupt(files: map<Path, Contents>, path: Path) {
    path in files && files[path].Corrupt?
  }

  lemma {:induction false} StepNeverTears(s: State, step: Step, path: Path)
    requires Inv(s)
    ensures IsCorrupt(Next(s, step).files, path) ==> IsCorrupt(s.files, path)
    ensures Effect(s, step) != [] && Effect(s, step)[0].op.path == path && Effect(s, step)[0].op.Increment? ==>
              !IsCorrupt(Next(s, step).files, path)
  {
    if step.Advance? && step.t in s.tasks {
      assert InPlace(s, step.t, s.tasks[step.t]);
    }
  }

  /** A sidecar is corrupt only if it was so at first and no increment has taken effect since. */
  lemma {:induction false} NeverTorn(s: State, steps: seq<Step>, path: Path)
    requires Inv(s) && IsCorrupt(Run(s, steps).files, path)
    ensures IsCorrupt(s.files, path)
    ensures forall e :: e in Log(s, steps) && e.op.path == path ==> !e.op.Increment?
  {
    if steps != [] {
      var before, step := steps[..|steps| - 1], steps[|steps| - 1];
      RunKeepsInv(s, before);
      StepIsReplayed(Run(s, before), step, path);
      StepNeverTears(Run(s, before), step, path);
      NeverTorn(s, before, path);
    }
  }

  // ---------------------------------------------------------------- every success counts once

  function TimesLogged(log: seq<Entry>, t: TaskId): nat {
    if log == [] then 0
    else TimesLogged(log[..|log| - 1], t) + if log[|log| - 1].t == t then 1 else 0
  }

  /** How often a task at this stage has taken effect; a killed task cannot know. */
  predicate LoggedAsOften(stage: Stage, times: nat) {
    if stage.Leaving? || stage.Finished? then
      match stage.outcome
      case Counted(_) => times == 1
      case Removed => times == 1
      case Failed => times == 0
      case Killed => times <= 1
    else times == 0
  }

  predicate Logged(s: State, t: TaskId, times: nat) {
    if t in s.tasks then LoggedAsOften(s.tasks[t].stage, times) else times == 0
  }

  function TimesIn(effect: seq<Entry>, t: TaskId): nat {
    if effect != [] && effect[0].t == t then 1 else 0
  }

  lemma {:induction false} ProceedLogsOnce(s: State, t: TaskId, times: nat)
    requires Inv(s) && t in s.tasks && LoggedAsOften(s.tasks[t].stage, times)
    ensures LoggedAsOften(Proceed(s, t).tasks[t].stage, times + |Effect(s, Advance(t))|)
  {
    match s.tasks[t].stage
    case Started =>
    case Queued(_) =>
    case Locked(_) =>
    case Edited(_, _) =>
    case Staged(_, _) =>
    case Leaving(_, _) =>
    case Finished(_) =>
  }

  lemma {:induction false} OtherStepLogsNothing(s: State, step: Step, u: TaskId, times: nat)
    requires Logged(s, u, times) && !step.Advance?
    ensures Logged(Next(s, step), u, times)
  {
  }

  lemma {:induction false} StepLogsOnce(s: State, step: Step, u: TaskId, times: nat)
    requires Inv(s) && Logged(s, u, times)
    ensures Logged(Next(s, step), u, times + TimesIn(Effect(s, step), u))
  {
    if step.Advance? {
      if step.t in s.tasks {
        EffectIsOfTheTask(s, step.t);
        if u == step.t {
          ProceedLogsOnce(s, step.t, times);
        }
      }
    } else {
      OtherStepLogsNothing(s, step, u, times);
    }
  }

  lemma {:induction false} TimesLoggedAppend(log: seq<Entry>, effect: seq<Entry>, t: TaskId)
    requires |effect| <= 1
    ensures TimesLogged(log + effect, t) == TimesLogged(log, t) + TimesIn(effect, t)
  {
    if effect == [] {
      assert log + effect == log;
    } else {
      assert (log + effect)[..|log + effect| - 1] == log;
    }
  }

  /** A call that returned success took effect exactly once, a call that returned an error never did. */
  lemma {:induction false} SuccessTakesEffectOnce(s: State, steps: seq<Step>, t: TaskId)
    requires Initial(s)
    ensures Logged(Run(s, steps), t, TimesLogged(Log(s, steps), t))
  {
    if steps != [] {
      var before, step := steps[..|steps| - 1], steps[|steps| - 1];
      var mid, log := Run(s, before), Log(s, before);
      SuccessTakesEffectOnce(s, before, t);
      RunKeepsInv(s, before);
      StepIsReplayed(mid, step, "");
      StepLogsOnce(mid, step, t, TimesLogged(log, t));
      TimesLoggedAppend(log, Effect(mid, step), t);
    }
  }

  /** Entry `i` of the log is the task's own, and the row held `count` right after it. */
  ghost predicate CountedAt(s: State, log: seq<Entry>, t: TaskId, op: Op, count: nat, i: nat) {
    i < |log| && log[i] == Entry(t, op) && count == Expected(CountIn(TableAt(s.files, op.path), op.id), log[..i + 1], op.path, op.id)
  }

  /** The count that a task has obtained, whether or not it has released its lock yet. */
  function CountOf(s: State, t: TaskId): Option<nat> {
    if t in s.tasks && (s.tasks[t].stage.Leaving? || s.tasks[t].stage.Finished?) && s.tasks[t].stage.outcome.Counted?
    then Some(s.tasks[t].stage.outcome.count)
    else None
  }

  lemma {:induction false} ProceedObtainsCount(s: State, t: TaskId)
    requires Inv(s) && t in s.tasks && CountOf(s, t) != CountOf(Proceed(s, t), t)
    ensures var op := s.tasks[t].op;
            && op.Increment? && Effect(s, Advance(t)) == [Entry(t, op)]
            && CountOf(Proceed(s, t), t) == Some(CountIn(TableAt(Proceed(s, t).files, op.path), op.id))
  {
    assert InPlace(s, t, s.tasks[t]);
  }

  /** A task obtains its count at its effect and keeps it. */
  lemma {:induction false} CountComesFromEffect(s: State, step: Step, t: TaskId)
    requires Inv(s) && CountOf(Next(s, step), t).Some?
    ensures t in s.tasks && Next(s, step).tasks[t].op == s.tasks[t].op
    ensures var op := s.tasks[t].op;
            || CountOf(s, t) == CountOf(Next(s, step), t)
            || (&& op.Increment? && Effect(s, step) == [Entry(t, op)]
                && CountOf(Next(s, step), t) == Some(CountIn(TableAt(Next(s, step).files, op.path), op.id)))
  {
    match step
    case Advance(u) =>
      if u in s.tasks {
        if u == t && CountOf(s, t) != CountOf(Proceed(s, t), t) {
          ProceedObtainsCount(s, t);
        }
      }
    case Spawn(_, _) =>
    case Fail(_, _) =>
    case Crash(_) =>
  }

  lemma {:induction false} CountedAtExtends(s: State, log: seq<Entry>, more: seq<Entry>, t: TaskId, op: Op, count: nat, i: nat)
    requires CountedAt(s, log, t, op, count, i)
    ensures CountedAt(s, log + more, t, op, count, i)
  {
    assert (log + more)[..i + 1] == log[..i + 1];
  }

  lemma {:induction false} ObtainedCountIsExact(s: State, steps: seq<Step>, t: TaskId) returns (i: nat)
    requires Initial(s) && CountOf(Run(s, steps), t).Some?
    ensures CountedAt(s, Log(s, steps), t, Run(s, steps).tasks[t].op, CountOf(Run(s, steps), t).value, i)
  {
    var before, step := steps[..|steps| - 1], steps[|steps| - 1];
    var mid, log := Run(s, before), Log(s, before);
    RunKeepsInv(s, before);
    CountComesFromEffect(mid, step, t);
    if CountOf(mid, t) == CountOf(Next(mid, step), t) {
      i := ObtainedCountIsExact(s, before, t);
      CountedAtExtends(s, log, Effect(mid, step), t, mid.tasks[t].op, CountOf(mid, t).value, i);
    } else {
      i := |log|;
      var op := mid.tasks[t].op;
      assert Log(s, steps)[..i + 1] == Log(s, steps) == log + [Entry(t, op)];
      SidecarIsReplay(s, steps, op.path);
      ReplayCounts(TableAt(s.files, op.path), Log(s, steps), op.path, op.id);
    }
  }

  /** The count that an increment returns is the count its own effect produced. */
  lemma {:induction false} ReturnedCountIsExact(s: State, steps: seq<Step>, t: TaskId, op: Op, count: nat) returns (i: nat)
    requires Initial(s) && t in Run(s, steps).tasks && Run(s, steps).tasks[t] == Task(op, Finished(Counted(count)))
    ensures op.Increment? && CountedAt(s, Log(s, steps), t, op, count, i)
  {
    i := ObtainedCountIsExact(s, steps, t);
    CountsAreOfIncrements(s, steps, t);
  }

  lemma {:induction false} CountsAreOfIncrements(s: State, steps: seq<Step>, t: TaskId)
    requires Initial(s) && CountOf(Run(s, steps), t).Some?
    ensures Run(s, steps).tasks[t].op.Increment?
  {
    var before, step := steps[..|steps| - 1], steps[|steps| - 1];
    var mid := Run(s, before);
    RunKeepsInv(s, before);
    CountComesFromEffect(mid, step, t);
    if CountOf(mid, t) == CountOf(Next(mid, step), t) {
      CountsAreOfIncrements(s, before, t);
    }
  }

  // ---------------------------------------------------------------- no lock is left behind

  /** Whoever owns a lock is inside with it. */
  ghost predicate OwnersAreInside(s: State) {
    forall l :: l in s.owners ==> OwnerIsInside(s, l)
  }

  predicate OwnerIsInside(s: State, l: LockId)
    requires l in s.owners
  {
    var t := s.owners[l];
    t in s.tasks && Holding(s.tasks[t].stage) && s.tasks[t].stage.lock == l
  }

  /** A move that leaves all owners as they are and keeps the task inside if it was. */
  lemma {:induction false} MoveKeepsOwnersInside(s: State, s': State, t: TaskId)
    requires OwnersAreInside(s) && t in s.tasks && OnlyMoves(s, s', t) && s'.owners == s.owners
    requires var a, b := s.tasks[t].stage, s'.tasks[t].stage; Holding(a) ==> Holding(b) && b.lock == a.lock
    ensures OwnersAreInside(s')
  {
    forall l | l in s'.owners
      ensures OwnerIsInside(s', l)
    {
      assert OwnerIsInside(s, l);
    }
  }

  lemma {:induction false} AcquireKeepsOwnersInside(s: State, t: TaskId, lock: LockId)
    requires OwnersAreInside(s) && t in s.tasks && s.tasks[t].stage == Queued(lock)
    ensures OwnersAreInside(Acquire(s, t, lock))
  {
    var s' := Acquire(s, t, lock);
    forall l | l in s'.owners
      ensures OwnerIsInside(s', l)
    {
      assert l in s.owners ==> OwnerIsInside(s, l);
    }
  }

  lemma {:induction false} ReleaseKeepsOwnersInside(s: State, t: TaskId, lock: LockId, outcome: Outcome)
    requires OwnersAreInside(s) && t in s.tasks && s.tasks[t].stage == Leaving(lock, outcome)
    ensures OwnersAreInside(Release(s, t, lock, outcome))
  {
    var s' := Release(s, t, lock, outcome);
    forall l | l in s'.owners
      ensures OwnerIsInside(s', l)
    {
      assert OwnerIsInside(s, l);
    }
  }

  lemma {:induction false} MovesKeepOwners(s: State, s': State, t: TaskId)
    requires t in s.tasks && !s.tasks[t].stage.Queued? && !s.tasks[t].stage.Leaving? && s' == Proceed(s, t)
    ensures s'.owners == s.owners
  {
  }

  lemma {:induction false} MovesKeepLock(s: State, s': State, t: TaskId)
    requires t in s.tasks && Holding(s.tasks[t].stage) && !s.tasks[t].stage.Leaving? && s' == Proceed(s, t)
    ensures Holding(s'.tasks[t].stage) && s'.tasks[t].stage.lock == s.tasks[t].stage.lock
  {
  }

  lemma {:induction false} ProceedKeepsOwnersInside(s: State, t: TaskId)
    requires OwnersAreInside(s) && t in s.tasks
    ensures OwnersAreInside(Proceed(s, t))
  {
    var stage, s' := s.tasks[t].stage, Proceed(s, t);
    if stage.Queued? {
      AcquireKeepsOwnersInside(s, t, stage.lock);
    } else if stage.Leaving? {
      ReleaseKeepsOwnersInside(s, t, stage.lock, stage.outcome);
    } else {
      MovesKeepOwners(s, s', t);
      if Holding(stage) {
        MovesKeepLock(s, s', t);
      }
      MoveKeepsOwnersInside(s, s', t);
    }
  }

  lemma {:induction false} StepKeepsOwnersInside(s: State, step: Step)
    requires Inv(s) && OwnersAreInside(s)
    ensures OwnersAreInside(Next(s, step))
  {
    match step
    case Advance(t) =>
      if t in s.tasks {
        ProceedKeepsOwnersInside(s, t);
      }
    case Fail(t, torn) =>
      if t in s.tasks {
        MoveKeepsOwnersInside(s, GiveUp(s, t, torn), t);
      }
    case Spawn(t, op) =>
      forall l | l in s.owners
        ensures OwnerIsInside(Next(s, step), l)
      {
        assert OwnerIsInside(s, l);
      }
    case Crash(_) =>
  }

  /** In every reachable state a lock is owned only by a task that is inside: none that has finished, failed or died still owns one. */
  lemma {:induction false} NoLockIsLeftBehind(s: State, steps: seq<Step>)
    requires Initial(s)
    ensures Inv(Run(s, steps)) && OwnersAreInside(Run(s, steps))
  {
    RunKeepsInv(s, steps);
    if steps != [] {
      NoLockIsLeftBehind(s, steps[..|steps| - 1]);
      StepKeepsOwnersInside(Run(s, steps[..|steps| - 1]), steps[|steps| - 1]);
    }
  }

  lemma {:induction false} CanGoOn(s: State, t: TaskId)
    requires t in s.tasks && !s.tasks[t].stage.Finished?
    requires s.tasks[t].stage.Queued? ==> s.tasks[t].stage.lock !in s.owners
    ensures Proceed(s, t).tasks[t].stage != s.tasks[t].stage
  {
  }

  /** A task that has not finished can go on itself, or it waits for the lock of a task that can. */
  lemma {:induction false} NobodyWaitsForEver(s: State, steps: seq<Step>, t: TaskId) returns (u: TaskId)
    requires Initial(s) && t in Run(s, steps).tasks && !Run(s, steps).tasks[t].stage.Finished?
    ensures var now := Run(s, steps);
            && u in now.tasks && Next(now, Advance(u)).tasks[u].stage != now.tasks[u].stage
            && (u != t ==> now.tasks[t].stage.Queued? && Holding(now.tasks[u].stage) && now.tasks[t].stage.lock == now.tasks[u].stage.lock)
  {
    var now := Run(s, steps);
    NoLockIsLeftBehind(s, steps);
    u := t;
    if now.tasks[t].stage.Queued? && now.tasks[t].stage.lock in now.owners {
      var l := now.tasks[t].stage.lock;
      assert OwnerIsInside(now, l);
      u := now.owners[l];
    }
    CanGoOn(now, u);
  }
}
