/** Threads that look locks up, enter critical sections and replace files, one atomic step at a time.

    A lookup holds the table's mutex, so lookups exclude one another; but references are given back
    without it, so a thread may drop one while another is between two visits of a prune.

    Every interleaving of the threads is a sequence of steps; the invariant below holds after each. */
module LockProtocol {
  import opened Wrappers
  import opened LockTable

  type ThreadId = nat

  type Content = string

  /** A read-modify-write operation: the new content from what the target held, if it existed. */
  type Update = Option<Content> -> Content

  /** What a path leads to. Locks are kept by path, so two paths to one file have a lock each. */
  type FileName = string

  /** Temporary files have names of their own, never those of a target. */
  datatype File = Target(name: FileName) | Temp(id: nat)

  /** The file each path leads to, and the contents at the start. */
  datatype Disk = Disk(names: Path -> FileName, files: map<FileName, Content>)

  /** Where a thread is: outside the critical section, or how far inside it. */
  datatype Phase =
    | Waiting
    | Entered(update: Update)
    | Loaded(update: Update, seen: Option<Content>)
    | Writing(update: Update, temp: nat, full: Content, written: nat)
    | Finished

  /** A thread that holds a reference to the lock of `path`; a thread that holds none is absent. */
  datatype Thread = Thread(path: Path, mutex: MutexId, phase: Phase)

  /** How an operation ended. A published one may still report an error, when the directory sync
      that follows the rename fails. */
  datatype Fate = Pending | Published(ok: bool) | Abandoned

  datatype Entry = Entry(thread: ThreadId, update: Update, fate: Fate)

  /** A lookup in progress: its thread holds the table's own mutex, and has yet to visit these entries. */
  datatype Search = Search(thread: ThreadId, path: Path, unvisited: set<Path>)

  /** `log` lists, for each path, the operations in the order they acquired the lock. */
  datatype World = World(
    names: Path -> FileName,
    table: Table,
    search: Option<Search>,
    threads: map<ThreadId, Thread>,
    files: map<File, Content>,
    log: map<Path, seq<Entry>>)

  datatype Step =
    | BeginStep(t: ThreadId, path: Path)
    | PruneStep(visited: Path)
    | LookupStep
    | LockStep(t: ThreadId, update: Update)
    | ReadStep(t: ThreadId)
    | CreateTempStep(t: ThreadId, temp: nat)
    | WriteStep(t: ThreadId, upTo: nat)
    | RenameStep(t: ThreadId, synced: bool)
    | FailStep(t: ThreadId)
    | UnlockStep(t: ThreadId)
    | DropStep(t: ThreadId)

  predicate Inside(w: World, t: ThreadId) {
    t in w.threads && !w.threads[t].phase.Waiting?
  }

  function LogOf(w: World, p: Path): seq<Entry> {
    if p in w.log then w.log[p] else []
  }

  function Read(files: map<File, Content>, f: FileName): Option<Content> {
    if Target(f) in files then Some(files[Target(f)]) else None
  }

  /** What a reader of the path finds. */
  function At(w: World, p: Path): Option<Content> {
    Read(w.files, w.names(p))
  }

  /** Each step's guard: a mutex admits one thread, and an operation goes through its phases in order. */
  ghost predicate Enabled(w: World, s: Step) {
    match s
    case BeginStep(t, _) => w.search.None? && t !in w.threads
    case PruneStep(p) => w.search.Some? && p in w.search.value.unvisited
    case LookupStep => w.search.Some? && w.search.value.unvisited == {}
    case LockStep(t, _) =>
      && t in w.threads && w.threads[t].phase.Waiting?
      && forall u :: u in w.threads && w.threads[u].mutex == w.threads[t].mutex ==> !Inside(w, u)
    case ReadStep(t) => t in w.threads && w.threads[t].phase.Entered?
    case CreateTempStep(t, temp) => t in w.threads && w.threads[t].phase.Loaded? && Temp(temp) !in w.files
    case WriteStep(t, upTo) =>
      && t in w.threads && w.threads[t].phase.Writing?
      && w.threads[t].phase.written <= upTo <= |w.threads[t].phase.full|
    case RenameStep(t, _) =>
      && t in w.threads && w.threads[t].phase.Writing?
      && w.threads[t].phase.written == |w.threads[t].phase.full|
      && Temp(w.threads[t].phase.temp) in w.files
    case FailStep(t) => Inside(w, t) && !w.threads[t].phase.Finished?
    case UnlockStep(t) => t in w.threads && w.threads[t].phase.Finished?
    case DropStep(t) =>
      && t in w.threads && w.threads[t].phase.Waiting?
      && w.threads[t].mutex in w.table.strong && w.table.strong[w.threads[t].mutex] > 0
  }

  function Moved(w: World, t: ThreadId, phase: Phase): map<ThreadId, Thread>
    requires t in w.threads
  {
    w.threads[t := w.threads[t].(phase := phase)]
  }

  /** The path's log with its last operation settled. */
  function Settle(log: seq<Entry>, fate: Fate): seq<Entry> {
    if log == [] then [] else log[|log| - 1 := log[|log| - 1].(fate := fate)]
  }

  function WithoutTemp(files: map<File, Content>, phase: Phase): map<File, Content> {
    if phase.Writing? then files - {Temp(phase.temp)} else files
  }

  ghost function Next(w: World, s: Step): World
    requires Enabled(w, s)
  {
    match s
    case BeginStep(t, path) =>
      w.(search := Some(Search(t, path, if |w.table.entries| >= PRUNE_THRESHOLD then w.table.entries.Keys else {})))
    case PruneStep(p) =>
      w.(table := PrunedAt(w.table, p), search := Some(w.search.value.(unvisited := w.search.value.unvisited - {p})))
    case LookupStep =>
      var Search(t, path, _) := w.search.value;
      var (table, m) := Found(w.table, path);
      w.(table := table, search := None, threads := w.threads[t := Thread(path, m, Waiting)])
    case LockStep(t, update) =>
      var p := w.threads[t].path;
      w.(threads := Moved(w, t, Entered(update)), log := w.log[p := LogOf(w, p) + [Entry(t, update, Pending)]])
    case ReadStep(t) =>
      var th := w.threads[t];
      w.(threads := Moved(w, t, Loaded(th.phase.update, At(w, th.path))))
    case CreateTempStep(t, temp) =>
      var phase := w.threads[t].phase;
      w.(threads := Moved(w, t, Writing(phase.update, temp, phase.update(phase.seen), 0)), files := w.files[Temp(temp) := ""])
    case WriteStep(t, upTo) =>
      var phase := w.threads[t].phase;
      w.(threads := Moved(w, t, phase.(written := upTo)), files := w.files[Temp(phase.temp) := phase.full[..upTo]])
    case RenameStep(t, synced) =>
      var th := w.threads[t];
      w.(threads := Moved(w, t, Finished),
         files := (w.files - {Temp(th.phase.temp)})[Target(w.names(th.path)) := w.files[Temp(th.phase.temp)]],
         log := w.log[th.path := Settle(LogOf(w, th.path), Published(synced))])
    case FailStep(t) =>
      var th := w.threads[t];
      w.(threads := Moved(w, t, Finished),
         files := WithoutTemp(w.files, th.phase),
         log := w.log[th.path := Settle(LogOf(w, th.path), Abandoned)])
    case UnlockStep(t) => w.(threads := Moved(w, t, Waiting))
    case DropStep(t) => w.(table := Release(w.table, w.threads[t].mutex), threads := w.threads - {t})
  }

  /** The start: no references, no operations, whatever target files there are. */
  function Start(disk: Disk): World {
    World(disk.names, EMPTY, None, map[], map f: File | f in (set n | n in disk.files :: Target(n)) :: disk.files[f.name], map[])
  }

  // ---- who holds what ------------------------------------------------------------------------------

  ghost function Holders(threads: map<ThreadId, Thread>, m: MutexId): set<ThreadId> {
    set t | t in threads && threads[t].mutex == m
  }

  /** Counts are the numbers of holders, and a thread's mutex is the one the table has for its path. */
  ghost predicate RefsOk(table: Table, threads: map<ThreadId, Thread>) {
    TableOk(table) && Counted(table.strong, threads) && Canonical(table.entries, threads)
  }

  ghost predicate Counted(strong: map<MutexId, nat>, threads: map<ThreadId, Thread>) {
    forall m :: m in strong ==> strong[m] == |Holders(threads, m)|
  }

  ghost predicate Canonical(entries: map<Path, MutexId>, threads: map<ThreadId, Thread>) {
    forall t :: t in threads ==> threads[t].path in entries && entries[threads[t].path] == threads[t].mutex
  }

  ghost predicate MutualExclusion(w: World) {
    forall t, u :: Inside(w, t) && Inside(w, u) && w.threads[t].mutex == w.threads[u].mutex ==> t == u
  }

  lemma HolderCounts(table: Table, threads: map<ThreadId, Thread>, t: ThreadId)
    requires RefsOk(table, threads) && t in threads
    ensures threads[t].mutex in table.strong && table.strong[threads[t].mutex] > 0
  {
    assert t in Holders(threads, threads[t].mutex);
  }

  lemma OneMoreHolder(strong: map<MutexId, nat>, threads: map<ThreadId, Thread>, t: ThreadId, th: Thread)
    requires Counted(strong, threads) && t !in threads
    requires th.mutex !in strong ==> Holders(threads, th.mutex) == {}
    ensures Counted(strong[th.mutex := if th.mutex in strong then strong[th.mutex] + 1 else 1], threads[t := th])
  {
    var strong' := strong[th.mutex := if th.mutex in strong then strong[th.mutex] + 1 else 1];
    forall n | n in strong' ensures strong'[n] == |Holders(threads[t := th], n)| {
      var before := Holders(threads, n);
      if n == th.mutex {
        assert Holders(threads[t := th], n) == before + {t} && t !in before;
      } else {
        assert Holders(threads[t := th], n) == before;
      }
    }
  }

  lemma LookupKeepsCanonical(table: Table, threads: map<ThreadId, Thread>, t: ThreadId, path: Path, after: Table, m: MutexId, phase: Phase)
    requires RefsOk(table, threads) && t !in threads
    requires Looked(table, path, after, m)
    ensures Canonical(after.entries, threads[t := Thread(path, m, phase)])
  {
    forall u | u in threads ensures threads[u].path in after.entries && after.entries[threads[u].path] == threads[u].mutex {
      HolderCounts(table, threads, u);
    }
  }

  lemma NewMutexHasNoHolders(table: Table, threads: map<ThreadId, Thread>, m: MutexId)
    requires RefsOk(table, threads) && m !in table.strong
    ensures Holders(threads, m) == {}
  {
  }

  lemma LookupKeepsRefs(table: Table, threads: map<ThreadId, Thread>, t: ThreadId, path: Path, after: Table, m: MutexId, phase: Phase)
    requires RefsOk(table, threads) && t !in threads
    requires Looked(table, path, after, m)
    ensures RefsOk(after, threads[t := Thread(path, m, phase)])
  {
    LookupKeepsCanonical(table, threads, t, path, after, m, phase);
    if m !in table.strong {
      NewMutexHasNoHolders(table, threads, m);
    }
    OneMoreHolder(table.strong, threads, t, Thread(path, m, phase));
  }

  /** A visit removes an entry only if nobody holds a reference to its mutex. */
  lemma PruneKeepsRefs(table: Table, threads: map<ThreadId, Thread>, p: Path)
    requires RefsOk(table, threads)
    ensures RefsOk(PrunedAt(table, p), threads)
  {
    forall u | u in threads ensures threads[u].path in PrunedAt(table, p).entries {
      HolderCounts(table, threads, u);
    }
  }

  lemma DropKeepsRefs(table: Table, threads: map<ThreadId, Thread>, t: ThreadId)
    requires RefsOk(table, threads) && t in threads
    ensures threads[t].mutex in table.strong && table.strong[threads[t].mutex] > 0
    ensures RefsOk(Release(table, threads[t].mutex), threads - {t})
  {
    HolderCounts(table, threads, t);
    var m := threads[t].mutex;
    forall n ensures Holders(threads - {t}, n) == if n == m then Holders(threads, n) - {t} else Holders(threads, n) {
    }
  }

  lemma MoveKeepsRefs(table: Table, threads: map<ThreadId, Thread>, t: ThreadId, phase: Phase)
    requires RefsOk(table, threads) && t in threads
    ensures RefsOk(table, threads[t := threads[t].(phase := phase)])
  {
    forall n ensures Holders(threads[t := threads[t].(phase := phase)], n) == Holders(threads, n) {
    }
  }
}
