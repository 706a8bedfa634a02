/** What the invariant gives for every run, however the threads interleave: mutual exclusion for each
    path, no lost update, whole contents only, and no stray temporary files. */
module AtomicRuns {
  import opened Wrappers
  import opened LockTable
  import opened LockProtocol
  import opened AtomicReplace
  import opened AtomicContents

  /** The world a run of enabled steps reaches; None when some step was not enabled. */
  ghost function Exec(disk: Disk, steps: seq<Step>): Option<World> {
    if steps == [] then Some(Start(disk))
    else
      match Exec(disk, steps[..|steps| - 1])
      case None => None
      case Some(w) =>
        var s := steps[|steps| - 1];
        if Enabled(w, s) then Some(Next(w, s)) else None
  }

  /** Steps that lead from the start to `w`. */
  ghost predicate LeadsTo(disk: Disk, steps: seq<Step>, w: World) {
    Exec(disk, steps) == Some(w)
  }

  lemma OneStep(disk: Disk, steps: seq<Step>, w: World, s: Step, w': World)
    requires LeadsTo(disk, steps, w) && Enabled(w, s) && Next(w, s) == w'
    ensures LeadsTo(disk, steps + [s], w')
  {
    assert (steps + [s])[..|steps|] == steps;
  }

  /** Two steps in a row. */
  ghost predicate Moves(w: World, s: Step, s': Step, w': World) {
    && Enabled(w, s) && Enabled(Next(w, s), s') && Next(Next(w, s), s') == w'
  }

  lemma TwoSteps(disk: Disk, steps: seq<Step>, w: World, s: Step, s': Step, w': World)
    requires LeadsTo(disk, steps, w) && Moves(w, s, s', w')
    ensures LeadsTo(disk, steps + [s] + [s'], w')
  {
    OneStep(disk, steps, w, s, Next(w, s));
    OneStep(disk, steps + [s], Next(w, s), s', w');
  }

  lemma StartFiles(disk: Disk)
    ensures forall f :: Read(Start(disk).files, f) == Initial(disk, f)
    ensures forall n: nat :: Temp(n) !in Start(disk).files
  {
  }

  lemma StartOk(w: World)
    requires w.table == EMPTY && w.search == None && w.threads == map[] && w.log == map[]
    requires forall n: nat :: Temp(n) !in w.files
    ensures WorldOk(w)
  {
    assert forall p :: LogOf(w, p) == [];
  }

  lemma {:induction false} EveryRunKeeps(disk: Disk, steps: seq<Step>)
    requires Exec(disk, steps).Some?
    ensures WorldOk(Exec(disk, steps).value)
  {
    if steps == [] {
      StartFiles(disk);
      StartOk(Start(disk));
    } else {
      var init := steps[..|steps| - 1];
      EveryRunKeeps(disk, init);
      StepKeeps(Exec(disk, init).value, steps[|steps| - 1]);
    }
  }

  lemma {:induction false} EveryRunKeepsContents(disk: Disk, steps: seq<Step>)
    requires Exec(disk, steps).Some? && DistinctFiles(Exec(disk, steps).value)
    ensures ContentsOk(disk, Exec(disk, steps).value)
  {
    if steps == [] {
      StartFiles(disk);
    } else {
      var init, last := steps[..|steps| - 1], steps[|steps| - 1];
      LocksStayTaken(Exec(disk, init).value, last);
      EveryRunKeeps(disk, init);
      EveryRunKeepsContents(disk, init);
      StepKeepsContents(disk, Exec(disk, init).value, last);
    }
  }

  /** In every run: all references to a path's lock are to the mutex the table holds for it, and no
      two threads are inside for one path. */
  lemma OneLockPerPath(disk: Disk, steps: seq<Step>)
    requires Exec(disk, steps).Some?
    ensures var w := Exec(disk, steps).value;
            forall t, u :: t in w.threads && u in w.threads && w.threads[t].path == w.threads[u].path ==>
              && w.threads[t].path in w.table.entries
              && w.threads[t].mutex == w.threads[u].mutex == w.table.entries[w.threads[t].path]
              && (Inside(w, t) && Inside(w, u) ==> t == u)
  {
    EveryRunKeeps(disk, steps);
  }

  /** In every run in which the paths locked lead to different files, each of these files holds its
      initial content with the published updates applied in the order the lock was acquired, and no
      other file is touched: no update is lost. */
  lemma NoLostUpdate(disk: Disk, steps: seq<Step>)
    requires Exec(disk, steps).Some? && DistinctFiles(Exec(disk, steps).value)
    ensures var w := Exec(disk, steps).value;
            && (forall p :: p in w.log ==> At(w, p) == Replay(Initial(disk, w.names(p)), w.log[p]))
            && (forall f :: !Named(w, f) ==> Read(w.files, f) == Initial(disk, f))
  {
    EveryRunKeepsContents(disk, steps);
  }

  /** The operations that acquired the lock of `p` in a run, in the order of their lock steps. */
  ghost function Acquired(disk: Disk, steps: seq<Step>, p: Path): seq<(ThreadId, Update)>
    requires Exec(disk, steps).Some?
  {
    if steps == [] then []
    else
      var init, last := steps[..|steps| - 1], steps[|steps| - 1];
      var before := Acquired(disk, init, p);
      if last.LockStep? && Exec(disk, init).value.threads[last.t].path == p then before + [(last.t, last.update)] else before
  }

  ghost predicate LogMatches(log: seq<Entry>, acquired: seq<(ThreadId, Update)>) {
    |log| == |acquired| && forall i :: 0 <= i < |log| ==> (log[i].thread, log[i].update) == acquired[i]
  }

  lemma StepKeepsLogOrder(w: World, s: Step, p: Path, acquired: seq<(ThreadId, Update)>)
    requires Enabled(w, s) && LogMatches(LogOf(w, p), acquired)
    ensures LogMatches(LogOf(Next(w, s), p),
                       if s.LockStep? && w.threads[s.t].path == p then acquired + [(s.t, s.update)] else acquired)
  {
  }

  /** The log of a path is the sequence of lock acquisitions on it. */
  lemma {:induction false} LogIsAcquisitionOrder(disk: Disk, steps: seq<Step>, p: Path)
    requires Exec(disk, steps).Some?
    ensures LogMatches(LogOf(Exec(disk, steps).value, p), Acquired(disk, steps, p))
  {
    if steps != [] {
      var init, last := steps[..|steps| - 1], steps[|steps| - 1];
      LogIsAcquisitionOrder(disk, init, p);
      StepKeepsLogOrder(Exec(disk, init).value, last, p, Acquired(disk, init, p));
    }
  }

  /** In every run a step leaves a file alone or puts a whole new content in its place, and that is the
      update of what the file held if the paths locked lead to different files. */
  lemma ReplaceIsAtomic(disk: Disk, steps: seq<Step>, s: Step, f: FileName)
    requires Exec(disk, steps).Some? && Enabled(Exec(disk, steps).value, s)
    ensures var w := Exec(disk, steps).value;
            Read(Next(w, s).files, f) == Read(w.files, f) ||
            (s.RenameStep? && w.names(w.threads[s.t].path) == f
             && Read(Next(w, s).files, f) == Some(w.threads[s.t].phase.full)
             && (DistinctFiles(w) ==> w.threads[s.t].phase.full == w.threads[s.t].phase.update(Read(w.files, f))))
  {
    EveryRunKeeps(disk, steps);
    var w := Exec(disk, steps).value;
    if s.RenameStep? {
      RenameEffect(w, s.t, s.synced);
      if DistinctFiles(w) {
        EveryRunKeepsContents(disk, steps);
        assert SeenOk(w, w.threads[s.t]);
      }
    }
  }

  /** In every run a temporary file exists only while a thread inside is writing it. */
  lemma NoStrayTemps(disk: Disk, steps: seq<Step>)
    requires Exec(disk, steps).Some?
    ensures var w := Exec(disk, steps).value;
            forall n: nat :: Temp(n) in w.files ==> exists t :: Owns(w, t, n) && Inside(w, t)
  {
    EveryRunKeeps(disk, steps);
    var w := Exec(disk, steps).value;
    forall n: nat | Temp(n) in w.files ensures exists t :: Owns(w, t, n) && Inside(w, t) {
      var t :| Owns(w, t, n);
      assert Inside(w, t);
    }
  }

  // ---- what callers are told ---------------------------------------------------------------------------------

  /** The updates whose operations reported success, applied in order. */
  ghost function ReplayReported(start: Option<Content>, log: seq<Entry>): Option<Content> {
    if log == [] then start
    else
      var before, last := ReplayReported(start, log[..|log| - 1]), log[|log| - 1];
      if last.fate == Published(true) then Some(last.update(before)) else before
  }

  lemma {:induction false} ReportsAgree(start: Option<Content>, log: seq<Entry>)
    requires forall i :: 0 <= i < |log| ==> log[i].fate != Published(false)
    ensures Replay(start, log) == ReplayReported(start, log)
  {
    if log != [] {
      ReportsAgree(start, log[..|log| - 1]);
    }
  }

  /** The updates that took effect, or only those whose callers were told so. */
  ghost function Effective(log: seq<Entry>, told: bool): seq<Update> {
    if log == [] then []
    else
      var before, last := Effective(log[..|log| - 1], told), log[|log| - 1];
      if last.fate.Published? && (told ==> last.fate.ok) then before + [last.update] else before
  }

  lemma {:induction false} ToldIsFewer(log: seq<Entry>)
    ensures |Effective(log, true)| <= |Effective(log, false)|
    ensures |Effective(log, true)| == |Effective(log, false)| <==> !HasUnsynced(log)
    ensures |Effective(log, true)| == |Effective(log, false)| ==> Effective(log, true) == Effective(log, false)
  {
    if log != [] {
      ToldIsFewer(log[..|log| - 1]);
    }
  }

  ghost predicate HasUnsynced(log: seq<Entry>) {
    exists i :: 0 <= i < |log| && log[i].fate == Published(false)
  }

  /** The step renames the new content over the target of a thread working on `p`, and the directory
      sync that follows fails. */
  predicate FailsToSync(w: World, s: Step, p: Path) {
    s.RenameStep? && !s.synced && s.t in w.threads && w.threads[s.t].path == p
  }

  /** Somewhere in the run a directory sync failed after a rename by a thread working on `p`. */
  ghost predicate SyncFailed(disk: Disk, steps: seq<Step>, p: Path)
    requires Exec(disk, steps).Some?
  {
    steps != [] &&
    var init, last := steps[..|steps| - 1], steps[|steps| - 1];
    SyncFailed(disk, init, p) || FailsToSync(Exec(disk, init).value, last, p)
  }

  /** A settled entry was pending, so settling one never removes an unsynced entry. */
  lemma SettleUnsynced(log: seq<Entry>, fate: Fate)
    requires log != [] && log[|log| - 1].fate.Pending?
    ensures HasUnsynced(Settle(log, fate)) <==> HasUnsynced(log) || fate == Published(false)
  {
    var settled := Settle(log, fate);
    assert settled[|log| - 1].fate == fate;
    assert forall i :: 0 <= i < |log| - 1 ==> settled[i] == log[i];
  }

  lemma AppendUnsynced(log: seq<Entry>, e: Entry)
    requires e.fate.Pending?
    ensures HasUnsynced(log + [e]) <==> HasUnsynced(log)
  {
    assert forall i :: 0 <= i < |log| ==> (log + [e])[i] == log[i];
  }

  lemma StepUnsynced(w: World, s: Step, p: Path)
    requires LogsOk(w) && Enabled(w, s)
    ensures HasUnsynced(LogOf(Next(w, s), p)) <==> HasUnsynced(LogOf(w, p)) || FailsToSync(w, s, p)
  {
    if s.LockStep? {
      AppendUnsynced(LogOf(w, w.threads[s.t].path), Entry(s.t, s.update, Pending));
    } else if s.RenameStep? || s.FailStep? {
      assert Unfinished(w, s.t);
      SettleUnsynced(LogOf(w, w.threads[s.t].path), if s.RenameStep? then Published(s.synced) else Abandoned);
    }
  }

  lemma {:induction false} UnsyncedIsLogged(disk: Disk, steps: seq<Step>, p: Path)
    requires Exec(disk, steps).Some?
    ensures HasUnsynced(LogOf(Exec(disk, steps).value, p)) <==> SyncFailed(disk, steps, p)
  {
    if steps != [] {
      var init := steps[..|steps| - 1];
      UnsyncedIsLogged(disk, init, p);
      EveryRunKeeps(disk, init);
      StepUnsynced(Exec(disk, init).value, steps[|steps| - 1], p);
    }
  }

  /** After every run and on each path: what took effect is exactly what was reported as successful if
      and only if no directory sync failed after a rename on the path. */
  lemma ReportsAreTrueIff(disk: Disk, steps: seq<Step>, p: Path)
    requires Exec(disk, steps).Some?
    ensures var log := LogOf(Exec(disk, steps).value, p);
            Effective(log, true) == Effective(log, false) <==> !SyncFailed(disk, steps, p)
  {
    UnsyncedIsLogged(disk, steps, p);
    ToldIsFewer(LogOf(Exec(disk, steps).value, p));
  }

  /** As long as no directory sync failed after a rename, a file holds exactly the updates whose callers
      were told they succeeded. */
  lemma ReportedUpdatesAreKept(disk: Disk, steps: seq<Step>, p: Path)
    requires Exec(disk, steps).Some? && DistinctFiles(Exec(disk, steps).value) && p in Exec(disk, steps).value.log
    requires !SyncFailed(disk, steps, p)
    ensures var w := Exec(disk, steps).value;
            At(w, p) == ReplayReported(Initial(disk, w.names(p)), w.log[p])
  {
    NoLostUpdate(disk, steps);
    UnsyncedIsLogged(disk, steps, p);
    var w := Exec(disk, steps).value;
    ReportsAgree(Initial(disk, w.names(p)), w.log[p]);
  }

  /** The condition is needed: in every reachable state where a rename is due, it may also end with a
      failed directory sync, and then the caller is told of a failure although the target is replaced. */
  lemma FailedReportMayPublish(disk: Disk, steps: seq<Step>, t: ThreadId)
    requires Exec(disk, steps).Some? && Enabled(Exec(disk, steps).value, RenameStep(t, true))
    ensures var w := Exec(disk, steps).value;
            && Enabled(w, RenameStep(t, false))
            && var w', p := Next(w, RenameStep(t, false)), w.threads[t].path;
               && LogOf(w', p) != [] && LogOf(w', p)[|LogOf(w', p)| - 1].fate == Published(false)
               && At(w', p) == Some(w.threads[t].phase.full)
  {
    EveryRunKeeps(disk, steps);
    var w := Exec(disk, steps).value;
    RenameEffect(w, t, false);
    assert Unfinished(w, t);
  }
}
