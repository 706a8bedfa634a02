/** What the files hold: as long as the paths whose locks are taken lead to different files, every
    file holds the published updates of its path, applied in lock order. */
module AtomicContents {
  import opened Wrappers
  import opened LockTable
  import opened LockProtocol
  import opened AtomicReplace

  /** The published updates of a log, applied in order. */
  ghost function Replay(start: Option<Content>, log: seq<Entry>): Option<Content> {
    if log == [] then start
    else
      var before, last := Replay(start, log[..|log| - 1]), log[|log| - 1];
      if last.fate.Published? then Some(last.update(before)) else before
  }

  function Initial(disk: Disk, f: FileName): Option<Content> {
    if f in disk.files then Some(disk.files[f]) else None
  }

  /** The paths whose locks have been taken lead to different files. */
  ghost predicate DistinctFiles(w: World) {
    forall p, q :: p in w.log && q in w.log && w.names(p) == w.names(q) ==> p == q
  }

  /** Some path whose lock has been taken leads to this file. */
  ghost predicate Named(w: World, f: FileName) {
    exists p :: p in w.log && w.names(p) == f
  }

  /** What a thread has read is still what the file holds, and what it writes is the update of it. */
  ghost predicate SeenOk(w: World, th: Thread) {
    match th.phase
    case Loaded(_, seen) => seen == At(w, th.path)
    case Writing(update, _, full, _) => full == update(At(w, th.path))
    case _ => true
  }

  ghost predicate AllSeenOk(w: World) {
    forall t :: t in w.threads ==> SeenOk(w, w.threads[t])
  }

  ghost predicate FilesOk(disk: Disk, w: World) {
    && (forall p :: p in w.log ==> At(w, p) == Replay(Initial(disk, w.names(p)), w.log[p]))
    && (forall f :: !Named(w, f) ==> Read(w.files, f) == Initial(disk, f))
  }

  ghost predicate ContentsOk(disk: Disk, w: World) {
    AllSeenOk(w) && FilesOk(disk, w)
  }

  // ---- steps that touch neither targets nor logs -----------------------------------------------------

  ghost predicate SameTargets(w: World, w': World) {
    w'.names == w.names && forall f :: Read(w'.files, f) == Read(w.files, f)
  }

  predicate Quiet(s: Step) {
    !s.LockStep? && !s.RenameStep? && !s.FailStep?
  }

  lemma QuietEffect(w: World, s: Step)
    requires Enabled(w, s) && Quiet(s) && AllSeenOk(w)
    ensures SameTargets(w, Next(w, s)) && Next(w, s).log == w.log && AllSeenOk(Next(w, s))
  {
    var w' := Next(w, s);
    assert forall p :: At(w', p) == At(w, p);
    forall t | t in w'.threads ensures SeenOk(w', w'.threads[t]) {
      assert t in w.threads ==> SeenOk(w, w.threads[t]);
    }
  }

  lemma QuietKeeps(disk: Disk, w: World, w': World)
    requires FilesOk(disk, w) && SameTargets(w, w') && w'.log == w.log
    ensures FilesOk(disk, w')
  {
    assert forall f :: Named(w', f) <==> Named(w, f);
  }

  // ---- taking a lock -----------------------------------------------------------------------------------

  lemma ReplaySnoc(start: Option<Content>, log: seq<Entry>, e: Entry)
    ensures Replay(start, log + [e]) == if e.fate.Published? then Some(e.update(Replay(start, log))) else Replay(start, log)
  {
    assert (log + [e])[..|log|] == log;
  }

  /** A path locked for the first time leads to a file no other locked path leads to, so to one nobody
      has replaced. */
  lemma LockKeepsFiles(disk: Disk, w: World, w': World, p: Path, e: Entry)
    requires FilesOk(disk, w) && e.fate.Pending? && DistinctFiles(w')
    requires SameTargets(w, w') && w'.log == w.log[p := LogOf(w, p) + [e]]
    ensures FilesOk(disk, w')
  {
    ReplaySnoc(Initial(disk, w.names(p)), LogOf(w, p), e);
    assert p in w'.log && forall q :: q in w.log ==> q in w'.log;
    assert forall q :: q in w.log && w.names(q) == w.names(p) ==> q == p;
    forall q | q in w'.log ensures At(w', q) == Replay(Initial(disk, w'.names(q)), w'.log[q]) {
      assert q != p ==> At(w, q) == Replay(Initial(disk, w.names(q)), w.log[q]);
    }
    assert forall f :: Named(w, f) ==> Named(w', f);
  }

  lemma LockKeepsSeen(w: World, w': World, t: ThreadId, update: Update)
    requires AllSeenOk(w) && t in w.threads && SameTargets(w, w') && w'.threads == Moved(w, t, Entered(update))
    ensures AllSeenOk(w')
  {
    forall u | u in w'.threads ensures SeenOk(w', w'.threads[u]) {
      assert SeenOk(w, w.threads[u]);
    }
  }

  // ---- finishing -----------------------------------------------------------------------------------------

  /** Settling the pending operation adds its update to the replay if it is published, else nothing. */
  lemma SettleReplay(start: Option<Content>, log: seq<Entry>, fate: Fate)
    requires log != [] && log[|log| - 1].fate.Pending?
    ensures Replay(start, Settle(log, fate)) ==
            if fate.Published? then Some(log[|log| - 1].update(Replay(start, log))) else Replay(start, log)
  {
    var settled := Settle(log, fate);
    assert settled[..|settled| - 1] == log[..|log| - 1];
  }

  /** Thread `t` finishes: its log is settled, and its file has the update if it was published. */
  ghost predicate Finishes(w: World, w': World, t: ThreadId, fate: Fate) {
    && Unfinished(w, t) && !fate.Pending?
    && w'.names == w.names && w'.threads == Moved(w, t, Finished)
    && w'.log == w.log[w.threads[t].path := Settle(LogOf(w, w.threads[t].path), fate)]
    && forall f :: Read(w'.files, f) ==
                   if f == w.names(w.threads[t].path) && fate.Published?
                   then Some(UpdateOf(w.threads[t].phase)(Read(w.files, f)))
                   else Read(w.files, f)
  }

  lemma FinishKeepsFiles(disk: Disk, w: World, w': World, t: ThreadId, fate: Fate)
    requires FilesOk(disk, w) && LogsOk(w) && DistinctFiles(w) && Finishes(w, w', t, fate)
    ensures FilesOk(disk, w')
  {
    var p := w.threads[t].path;
    assert p in w.log;
    SettleReplay(Initial(disk, w.names(p)), w.log[p], fate);
    forall q | q in w'.log ensures At(w', q) == Replay(Initial(disk, w'.names(q)), w'.log[q]) {
      assert At(w, q) == Replay(Initial(disk, w.names(q)), w.log[q]);
      assert q != p ==> w.names(q) != w.names(p);
    }
    assert Named(w, w.names(p));
    assert forall f :: Named(w', f) <==> Named(w, f);
  }

  /** Every other thread that has read is inside for another path, so for another file. */
  lemma FinishKeepsSeen(w: World, w': World, t: ThreadId, fate: Fate)
    requires AllSeenOk(w) && DistinctFiles(w) && Finishes(w, w', t, fate)
    requires RefsOk(w.table, w.threads) && MutualExclusion(w) && LogsOk(w)
    ensures AllSeenOk(w')
  {
    forall u | u in w'.threads ensures SeenOk(w', w'.threads[u]) {
      assert SeenOk(w, w.threads[u]);
      if u != t && Unfinished(w, u) {
        if w.threads[u].path == w.threads[t].path {
          OneInsidePerPath(w, t, u);
        }
        assert w.threads[u].path in w.log && w.threads[t].path in w.log;
      }
    }
  }

  lemma RenameFinishes(w: World, t: ThreadId, synced: bool)
    requires Enabled(w, RenameStep(t, synced)) && DraftOk(w.files, w.threads[t].phase) && SeenOk(w, w.threads[t])
    ensures Finishes(w, Next(w, RenameStep(t, synced)), t, Published(synced))
  {
    RenameEffect(w, t, synced);
  }

  lemma FailFinishes(w: World, t: ThreadId)
    requires Enabled(w, FailStep(t))
    ensures Finishes(w, Next(w, FailStep(t)), t, Abandoned)
  {
  }

  // ---- every step ------------------------------------------------------------------------------------------

  /** Paths are only ever added to those whose locks have been taken. */
  lemma LocksStayTaken(w: World, s: Step)
    requires Enabled(w, s)
    ensures w.log.Keys <= Next(w, s).log.Keys && Next(w, s).names == w.names
    ensures DistinctFiles(Next(w, s)) ==> DistinctFiles(w)
  {
    assert w.log.Keys <= Next(w, s).log.Keys && Next(w, s).names == w.names;
  }

  lemma StepKeepsContents(disk: Disk, w: World, s: Step)
    requires WorldOk(w) && Enabled(w, s) && DistinctFiles(Next(w, s)) && ContentsOk(disk, w)
    ensures ContentsOk(disk, Next(w, s))
  {
    LocksStayTaken(w, s);
    if Quiet(s) {
      QuietEffect(w, s);
      QuietKeeps(disk, w, Next(w, s));
    } else if s.LockStep? {
      LockKeepsContents(disk, w, s.t, s.update);
    } else {
      FinishKeepsContents(disk, w, s);
    }
  }

  lemma LockKeepsContents(disk: Disk, w: World, t: ThreadId, update: Update)
    requires Enabled(w, LockStep(t, update)) && DistinctFiles(Next(w, LockStep(t, update))) && ContentsOk(disk, w)
    ensures ContentsOk(disk, Next(w, LockStep(t, update)))
  {
    var w' := Next(w, LockStep(t, update));
    LockKeepsFiles(disk, w, w', w.threads[t].path, Entry(t, update, Pending));
    LockKeepsSeen(w, w', t, update);
  }

  lemma FinishKeepsContents(disk: Disk, w: World, s: Step)
    requires WorldOk(w) && Enabled(w, s) && DistinctFiles(w) && ContentsOk(disk, w)
    requires s.RenameStep? || s.FailStep?
    ensures ContentsOk(disk, Next(w, s))
  {
    var fate := if s.RenameStep? then Published(s.synced) else Abandoned;
    if s.RenameStep? {
      RenameFinishes(w, s.t, s.synced);
    } else {
      FailFinishes(w, s.t);
    }
    FinishKeepsFiles(disk, w, Next(w, s), s.t, fate);
    FinishKeepsSeen(w, Next(w, s), s.t, fate);
  }
}
