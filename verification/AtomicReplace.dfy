/** The invariant of the lock protocol, kept by every step of every thread. */
module AtomicReplace {
  import opened Wrappers
  import opened LockTable
  import opened LockProtocol

  // ---- the invariant ---------------------------------------------------------------------------------

  predicate Unfinished(w: World, t: ThreadId) {
    Inside(w, t) && !w.threads[t].phase.Finished?
  }

  function UpdateOf(phase: Phase): Update
    requires !phase.Waiting? && !phase.Finished?
  {
    phase.update
  }

  /** Only the newest operation on a path can be pending, and it is the one a thread is inside for. */
  ghost predicate LogsOk(w: World) {
    && (forall p, i :: 0 <= i < |LogOf(w, p)| && LogOf(w, p)[i].fate.Pending? ==>
          i == |LogOf(w, p)| - 1 && Unfinished(w, LogOf(w, p)[i].thread) && w.threads[LogOf(w, p)[i].thread].path == p)
    && (forall t :: Unfinished(w, t) ==>
          var log := LogOf(w, w.threads[t].path);
          log != [] && log[|log| - 1] == Entry(t, UpdateOf(w.threads[t].phase), Pending))
  }

  /** The temporary file holds the part of the new content written so far. */
  ghost predicate DraftOk(files: map<File, Content>, phase: Phase) {
    phase.Writing? ==>
      && phase.written <= |phase.full|
      && Temp(phase.temp) in files && files[Temp(phase.temp)] == phase.full[..phase.written]
  }

  ghost predicate DraftsOk(w: World) {
    forall t :: t in w.threads ==> DraftOk(w.files, w.threads[t].phase)
  }

  predicate Owns(w: World, t: ThreadId, temp: nat) {
    t in w.threads && w.threads[t].phase.Writing? && w.threads[t].phase.temp == temp
  }

  /** Every temporary file belongs to one thread that is writing it. */
  ghost predicate TempsOk(w: World) {
    && (forall n: nat :: Temp(n) in w.files ==> exists t :: Owns(w, t, n))
    && (forall t, u, n :: Owns(w, t, n) && Owns(w, u, n) ==> t == u)
  }

  /** The thread of a lookup in progress holds no reference yet. */
  predicate SearchOk(w: World) {
    w.search.Some? ==> w.search.value.thread !in w.threads
  }

  ghost predicate WorldOk(w: World) {
    && RefsOk(w.table, w.threads)
    && SearchOk(w)
    && MutualExclusion(w)
    && LogsOk(w)
    && TempsOk(w)
    && DraftsOk(w)
  }

  /** Two threads inside for one path are the same thread. */
  lemma OneInsidePerPath(w: World, t: ThreadId, u: ThreadId)
    requires RefsOk(w.table, w.threads) && MutualExclusion(w)
    requires Inside(w, t) && Inside(w, u) && w.threads[t].path == w.threads[u].path
    ensures t == u
  {
  }

  // ---- each step keeps it ------------------------------------------------------------------------------

  lemma BeginKeeps(w: World, t: ThreadId, path: Path)
    requires WorldOk(w) && Enabled(w, BeginStep(t, path))
    ensures WorldOk(Next(w, BeginStep(t, path)))
  {
    OutsideKeeps(w, Next(w, BeginStep(t, path)), t);
  }

  lemma PruneKeeps(w: World, p: Path)
    requires WorldOk(w) && Enabled(w, PruneStep(p))
    ensures WorldOk(Next(w, PruneStep(p)))
  {
    PruneKeepsRefs(w.table, w.threads, p);
    OutsideKeeps(w, Next(w, PruneStep(p)), w.search.value.thread);
  }

  lemma LookupKeeps(w: World)
    requires WorldOk(w) && Enabled(w, LookupStep)
    ensures WorldOk(Next(w, LookupStep))
  {
    var Search(t, path, _) := w.search.value;
    var (table, m) := Found(w.table, path);
    FoundEffect(w.table, path);
    LookupKeepsRefs(w.table, w.threads, t, path, table, m, Waiting);
    OutsideKeeps(w, Next(w, LookupStep), t);
  }

  lemma DropKeeps(w: World, t: ThreadId)
    requires WorldOk(w) && Enabled(w, DropStep(t))
    ensures WorldOk(Next(w, DropStep(t)))
  {
    DropKeepsRefs(w.table, w.threads, t);
    OutsideKeeps(w, Next(w, DropStep(t)), t);
  }

  /** A thread that is outside before and after touches neither files nor logs. */
  lemma OutsideKeeps(w: World, w': World, t: ThreadId)
    requires WorldOk(w) && SameButOutside(w, w', t)
    ensures MutualExclusion(w') && LogsOk(w') && TempsOk(w')
    ensures DraftsOk(w')
  {
    OutsideKeepsLogs(w, w', t);
    OutsideKeepsDrafts(w, w', t);
  }

  ghost predicate SameButOutside(w: World, w': World, t: ThreadId) {
    && !Inside(w, t) && !Inside(w', t)
    && w'.files == w.files && w'.log == w.log
    && forall u :: u != t ==> (u in w.threads <==> u in w'.threads) && (u in w.threads ==> w'.threads[u] == w.threads[u])
  }

  lemma OutsideKeepsLogs(w: World, w': World, t: ThreadId)
    requires SameButOutside(w, w', t) && MutualExclusion(w) && LogsOk(w)
    ensures MutualExclusion(w') && LogsOk(w')
  {
    assert forall p :: LogOf(w', p) == LogOf(w, p);
    assert forall u :: Unfinished(w', u) <==> Unfinished(w, u);
  }

  lemma OutsideKeepsDrafts(w: World, w': World, t: ThreadId)
    requires SameButOutside(w, w', t) && TempsOk(w)
    requires DraftsOk(w)
    ensures TempsOk(w') && DraftsOk(w')
  {
    assert forall u, n :: Owns(w', u, n) <==> Owns(w, u, n);
  }

  lemma LockKeeps(w: World, t: ThreadId, update: Update)
    requires WorldOk(w) && Enabled(w, LockStep(t, update))
    ensures WorldOk(Next(w, LockStep(t, update)))
  {
    var w' := Next(w, LockStep(t, update));
    var p := w.threads[t].path;
    MoveKeepsRefs(w.table, w.threads, t, Entered(update));
    NobodyInside(w, t, update);
    LockKeepsExclusion(w, w', t, update);
    LockKeepsLogs(w, w', t, update);
    LockKeepsDrafts(w, w', t, update);
  }

  /** A free mutex means that nobody is inside for its path. */
  lemma NobodyInside(w: World, t: ThreadId, update: Update)
    requires RefsOk(w.table, w.threads) && Enabled(w, LockStep(t, update))
    ensures forall u :: u in w.threads && w.threads[u].path == w.threads[t].path ==> !Inside(w, u)
  {
  }

  lemma LockKeepsExclusion(w: World, w': World, t: ThreadId, update: Update)
    requires MutualExclusion(w) && Enabled(w, LockStep(t, update)) && w'.threads == Moved(w, t, Entered(update))
    ensures MutualExclusion(w')
  {
    assert forall u :: Inside(w', u) <==> u == t || Inside(w, u);
  }

  lemma LockKeepsDrafts(w: World, w': World, t: ThreadId, update: Update)
    requires TempsOk(w) && DraftsOk(w)
    requires t in w.threads && w.threads[t].phase.Waiting?
    requires w'.files == w.files && w'.threads == Moved(w, t, Entered(update))
    ensures TempsOk(w') && DraftsOk(w')
  {
    assert forall u, n :: Owns(w', u, n) <==> Owns(w, u, n);
    assert forall u :: u != t && u in w.threads ==> DraftOk(w.files, w.threads[u].phase);
  }

  lemma LockKeepsLogs(w: World, w': World, t: ThreadId, update: Update)
    requires LogsOk(w) && t in w.threads && w.threads[t].phase.Waiting?
    requires forall u :: u in w.threads && w.threads[u].path == w.threads[t].path ==> !Inside(w, u)
    requires w'.threads == Moved(w, t, Entered(update))
    requires w'.log == w.log[w.threads[t].path := LogOf(w, w.threads[t].path) + [Entry(t, update, Pending)]]
    ensures LogsOk(w')
  {
    var p := w.threads[t].path;
    assert forall u :: u != t ==> (Unfinished(w', u) <==> Unfinished(w, u));
    forall q, i | 0 <= i < |LogOf(w', q)| && LogOf(w', q)[i].fate.Pending?
      ensures i == |LogOf(w', q)| - 1 && Unfinished(w', LogOf(w', q)[i].thread) && w'.threads[LogOf(w', q)[i].thread].path == q
    {
      if q == p && i == |LogOf(w, p)| {
        assert LogOf(w', q)[i].thread == t;
      } else {
        var e := LogOf(w, q)[i];
        assert LogOf(w', q)[i] == e;
        assert Unfinished(w, e.thread) && w.threads[e.thread].path == q;
        assert e.thread != t && q != p;
      }
    }
    forall u | Unfinished(w', u)
      ensures var log := LogOf(w', w'.threads[u].path);
              log != [] && log[|log| - 1] == Entry(u, UpdateOf(w'.threads[u].phase), Pending)
    {
      assert u != t ==> Unfinished(w, u) && w.threads[u].path != p;
    }
  }

  // ---- working inside ------------------------------------------------------------------------------------

  /** A step inside that keeps the operation and the logs, and may write the thread's own temporary file. */
  lemma WorkKeeps(w: World, w': World, t: ThreadId, phase: Phase)
    requires WorldOk(w) && Unfinished(w, t)
    requires !phase.Waiting? && !phase.Finished? && UpdateOf(phase) == UpdateOf(w.threads[t].phase)
    requires w'.table == w.table && w'.search == w.search && w'.log == w.log && w'.threads == Moved(w, t, phase)
    requires forall u, n :: Owns(w, u, n) && u != t ==> Temp(n) in w'.files && w'.files[Temp(n)] == w.files[Temp(n)]
    requires DraftOk(w'.files, w'.threads[t].phase)
    requires TempsOk(w')
    ensures WorldOk(w')
  {
    MoveKeepsRefs(w.table, w.threads, t, phase);
    MoveKeepsExclusion(w, w', t, phase);
    WorkKeepsLogs(w, w', t, phase);
    OwnedTempsExist(w);
    WorkKeepsDrafts(w, w', t, phase);
    assert forall p :: LogOf(w', p) == LogOf(w, p);
  }

  lemma OwnedTempsExist(w: World)
    requires DraftsOk(w)
    ensures forall u, n :: Owns(w, u, n) ==> Temp(n) in w.files
  {
    forall u, n | Owns(w, u, n) ensures Temp(n) in w.files {
      assert DraftOk(w.files, w.threads[u].phase);
    }
  }

  lemma WorkKeepsDrafts(w: World, w': World, t: ThreadId, phase: Phase)
    requires t in w.threads && w'.threads == Moved(w, t, phase)
    requires DraftsOk(w)
    requires forall u, n :: Owns(w, u, n) && u != t ==>
                              Temp(n) in w.files && Temp(n) in w'.files && w'.files[Temp(n)] == w.files[Temp(n)]
    requires DraftOk(w'.files, w'.threads[t].phase)
    ensures DraftsOk(w')
  {
    forall u | u in w'.threads && u != t ensures DraftOk(w'.files, w'.threads[u].phase) {
      assert DraftOk(w.files, w.threads[u].phase);
      assert w.threads[u].phase.Writing? ==> Owns(w, u, w.threads[u].phase.temp);
    }
  }

  lemma WorkKeepsLogs(w: World, w': World, t: ThreadId, phase: Phase)
    requires LogsOk(w) && Unfinished(w, t)
    requires !phase.Waiting? && !phase.Finished? && UpdateOf(phase) == UpdateOf(w.threads[t].phase)
    requires w'.log == w.log && w'.threads == Moved(w, t, phase)
    ensures LogsOk(w')
  {
    assert forall u :: Unfinished(w', u) <==> Unfinished(w, u);
    assert forall p :: LogOf(w', p) == LogOf(w, p);
  }

  lemma ReadKeeps(w: World, t: ThreadId)
    requires WorldOk(w) && Enabled(w, ReadStep(t))
    ensures WorldOk(Next(w, ReadStep(t)))
  {
    var w' := Next(w, ReadStep(t));
    assert forall u, n :: Owns(w', u, n) <==> Owns(w, u, n);
    assert forall u, n :: Owns(w, u, n) ==> DraftOk(w.files, w.threads[u].phase);
    WorkKeeps(w, w', t, w'.threads[t].phase);
  }

  lemma CreateTempKeepsTemps(w: World, w': World, t: ThreadId, temp: nat, phase: Phase)
    requires TempsOk(w) && t in w.threads && !w.threads[t].phase.Writing? && Temp(temp) !in w.files
    requires forall u, n :: Owns(w, u, n) ==> n != temp
    requires phase.Writing? && phase.temp == temp && w'.threads == Moved(w, t, phase) && w'.files == w.files[Temp(temp) := ""]
    ensures TempsOk(w')
  {
    assert forall u, n :: u != t ==> (Owns(w', u, n) <==> Owns(w, u, n));
    assert Owns(w', t, temp);
    forall n: nat | Temp(n) in w'.files ensures exists u :: Owns(w', u, n) {
      if n != temp {
        var u :| Owns(w, u, n);
        assert Owns(w', u, n);
      }
    }
  }

  lemma CreateTempKeeps(w: World, t: ThreadId, temp: nat)
    requires WorldOk(w) && Enabled(w, CreateTempStep(t, temp))
    ensures WorldOk(Next(w, CreateTempStep(t, temp)))
  {
    var w' := Next(w, CreateTempStep(t, temp));
    OwnedTempsExist(w);
    CreateTempKeepsTemps(w, w', t, temp, w'.threads[t].phase);
    WorkKeeps(w, w', t, w'.threads[t].phase);
  }

  lemma WriteKeeps(w: World, t: ThreadId, upTo: nat)
    requires WorldOk(w) && Enabled(w, WriteStep(t, upTo))
    ensures WorldOk(Next(w, WriteStep(t, upTo)))
  {
    var w' := Next(w, WriteStep(t, upTo));
    var temp := w.threads[t].phase.temp;
    assert DraftOk(w.files, w.threads[t].phase);
    assert Owns(w, t, temp);
    assert forall u, n :: Owns(w, u, n) ==> DraftOk(w.files, w.threads[u].phase) && (u != t ==> n != temp);
    assert forall u, n :: Owns(w', u, n) <==> Owns(w, u, n);
    WorkKeeps(w, w', t, w'.threads[t].phase);
  }

  // ---- finishing ---------------------------------------------------------------------------------------------

  lemma FinishKeepsLogs(w: World, w': World, t: ThreadId, fate: Fate)
    requires RefsOk(w.table, w.threads) && MutualExclusion(w) && LogsOk(w) && Unfinished(w, t) && !fate.Pending?
    requires w'.threads == Moved(w, t, Finished)
    requires w'.log == w.log[w.threads[t].path := Settle(LogOf(w, w.threads[t].path), fate)]
    ensures LogsOk(w')
  {
    var p := w.threads[t].path;
    assert forall u :: Unfinished(w', u) <==> u != t && Unfinished(w, u);
    forall u | Unfinished(w, u) && u != t ensures w.threads[u].path != p {
      if w.threads[u].path == p {
        OneInsidePerPath(w, t, u);
      }
    }
    forall q, i | 0 <= i < |LogOf(w', q)| && LogOf(w', q)[i].fate.Pending?
      ensures i == |LogOf(w', q)| - 1 && Unfinished(w', LogOf(w', q)[i].thread) && w'.threads[LogOf(w', q)[i].thread].path == q
    {
      var e := LogOf(w, q)[i];
      assert LogOf(w', q)[i] == e;
      assert Unfinished(w, e.thread) && w.threads[e.thread].path == q;
      assert q != p;
    }
  }

  /** The temporary files of other threads are their own. */
  lemma FinishKeepsDrafts(w: World, w': World, t: ThreadId)
    requires RefsOk(w.table, w.threads) && MutualExclusion(w) && TempsOk(w) && Unfinished(w, t)
    requires DraftsOk(w)
    requires w'.threads == Moved(w, t, Finished)
    requires forall n: nat :: Temp(n) in w'.files <==> Temp(n) in w.files && !Owns(w, t, n)
    requires forall n: nat :: Temp(n) in w'.files ==> w'.files[Temp(n)] == w.files[Temp(n)]
    ensures TempsOk(w') && DraftsOk(w')
  {
    assert forall u, n :: Owns(w', u, n) <==> u != t && Owns(w, u, n);
    forall n: nat | Temp(n) in w'.files ensures exists u :: Owns(w', u, n) {
      var u :| Owns(w, u, n);
      assert Owns(w', u, n);
    }
    forall u | u in w'.threads && u != t ensures DraftOk(w'.files, w'.threads[u].phase) {
      assert DraftOk(w.files, w.threads[u].phase);
      assert w.threads[u].phase.Writing? ==> Owns(w, u, w.threads[u].phase.temp);
    }
  }

  lemma FinishKeeps(w: World, w': World, t: ThreadId, fate: Fate)
    requires WorldOk(w) && Unfinished(w, t) && !fate.Pending?
    requires w'.table == w.table && w'.search == w.search && w'.threads == Moved(w, t, Finished)
    requires w'.log == w.log[w.threads[t].path := Settle(LogOf(w, w.threads[t].path), fate)]
    requires forall n: nat :: Temp(n) in w'.files <==> Temp(n) in w.files && !Owns(w, t, n)
    requires forall n: nat :: Temp(n) in w'.files ==> w'.files[Temp(n)] == w.files[Temp(n)]
    ensures WorldOk(w')
  {
    MoveKeepsRefs(w.table, w.threads, t, Finished);
    MoveKeepsExclusion(w, w', t, Finished);
    FinishKeepsLogs(w, w', t, fate);
    FinishKeepsDrafts(w, w', t);
  }

  lemma RenameKeeps(w: World, t: ThreadId, synced: bool)
    requires WorldOk(w) && Enabled(w, RenameStep(t, synced))
    ensures WorldOk(Next(w, RenameStep(t, synced)))
  {
    RenameEffect(w, t, synced);
    FinishKeeps(w, Next(w, RenameStep(t, synced)), t, Published(synced));
  }

  /** A rename puts the whole new content in the target's place, and takes the temporary file away. */
  lemma RenameEffect(w: World, t: ThreadId, synced: bool)
    requires Enabled(w, RenameStep(t, synced)) && DraftOk(w.files, w.threads[t].phase)
    ensures var w' := Next(w, RenameStep(t, synced));
            && (forall f :: Read(w'.files, f) ==
                            if f == w.names(w.threads[t].path) then Some(w.threads[t].phase.full) else Read(w.files, f))
            && (forall n: nat :: Temp(n) in w'.files <==> Temp(n) in w.files && !Owns(w, t, n))
            && (forall n: nat :: Temp(n) in w'.files ==> w'.files[Temp(n)] == w.files[Temp(n)])
  {
    var phase := w.threads[t].phase;
    assert phase.full[..|phase.full|] == phase.full;
  }

  lemma FailKeeps(w: World, t: ThreadId)
    requires WorldOk(w) && Enabled(w, FailStep(t))
    ensures WorldOk(Next(w, FailStep(t)))
  {
    FinishKeeps(w, Next(w, FailStep(t)), t, Abandoned);
  }

  lemma UnlockKeeps(w: World, t: ThreadId)
    requires WorldOk(w) && Enabled(w, UnlockStep(t))
    ensures WorldOk(Next(w, UnlockStep(t)))
  {
    var w' := Next(w, UnlockStep(t));
    MoveKeepsRefs(w.table, w.threads, t, Waiting);
    MoveKeepsExclusion(w, w', t, Waiting);
    UnlockKeepsLogs(w, w', t);
    UnlockKeepsDrafts(w, w', t);
  }

  lemma MoveKeepsExclusion(w: World, w': World, t: ThreadId, phase: Phase)
    requires MutualExclusion(w) && t in w.threads && w'.threads == Moved(w, t, phase)
    requires Inside(w, t) || phase.Waiting?
    ensures MutualExclusion(w')
  {
    assert forall u :: Inside(w', u) ==> Inside(w, u) && w'.threads[u].mutex == w.threads[u].mutex;
  }

  lemma UnlockKeepsLogs(w: World, w': World, t: ThreadId)
    requires LogsOk(w) && t in w.threads && w.threads[t].phase.Finished?
    requires w'.log == w.log && w'.threads == Moved(w, t, Waiting)
    ensures LogsOk(w')
  {
    assert forall p :: LogOf(w', p) == LogOf(w, p);
    assert forall u :: Unfinished(w', u) <==> Unfinished(w, u);
  }

  lemma UnlockKeepsDrafts(w: World, w': World, t: ThreadId)
    requires TempsOk(w) && DraftsOk(w)
    requires t in w.threads && w.threads[t].phase.Finished?
    requires w'.files == w.files && w'.threads == Moved(w, t, Waiting)
    ensures TempsOk(w') && DraftsOk(w')
  {
    assert forall u, n :: Owns(w', u, n) <==> Owns(w, u, n);
    assert DraftsOk(w);
  }

  // ---- every step ----------------------------------------------------------------------------------------------

  lemma StepKeeps(w: World, s: Step)
    requires WorldOk(w) && Enabled(w, s)
    ensures WorldOk(Next(w, s))
  {
    match s
    case BeginStep(t, path) => BeginKeeps(w, t, path);
    case PruneStep(p) => PruneKeeps(w, p);
    case LookupStep => LookupKeeps(w);
    case LockStep(t, update) => LockKeeps(w, t, update);
    case ReadStep(t) => ReadKeeps(w, t);
    case CreateTempStep(t, temp) => CreateTempKeeps(w, t, temp);
    case WriteStep(t, upTo) => WriteKeeps(w, t, upTo);
    case RenameStep(t, synced) => RenameKeeps(w, t, synced);
    case FailStep(t) => FailKeeps(w, t);
    case UnlockStep(t) => UnlockKeeps(w, t);
    case DropStep(t) => DropKeeps(w, t);
  }
}
