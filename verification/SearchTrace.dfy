/** Which entries of the lock table go dead behind the back of a lookup that is pruning it. */
module SearchTrace {
  import opened LockTable
  import opened LockProtocol
  import opened AtomicRuns

  /** Steps that neither begin nor end a search. */
  predicate Within(steps: seq<Step>) {
    forall i :: 0 <= i < |steps| ==> !steps[i].BeginStep? && !steps[i].LookupStep?
  }

  /** The step gives back the last reference to the lock of `p`. */
  predicate DropsLast(w: World, s: Step, p: Path) {
    && s.DropStep? && s.t in w.threads && w.threads[s.t].path == p
    && Refs(w.table, w.threads[s.t].mutex) == 1
  }

  /** After `before`, which ends as a search begins, some step of `rest` gives back the last reference
      to the lock of `p` when the search has already visited the entry of `p`. */
  ghost predicate DroppedBehind(disk: Disk, before: seq<Step>, rest: seq<Step>, p: Path) {
    rest != [] &&
    var init, last := rest[..|rest| - 1], rest[|rest| - 1];
    || DroppedBehind(disk, before, init, p)
    || (PruneStep(p) in init && Exec(disk, before + init).Some? && DropsLast(Exec(disk, before + init).value, last, p))
  }

  // ---- one path, step by step ------------------------------------------------------------------------

  predicate Dying(table: Table, unvisited: set<Path>, p: Path) {
    Dead(table, p) && p !in unvisited
  }

  /** A search of a full table, which was `start` when it began, as far as `p` is concerned: it has been
      visited or not, and its entry has gone dead since the visit or not. */
  ghost predicate Tracked(start: Table, table: Table, unvisited: set<Path>, p: Path, visited: bool, behind: bool) {
    && (p in table.entries ==> p in start.entries)
    && (p in unvisited ==> p in start.entries)
    && (p in start.entries ==> (p in unvisited <==> !visited))
    && (Dying(table, unvisited, p) <==> behind)
  }

  lemma VisitTracks(start: Table, table: Table, unvisited: set<Path>, q: Path, p: Path, visited: bool, behind: bool)
    requires Tracked(start, table, unvisited, p, visited, behind) && q in unvisited
    ensures Tracked(start, PrunedAt(table, q), unvisited - {q}, p, visited || p == q, behind)
  {
  }

  lemma DropTracks(start: Table, w: World, t: ThreadId, unvisited: set<Path>, p: Path, visited: bool, behind: bool)
    requires RefsOk(w.table, w.threads) && Enabled(w, DropStep(t))
    requires Tracked(start, w.table, unvisited, p, visited, behind)
    ensures Tracked(start, Release(w.table, w.threads[t].mutex), unvisited, p, visited,
                    behind || (visited && DropsLast(w, DropStep(t), p)))
  {
    var after := Release(w.table, w.threads[t].mutex);
    assert w.threads[t].path in w.table.entries && w.table.entries[w.threads[t].path] == w.threads[t].mutex;
    if p in w.table.entries {
      assert p != w.threads[t].path ==> w.table.entries[p] != w.threads[t].mutex;
      assert Refs(after, w.table.entries[p]) ==
             Refs(w.table, w.table.entries[p]) - if p == w.threads[t].path then 1 else 0;
    }
  }

  /** What a step of a search, or of another thread during it, does to the table and to what is left to visit. */
  lemma StepOnSearch(w: World, s: Step)
    requires Enabled(w, s) && w.search.Some? && !s.LookupStep?
    ensures !s.BeginStep? && Next(w, s).search.Some? && Next(w, s).search.value.path == w.search.value.path
    ensures Next(w, s).search.value.unvisited ==
            if s.PruneStep? then w.search.value.unvisited - {s.visited} else w.search.value.unvisited
    ensures s.PruneStep? ==> s.visited in w.search.value.unvisited
    ensures s.DropStep? ==> var m := w.threads[s.t].mutex;
                            m in w.table.strong && w.table.strong[m] > 0 && Next(w, s).table == Release(w.table, m)
    ensures !s.DropStep? ==> Next(w, s).table == if s.PruneStep? then PrunedAt(w.table, s.visited) else w.table
  {
  }

  lemma StepTracks(start: Table, w: World, s: Step, p: Path, visited: bool, behind: bool)
    requires RefsOk(w.table, w.threads) && Enabled(w, s) && w.search.Some? && !s.LookupStep?
    requires Tracked(start, w.table, w.search.value.unvisited, p, visited, behind)
    ensures Next(w, s).search.Some?
    ensures Tracked(start, Next(w, s).table, Next(w, s).search.value.unvisited, p,
                    visited || s == PruneStep(p), behind || (visited && DropsLast(w, s, p)))
  {
    StepOnSearch(w, s);
    if s.PruneStep? {
      VisitTracks(start, w.table, w.search.value.unvisited, s.visited, p, visited, behind);
    } else if s.DropStep? {
      DropTracks(start, w, s.t, w.search.value.unvisited, p, visited, behind);
    }
  }

  lemma BeginTracks(w: World, s: Step, p: Path)
    requires Enabled(w, s) && s.BeginStep? && |w.table.entries| >= PRUNE_THRESHOLD
    ensures var w' := Next(w, s);
            w'.search.Some? && w'.search.value.path == s.path && Tracked(w.table, w'.table, w'.search.value.unvisited, p, false, false)
  {
  }

  // ---- whole searches ----------------------------------------------------------------------------------

  lemma RunRefsOk(disk: Disk, steps: seq<Step>)
    requires Exec(disk, steps).Some?
    ensures RefsOk(Exec(disk, steps).value.table, Exec(disk, steps).value.threads)
  {
    EveryRunKeeps(disk, steps);
  }

  lemma ExecSnoc(disk: Disk, steps: seq<Step>, s: Step)
    requires Exec(disk, steps + [s]).Some?
    ensures Exec(disk, steps).Some? && Enabled(Exec(disk, steps).value, s)
    ensures Exec(disk, steps + [s]).value == Next(Exec(disk, steps).value, s)
  {
    assert (steps + [s])[..|steps|] == steps;
  }

  /** During a search of a table that was full when it began: an entry already visited is dead exactly
      if its last reference was dropped behind the search. */
  lemma {:induction false} SearchTracks(disk: Disk, prefix: seq<Step>, begin: Step, rest: seq<Step>, p: Path)
    requires begin.BeginStep? && Within(rest) && Exec(disk, prefix + [begin] + rest).Some?
    ensures Exec(disk, prefix).Some?
    ensures var w := Exec(disk, prefix + [begin] + rest).value;
            && w.search.Some? && w.search.value.path == begin.path
            && var start := Exec(disk, prefix).value.table;
               |start.entries| >= PRUNE_THRESHOLD ==>
                 Tracked(start, w.table, w.search.value.unvisited, p,
                         PruneStep(p) in rest, DroppedBehind(disk, prefix + [begin], rest, p))
    decreases |rest|
  {
    if rest == [] {
      assert prefix + [begin] + rest == prefix + [begin];
      ExecSnoc(disk, prefix, begin);
      if |Exec(disk, prefix).value.table.entries| >= PRUNE_THRESHOLD {
        BeginTracks(Exec(disk, prefix).value, begin, p);
      }
    } else {
      var init, last := rest[..|rest| - 1], rest[|rest| - 1];
      assert prefix + [begin] + rest == prefix + [begin] + init + [last];
      assert rest == init + [last];
      ExecSnoc(disk, prefix + [begin] + init, last);
      SearchTracks(disk, prefix, begin, init, p);
      RunRefsOk(disk, prefix + [begin] + init);
      SearchStep(Exec(disk, prefix).value.table, Exec(disk, prefix + [begin] + init).value, last, p,
                 PruneStep(p) in init, DroppedBehind(disk, prefix + [begin], init, p));
    }
  }

  lemma SearchStep(start: Table, w: World, s: Step, p: Path, visited: bool, behind: bool)
    requires RefsOk(w.table, w.threads) && Enabled(w, s) && w.search.Some? && !s.LookupStep?
    ensures Next(w, s).search.Some? && Next(w, s).search.value.path == w.search.value.path
    ensures Tracked(start, w.table, w.search.value.unvisited, p, visited, behind) ==>
              Tracked(start, Next(w, s).table, Next(w, s).search.value.unvisited, p,
                      visited || s == PruneStep(p), behind || (visited && DropsLast(w, s, p)))
  {
    StepOnSearch(w, s);
    if Tracked(start, w.table, w.search.value.unvisited, p, visited, behind) {
      StepTracks(start, w, s, p, visited, behind);
    }
  }

  // ---- dead entries and the number of live mutexes ---------------------------------------------------------

  lemma {:induction false} ImageIsSmaller(entries: map<Path, MutexId>, live: set<MutexId>)
    requires forall m :: m in live ==> exists p :: p in entries && entries[p] == m
    ensures |live| <= |entries|
    decreases |live|
  {
    if live != {} {
      var m :| m in live;
      var p :| p in entries && entries[p] == m;
      var rest := entries - {p};
      assert entries.Keys == rest.Keys + {p};
      forall n | n in live - {m} ensures exists q :: q in rest && rest[q] == n {
        var q :| q in entries && entries[q] == n;
        assert q in rest && rest[q] == n;
      }
      ImageIsSmaller(rest, live - {m});
      assert |entries| == |entries.Keys| && |rest| == |rest.Keys|;
    }
  }

  /** Every live mutex has the entry of the path its holders work on. */
  lemma LiveHasEntry(table: Table, threads: map<ThreadId, Thread>, m: MutexId) returns (p: Path)
    requires RefsOk(table, threads) && m in Live(table)
    ensures p in table.entries && table.entries[p] == m
  {
    assert Holders(threads, m) != {};
    var t :| t in Holders(threads, m);
    p := threads[t].path;
  }

  /** The table has no more entries than there are live mutexes exactly if no entry is dead. */
  lemma EntriesAreLiveIff(table: Table, threads: map<ThreadId, Thread>)
    requires RefsOk(table, threads)
    ensures |table.entries| <= |Live(table)| <==> forall p :: !Dead(table, p)
  {
    if exists p :: Dead(table, p) {
      var p :| Dead(table, p);
      var rest := table.entries - {p};
      assert table.entries.Keys == rest.Keys + {p};
      assert |table.entries| == |table.entries.Keys| && |rest| == |rest.Keys|;
      forall m | m in Live(table) ensures exists q :: q in rest && rest[q] == m {
        var q := LiveHasEntry(table, threads, m);
        assert q in rest && rest[q] == m;
      }
      ImageIsSmaller(rest, Live(table));
    } else {
      forall p | p in table.entries ensures table.entries[p] in Live(table) {
        assert !Dead(table, p);
      }
      InjectiveImage(table.entries, Live(table));
    }
  }

  /** The paths whose entries are dead. */
  ghost function DeadPaths(table: Table): set<Path> {
    set p | p in table.entries && Dead(table, p)
  }

  lemma WithoutPaths(entries: map<Path, MutexId>, gone: set<Path>)
    requires gone <= entries.Keys
    ensures |entries - gone| == |entries| - |gone|
  {
    assert (entries - gone).Keys == entries.Keys - gone;
    assert |(entries - gone).Keys| == |entries - gone| && |entries.Keys| == |entries|;
  }

  /** The entries that are not dead are as many as there are live mutexes. */
  lemma EntriesSplit(table: Table, threads: map<ThreadId, Thread>)
    requires RefsOk(table, threads)
    ensures |table.entries| == |Live(table)| + |DeadPaths(table)|
  {
    var live := table.entries - DeadPaths(table);
    WithoutPaths(table.entries, DeadPaths(table));
    InjectiveImage(live, Live(table));
    forall m | m in Live(table) ensures exists p :: p in live && live[p] == m {
      var p := LiveHasEntry(table, threads, m);
      assert p in live && live[p] == m;
    }
    ImageIsSmaller(live, Live(table));
  }
}
