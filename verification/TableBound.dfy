/** How large the lock table gets, when references may be dropped while a lookup is pruning it. */
module TableBound {
  import opened Wrappers
  import opened LockTable
  import opened LockProtocol
  import opened AtomicRuns
  import opened SearchTrace
  import opened Sequences

  /** A search that began on the table `start` and has these entries left to visit: no count has risen
      since, and in a table that is still full every entry visited was live at the start. */
  ghost predicate Searching(start: Table, table: Table, unvisited: set<Path>) {
    && NoneRisen(start.strong, table.strong)
    && (|table.entries| < PRUNE_THRESHOLD || AllLive(start, table.entries, unvisited))
  }

  ghost predicate NoneRisen(start: map<MutexId, nat>, strong: map<MutexId, nat>) {
    forall m :: m in strong ==> m in start && strong[m] <= start[m]
  }

  ghost predicate AllLive(start: Table, entries: map<Path, MutexId>, unvisited: set<Path>) {
    forall p :: p in entries && p !in unvisited ==> entries[p] in Live(start)
  }

  lemma FewerEntries(entries: map<Path, MutexId>, p: Path)
    ensures |entries - {p}| <= |entries|
  {
    assert (entries - {p}).Keys == entries.Keys - {p};
    assert |entries - {p}| == |(entries - {p}).Keys| && |entries| == |entries.Keys|;
  }

  lemma VisitGoesOn(start: Table, table: Table, unvisited: set<Path>, p: Path)
    requires TableOk(table) && Searching(start, table, unvisited)
    ensures Searching(start, PrunedAt(table, p), unvisited - {p})
  {
    FewerEntries(table.entries, p);
    var after := PrunedAt(table, p);
    if AllLive(start, table.entries, unvisited) {
      forall q | q in after.entries && q !in unvisited - {p} ensures after.entries[q] in Live(start) {
        assert after.entries[q] == table.entries[q] && table.entries[q] in table.strong;
      }
    }
  }

  lemma DropGoesOn(start: Table, table: Table, unvisited: set<Path>, m: MutexId)
    requires m in table.strong && table.strong[m] > 0 && Searching(start, table, unvisited)
    ensures Searching(start, Release(table, m), unvisited)
  {
  }

  /** A search goes on until its lookup step, whatever the other threads do. */
  lemma SearchGoesOn(start: Table, w: World, s: Step)
    requires TableOk(w.table) && Enabled(w, s) && w.search.Some? && !s.LookupStep?
    requires Searching(start, w.table, w.search.value.unvisited)
    ensures Next(w, s).search.Some?
    ensures Searching(start, Next(w, s).table, Next(w, s).search.value.unvisited)
  {
    StepOnSearch(w, s);
    if s.PruneStep? {
      VisitGoesOn(start, w.table, w.search.value.unvisited, s.visited);
    } else if s.DropStep? {
      DropGoesOn(start, w.table, w.search.value.unvisited, w.threads[s.t].mutex);
    }
  }

  lemma SearchBegins(w: World, s: Step)
    requires Enabled(w, s) && s.BeginStep?
    ensures Next(w, s).search.Some? && Next(w, s).table == w.table
    ensures Searching(w.table, w.table, Next(w, s).search.value.unvisited)
  {
  }

  /** The search that began in `start` is still going on in `w`. */
  ghost predicate Ongoing(start: World, w: World) {
    && w.search.Some?
    && Searching(start.table, w.table, w.search.value.unvisited)
    && |w.table.entries| <= |start.table.entries|
  }

  lemma BeginOngoing(w: World, s: Step)
    requires Enabled(w, s) && s.BeginStep?
    ensures Ongoing(w, Next(w, s))
  {
    SearchBegins(w, s);
  }

  lemma StaysOngoing(start: World, w: World, s: Step)
    requires TableOk(w.table) && Enabled(w, s) && Ongoing(start, w)
    requires Next(w, s).search.Some?
    ensures !s.BeginStep? && !s.LookupStep?
    ensures Ongoing(start, Next(w, s))
  {
    assert !s.LookupStep?;
    SearchGoesOn(start.table, w, s);
    OthersKeepSize(w, s);
  }

  /** A search in progress began at some step of the run and has gone on since. */
  lemma {:induction false} SearchBegan(disk: Disk, steps: seq<Step>)
    returns (prefix: seq<Step>, start: World, begin: Step, rest: seq<Step>)
    requires Exec(disk, steps).Some? && Exec(disk, steps).value.search.Some?
    ensures steps == prefix + [begin] + rest && begin.BeginStep? && Within(rest)
    ensures Exec(disk, prefix) == Some(start)
    ensures Ongoing(start, Exec(disk, steps).value)
  {
    var init, last := steps[..|steps| - 1], steps[|steps| - 1];
    assert steps == init + [last];
    var before := Exec(disk, init).value;
    if last.BeginStep? {
      prefix, start, begin, rest := init, before, last, [];
      BeginOngoing(before, last);
    } else {
      NoSearchWithoutBegin(before, last);
      prefix, start, begin, rest := SearchBegan(disk, init);
      RunTableOk(disk, init);
      StaysOngoing(start, before, last);
      Reassociate(prefix + [begin], rest, [last]);
      rest := rest + [last];
    }
  }

  lemma NoSearchWithoutBegin(w: World, s: Step)
    requires Enabled(w, s) && !s.BeginStep? && Next(w, s).search.Some?
    ensures w.search.Some?
  {
  }

  /** What a lookup leaves, when every entry it kept was live at the start or there are few. */
  lemma FoundBound(start: Table, t: Table, target: Path)
    requires TableOk(t) && TableOk(start)
    requires |t.entries| < PRUNE_THRESHOLD || AllLive(start, t.entries, {})
    ensures var after := Found(t, target).0;
            |after.entries| <= 64 || |after.entries| <= |Live(start)| + 1
  {
    LookupAddsOne(t.entries, target, t.next);
    if |t.entries| >= PRUNE_THRESHOLD {
      InjectiveImage(t.entries, Live(start));
    }
  }

  lemma RunTableOk(disk: Disk, steps: seq<Step>)
    requires Exec(disk, steps).Some?
    ensures TableOk(Exec(disk, steps).value.table)
  {
    EveryRunKeeps(disk, steps);
  }

  /** The end of a search that began in `start`. */
  lemma SearchEnds(start: World, w: World)
    requires TableOk(start.table) && TableOk(w.table) && Ongoing(start, w) && Enabled(w, LookupStep)
    ensures var after := Next(w, LookupStep).table;
            && (|after.entries| <= 64 || |after.entries| <= |Live(start.table)| + 1)
            && (|after.entries| > 64 ==> |start.table.entries| >= 64)
  {
    FoundBound(start.table, w.table, w.search.value.path);
    LookupAddsOne(w.table.entries, w.search.value.path, w.table.next);
  }

  /** The entries a lookup leaves dead are those it found dead, except that of its own path. */
  lemma FoundDead(t: Table, target: Path, p: Path)
    requires TableOk(t)
    ensures Dead(Found(t, target).0, p) <==> p != target && Dead(t, p)
  {
    FoundEffect(t, target);
  }

  /** The end of a search of a full table: the entries left dead are those of other paths whose last
      reference was dropped behind the search. */
  lemma LeftDead(disk: Disk, prefix: seq<Step>, begin: Step, rest: seq<Step>, p: Path)
    requires begin.BeginStep? && Within(rest) && Exec(disk, prefix + [begin] + rest).Some?
    requires Enabled(Exec(disk, prefix + [begin] + rest).value, LookupStep)
    requires Exec(disk, prefix).Some? && |Exec(disk, prefix).value.table.entries| >= PRUNE_THRESHOLD
    ensures Dead(Next(Exec(disk, prefix + [begin] + rest).value, LookupStep).table, p) <==>
            p != begin.path && DroppedBehind(disk, prefix + [begin], rest, p)
  {
    SearchTracks(disk, prefix, begin, rest, p);
    RunTableOk(disk, prefix + [begin] + rest);
    FoundDead(Exec(disk, prefix + [begin] + rest).value.table, begin.path, p);
  }

  /** Nobody dropped the last reference to the lock of another path behind the search. */
  ghost predicate NoneBehind(disk: Disk, before: seq<Step>, rest: seq<Step>, target: Path) {
    forall p :: p != target ==> !DroppedBehind(disk, before, rest, p)
  }

  lemma NoneDeadIff(disk: Disk, before: seq<Step>, rest: seq<Step>, target: Path, table: Table)
    requires forall p :: Dead(table, p) <==> p != target && DroppedBehind(disk, before, rest, p)
    ensures NoneBehind(disk, before, rest, target) <==> forall p :: !Dead(table, p)
  {
    if forall p :: !Dead(table, p) {
      forall p | p != target ensures !DroppedBehind(disk, before, rest, p) {
        assert !Dead(table, p);
      }
    }
  }

  lemma LookupLeavesLiveIff(disk: Disk, prefix: seq<Step>, begin: Step, rest: seq<Step>)
    requires begin.BeginStep? && Within(rest) && Exec(disk, prefix + [begin] + rest + [LookupStep]).Some?
    requires Exec(disk, prefix).Some? && |Exec(disk, prefix).value.table.entries| >= PRUNE_THRESHOLD
    ensures var after := Exec(disk, prefix + [begin] + rest + [LookupStep]).value.table;
            |after.entries| <= |Live(after)| <==> NoneBehind(disk, prefix + [begin], rest, begin.path)
  {
    var end := Exec(disk, prefix + [begin] + rest + [LookupStep]).value;
    ExecSnoc(disk, prefix + [begin] + rest, LookupStep);
    forall p ensures Dead(end.table, p) <==> p != begin.path && DroppedBehind(disk, prefix + [begin], rest, p) {
      LeftDead(disk, prefix, begin, rest, p);
    }
    NoneDeadIff(disk, prefix + [begin], rest, begin.path, end.table);
    RunRefsOk(disk, prefix + [begin] + rest + [LookupStep]);
    EntriesAreLiveIff(end.table, end.threads);
  }

  /** In every run, right after a lookup the table has at most 64 entries, or at most one more than
      there were live mutexes when the lookup began. If more than 64 remain, there are at most as many
      as there are live mutexes now exactly if, during this lookup, nobody dropped the last reference
      to the lock of another path after the lookup had visited its entry. */
  lemma LookupBound(disk: Disk, steps: seq<Step>)
    returns (prefix: seq<Step>, start: World, begin: Step, rest: seq<Step>)
    requires Exec(disk, steps + [LookupStep]).Some?
    ensures steps == prefix + [begin] + rest && begin.BeginStep? && Within(rest)
    ensures Exec(disk, prefix) == Some(start)
    ensures var after := Exec(disk, steps + [LookupStep]).value.table;
            && (|after.entries| <= 64 || |after.entries| <= |Live(start.table)| + 1)
            && (|after.entries| <= 64 || |after.entries| <= |Live(after)| <==>
                |after.entries| <= 64 || NoneBehind(disk, prefix + [begin], rest, begin.path))
  {
    ExecSnoc(disk, steps, LookupStep);
    prefix, start, begin, rest := SearchBegan(disk, steps);
    RunTableOk(disk, prefix);
    RunTableOk(disk, steps);
    SearchEnds(start, Exec(disk, steps).value);
    if |start.table.entries| >= PRUNE_THRESHOLD {
      LookupLeavesLiveIff(disk, prefix, begin, rest);
    }
  }

  lemma OthersKeepSize(w: World, s: Step)
    requires Enabled(w, s) && !s.LookupStep?
    ensures |Next(w, s).table.entries| <= |w.table.entries|
  {
    if s.PruneStep? {
      FewerEntries(w.table.entries, s.visited);
    }
  }

  /** In every run the table never has more than 64 entries or one more than there were live mutexes
      at some earlier point. */
  lemma {:induction false} TableIsBounded(disk: Disk, steps: seq<Step>) returns (prefix: seq<Step>, earlier: World)
    requires Exec(disk, steps).Some?
    ensures prefix <= steps && Exec(disk, prefix) == Some(earlier)
    ensures var entries := Exec(disk, steps).value.table.entries;
            |entries| <= 64 || |entries| <= |Live(earlier.table)| + 1
  {
    if steps == [] {
      prefix, earlier := [], Start(disk);
    } else {
      var init, last := steps[..|steps| - 1], steps[|steps| - 1];
      assert steps == init + [last];
      if last.LookupStep? {
        var begin, rest;
        prefix, earlier, begin, rest := LookupBound(disk, init);
      } else {
        OthersKeepSize(Exec(disk, init).value, last);
        prefix, earlier := TableIsBounded(disk, init);
      }
    }
  }

  // ---- the threshold plus the locks in use -------------------------------------------------------------

  /** In every reachable state the table has at most 64 entries more than there were live mutexes at
      some earlier point. */
  lemma TableIsWithinSum(disk: Disk, steps: seq<Step>) returns (prefix: seq<Step>, earlier: World)
    requires Exec(disk, steps).Some?
    ensures prefix <= steps && Exec(disk, prefix) == Some(earlier)
    ensures |Exec(disk, steps).value.table.entries| <= 64 + |Live(earlier.table)|
  {
    prefix, earlier := TableIsBounded(disk, steps);
  }

  /** In every reachable state the table has at most 64 entries more than there are live mutexes now
      exactly if at most 64 of its entries are dead. */
  lemma SumNowIff(disk: Disk, steps: seq<Step>)
    requires Exec(disk, steps).Some?
    ensures var table := Exec(disk, steps).value.table;
            |table.entries| <= 64 + |Live(table)| <==> |DeadPaths(table)| <= 64
  {
    var w := Exec(disk, steps).value;
    RunRefsOk(disk, steps);
    EntriesSplit(w.table, w.threads);
  }

  /** A lookup that leaves more than 64 entries leaves dead exactly those of other paths whose last
      reference was dropped behind it. */
  lemma LookupLeavesDead(disk: Disk, prefix: seq<Step>, begin: Step, rest: seq<Step>, p: Path)
    requires begin.BeginStep? && Within(rest) && Exec(disk, prefix + [begin] + rest + [LookupStep]).Some?
    requires |Exec(disk, prefix + [begin] + rest + [LookupStep]).value.table.entries| > 64
    ensures var after := Exec(disk, prefix + [begin] + rest + [LookupStep]).value.table;
            p in DeadPaths(after) <==> p != begin.path && DroppedBehind(disk, prefix + [begin], rest, p)
  {
    var before := prefix + [begin] + rest;
    ExecSnoc(disk, before, LookupStep);
    FullAtBegin(disk, prefix, begin, rest);
    LeftDead(disk, prefix, begin, rest, p);
  }

  /** During a search the table does not grow, so what was full at its end was full when it began. */
  lemma {:induction false} SearchShrinks(disk: Disk, prefix: seq<Step>, begin: Step, rest: seq<Step>)
    requires begin.BeginStep? && Within(rest) && Exec(disk, prefix + [begin] + rest).Some?
    ensures Exec(disk, prefix).Some?
    ensures |Exec(disk, prefix + [begin] + rest).value.table.entries| <= |Exec(disk, prefix).value.table.entries|
    decreases |rest|
  {
    if rest == [] {
      assert prefix + [begin] + rest == prefix + [begin];
      ExecSnoc(disk, prefix, begin);
    } else {
      var init, last := rest[..|rest| - 1], rest[|rest| - 1];
      assert prefix + [begin] + rest == prefix + [begin] + init + [last];
      ExecSnoc(disk, prefix + [begin] + init, last);
      SearchShrinks(disk, prefix, begin, init);
      OthersKeepSize(Exec(disk, prefix + [begin] + init).value, last);
    }
  }

  lemma FullAtBegin(disk: Disk, prefix: seq<Step>, begin: Step, rest: seq<Step>)
    requires begin.BeginStep? && Within(rest) && Exec(disk, prefix + [begin] + rest).Some?
    requires Enabled(Exec(disk, prefix + [begin] + rest).value, LookupStep)
    requires |Next(Exec(disk, prefix + [begin] + rest).value, LookupStep).table.entries| > 64
    ensures Exec(disk, prefix).Some? && |Exec(disk, prefix).value.table.entries| >= 64
  {
    var w := Exec(disk, prefix + [begin] + rest).value;
    SearchShrinks(disk, prefix, begin, rest);
    LookupAddsOne(w.table.entries, w.search.value.path, w.table.next);
  }
}
