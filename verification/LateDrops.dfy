/** A run that brings the lock table one entry above the most mutexes ever live: the extra entry in
    the bound of TableBound is needed. */
module LateDrops {
  import opened Wrappers
  import opened LockTable
  import opened LockProtocol
  import opened AtomicRuns

  /** Paths told apart by their lengths. */
  function Name(i: nat): (p: Path)
    ensures |p| == i + 1
  {
    seq(i + 1, _ => 'a')
  }

  // ---- the worlds on the way ---------------------------------------------------------------------------

  /** The first `n` paths have an entry each. */
  function Entries(n: nat): map<Path, MutexId> {
    if n == 0 then map[] else Entries(n - 1)[Name(n - 1) := n - 1]
  }

  lemma {:induction false} EntriesAre(n: nat)
    ensures |Entries(n)| == n
    ensures forall p :: p in Entries(n) ==> 0 < |p| <= n && p == Name(|p| - 1) && Entries(n)[p] == |p| - 1
  {
    if n > 0 {
      EntriesAre(n - 1);
      LookupAddsOne(Entries(n - 1), Name(n - 1), n - 1);
    }
  }

  lemma {:induction false} EntryOf(n: nat, i: nat)
    requires i < n
    ensures Name(i) in Entries(n) && Entries(n)[Name(i)] == i
  {
    if i < n - 1 {
      EntryOf(n - 1, i);
    }
  }

  /** Of `n` mutexes the first `from` have no reference left, the others one. */
  function Counts(from: nat, n: nat): map<MutexId, nat> {
    map m: MutexId | m < n :: CountOf(m, from)
  }

  function CountOf(m: MutexId, from: nat): nat {
    if m < from then 0 else 1
  }

  /** Each of these threads holds its reference. */
  function Threads(from: nat, n: nat): map<ThreadId, Thread> {
    map t: ThreadId | from <= t < n :: Thread(Name(t), t, Waiting)
  }

  function Unvisited(from: nat, n: nat): set<Path> {
    set p | p in Entries(n) && |p| > from
  }

  function Filled(disk: Disk, n: nat): World {
    World(disk.names, Table(Entries(n), Counts(0, n), n), None, Threads(0, n), Start(disk).files, map[])
  }

  function Emptied(disk: Disk, from: nat, n: nat): World {
    World(disk.names, Table(Entries(n), Counts(from, n), n), Some(Search(n, Name(n), Unvisited(from, n))), Threads(from, n), Start(disk).files, map[])
  }

  /** The worlds a run passes through, and the two steps it takes from each to the next. */
  datatype Round = Round(worlds: nat -> World, first: nat -> Step, second: nat -> Step) {
    ghost predicate Goes(i: nat) {
      Moves(worlds(i), first(i), second(i), worlds(i + 1))
    }
  }

  lemma OneRound(disk: Disk, before: seq<Step>, round: Round, i: nat) returns (steps: seq<Step>)
    requires LeadsTo(disk, before, round.worlds(i)) && round.Goes(i)
    ensures LeadsTo(disk, steps, round.worlds(i + 1))
  {
    TwoSteps(disk, before, round.worlds(i), round.first(i), round.second(i), round.worlds(i + 1));
    steps := before + [round.first(i)] + [round.second(i)];
  }

  lemma {:induction false} Repeat(disk: Disk, before: seq<Step>, round: Round, n: nat) returns (steps: seq<Step>)
    requires LeadsTo(disk, before, round.worlds(0))
    requires forall i: nat :: i < n ==> round.Goes(i)
    ensures LeadsTo(disk, steps, round.worlds(n))
  {
    steps := before;
    for i := 0 to n
      invariant LeadsTo(disk, steps, round.worlds(i))
    {
      steps := OneRound(disk, steps, round, i);
    }
  }

  lemma OneMore(n: nat)
    ensures Counts(0, n)[n := 1] == Counts(0, n + 1)
    ensures Threads(0, n)[n := Thread(Name(n), n, Waiting)] == Threads(0, n + 1)
  {
  }

  lemma NewEntry(from: nat, n: nat)
    ensures var t := Table(Entries(n), Counts(from, n), n);
            Found(t, Name(n)) == (Table(Entries(n + 1), Counts(from, n)[n := 1], n + 1), n)
  {
    NotYetNamed(n);
    FoundNew(Table(Entries(n), Counts(from, n), n), Name(n));
  }

  lemma FoundNew(t: Table, target: Path)
    requires target !in t.entries
    ensures Found(t, target) == (Table(t.entries[target := t.next], t.strong[t.next := 1], t.next + 1), t.next)
  {
  }

  lemma NotYetNamed(n: nat)
    ensures Name(n) !in Entries(n) && Entries(n + 1) == Entries(n)[Name(n) := n]
  {
    EntriesAre(n);
  }

  lemma FillBegins(disk: Disk, n: nat)
    requires TooFewToPrune(n)
    ensures Enabled(Filled(disk, n), BeginStep(n, Name(n)))
    ensures Next(Filled(disk, n), BeginStep(n, Name(n))) == Filled(disk, n).(search := Some(Search(n, Name(n), {})))
  {
    EntriesAre(n);
  }

  lemma FillEnds(disk: Disk, n: nat)
    ensures var w := Filled(disk, n).(search := Some(Search(n, Name(n), {})));
            Enabled(w, LookupStep) && Next(w, LookupStep) == Filled(disk, n + 1)
  {
    NewEntry(0, n);
    OneMore(n);
  }

  lemma NothingFilled(disk: Disk)
    ensures LeadsTo(disk, [], Filled(disk, 0))
  {
    assert Threads(0, 0) == map[] && Counts(0, 0) == map[];
  }

  predicate TooFewToPrune(n: nat) {
    n < PRUNE_THRESHOLD
  }

  /** One thread more takes a reference to the lock of a path of its own. */
  lemma FillMoves(disk: Disk, n: nat)
    requires TooFewToPrune(n)
    ensures Moves(Filled(disk, n), BeginStep(n, Name(n)), LookupStep, Filled(disk, n + 1))
  {
    FillBegins(disk, n);
    FillEnds(disk, n);
  }

  lemma AllUnvisited(n: nat)
    ensures Unvisited(0, n) == Entries(n).Keys
  {
    EntriesAre(n);
  }

  lemma NoneUnvisited(n: nat)
    ensures Unvisited(n, n) == {}
  {
    EntriesAre(n);
  }

  /** One more thread begins a lookup, and finds the table full. */
  lemma EmptyBegins(disk: Disk, n: nat)
    requires n >= PRUNE_THRESHOLD
    ensures Enabled(Filled(disk, n), BeginStep(n, Name(n)))
    ensures Next(Filled(disk, n), BeginStep(n, Name(n))) == Emptied(disk, 0, n)
  {
    EntriesAre(n);
    AllUnvisited(n);
  }

  lemma OneFewer(from: nat, n: nat)
    requires from < n
    ensures Counts(from, n)[from := 0] == Counts(from + 1, n)
    ensures Threads(from, n) - {from} == Threads(from + 1, n)
  {
  }

  lemma OneVisited(from: nat, n: nat)
    requires from < n
    ensures Name(from) in Unvisited(from, n)
    ensures Unvisited(from, n) - {Name(from)} == Unvisited(from + 1, n)
  {
    EntriesAre(n);
    EntryOf(n, from);
  }

  lemma VisitKeepsLive(disk: Disk, from: nat, n: nat)
    requires from < n
    ensures Enabled(Emptied(disk, from, n), PruneStep(Name(from)))
    ensures var w := Emptied(disk, from, n);
            Next(w, PruneStep(Name(from))) == w.(search := Some(Search(n, Name(n), Unvisited(from + 1, n))))
  {
    OneVisited(from, n);
    EntryOf(n, from);
  }

  lemma DropAfterVisit(disk: Disk, from: nat, n: nat)
    requires from < n
    ensures var w := Emptied(disk, from, n).(search := Some(Search(n, Name(n), Unvisited(from + 1, n))));
            Enabled(w, DropStep(from)) && Next(w, DropStep(from)) == Emptied(disk, from + 1, n)
  {
    OneFewer(from, n);
  }

  /** The search visits one more entry, and right after the visit its holder drops the reference. */
  lemma EmptyMoves(disk: Disk, from: nat, n: nat)
    requires from < n
    ensures Moves(Emptied(disk, from, n), PruneStep(Name(from)), DropStep(from), Emptied(disk, from + 1, n))
  {
    VisitKeepsLive(disk, from, n);
    DropAfterVisit(disk, from, n);
  }

  /** A new mutex is the only one live if all others were dead. */
  lemma OnlyNewIsLive(t: Table, target: Path)
    requires target !in t.entries && forall m :: m in t.strong ==> t.strong[m] == 0
    ensures var (after, m) := Found(t, target);
            m == t.next && |after.entries| == |t.entries| + 1 && Live(after) == {m} && Refs(after, m) == 1
  {
    FoundNew(t, target);
    LookupAddsOne(t.entries, target, t.next);
    var strong := t.strong[t.next := 1];
    assert forall m :: m in strong && strong[m] > 0 <==> m == t.next;
  }

  lemma LastIsNew(n: nat)
    ensures var t := Table(Entries(n), Counts(n, n), n);
            var (table, m) := Found(t, Name(n));
            m == n && |table.entries| == n + 1 && Live(table) == {n} && Refs(table, n) == 1
  {
    EntriesAre(n);
    OnlyNewIsLive(Table(Entries(n), Counts(n, n), n), Name(n));
  }

  lemma LastLookup(disk: Disk, n: nat)
    ensures var w := Emptied(disk, n, n);
            && Enabled(w, LookupStep)
            && var after := Next(w, LookupStep); |after.table.entries| == n + 1 && OneHolder(after, n)
  {
    LastIsNew(n);
    LastEnabled(disk, n);
    LookupFinds(Emptied(disk, n, n));
  }

  /** Thread `n` holds the only reference there is, to mutex `n`. */
  ghost predicate OneHolder(w: World, n: nat) {
    && n in w.threads && w.threads[n].phase.Waiting? && w.threads[n].mutex == n
    && Live(w.table) == {n} && Refs(w.table, n) == 1
  }

  lemma OneHolderDrops(w: World, n: nat)
    requires OneHolder(w, n)
    ensures Enabled(w, DropStep(n))
    ensures Next(w, DropStep(n)).table.entries == w.table.entries && Live(Next(w, DropStep(n)).table) == {}
  {
    var after := Next(w, DropStep(n)).table;
    assert after.strong == w.table.strong[n := 0];
    forall m | m in after.strong ensures after.strong[m] == 0 {
      assert m != n ==> m !in Live(w.table);
    }
  }

  lemma LastEnabled(disk: Disk, n: nat)
    ensures Enabled(Emptied(disk, n, n), LookupStep)
  {
    NoneUnvisited(n);
  }

  lemma LookupFinds(w: World)
    requires Enabled(w, LookupStep)
    ensures var (table, m) := Found(w.table, w.search.value.path);
            && Next(w, LookupStep).table == table
            && Next(w, LookupStep).threads == w.threads[w.search.value.thread := Thread(w.search.value.path, m, Waiting)]
  {
  }

  function FillRound(disk: Disk): Round {
    Round((i: nat) => Filled(disk, i), (i: nat) => BeginStep(i, Name(i)), (i: nat) => LookupStep)
  }

  function EmptyRound(disk: Disk, n: nat): Round {
    Round((i: nat) => Emptied(disk, i, n), (i: nat) => PruneStep(Name(i)), (i: nat) => DropStep(i))
  }

  lemma FillStarts(disk: Disk)
    ensures LeadsTo(disk, [], FillRound(disk).worlds(0))
  {
    NothingFilled(disk);
  }

  lemma FillGoes(disk: Disk, i: nat)
    requires TooFewToPrune(i)
    ensures FillRound(disk).Goes(i)
  {
    FillMoves(disk, i);
  }

  /** A table with an entry for each of `n` threads. */
  lemma Fill(disk: Disk, n: nat) returns (steps: seq<Step>)
    requires forall k: nat :: k < n ==> TooFewToPrune(k)
    ensures LeadsTo(disk, steps, FillRound(disk).worlds(n))
  {
    var round := FillRound(disk);
    forall i: nat | i < n ensures round.Goes(i) {
      assert TooFewToPrune(i);
      FillGoes(disk, i);
    }
    FillStarts(disk);
    steps := Repeat(disk, [], round, n);
  }

  lemma EmptyStarts(disk: Disk, before: seq<Step>, n: nat)
    requires n >= PRUNE_THRESHOLD && LeadsTo(disk, before, FillRound(disk).worlds(n))
    ensures LeadsTo(disk, before + [BeginStep(n, Name(n))], EmptyRound(disk, n).worlds(0))
  {
    EmptyBegins(disk, n);
    OneStep(disk, before, Filled(disk, n), BeginStep(n, Name(n)), Emptied(disk, 0, n));
  }

  lemma EmptyGoes(disk: Disk, i: nat, n: nat)
    requires i < n
    ensures EmptyRound(disk, n).Goes(i)
  {
    EmptyMoves(disk, i, n);
  }

  /** A search of the full table, which removes no entry while every reference is dropped behind it. */
  lemma Empty(disk: Disk, before: seq<Step>, n: nat) returns (steps: seq<Step>)
    requires n >= PRUNE_THRESHOLD && LeadsTo(disk, before, FillRound(disk).worlds(n))
    ensures LeadsTo(disk, steps, EmptyRound(disk, n).worlds(n))
  {
    var round := EmptyRound(disk, n);
    forall i: nat | i < n ensures round.Goes(i) {
      EmptyGoes(disk, i, n);
    }
    EmptyStarts(disk, before, n);
    steps := Repeat(disk, before + [BeginStep(n, Name(n))], round, n);
  }

  /** Then the lookup adds one entry more. */
  lemma Overfilled(disk: Disk, n: nat) returns (steps: seq<Step>, before: World, after: World)
    requires (forall k: nat :: k < n ==> TooFewToPrune(k)) && n >= PRUNE_THRESHOLD
    ensures LeadsTo(disk, steps, before) && before.table.next == n
    ensures LeadsTo(disk, steps + [LookupStep], after) && |after.table.entries| == n + 1 && OneHolder(after, n)
  {
    steps := Fill(disk, n);
    steps := Empty(disk, steps, n);
    before := Emptied(disk, n, n);
    LastLookup(disk, n);
    after := Next(before, LookupStep);
    OneStep(disk, steps, before, LookupStep, after);
  }

  // ---- how many mutexes were ever live ---------------------------------------------------------------

  lemma {:induction false} NumbersBelow(n: nat) returns (s: set<MutexId>)
    ensures |s| == n && forall m: MutexId :: m in s <==> m < n
  {
    if n == 0 {
      s := {};
    } else {
      s := NumbersBelow(n - 1);
      s := s + {n - 1};
    }
  }

  lemma FewerInSubset(a: set<MutexId>, b: set<MutexId>)
    requires a <= b
    ensures |a| <= |b|
  {
    assert b == a + (b - a);
  }

  /** No more mutexes are live than were ever made. */
  lemma LiveIsBounded(t: Table)
    requires TableOk(t)
    ensures |Live(t)| <= t.next
  {
    var all := NumbersBelow(t.next);
    FewerInSubset(Live(t), all);
  }

  lemma StepMakes(w: World, s: Step)
    requires Enabled(w, s)
    ensures w.table.next <= Next(w, s).table.next
  {
  }

  lemma {:induction false} MadeIsMonotone(disk: Disk, steps: seq<Step>, more: seq<Step>)
    requires Exec(disk, steps + more).Some?
    ensures Exec(disk, steps).Some?
    ensures Exec(disk, steps).value.table.next <= Exec(disk, steps + more).value.table.next
    decreases |more|
  {
    if more == [] {
      assert steps + more == steps;
    } else {
      var init, last := more[..|more| - 1], more[|more| - 1];
      assert (steps + more)[..|steps + more| - 1] == steps + init;
      MadeIsMonotone(disk, steps, init);
      StepMakes(Exec(disk, steps + init).value, last);
    }
  }

  /** At no point of a run were more mutexes live than have been made by its end. */
  lemma FewWereLive(disk: Disk, steps: seq<Step>, prefix: seq<Step>)
    requires prefix <= steps && Exec(disk, steps).Some?
    ensures Exec(disk, prefix).Some?
    ensures |Live(Exec(disk, prefix).value.table)| <= Exec(disk, steps).value.table.next
  {
    assert steps == prefix + steps[|prefix|..];
    MadeIsMonotone(disk, prefix, steps[|prefix|..]);
    EveryRunKeeps(disk, prefix);
    LiveIsBounded(Exec(disk, prefix).value.table);
  }

  /** When references are dropped while a search is pruning, the table may end up one entry above the
      most mutexes that were live at any point of the run, and far above those live now. */
  lemma LateDropsExceedLive(disk: Disk) returns (steps: seq<Step>)
    ensures Exec(disk, steps + [LookupStep]).Some?
    ensures var after := Exec(disk, steps + [LookupStep]).value.table;
            |after.entries| == 65 && |Live(after)| == 1
    ensures forall prefix :: prefix <= steps ==>
              Exec(disk, prefix).Some? && |Live(Exec(disk, prefix).value.table)| <= 64
  {
    var before, after;
    steps, before, after := Overfilled(disk, PRUNE_THRESHOLD);
    forall prefix | prefix <= steps
      ensures Exec(disk, prefix).Some? && |Live(Exec(disk, prefix).value.table)| <= 64
    {
      FewWereLive(disk, steps, prefix);
    }
  }

  /** One drop later the table has more than 64 entries above the mutexes live then, of which there are none. */
  lemma LateDropsExceedSum(disk: Disk) returns (steps: seq<Step>)
    ensures Exec(disk, steps).Some?
    ensures var table := Exec(disk, steps).value.table;
            |table.entries| == 65 && |Live(table)| == 0
  {
    var before, after;
    steps, before, after := Overfilled(disk, PRUNE_THRESHOLD);
    OneHolderDrops(after, PRUNE_THRESHOLD);
    OneStep(disk, steps + [LookupStep], after, DropStep(PRUNE_THRESHOLD), Next(after, DropStep(PRUNE_THRESHOLD)));
    steps := steps + [LookupStep] + [DropStep(PRUNE_THRESHOLD)];
  }
}
