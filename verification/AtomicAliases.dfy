/** Locks are kept by path: they keep updates from being lost exactly if no two of the paths in use
    lead to the same file. */
module AtomicAliases {
  import opened Wrappers
  import opened LockTable
  import opened LockProtocol
  import opened AtomicContents
  import opened AtomicRuns

  // ---- a lost update ---------------------------------------------------------------------------------

  function Append(text: string): Update {
    (seen: Option<Content>) => seen.GetOr("") + text
  }

  function Done(t: ThreadId, text: string): Entry {
    Entry(t, Append(text), Published(true))
  }

  /** Both paths have been looked up and each has a mutex of its own; thread 0 works on the first path,
      thread 1 on the second. */
  function Busy(names: Path -> FileName, p: Path, q: Path, a: Phase, b: Phase, files: map<File, Content>, log: map<Path, seq<Entry>>): World {
    World(names, Table(map[p := 0, q := 1], map[0 := 1, 1 := 1], 2), None,
          map[0 := Thread(p, 0, a), 1 := Thread(q, 1, b)], files, log)
  }

  lemma BothLookedUp(names: Path -> FileName, p: Path, q: Path) returns (steps: seq<Step>)
    requires p != q
    ensures LeadsTo(Disk(names, map[]), steps, Busy(names, p, q, Waiting, Waiting, map[], map[]))
  {
    var disk := Disk(names, map[]);
    var first := World(names, Table(map[p := 0], map[0 := 1], 1), None, map[0 := Thread(p, 0, Waiting)], map[], map[]);
    EmptyStart(names);
    assert LeadsTo(disk, [], Start(disk));
    FirstLookedUp(names, p);
    TwoSteps(disk, [], Start(disk), BeginStep(0, p), LookupStep, first);
    SecondLookedUp(names, p, q);
    TwoSteps(disk, [] + [BeginStep(0, p)] + [LookupStep], first, BeginStep(1, q), LookupStep,
             Busy(names, p, q, Waiting, Waiting, map[], map[]));
    steps := [] + [BeginStep(0, p)] + [LookupStep] + [BeginStep(1, q)] + [LookupStep];
  }

  lemma EmptyStart(names: Path -> FileName)
    ensures Start(Disk(names, map[])) == World(names, EMPTY, None, map[], map[], map[])
  {
    assert Start(Disk(names, map[])).files == map[];
  }

  lemma FirstLookedUp(names: Path -> FileName, p: Path)
    ensures Moves(World(names, EMPTY, None, map[], map[], map[]), BeginStep(0, p), LookupStep,
                  World(names, Table(map[p := 0], map[0 := 1], 1), None, map[0 := Thread(p, 0, Waiting)], map[], map[]))
  {
    assert Next(World(names, EMPTY, None, map[], map[], map[]), BeginStep(0, p)) ==
           World(names, EMPTY, Some(Search(0, p, {})), map[], map[], map[]);
  }

  lemma SecondLookedUp(names: Path -> FileName, p: Path, q: Path)
    requires p != q
    ensures Moves(World(names, Table(map[p := 0], map[0 := 1], 1), None, map[0 := Thread(p, 0, Waiting)], map[], map[]),
                  BeginStep(1, q), LookupStep, Busy(names, p, q, Waiting, Waiting, map[], map[]))
  {
    assert |map[p := 0]| == 1;
  }

  ghost predicate Goes(w: World, s: Step, w': World) {
    Enabled(w, s) && Next(w, s) == w'
  }

  lemma TwoGo(w: World, s: Step, w': World, s': Step, w'': World)
    requires Goes(w, s, w') && Goes(w', s', w'')
    ensures Moves(w, s, s', w'')
  {
  }

  /** Thread 0 moves on. */
  lemma FirstMoves(w: World, p: Path, q: Path, a: Phase, b: Phase, phase: Phase)
    requires w.threads == map[0 := Thread(p, 0, a), 1 := Thread(q, 1, b)]
    ensures Moved(w, 0, phase) == map[0 := Thread(p, 0, phase), 1 := Thread(q, 1, b)]
  {
  }

  lemma FirstLocks(names: Path -> FileName, p: Path, q: Path, u: Update)
    requires p != q
    ensures Goes(Busy(names, p, q, Waiting, Waiting, map[], map[]), LockStep(0, u),
                 Busy(names, p, q, Entered(u), Waiting, map[], map[p := [Entry(0, u, Pending)]]))
  {
    assert [] + [Entry(0, u, Pending)] == [Entry(0, u, Pending)];
  }

  lemma SecondLocks(names: Path -> FileName, p: Path, q: Path, a: Update, u: Update)
    requires p != q
    ensures Goes(Busy(names, p, q, Entered(a), Waiting, map[], map[p := [Entry(0, a, Pending)]]), LockStep(1, u),
                 Busy(names, p, q, Entered(a), Entered(u), map[], map[p := [Entry(0, a, Pending)], q := [Entry(1, u, Pending)]]))
  {
    assert [] + [Entry(1, u, Pending)] == [Entry(1, u, Pending)];
  }

  lemma FirstReads(names: Path -> FileName, p: Path, q: Path, u: Update, b: Phase, log: map<Path, seq<Entry>>)
    ensures Goes(Busy(names, p, q, Entered(u), b, map[], log), ReadStep(0), Busy(names, p, q, Loaded(u, None), b, map[], log))
  {
  }

  lemma SecondReads(names: Path -> FileName, p: Path, q: Path, a: Phase, u: Update, log: map<Path, seq<Entry>>)
    ensures Goes(Busy(names, p, q, a, Entered(u), map[], log), ReadStep(1), Busy(names, p, q, a, Loaded(u, None), map[], log))
  {
  }

  lemma FirstCreates(names: Path -> FileName, p: Path, q: Path, u: Update, b: Phase, log: map<Path, seq<Entry>>)
    ensures Goes(Busy(names, p, q, Loaded(u, None), b, map[], log), CreateTempStep(0, 0),
                 Busy(names, p, q, Writing(u, 0, u(None), 0), b, map[Temp(0) := ""], log))
  {
  }

  lemma SecondCreates(names: Path -> FileName, p: Path, q: Path, a: Phase, u: Update, log: map<Path, seq<Entry>>)
    ensures Goes(Busy(names, p, q, a, Loaded(u, None), map[Temp(0) := ""], log), CreateTempStep(1, 1),
                 Busy(names, p, q, a, Writing(u, 1, u(None), 0), map[Temp(0) := "", Temp(1) := ""], log))
  {
  }

  lemma FirstFileWritten(text: string)
    ensures map[Temp(0) := "", Temp(1) := ""][Temp(0) := text] == map[Temp(0) := text, Temp(1) := ""]
  {
  }

  lemma FirstWrites(names: Path -> FileName, p: Path, q: Path, u: Update, text: string, b: Phase, log: map<Path, seq<Entry>>)
    ensures Goes(Busy(names, p, q, Writing(u, 0, text, 0), b, map[Temp(0) := "", Temp(1) := ""], log), WriteStep(0, |text|),
                 Busy(names, p, q, Writing(u, 0, text, |text|), b, map[Temp(0) := text, Temp(1) := ""], log))
  {
    assert text[..|text|] == text;
    FirstFileWritten(text);
    FirstMoves(Busy(names, p, q, Writing(u, 0, text, 0), b, map[Temp(0) := "", Temp(1) := ""], log),
               p, q, Writing(u, 0, text, 0), b, Writing(u, 0, text, |text|));
  }

  lemma SecondWrites(names: Path -> FileName, p: Path, q: Path, a: Phase, first: string, u: Update, text: string, log: map<Path, seq<Entry>>)
    ensures Goes(Busy(names, p, q, a, Writing(u, 1, text, 0), map[Temp(0) := first, Temp(1) := ""], log), WriteStep(1, |text|),
                 Busy(names, p, q, a, Writing(u, 1, text, |text|), map[Temp(0) := first, Temp(1) := text], log))
  {
    assert text[..|text|] == text;
  }

  lemma SettleOne(e: Entry, fate: Fate)
    ensures Settle([e], fate) == [e.(fate := fate)]
  {
  }

  lemma FirstFileRenamed(f: FileName, text: string, other: string)
    ensures (map[Temp(0) := text, Temp(1) := other] - {Temp(0)})[Target(f) := text] == map[Temp(1) := other, Target(f) := text]
  {
  }

  lemma ChangedFirst(p: Path, q: Path, before: seq<Entry>, after: seq<Entry>, log: seq<Entry>)
    requires p != q
    ensures map[p := before, q := log][p := after] == map[p := after, q := log]
  {
  }

  lemma FirstRenames(names: Path -> FileName, p: Path, q: Path, u: Update, text: string, b: Phase, other: string, log: seq<Entry>)
    requires p != q
    ensures Goes(Busy(names, p, q, Writing(u, 0, text, |text|), b, map[Temp(0) := text, Temp(1) := other],
                      map[p := [Entry(0, u, Pending)], q := log]),
                 RenameStep(0, true),
                 Busy(names, p, q, Finished, b, map[Temp(1) := other, Target(names(p)) := text],
                      map[p := [Entry(0, u, Published(true))], q := log]))
  {
    SettleOne(Entry(0, u, Pending), Published(true));
    FirstMoves(Busy(names, p, q, Writing(u, 0, text, |text|), b, map[Temp(0) := text, Temp(1) := other],
                    map[p := [Entry(0, u, Pending)], q := log]),
               p, q, Writing(u, 0, text, |text|), b, Finished);
    FirstFileRenamed(names(p), text, other);
    ChangedFirst(p, q, [Entry(0, u, Pending)], [Entry(0, u, Published(true))], log);
  }

  lemma SecondRenames(names: Path -> FileName, p: Path, q: Path, u: Update, text: string, first: string, log: seq<Entry>)
    requires p != q && names(p) == names(q)
    ensures Goes(Busy(names, p, q, Finished, Writing(u, 1, text, |text|), map[Temp(1) := text, Target(names(p)) := first],
                      map[p := log, q := [Entry(1, u, Pending)]]),
                 RenameStep(1, true),
                 Busy(names, p, q, Finished, Finished, map[Target(names(p)) := text],
                      map[p := log, q := [Entry(1, u, Published(true))]]))
  {
    SettleOne(Entry(1, u, Pending), Published(true));
    assert map[Temp(1) := text, Target(names(p)) := first] - {Temp(1)} == map[Target(names(p)) := first];
    assert map[Target(names(p)) := first][Target(names(p)) := text] == map[Target(names(p)) := text];
    assert map[p := log, q := [Entry(1, u, Pending)]][q := [Entry(1, u, Published(true))]] == map[p := log, q := [Entry(1, u, Published(true))]];
  }

  /** Both threads take their locks, and both read the file before either replaces it. */
  lemma BothRead(names: Path -> FileName, p: Path, q: Path)
    requires p != q
    ensures var a, b := Append("a"), Append("b");
            var log := map[p := [Entry(0, a, Pending)], q := [Entry(1, b, Pending)]];
            && Moves(Busy(names, p, q, Waiting, Waiting, map[], map[]), LockStep(0, a), LockStep(1, b),
                     Busy(names, p, q, Entered(a), Entered(b), map[], log))
            && Moves(Busy(names, p, q, Entered(a), Entered(b), map[], log), ReadStep(0), ReadStep(1),
                     Busy(names, p, q, Loaded(a, None), Loaded(b, None), map[], log))
  {
    var a, b := Append("a"), Append("b");
    var log := map[p := [Entry(0, a, Pending)], q := [Entry(1, b, Pending)]];
    FirstLocks(names, p, q, a);
    SecondLocks(names, p, q, a, b);
    TwoGo(Busy(names, p, q, Waiting, Waiting, map[], map[]), LockStep(0, a),
          Busy(names, p, q, Entered(a), Waiting, map[], map[p := [Entry(0, a, Pending)]]), LockStep(1, b),
          Busy(names, p, q, Entered(a), Entered(b), map[], log));
    FirstReads(names, p, q, a, Entered(b), log);
    SecondReads(names, p, q, Loaded(a, None), b, log);
    TwoGo(Busy(names, p, q, Entered(a), Entered(b), map[], log), ReadStep(0),
          Busy(names, p, q, Loaded(a, None), Entered(b), map[], log), ReadStep(1),
          Busy(names, p, q, Loaded(a, None), Loaded(b, None), map[], log));
  }

  /** Both write what they make of nothing to temporary files of their own. */
  lemma BothWrite(names: Path -> FileName, p: Path, q: Path, log: map<Path, seq<Entry>>)
    ensures var a, b := Append("a"), Append("b");
            && Moves(Busy(names, p, q, Loaded(a, None), Loaded(b, None), map[], log), CreateTempStep(0, 0), CreateTempStep(1, 1),
                     Busy(names, p, q, Writing(a, 0, "a", 0), Writing(b, 1, "b", 0), map[Temp(0) := "", Temp(1) := ""], log))
            && Moves(Busy(names, p, q, Writing(a, 0, "a", 0), Writing(b, 1, "b", 0), map[Temp(0) := "", Temp(1) := ""], log),
                     WriteStep(0, 1), WriteStep(1, 1),
                     Busy(names, p, q, Writing(a, 0, "a", 1), Writing(b, 1, "b", 1), map[Temp(0) := "a", Temp(1) := "b"], log))
  {
    var a, b := Append("a"), Append("b");
    AppendToNothing("a");
    AppendToNothing("b");
    FirstCreates(names, p, q, a, Loaded(b, None), log);
    SecondCreates(names, p, q, Writing(a, 0, "a", 0), b, log);
    TwoGo(Busy(names, p, q, Loaded(a, None), Loaded(b, None), map[], log), CreateTempStep(0, 0),
          Busy(names, p, q, Writing(a, 0, "a", 0), Loaded(b, None), map[Temp(0) := ""], log), CreateTempStep(1, 1),
          Busy(names, p, q, Writing(a, 0, "a", 0), Writing(b, 1, "b", 0), map[Temp(0) := "", Temp(1) := ""], log));
    FirstWrites(names, p, q, a, "a", Writing(b, 1, "b", 0), log);
    SecondWrites(names, p, q, Writing(a, 0, "a", 1), "a", b, "b", log);
    TwoGo(Busy(names, p, q, Writing(a, 0, "a", 0), Writing(b, 1, "b", 0), map[Temp(0) := "", Temp(1) := ""], log), WriteStep(0, 1),
          Busy(names, p, q, Writing(a, 0, "a", 1), Writing(b, 1, "b", 0), map[Temp(0) := "a", Temp(1) := ""], log), WriteStep(1, 1),
          Busy(names, p, q, Writing(a, 0, "a", 1), Writing(b, 1, "b", 1), map[Temp(0) := "a", Temp(1) := "b"], log));
  }

  lemma AppendToNothing(text: string)
    ensures Append(text)(None) == text
  {
    assert "" + text == text;
  }

  /** Both replace the file they share. */
  lemma BothRename(names: Path -> FileName, p: Path, q: Path)
    requires p != q && names(p) == names(q)
    ensures var a, b := Append("a"), Append("b");
            Moves(Busy(names, p, q, Writing(a, 0, "a", 1), Writing(b, 1, "b", 1), map[Temp(0) := "a", Temp(1) := "b"],
                       map[p := [Entry(0, a, Pending)], q := [Entry(1, b, Pending)]]),
                  RenameStep(0, true), RenameStep(1, true),
                  Busy(names, p, q, Finished, Finished, map[Target(names(p)) := "b"], map[p := [Done(0, "a")], q := [Done(1, "b")]]))
  {
    var a, b := Append("a"), Append("b");
    FirstRenames(names, p, q, a, "a", Writing(b, 1, "b", 1), "b", [Entry(1, b, Pending)]);
    SecondRenames(names, p, q, b, "b", "a", [Done(0, "a")]);
    TwoGo(Busy(names, p, q, Writing(a, 0, "a", 1), Writing(b, 1, "b", 1), map[Temp(0) := "a", Temp(1) := "b"],
               map[p := [Entry(0, a, Pending)], q := [Entry(1, b, Pending)]]),
          RenameStep(0, true),
          Busy(names, p, q, Finished, Writing(b, 1, "b", 1), map[Temp(1) := "b", Target(names(p)) := "a"],
               map[p := [Done(0, "a")], q := [Entry(1, b, Pending)]]),
          RenameStep(1, true),
          Busy(names, p, q, Finished, Finished, map[Target(names(p)) := "b"], map[p := [Done(0, "a")], q := [Done(1, "b")]]));
  }

  /** Two paths to one file: both operations report success, and the update of the first is lost. */
  lemma AliasLosesUpdate(names: Path -> FileName, p: Path, q: Path) returns (steps: seq<Step>, w: World)
    requires p != q && names(p) == names(q)
    ensures LeadsTo(Disk(names, map[]), steps, w) && w.names == names
    ensures w.log == map[p := [Done(0, "a")], q := [Done(1, "b")]]
    ensures Read(w.files, names(p)) == Some("b")
  {
    var disk, a, b := Disk(names, map[]), Append("a"), Append("b");
    var log := map[p := [Entry(0, a, Pending)], q := [Entry(1, b, Pending)]];
    steps := BothLookedUp(names, p, q);
    BothRead(names, p, q);
    BothWrite(names, p, q, log);
    BothRename(names, p, q);
    steps := FourMore(disk, steps, Busy(names, p, q, Waiting, Waiting, map[], map[]), LockStep(0, a), LockStep(1, b),
                      Busy(names, p, q, Entered(a), Entered(b), map[], log), ReadStep(0), ReadStep(1),
                      Busy(names, p, q, Loaded(a, None), Loaded(b, None), map[], log));
    var written := Busy(names, p, q, Writing(a, 0, "a", 1), Writing(b, 1, "b", 1), map[Temp(0) := "a", Temp(1) := "b"], log);
    steps := FourMore(disk, steps, Busy(names, p, q, Loaded(a, None), Loaded(b, None), map[], log),
                      CreateTempStep(0, 0), CreateTempStep(1, 1),
                      Busy(names, p, q, Writing(a, 0, "a", 0), Writing(b, 1, "b", 0), map[Temp(0) := "", Temp(1) := ""], log),
                      WriteStep(0, 1), WriteStep(1, 1), written);
    w := Busy(names, p, q, Finished, Finished, map[Target(names(p)) := "b"], map[p := [Done(0, "a")], q := [Done(1, "b")]]);
    TwoSteps(disk, steps, written, RenameStep(0, true), RenameStep(1, true), w);
    steps := steps + [RenameStep(0, true)] + [RenameStep(1, true)];
  }

  lemma FourMore(disk: Disk, before: seq<Step>, w: World, s: Step, s': Step, w': World, r: Step, r': Step, w'': World) returns (steps: seq<Step>)
    requires LeadsTo(disk, before, w) && Moves(w, s, s', w') && Moves(w', r, r', w'')
    ensures LeadsTo(disk, steps, w'')
  {
    TwoSteps(disk, before, w, s, s', w');
    TwoSteps(disk, before + [s] + [s'], w', r, r', w'');
    steps := before + [s] + [s'] + [r] + [r'];
  }

  // ---- exactly when locks by path suffice ------------------------------------------------------------------

  ghost function PickPath(log: map<Path, seq<Entry>>): (p: Path)
    requires log != map[]
    ensures p in log
  {
    var p :| p in log; p
  }

  /** The operations on all paths to this file, each as often as it was done. */
  ghost function Operations(log: map<Path, seq<Entry>>, names: Path -> FileName, f: FileName): multiset<Entry>
    decreases |log|
  {
    if log == map[] then multiset{}
    else
      var p := PickPath(log);
      Smaller(log, p);
      (if names(p) == f then multiset(log[p]) else multiset{}) + Operations(log - {p}, names, f)
  }

  lemma Smaller(log: map<Path, seq<Entry>>, p: Path)
    requires p in log
    ensures |log - {p}| == |log| - 1
  {
    assert (log - {p}).Keys == log.Keys - {p};
    assert |(log - {p}).Keys| == |log - {p}| && |log.Keys| == |log|;
  }

  /** An operation counted was done on some path to the file. */
  lemma {:induction false} CountedWasDone(log: map<Path, seq<Entry>>, names: Path -> FileName, f: FileName, e: Entry) returns (p: Path)
    requires e in Operations(log, names, f)
    ensures p in log && names(p) == f && e in log[p]
    decreases |log|
  {
    p := PickPath(log);
    Smaller(log, p);
    if !(names(p) == f && e in multiset(log[p])) {
      p := CountedWasDone(log - {p}, names, f, e);
    }
  }

  /** An operation done on a path to the file is counted. */
  lemma {:induction false} DoneIsCounted(log: map<Path, seq<Entry>>, names: Path -> FileName, f: FileName, p: Path, e: Entry)
    requires p in log && names(p) == f && e in log[p]
    ensures e in Operations(log, names, f)
    decreases |log|
  {
    var q := PickPath(log);
    Smaller(log, q);
    if q == p {
      assert e in multiset(log[p]);
    } else {
      DoneIsCounted(log - {q}, names, f, p, e);
    }
  }

  /** With no path to the file there are no operations on it. */
  lemma {:induction false} NoOperations(log: map<Path, seq<Entry>>, names: Path -> FileName, f: FileName)
    requires forall p :: p in log ==> names(p) != f
    ensures Operations(log, names, f) == multiset{}
    decreases |log|
  {
    if log != map[] {
      Smaller(log, PickPath(log));
      NoOperations(log - {PickPath(log)}, names, f);
    }
  }

  /** With one path to the file its operations are those of the path. */
  lemma {:induction false} OnePathOperations(log: map<Path, seq<Entry>>, names: Path -> FileName, f: FileName, p: Path)
    requires p in log && names(p) == f && forall q :: q in log && names(q) == f ==> q == p
    ensures Operations(log, names, f) == multiset(log[p])
    decreases |log|
  {
    var q := PickPath(log);
    Smaller(log, q);
    if q == p {
      NoOperations(log - {p}, names, f);
    } else {
      OnePathOperations(log - {q}, names, f, p);
    }
  }

  /** `order` lists the operations on all paths to this file, each as often as it was done. */
  ghost predicate Arranged(order: seq<Entry>, w: World, f: FileName) {
    multiset(order) == Operations(w.log, w.names, f)
  }

  /** The file holds what some arrangement of the operations on it makes of its initial content. */
  ghost predicate Explained(disk: Disk, w: World, f: FileName) {
    exists order :: Arranged(order, w, f) && Read(w.files, f) == Replay(Initial(disk, f), order)
  }

  ghost predicate AllDifferent(names: Path -> FileName, paths: set<Path>) {
    forall p, q :: p in paths && q in paths && names(p) == names(q) ==> p == q
  }

  /** A run that takes locks of these paths only. */
  ghost predicate RunOn(disk: Disk, steps: seq<Step>, paths: set<Path>) {
    Exec(disk, steps).Some? && Exec(disk, steps).value.log.Keys <= paths
  }

  lemma {:induction false} NamesStay(disk: Disk, steps: seq<Step>)
    requires Exec(disk, steps).Some?
    ensures Exec(disk, steps).value.names == disk.names
  {
    if steps != [] {
      var init := steps[..|steps| - 1];
      NamesStay(disk, init);
      LocksStayTaken(Exec(disk, init).value, steps[|steps| - 1]);
    }
  }

  lemma DifferentExplained(disk: Disk, w: World, f: FileName)
    requires DistinctFiles(w) && FilesOk(disk, w)
    ensures Explained(disk, w, f)
  {
    if Named(w, f) {
      var p :| p in w.log && w.names(p) == f;
      OnePathOperations(w.log, w.names, f, p);
      assert Arranged(w.log[p], w, f);
      assert At(w, p) == Replay(Initial(disk, f), w.log[p]);
    } else {
      NoOperations(w.log, w.names, f);
      assert Arranged([], w, f);
    }
  }

  /** Appends only make content longer. */
  lemma {:induction false} AppendsAddUp(order: seq<Entry>)
    requires forall i :: 0 <= i < |order| ==> order[i] == Done(0, "a") || order[i] == Done(1, "b")
    ensures order == [] ==> Replay(None, order) == None
    ensures order != [] ==> Replay(None, order).Some? && |Replay(None, order).value| == |order|
  {
    if order != [] {
      AppendsAddUp(order[..|order| - 1]);
    }
  }

  lemma LostIsUnexplained(names: Path -> FileName, p: Path, q: Path, w: World)
    requires p != q && names(p) == names(q) && w.names == names
    requires w.log == map[p := [Done(0, "a")], q := [Done(1, "b")]] && Read(w.files, names(p)) == Some("b")
    ensures !Explained(Disk(names, map[]), w, names(p))
  {
    var f := names(p);
    DoneIsCounted(w.log, names, f, p, Done(0, "a"));
    DoneIsCounted(w.log, names, f, q, Done(1, "b"));
    forall order | Arranged(order, w, f) ensures Read(w.files, f) != Replay(None, order) {
      forall i | 0 <= i < |order| ensures order[i] == Done(0, "a") || order[i] == Done(1, "b") {
        assert order[i] in multiset(order);
        var r := CountedWasDone(w.log, names, f, order[i]);
      }
      AppendsAddUp(order);
      assert Done(0, "a") in multiset(order) && Done(1, "b") in multiset(order) && Done(0, "a") != Done(1, "b");
    }
  }

  /** Whatever the files held at first: every run that locks these paths only leaves in each file what
      its operations make of it in some order, if and only if the paths lead to different files. */
  lemma LocksSufficeIff(names: Path -> FileName, paths: set<Path>)
    ensures AllDifferent(names, paths) <==>
            forall files, steps :: RunOn(Disk(names, files), steps, paths) ==>
              forall f :: Explained(Disk(names, files), Exec(Disk(names, files), steps).value, f)
  {
    if AllDifferent(names, paths) {
      forall files, steps, f | RunOn(Disk(names, files), steps, paths)
        ensures Explained(Disk(names, files), Exec(Disk(names, files), steps).value, f)
      {
        var disk := Disk(names, files);
        NamesStay(disk, steps);
        NoLostUpdate(disk, steps);
        DifferentExplained(disk, Exec(disk, steps).value, f);
      }
    } else {
      var p, q :| p in paths && q in paths && names(p) == names(q) && p != q;
      var steps, w := AliasLosesUpdate(names, p, q);
      LostIsUnexplained(names, p, q, w);
      assert RunOn(Disk(names, map[]), steps, paths);
    }
  }
}
