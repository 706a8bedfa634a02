/** Versioning by several passes at once: a pass takes its number under its transformer's lock and
    stores the version after letting the lock go, so saves may overtake one another; and several
    transformers may share a store. */
module VersionRaces {
  import opened Wrappers
  import opened Messages
  import opened Context
  import opened ContextVersion

  /** A version and the transformer that numbered it. */
  datatype Taken = Taken(owner: nat, version: Version)

  /** `issued` lists all versions numbered so far, `pending` those not stored yet. */
  datatype Race = Race(issued: seq<Taken>, pending: seq<Taken>, stored: seq<Taken>)

  datatype Step =
    | TakeStep(owner: nat, dropped: seq<LlmMessage>, summary: Option<string>, now: nat)
    | SaveStep(at: nat)

  /** How many versions this transformer has numbered. */
  function Count(issued: seq<Taken>, owner: nat): nat {
    if issued == [] then 0
    else Count(issued[..|issued| - 1], owner) + if issued[|issued| - 1].owner == owner then 1 else 0
  }

  predicate Enabled(r: Race, s: Step) {
    match s
    case TakeStep(_, dropped, _, _) => dropped != []
    case SaveStep(at) => at < |r.pending|
  }

  function Next(r: Race, s: Step): Race
    requires Enabled(r, s)
  {
    match s
    case TakeStep(owner, dropped, summary, now) =>
      var number := Count(r.issued, owner) + 1;
      var taken := Taken(owner, Version(number, number, now, dropped, summary));
      r.(issued := r.issued + [taken], pending := r.pending + [taken])
    case SaveStep(at) =>
      r.(pending := r.pending[..at] + r.pending[at + 1..], stored := r.stored + [r.pending[at]])
  }

  function Run(steps: seq<Step>): Option<Race> {
    if steps == [] then Some(Race([], [], []))
    else
      match Run(steps[..|steps| - 1])
      case None => None
      case Some(r) => if Enabled(r, steps[|steps| - 1]) then Some(Next(r, steps[|steps| - 1])) else None
  }

  function Versions(stored: seq<Taken>): seq<Version> {
    seq(|stored|, i requires 0 <= i < |stored| => stored[i].version)
  }

  lemma RemovedOne(s: seq<Taken>, at: nat)
    requires at < |s|
    ensures multiset(s[..at] + s[at + 1..]) + multiset{s[at]} == multiset(s)
  {
    assert s == s[..at] + [s[at]] + s[at + 1..];
  }

  lemma StepConserves(r: Race, s: Step)
    requires Enabled(r, s) && multiset(r.stored) + multiset(r.pending) == multiset(r.issued)
    ensures multiset(Next(r, s).stored) + multiset(Next(r, s).pending) == multiset(Next(r, s).issued)
  {
    if s.SaveStep? {
      RemovedOne(r.pending, s.at);
    }
  }

  /** Nothing is lost and nothing stored twice. */
  lemma {:induction false} IssuedOnce(steps: seq<Step>)
    requires Run(steps).Some?
    ensures var r := Run(steps).value; multiset(r.stored) + multiset(r.pending) == multiset(r.issued)
  {
    if steps != [] {
      IssuedOnce(steps[..|steps| - 1]);
      StepConserves(Run(steps[..|steps| - 1]).value, steps[|steps| - 1]);
    }
  }

  // ---- numbers -------------------------------------------------------------------------------------------

  /** Each transformer numbers its versions 1, 2, 3, ... in the order it takes the numbers. */
  ghost predicate InOrder(issued: seq<Taken>) {
    forall i {:trigger issued[i]} :: 0 <= i < |issued| ==> issued[i].version.version == Count(issued[..i], issued[i].owner) + 1
  }

  lemma {:induction false} NumberedInOrder(steps: seq<Step>)
    requires Run(steps).Some?
    ensures InOrder(Run(steps).value.issued)
  {
    if steps != [] {
      var init, last := steps[..|steps| - 1], steps[|steps| - 1];
      NumberedInOrder(init);
      if last.TakeStep? {
        var before, after := Run(init).value.issued, Run(steps).value.issued;
        forall i | 0 <= i < |after| ensures after[i].version.version == Count(after[..i], after[i].owner) + 1 {
          assert after[..i] == before[..i];
          assert i == |before| ==> before[..i] == before;
          assert i < |before| ==> after[i] == before[i];
        }
      }
    }
  }

  lemma {:induction false} CountGrows(issued: seq<Taken>, owner: nat, i: nat)
    requires i <= |issued|
    ensures Count(issued[..i], owner) <= Count(issued, owner)
    ensures i < |issued| && issued[i].owner == owner ==> Count(issued[..i], owner) < Count(issued, owner)
    decreases |issued|
  {
    if i == |issued| {
      assert issued[..i] == issued;
    } else if i < |issued| - 1 {
      assert issued[..|issued| - 1][..i] == issued[..i];
      CountGrows(issued[..|issued| - 1], owner, i);
    }
  }

  /** A transformer numbers later versions higher. */
  lemma LaterIsHigher(issued: seq<Taken>, i: nat, j: nat)
    requires InOrder(issued) && i < j < |issued| && issued[i].owner == issued[j].owner
    ensures issued[i].version.version < issued[j].version.version
  {
    assert issued[..j][..i] == issued[..i] && issued[..j][i] == issued[i];
    CountGrows(issued[..j], issued[i].owner, i);
  }

  /** Every number up to the count has been given. */
  lemma {:induction false} NumberGiven(issued: seq<Taken>, owner: nat, n: nat) returns (i: nat)
    requires InOrder(issued) && 1 <= n <= Count(issued, owner)
    ensures i < |issued| && issued[i].owner == owner && issued[i].version.version == n
    decreases |issued|
  {
    var last := |issued| - 1;
    if issued[last].owner == owner && Count(issued, owner) == n {
      i := last;
    } else {
      assert forall k :: 0 <= k < last ==> issued[..last][..k] == issued[..k] && issued[..last][k] == issued[k];
      i := NumberGiven(issued[..last], owner, n);
    }
  }

  /** Every number given is within the count. */
  lemma NumberInRange(issued: seq<Taken>, i: nat)
    requires InOrder(issued) && i < |issued|
    ensures 1 <= issued[i].version.version <= Count(issued, issued[i].owner)
  {
    CountGrows(issued, issued[i].owner, i);
  }

  lemma {:induction false} AllDifferentOnce(s: seq<Taken>, t: Taken)
    requires forall i, j :: 0 <= i < j < |s| ==> s[i] != s[j]
    ensures multiset(s)[t] <= 1
  {
    if s != [] {
      var init, last := s[..|s| - 1], s[|s| - 1];
      assert s == init + [last];
      AllDifferentOnce(init, t);
      if t == last && multiset(init)[t] > 0 {
        var i := Position(init, t);
        assert false;
      }
    }
  }

  /** No version is issued twice. */
  lemma DistinctNumbersIssued(issued: seq<Taken>, t: Taken)
    requires InOrder(issued)
    ensures multiset(issued)[t] <= 1
  {
    forall i, j | 0 <= i < j < |issued| ensures issued[i] != issued[j] {
      if issued[i].owner == issued[j].owner {
        LaterIsHigher(issued, i, j);
      }
    }
    AllDifferentOnce(issued, t);
  }

  lemma Position(s: seq<Taken>, t: Taken) returns (i: nat)
    requires multiset(s)[t] > 0
    ensures i < |s| && s[i] == t
  {
    assert t in multiset(s);
    assert t in s;
    i :| 0 <= i < |s| && s[i] == t;
  }

  lemma Twice(s: seq<Taken>, i: nat, j: nat)
    requires i < j < |s|
    ensures multiset(s)[s[i]] >= if s[i] == s[j] then 2 else 1
    ensures multiset(s)[s[j]] >= 1
  {
    assert s == s[..i] + [s[i]] + s[i + 1..j] + [s[j]] + s[j + 1..];
  }

  /** One transformer's versions of one number are one version. */
  lemma NumberIdentifies(issued: seq<Taken>, a: Taken, b: Taken)
    requires InOrder(issued) && multiset(issued)[a] > 0 && multiset(issued)[b] > 0
    requires a.owner == b.owner && a.version.version == b.version.version
    ensures a == b
  {
    var x := Position(issued, a);
    var y := Position(issued, b);
    if x != y {
      LaterIsHigher(issued, if x < y then x else y, if x < y then y else x);
    }
  }

  /** In every run no transformer has two versions of one number in the store. */
  lemma StoredNumbersDiffer(steps: seq<Step>, i: nat, j: nat)
    requires Run(steps).Some? && i < j < |Run(steps).value.stored|
    ensures var stored := Run(steps).value.stored;
            stored[i].owner == stored[j].owner ==> stored[i].version.version != stored[j].version.version
  {
    var r := Run(steps).value;
    IssuedOnce(steps);
    NumberedInOrder(steps);
    Twice(r.stored, i, j);
    if r.stored[i].owner == r.stored[j].owner && r.stored[i].version.version == r.stored[j].version.version {
      NumberIdentifies(r.issued, r.stored[i], r.stored[j]);
      DistinctNumbersIssued(r.issued, r.stored[i]);
    }
  }

  /** In every run in which all saves are done, each transformer's versions in the store have the
      numbers from 1 to the count it has given, without gaps. */
  lemma NoGapsOnceSaved(steps: seq<Step>, owner: nat, n: nat)
    requires Run(steps).Some? && Run(steps).value.pending == []
    ensures var r := Run(steps).value;
            1 <= n <= Count(r.issued, owner) <==>
            exists i :: 0 <= i < |r.stored| && r.stored[i].owner == owner && r.stored[i].version.version == n
  {
    var r := Run(steps).value;
    IssuedOnce(steps);
    NumberedInOrder(steps);
    if 1 <= n <= Count(r.issued, owner) {
      var i := NumberGiven(r.issued, owner, n);
      assert r.issued[i] in multiset(r.issued);
      var k := Position(r.stored, r.issued[i]);
    }
    forall i | 0 <= i < |r.stored| && r.stored[i].owner == owner && r.stored[i].version.version == n
      ensures 1 <= n <= Count(r.issued, owner)
    {
      assert r.stored[i] in multiset(r.issued);
      var k := Position(r.issued, r.stored[i]);
      NumberInRange(r.issued, k);
    }
  }

  // ---- the latest version ------------------------------------------------------------------------------------

  /** In every run the version returned as the latest is the one stored last exactly when no other
      transformer had stored a version of that number. */
  lemma LatestIsLastStoredIff(steps: seq<Step>)
    requires Run(steps).Some? && Run(steps).value.stored != []
    ensures var stored := Run(steps).value.stored;
            var n := |stored| - 1;
            LatestAt(Versions(stored)) == n <==>
            forall i :: 0 <= i < n && stored[i].owner != stored[n].owner ==> stored[i].version.version != stored[n].version.version
  {
    var stored := Run(steps).value.stored;
    var n := |stored| - 1;
    ContextVersion.LatestIsLastStoredIff(Versions(stored));
    forall i | 0 <= i < n && stored[i].owner == stored[n].owner ensures stored[i].version.version != stored[n].version.version {
      StoredNumbersDiffer(steps, i, n);
    }
    assert forall i :: 0 <= i <= n ==> Versions(stored)[i] == stored[i].version;
  }

  predicate OneOwner(issued: seq<Taken>, owner: nat) {
    forall i :: 0 <= i < |issued| ==> issued[i].owner == owner
  }

  /** The version numbered last has the highest number, and no other has it. */
  lemma NewestIsHighest(issued: seq<Taken>, owner: nat, t: Taken)
    requires InOrder(issued) && OneOwner(issued, owner) && multiset(issued)[t] > 0
    ensures issued != []
    ensures t.version.version <= issued[|issued| - 1].version.version
    ensures t.version.version == issued[|issued| - 1].version.version ==> t == issued[|issued| - 1]
  {
    var i := Position(issued, t);
    if i < |issued| - 1 {
      LaterIsHigher(issued, i, |issued| - 1);
    }
  }

  /** In every run of one transformer in which all saves are done: the version returned as the latest
      has the highest number exactly when the pass that took its number last was also stored last. */
  lemma LatestIsNewestIff(steps: seq<Step>, owner: nat)
    requires Run(steps).Some? && Run(steps).value.stored != [] && Run(steps).value.pending == []
    requires OneOwner(Run(steps).value.issued, owner)
    ensures var r := Run(steps).value;
            r.issued != [] &&
            (HighestNumber(Versions(r.stored), Latest(Versions(r.stored)).value) <==>
             r.stored[|r.stored| - 1] == r.issued[|r.issued| - 1])
  {
    IssuedOnce(steps);
    NumberedInOrder(steps);
    AllSavedNewestIff(Run(steps).value.issued, Run(steps).value.stored, owner);
  }

  lemma AllSavedNewestIff(issued: seq<Taken>, stored: seq<Taken>, owner: nat)
    requires InOrder(issued) && OneOwner(issued, owner) && multiset(stored) == multiset(issued) && stored != []
    ensures issued != [] &&
            (HighestNumber(Versions(stored), Latest(Versions(stored)).value) <==> stored[|stored| - 1] == issued[|issued| - 1])
  {
    var versions, n := Versions(stored), |stored| - 1;
    assert forall i :: 0 <= i < |stored| ==> stored[i] in multiset(stored);
    NewestIsHighest(issued, owner, stored[n]);
    var newest := issued[|issued| - 1];
    assert newest in multiset(issued);
    var k := Position(stored, newest);
    LatestIsHighestIff(versions);
    assert versions[k] == newest.version && versions[n] == stored[n].version;
    forall i | 0 <= i < |versions| ensures versions[i].version <= newest.version.version {
      NewestIsHighest(issued, owner, stored[i]);
    }
  }

  // ---- two runs in which an older version is returned --------------------------------------------------------

  lemma StepTo(steps: seq<Step>, r: Race, s: Step, r': Race) returns (more: seq<Step>)
    requires Run(steps) == Some(r) && Enabled(r, s) && Next(r, s) == r'
    ensures Run(more) == Some(r')
  {
    more := steps + [s];
    assert more[..|steps|] == steps;
  }

  function Issue(owner: nat, number: nat, m: LlmMessage): Taken {
    Taken(owner, Version(number, number, 0, [m], None))
  }

  function Take(owner: nat, m: LlmMessage): Step {
    TakeStep(owner, [m], None, 0)
  }

  lemma FirstTaken(m: LlmMessage)
    ensures var a := Issue(0, 1, m); Next(Race([], [], []), Take(0, m)) == Race([a], [a], [])
  {
  }

  lemma SecondTaken(a: Taken, owner: nat, m: LlmMessage, pending: seq<Taken>, stored: seq<Taken>)
    ensures var b := Issue(owner, if a.owner == owner then 2 else 1, m);
            Next(Race([a], pending, stored), Take(owner, m)) == Race([a, b], pending + [b], stored)
  {
    assert [a][..0] == [];
    assert Count([a], owner) == if a.owner == owner then 1 else 0;
  }

  lemma OnlySaved(issued: seq<Taken>, t: Taken, stored: seq<Taken>)
    ensures Next(Race(issued, [t], stored), SaveStep(0)) == Race(issued, [], stored + [t])
  {
  }

  lemma SecondSaved(issued: seq<Taken>, a: Taken, b: Taken)
    ensures Next(Race(issued, [a, b], []), SaveStep(1)) == Race(issued, [a], [b])
  {
  }

  lemma LatestOfTwo(a: Taken, b: Taken)
    ensures Latest(Versions([a, b])) == Some(if a.version.version == b.version.version then a.version else b.version)
    ensures HighestNumber(Versions([a, b]), b.version) <==> a.version.version <= b.version.version
  {
    var versions := Versions([a, b]);
    assert versions[0] == a.version && versions[1] == b.version;
  }

  /** Two transformers share a store, one after the other: the second's version is stored last, and the
      first's is returned. */
  lemma SharedStoreReturnsOlder(m: LlmMessage, m': LlmMessage) returns (steps: seq<Step>)
    requires m != m'
    ensures Run(steps).Some?
    ensures var r, older, newer := Run(steps).value, Issue(0, 1, m), Issue(1, 1, m');
            && r == Race([older, newer], [], [older, newer])
            && Latest(Versions(r.stored)) == Some(older.version) != Some(newer.version)
  {
    var a, b := Issue(0, 1, m), Issue(1, 1, m');
    FirstTaken(m);
    steps := StepTo([], Race([], [], []), Take(0, m), Race([a], [a], []));
    OnlySaved([a], a, []);
    steps := StepTo(steps, Race([a], [a], []), SaveStep(0), Race([a], [], [a]));
    SecondTaken(a, 1, m', [], [a]);
    steps := StepTo(steps, Race([a], [], [a]), Take(1, m'), Race([a, b], [b], [a]));
    OnlySaved([a, b], b, [a]);
    steps := StepTo(steps, Race([a, b], [b], [a]), SaveStep(0), Race([a, b], [], [a, b]));
    LatestOfTwo(a, b);
  }

  /** Two passes of one transformer, the second overtaking the first before it is stored: version 2 is
      stored, and version 1 is returned. */
  lemma OvertakenSaveReturnsOlder(m: LlmMessage, m': LlmMessage) returns (steps: seq<Step>)
    ensures Run(steps).Some?
    ensures var r, older, newer := Run(steps).value, Issue(0, 1, m), Issue(0, 2, m');
            && r == Race([older, newer], [], [newer, older])
            && Latest(Versions(r.stored)) == Some(older.version)
            && !HighestNumber(Versions(r.stored), older.version)
  {
    var a, b := Issue(0, 1, m), Issue(0, 2, m');
    FirstTaken(m);
    steps := StepTo([], Race([], [], []), Take(0, m), Race([a], [a], []));
    SecondTaken(a, 0, m', [a], []);
    steps := StepTo(steps, Race([a], [a], []), Take(0, m'), Race([a, b], [a, b], []));
    SecondSaved([a, b], a, b);
    steps := StepTo(steps, Race([a, b], [a, b], []), SaveStep(1), Race([a, b], [a], [b]));
    OnlySaved([a, b], a, [b]);
    steps := StepTo(steps, Race([a, b], [a], [b]), SaveStep(0), Race([a, b], [], [b, a]));
    LatestOfTwo(b, a);
  }

  // ---- one pass at a time --------------------------------------------------------------------------------------

  lemma PassAlone(r: Race, take: Step, taken: Taken)
    requires take.TakeStep? && Enabled(r, take) && r.pending == [] && Next(r, take).issued == r.issued + [taken]
    ensures Enabled(Next(r, take), SaveStep(0))
    ensures Next(Next(r, take), SaveStep(0)) == Race(r.issued + [taken], [], r.stored + [taken])
  {
    assert (r.issued + [taken])[|r.issued|] == Next(r, take).issued[|r.issued|];
    assert Next(r, take) == Race(r.issued + [taken], [taken], r.stored);
    OnlySaved(r.issued + [taken], taken, r.stored);
  }

  /** A pass that nobody overtakes files what a report says was dropped as the versioning layer does:
      the same version under the same number, and the counters keep agreeing. */
  lemma PassAloneFiles(summarize: Option<Summarizer>, s: Session, kept: seq<AgentMessage>, report: CompactionReport, now: nat, r: Race, owner: nat)
    requires report.droppedMessages != [] && r.pending == []
    requires s.versions == Versions(r.stored) && s.nextVersion == Count(r.issued, owner) + 1 == s.turn + 1
    ensures var summary := if summarize.Some? then summarize.value(report.droppedMessages) else None;
            var filed, done := Filed(summarize, s, kept, Some(report), now), DoneAlone(r, owner, report.droppedMessages, summary, now);
            && done.pending == [] && filed.versions == Versions(done.stored)
            && filed.nextVersion == Count(done.issued, owner) + 1 == filed.turn + 1
  {
    var summary := if summarize.Some? then summarize.value(report.droppedMessages) else None;
    var n := Count(r.issued, owner) + 1;
    var taken := Taken(owner, Version(n, n, now, report.droppedMessages, summary));
    PassAlone(r, TakeStep(owner, report.droppedMessages, summary, now), taken);
    CountSnoc(r.issued, taken);
    VersionsSnoc(r.stored, taken);
  }

  /** A pass that takes its number and stores its version with nothing in between. */
  function DoneAlone(r: Race, owner: nat, dropped: seq<LlmMessage>, summary: Option<string>, now: nat): Race
    requires dropped != [] && r.pending == []
  {
    Next(Next(r, TakeStep(owner, dropped, summary, now)), SaveStep(0))
  }

  lemma CountSnoc(issued: seq<Taken>, t: Taken)
    ensures Count(issued + [t], t.owner) == Count(issued, t.owner) + 1
  {
    assert (issued + [t])[..|issued|] == issued;
  }

  lemma VersionsSnoc(stored: seq<Taken>, t: Taken)
    ensures Versions(stored + [t]) == Versions(stored) + [t.version]
  {
  }
}
