/** Versioned archiving: every slice that compaction drops is stored as a numbered version. */
module ContextVersion {
  import opened Wrappers
  import opened Messages
  import opened Context
  import opened ContextLaws
  import opened ContextTransformer
  import opened Sequences

  datatype Version = Version(version: nat, turn: nat, timestamp: nat, messages: seq<LlmMessage>, summary: Option<string>)

  datatype VersionMeta = VersionMeta(version: nat, turn: nat, timestamp: nat, messageCount: nat, hasSummary: bool)

  type Summarizer = seq<LlmMessage> -> Option<string>

  function MetaOf(v: Version): VersionMeta {
    VersionMeta(v.version, v.turn, v.timestamp, |v.messages|, v.summary.Some?)
  }

  /** Versions are numbered 1, 2, 3, ... as they are stored, and none is empty. */
  ghost predicate Numbered(versions: seq<Version>) {
    forall i :: 0 <= i < |versions| ==>
      versions[i].version == i + 1 && versions[i].turn == i + 1 && versions[i].messages != []
  }

  ghost predicate OwnNumbers(versions: seq<Version>) {
    forall i, j :: 0 <= i < j < |versions| ==> versions[i].version != versions[j].version
  }

  /** `v` is the first version stored under this number. */
  ghost predicate FirstWith(versions: seq<Version>, number: nat, v: Version) {
    exists i: nat :: FirstAt(versions, number, i) && versions[i] == v
  }

  predicate FirstAt(versions: seq<Version>, number: nat, i: nat) {
    && i < |versions| && versions[i].version == number
    && forall j :: 0 <= j < i ==> versions[j].version != number
  }

  /** Where the version that a lookup of the last number stored finds is. */
  function LatestAt(versions: seq<Version>): (i: nat)
    requires versions != []
    ensures FirstAt(versions, versions[|versions| - 1].version, i)
  {
    Find(versions, versions[|versions| - 1].version, 0)
  }

  function Find(versions: seq<Version>, number: nat, from: nat): (i: nat)
    requires from < |versions| && versions[|versions| - 1].version == number
    requires forall j :: 0 <= j < from ==> versions[j].version != number
    ensures FirstAt(versions, number, i)
    decreases |versions| - from
  {
    if versions[from].version == number then from else Find(versions, number, from + 1)
  }

  /** What `latest_version` returns. */
  function Latest(versions: seq<Version>): Option<Version> {
    if versions == [] then None else Some(versions[LatestAt(versions)])
  }

  class InMemoryVersionStore {
    var versions: seq<Version>

    constructor ()
      ensures versions == []
    {
      versions := [];
    }

    method SaveVersion(version: Version)
      modifies this
      ensures versions == old(versions) + [version]
    {
      versions := versions + [version];
    }

    /** The first stored version with this number. */
    method LoadVersion(version: nat) returns (found: Option<Version>)
      ensures found.Some? ==> FirstWith(versions, version, found.value)
      ensures found.None? ==> forall i :: 0 <= i < |versions| ==> versions[i].version != version
    {
      for i := 0 to |versions|
        invariant forall j :: 0 <= j < i ==> versions[j].version != version
      {
        if versions[i].version == version {
          assert FirstAt(versions, version, i);
          return Some(versions[i]);
        }
      }
      return None;
    }

    method ListVersions() returns (metas: seq<VersionMeta>)
      ensures |metas| == |versions|
      ensures forall i :: 0 <= i < |versions| ==>
                metas[i] == VersionMeta(versions[i].version, versions[i].turn, versions[i].timestamp, |versions[i].messages|, versions[i].summary.Some?)
    {
      metas := [];
      for i := 0 to |versions|
        invariant |metas| == i && forall j :: 0 <= j < i ==> metas[j] == MetaOf(versions[j])
      {
        metas := metas + [MetaOf(versions[i])];
      }
    }

    /** Looks the last number stored up again, so it finds the first version stored under it. */
    method LatestVersion() returns (latest: Option<Version>)
      ensures latest == Latest(versions)
    {
      var metas := ListVersions();
      if metas == [] {
        return None;
      }
      latest := LoadVersion(metas[|metas| - 1].version);
      ghost var at := LatestAt(versions);
      assert FirstAt(versions, metas[|metas| - 1].version, at);
    }
  }

  /** The version returned is the one stored last exactly when no other was stored under its number. */
  lemma LatestIsLastStoredIff(versions: seq<Version>)
    requires versions != []
    ensures var n := |versions| - 1;
            LatestAt(versions) == n <==> forall i :: 0 <= i < n ==> versions[i].version != versions[n].version
  {
  }

  /** No stored version has a higher number. */
  ghost predicate HighestNumber(versions: seq<Version>, v: Version) {
    forall i :: 0 <= i < |versions| ==> versions[i].version <= v.version
  }

  /** The version returned has the highest number exactly when the version stored last has. */
  lemma LatestIsHighestIff(versions: seq<Version>)
    requires versions != []
    ensures HighestNumber(versions, Latest(versions).value) <==>
            forall i :: 0 <= i < |versions| ==> versions[i].version <= versions[|versions| - 1].version
  {
  }

  /** Everything the versioning layer keeps between turns. */
  datatype Session = Session(messages: seq<AgentMessage>, versions: seq<Version>, nextVersion: nat, turn: nat)

  /** The session after a compaction pass that left `kept` and reported `report`. */
  function Filed(summarize: Option<Summarizer>, s: Session, kept: seq<AgentMessage>, report: Option<CompactionReport>, now: nat): Session {
    if report.None? || report.value.droppedMessages == [] then s.(messages := kept)
    else
      var dropped := report.value.droppedMessages;
      var summary := if summarize.Some? then summarize.value(dropped) else None;
      Session(kept, s.versions + [Version(s.nextVersion, s.turn + 1, now, dropped, summary)], s.nextVersion + 1, s.turn + 1)
  }

  /** The effect of one transform on the conversation and its archive. */
  function Archived(count: Counter, summarize: Option<Summarizer>, s: Session, budget: nat, anchor: nat, overflow: bool, now: nat): Session {
    var (kept, report) := Compacted(count, s.messages, budget, anchor, overflow);
    Filed(summarize, s, kept, report, now)
  }

  class VersioningTransformer {
    const inner: SlidingWindowTransformer
    const store: InMemoryVersionStore
    const summarizer: Option<Summarizer>
    var nextVersion: nat
    var turnCounter: nat

    constructor (inner: SlidingWindowTransformer, store: InMemoryVersionStore, summarizer: Option<Summarizer>)
      ensures this.inner == inner && this.store == store && this.summarizer == summarizer
      ensures nextVersion == 1 && turnCounter == 0
    {
      this.inner, this.store, this.summarizer := inner, store, summarizer;
      nextVersion, turnCounter := 1, 0;
    }

    ghost function SessionOn(log: History): Session
      reads this, store, log
    {
      Session(log.messages, store.versions, nextVersion, turnCounter)
    }

    method Transform(log: History, overflow: bool, now: nat) returns (report: Option<CompactionReport>)
      modifies this, store, log
      ensures SessionOn(log) ==
              Archived(inner.count, summarizer, old(SessionOn(log)), inner.Budget(overflow), old(inner.EffectiveAnchor()), overflow, now)
      ensures report ==
              Compacted(inner.count, old(log.messages), inner.Budget(overflow), old(inner.EffectiveAnchor()), overflow).1
    {
      ghost var before := SessionOn(log);
      report := inner.Transform(log, overflow);
      FiledReplacesMessages(summarizer, before, SessionOn(log), log.messages, report, now);
      FileReport(log, report, now);
    }

    /** Storing what a report says was dropped, under the next version number. */
    method FileReport(log: History, report: Option<CompactionReport>, now: nat)
      modifies this, store
      ensures SessionOn(log) == Filed(summarizer, old(SessionOn(log)), log.messages, report, now)
    {
      if report.None? || report.value.droppedMessages == [] {
        return;
      }
      var dropped := report.value.droppedMessages;
      turnCounter := turnCounter + 1;
      var summary := if summarizer.Some? then summarizer.value(dropped) else None;
      var version := Version(nextVersion, turnCounter, now, dropped, summary);
      nextVersion := nextVersion + 1;
      store.SaveVersion(version);
    }
  }

  /** The messages before the pass do not matter to what is filed. */
  lemma FiledReplacesMessages(summarize: Option<Summarizer>, a: Session, b: Session, kept: seq<AgentMessage>, report: Option<CompactionReport>, now: nat)
    requires b == a.(messages := b.messages)
    ensures Filed(summarize, a, kept, report, now) == Filed(summarize, b, kept, report, now)
  {
  }

  // ---- whole runs ------------------------------------------------------------------------------

  datatype Action = Append(batch: seq<AgentMessage>) | Compact(budget: nat, anchor: nat, overflow: bool, now: nat)

  /** A conversation from empty, growing by batches and compacted now and then. */
  function Run(count: Counter, summarize: Option<Summarizer>, actions: seq<Action>): Session {
    if actions == [] then Session([], [], 1, 0)
    else
      var s := Run(count, summarize, actions[..|actions| - 1]);
      match actions[|actions| - 1]
      case Append(batch) => s.(messages := s.messages + batch)
      case Compact(budget, anchor, overflow, now) => Archived(count, summarize, s, budget, anchor, overflow, now)
  }

  function Appended(actions: seq<Action>): seq<AgentMessage> {
    if actions == [] then []
    else
      var before, last := Appended(actions[..|actions| - 1]), actions[|actions| - 1];
      if last.Append? then before + last.batch else before
  }

  /** The archived messages, version after version. */
  function Archive(versions: seq<Version>): seq<LlmMessage> {
    if versions == [] then [] else Archive(versions[..|versions| - 1]) + versions[|versions| - 1].messages
  }

  lemma ArchiveSnoc(versions: seq<Version>, v: Version)
    ensures Archive(versions + [v]) == Archive(versions) + v.messages
  {
    assert (versions + [v])[..|versions|] == versions;
  }

  /** Over any run the versions are numbered without gaps or repeats, and the counters agree with the store. */
  lemma VersionsAreNumbered(count: Counter, summarize: Option<Summarizer>, actions: seq<Action>)
    ensures var s := Run(count, summarize, actions);
            Numbered(s.versions) && OwnNumbers(s.versions) && s.nextVersion == |s.versions| + 1 && s.turn == |s.versions|
  {
    CountersAgree(count, summarize, actions);
  }

  lemma {:induction false} CountersAgree(count: Counter, summarize: Option<Summarizer>, actions: seq<Action>)
    ensures var s := Run(count, summarize, actions);
            Numbered(s.versions) && s.nextVersion == |s.versions| + 1 && s.turn == |s.versions|
  {
    if actions != [] {
      CountersAgree(count, summarize, actions[..|actions| - 1]);
    }
  }

  /** Over any run, whatever the budgets and anchors, no LLM message is lost or duplicated. */
  lemma {:induction false} MessagesAreConserved(count: Counter, summarize: Option<Summarizer>, actions: seq<Action>)
    ensures var s := Run(count, summarize, actions);
            multiset(LlmOnly(Appended(actions))) == multiset(LlmOnly(s.messages)) + multiset(Archive(s.versions))
  {
    if actions != [] {
      var init, last := actions[..|actions| - 1], actions[|actions| - 1];
      var s := Run(count, summarize, init);
      MessagesAreConserved(count, summarize, init);
      match last
      case Append(batch) =>
        LlmOnlyConcat(Appended(init), batch);
        LlmOnlyConcat(s.messages, batch);
      case Compact(budget, anchor, overflow, now) => CompactConserves(count, summarize, s, budget, anchor, overflow, now);
    }
  }

  lemma CompactConserves(count: Counter, summarize: Option<Summarizer>, s: Session, budget: nat, anchor: nat, overflow: bool, now: nat)
    ensures var s' := Archived(count, summarize, s, budget, anchor, overflow, now);
            multiset(LlmOnly(s'.messages)) + multiset(Archive(s'.versions)) == multiset(LlmOnly(s.messages)) + multiset(Archive(s.versions))
  {
    if CutOf(count, s.messages, budget, anchor).Some? {
      NothingElseIsLost(s.messages, CutOf(count, s.messages, budget, anchor).value);
      ArchivedDropped(count, summarize, s, budget, anchor, overflow, now);
    }
  }

  /** A pass that cuts adds exactly the dropped LLM messages to the archive. */
  lemma ArchivedDropped(count: Counter, summarize: Option<Summarizer>, s: Session, budget: nat, anchor: nat, overflow: bool, now: nat)
    requires CutOf(count, s.messages, budget, anchor).Some?
    ensures var cut, s' := CutOf(count, s.messages, budget, anchor).value, Archived(count, summarize, s, budget, anchor, overflow, now);
            && s'.messages == Kept(s.messages, Some(cut))
            && Archive(s'.versions) == Archive(s.versions) + LlmOnly(s.messages[cut.end..cut.tail])
  {
    var s' := Archived(count, summarize, s, budget, anchor, overflow, now);
    var cut := CutOf(count, s.messages, budget, anchor).value;
    var dropped := LlmOnly(s.messages[cut.end..cut.tail]);
    if dropped != [] {
      ArchiveSnoc(s.versions, s'.versions[|s.versions|]);
    } else {
      assert Archive(s.versions) + [] == Archive(s.versions);
    }
  }

  // ---- order ---------------------------------------------------------------------------------------

  /** Every compaction uses this anchor, and every batch is a well-formed history of its own. */
  ghost predicate Steady(actions: seq<Action>, anchor: nat) {
    forall i :: 0 <= i < |actions| ==>
      match actions[i]
      case Append(batch) => WellFormed(batch)
      case Compact(_, a, _, _) => a == anchor
  }

  function ProtectedEnd(messages: seq<AgentMessage>, anchor: nat): nat {
    ExtendedAnchor(messages, Min(anchor, |messages|))
  }

  lemma ConcatWellFormed(a: seq<AgentMessage>, b: seq<AgentMessage>)
    requires WellFormed(a) && WellFormed(b)
    ensures WellFormed(a + b)
  {
    var c := a + b;
    forall i: nat | IsToolResult(c, i)
      ensures RunHead(c, i).Some? && c[i].llm.toolCallId in ToolCallIds(c[RunHead(c, i).value])
    {
      var part, j := if i < |a| then a else b, if i < |a| then i else i - |a|;
      assert IsToolResult(part, j);
      var head := RunHead(part, j).value;
      var h := if i < |a| then head else head + |a|;
      forall k: nat | h < k <= i ensures IsToolResult(c, k) {
        assert IsToolResult(part, if i < |a| then k else k - |a|);
      }
      RunHeadIs(c, h, i);
    }
  }

  lemma FirstIsNoResult(messages: seq<AgentMessage>)
    requires WellFormed(messages)
    ensures !IsToolResult(messages, 0)
  {
  }

  /** Growing by a well-formed batch does not move the end of the protected prefix. */
  lemma AppendKeepsPrefix(messages: seq<AgentMessage>, batch: seq<AgentMessage>, anchor: nat)
    requires WellFormed(messages) && WellFormed(batch) && anchor <= |messages|
    ensures ProtectedEnd(messages + batch, anchor) == ProtectedEnd(messages, anchor)
  {
    AnchorIsClean(messages, anchor);
    var e := ExtendedAnchor(messages, anchor);
    FirstIsNoResult(batch);
    assert messages + batch == messages || (messages + batch)[|messages|] == batch[0];
    assert (messages + batch)[..e] == messages[..e];
    AnchorIsStable(messages, messages + batch, anchor);
  }

  /** Compacting does not move the end of the protected prefix. */
  lemma CompactKeepsPrefix(count: Counter, messages: seq<AgentMessage>, budget: nat, anchor: nat)
    requires CutOf(count, messages, budget, anchor).Some?
    ensures var kept := Kept(messages, CutOf(count, messages, budget, anchor));
            anchor <= |kept| && ProtectedEnd(kept, anchor) == ProtectedEnd(messages, anchor) <= |kept|
  {
    var cut := CutOf(count, messages, budget, anchor);
    var kept := Kept(messages, cut);
    KeptTail(messages, cut.value, cut.value.tail);
    assert anchor < |messages|;
    AnchorIsStable(messages, kept, Min(anchor, |messages|));
  }

  /** With a steady anchor and well-formed batches, the LLM messages ever appended are, in order, the
      protected prefix, then version 1, version 2, ... and then the active tail. */
  lemma {:induction false} ArchiveIsComplete(count: Counter, summarize: Option<Summarizer>, actions: seq<Action>, anchor: nat)
    requires Steady(actions, anchor)
    ensures var s := Run(count, summarize, actions);
            var end := ProtectedEnd(s.messages, anchor);
            && WellFormed(s.messages)
            && end <= |s.messages|
            && (s.versions != [] ==> anchor <= |s.messages|)
            && LlmOnly(Appended(actions)) == LlmOnly(s.messages[..end]) + Archive(s.versions) + LlmOnly(s.messages[end..])
  {
    if actions != [] {
      var init, last := actions[..|actions| - 1], actions[|actions| - 1];
      assert Steady(init, anchor) by { assert forall i :: 0 <= i < |init| ==> init[i] == actions[i]; }
      ArchiveIsComplete(count, summarize, init, anchor);
      var s := Run(count, summarize, init);
      match last
      case Append(batch) =>
        AppendKeepsOrder(s, batch, anchor, LlmOnly(Appended(init)));
        LlmOnlyConcat(Appended(init), batch);
      case Compact(budget, a, overflow, now) =>
        CompactKeepsOrder(count, summarize, s, budget, anchor, overflow, now, LlmOnly(Appended(init)));
    }
  }

  /** `all` is the messages before `end`, then the archive, then the messages from `end` on. */
  ghost predicate InOrderAt(messages: seq<AgentMessage>, archive: seq<LlmMessage>, end: nat, all: seq<LlmMessage>) {
    end <= |messages| && all == LlmOnly(messages[..end]) + archive + LlmOnly(messages[end..])
  }

  ghost predicate InOrder(s: Session, anchor: nat, all: seq<LlmMessage>) {
    && WellFormed(s.messages)
    && (s.versions != [] ==> anchor <= |s.messages|)
    && InOrderAt(s.messages, Archive(s.versions), ProtectedEnd(s.messages, anchor), all)
  }

  lemma LlmOnlyGrows(messages: seq<AgentMessage>, batch: seq<AgentMessage>, end: nat)
    requires end <= |messages|
    ensures LlmOnly((messages + batch)[..end]) == LlmOnly(messages[..end])
    ensures LlmOnly((messages + batch)[end..]) == LlmOnly(messages[end..]) + LlmOnly(batch)
  {
    assert (messages + batch)[..end] == messages[..end];
    assert (messages + batch)[end..] == messages[end..] + batch;
    LlmOnlyConcat(messages[end..], batch);
  }

  lemma AppendAt(messages: seq<AgentMessage>, batch: seq<AgentMessage>, archive: seq<LlmMessage>, end: nat, all: seq<LlmMessage>)
    requires InOrderAt(messages, archive, end, all)
    ensures InOrderAt(messages + batch, archive, end, all + LlmOnly(batch))
  {
    LlmOnlyGrows(messages, batch, end);
    Reassociate(LlmOnly(messages[..end]) + archive, LlmOnly(messages[end..]), LlmOnly(batch));
  }

  /** With nothing archived the end of the prefix does not matter. */
  lemma MoveEnd(messages: seq<AgentMessage>, end: nat, end': nat, all: seq<LlmMessage>)
    requires InOrderAt(messages, [], end, all) && end' <= |messages|
    ensures InOrderAt(messages, [], end', all)
  {
    LlmOnlySplit(messages, end);
    LlmOnlySplit(messages, end');
    assert all == LlmOnly(messages[..end]) + LlmOnly(messages[end..]);
    assert LlmOnly(messages[..end']) + [] == LlmOnly(messages[..end']);
  }

  lemma CutAt(messages: seq<AgentMessage>, cut: Cut, archive: seq<LlmMessage>, all: seq<LlmMessage>)
    requires cut.end <= cut.tail <= |messages|
    requires InOrderAt(messages, archive, cut.end, all)
    ensures InOrderAt(Kept(messages, Some(cut)), archive + LlmOnly(messages[cut.end..cut.tail]), cut.end, all)
  {
    var kept := Kept(messages, Some(cut));
    assert messages[cut.end..] == messages[cut.end..cut.tail] + messages[cut.tail..];
    LlmOnlyConcat(messages[cut.end..cut.tail], messages[cut.tail..]);
    assert kept[..cut.end] == messages[..cut.end] && kept[cut.end..] == messages[cut.tail..];
  }

  lemma AppendKeepsOrder(s: Session, batch: seq<AgentMessage>, anchor: nat, all: seq<LlmMessage>)
    requires InOrder(s, anchor, all) && WellFormed(batch)
    ensures InOrder(s.(messages := s.messages + batch), anchor, all + LlmOnly(batch))
  {
    ConcatWellFormed(s.messages, batch);
    var end, end' := ProtectedEnd(s.messages, anchor), ProtectedEnd(s.messages + batch, anchor);
    AppendAt(s.messages, batch, Archive(s.versions), end, all);
    if anchor <= |s.messages| {
      AppendKeepsPrefix(s.messages, batch, anchor);
    } else {
      MoveEnd(s.messages + batch, end, end', all + LlmOnly(batch));
    }
  }

  lemma CompactKeepsOrder(count: Counter, summarize: Option<Summarizer>, s: Session, budget: nat, anchor: nat, overflow: bool, now: nat,
                          all: seq<LlmMessage>)
    requires InOrder(s, anchor, all)
    ensures InOrder(Archived(count, summarize, s, budget, anchor, overflow, now), anchor, all)
  {
    var cut := CutOf(count, s.messages, budget, anchor);
    if cut.Some? {
      CompactionKeepsWellFormed(count, s.messages, budget, anchor);
      CompactKeepsPrefix(count, s.messages, budget, anchor);
      ArchivedDropped(count, summarize, s, budget, anchor, overflow, now);
      CutAt(s.messages, cut.value, Archive(s.versions), all);
    }
  }
}
