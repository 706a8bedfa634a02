/** Session state: a key-value map with a log of what changed since the last flush. */
module SessionState {
  import opened Wrappers
  import opened Messages

  type Data = map<string, Json>

  /** Some(v): the key was set to v; None: it was removed. */
  type Delta = map<string, Option<Json>>

  class SessionState {
    var data: Data
    var delta: Delta

    constructor (data: Data)
      ensures this.data == data && delta == map[]
    {
      this.data, delta := data, map[];
    }

    /** `value` is None when it does not serialize; then nothing changes. */
    method Set(key: string, value: Option<Json>) returns (ok: bool)
      modifies this
      ensures ok == value.Some?
      ensures (data, delta) == if ok then Noted(old((data, delta)), SetKey(key, value.value)) else old((data, delta))
      ensures ok ==> data == old(data)[key := value.value] && delta == old(delta)[key := value]
    {
      if value.None? {
        return false;
      }
      data := data[key := value.value];
      delta := delta[key := value];
      return true;
    }

    method Remove(key: string)
      modifies this
      ensures (data, delta) == Noted(old((data, delta)), RemoveKey(key))
      ensures key in old(data) ==> data == old(data) - {key} && delta == old(delta)[key := None]
      ensures key !in old(data) ==> data == old(data) && delta == old(delta)
    {
      if key in data {
        data := data - {key};
        delta := delta[key := None];
      }
    }

    method Clear()
      modifies this
      ensures (data, delta) == Noted(old((data, delta)), ClearAll)
      ensures data == map[] && delta.Keys == old(delta).Keys + old(data).Keys
      ensures forall k :: k in delta ==> delta[k] == if k in old(data) then None else old(delta)[k]
    {
      var keys := data.Keys;
      ghost var seen: set<string> := {};
      while keys != {}
        invariant data == old(data) && seen + keys == data.Keys && seen !! keys
        invariant delta == old(delta) + map k | k in seen :: None
        decreases keys
      {
        var key :| key in keys;
        delta := delta[key := None];
        keys := keys - {key};
        seen := seen + {key};
      }
      assert seen == data.Keys;
      data := map[];
    }

    method ApplyBaseline(baseline: SessionState)
      requires baseline != this
      modifies this
      ensures data == baseline.data + old(data) && delta == old(delta)
    {
      var keys := baseline.data.Keys;
      ghost var seen: set<string> := {};
      while keys != {}
        invariant baseline.data == old(baseline.data) && seen + keys == baseline.data.Keys && seen !! keys
        invariant data == (map k | k in seen :: baseline.data[k]) + old(data)
        invariant delta == old(delta)
        decreases keys
      {
        var key :| key in keys;
        if key !in data {
          data := data[key := baseline.data[key]];
        }
        keys := keys - {key};
        seen := seen + {key};
      }
      assert seen == baseline.data.Keys;
    }

    method FlushDelta() returns (flushed: Delta)
      modifies this
      ensures flushed == old(delta) && delta == map[] && data == old(data)
    {
      flushed := delta;
      delta := map[];
    }
  }

  // ---- changes and their replay ------------------------------------------------------------------

  datatype Change = SetKey(key: string, value: Json) | RemoveKey(key: string) | ClearAll

  /** Data and pending delta after a change. */
  function Noted(s: (Data, Delta), c: Change): (Data, Delta) {
    match c
    case SetKey(key, value) => (s.0[key := value], s.1[key := Some(value)])
    case RemoveKey(key) => if key in s.0 then (s.0 - {key}, s.1[key := None]) else s
    case ClearAll => (map[], s.1 + map k | k in s.0 :: None)
  }

  /** Applying one delta to a map. */
  function Applied(data: Data, delta: Delta): Data {
    map k | k in data.Keys + delta.Keys && !(k in delta && delta[k].None?) ::
      if k in delta then delta[k].value else data[k]
  }

  /** Key by key: a delta sets what it has a value for, removes what it has none for, and leaves the rest. */
  lemma AppliedAt(data: Data, delta: Delta, k: string)
    ensures At(Applied(data, delta), k) == if k in delta then delta[k] else At(data, k)
  {
  }

  /** Deltas are applied one after the other. */
  lemma {:induction false} ReplayConcat(data: Data, a: seq<Delta>, b: seq<Delta>, delta: Delta)
    ensures Replay(data, []) == data && Replay(data, [delta]) == Applied(data, delta)
    ensures Replay(data, a + b) == Replay(Replay(data, a), b)
    decreases |b|
  {
    assert [delta][..0] == [];
    if b == [] {
      assert a + b == a;
    } else {
      var init, last := b[..|b| - 1], b[|b| - 1];
      assert (a + b)[..|a + b| - 1] == a + init && (a + b)[|a + b| - 1] == last;
      ReplayConcat(data, a, init, delta);
    }
  }

  /** Applying deltas in order. */
  function Replay(data: Data, deltas: seq<Delta>): Data {
    if deltas == [] then data else Applied(Replay(data, deltas[..|deltas| - 1]), deltas[|deltas| - 1])
  }

  lemma ReplaySnoc(data: Data, deltas: seq<Delta>, delta: Delta)
    ensures Replay(data, deltas + [delta]) == Applied(Replay(data, deltas), delta)
  {
    assert (deltas + [delta])[..|deltas|] == deltas;
  }

  /** A change recorded in the delta is a change of what the delta replays to. */
  lemma ChangeIsRecorded(base: Data, s: (Data, Delta), c: Change)
    requires Applied(base, s.1) == s.0
    ensures Applied(base, Noted(s, c).1) == Noted(s, c).0
  {
    var after := Noted(s, c);
    assert forall k :: k in Applied(base, s.1) <==> k in s.0;
    assert Applied(base, after.1).Keys == after.0.Keys;
  }

  // ---- baselines ------------------------------------------------------------------------------------------

  function At(data: Data, k: string): Option<Json> {
    if k in data then Some(data[k]) else None
  }

  predicate Mentioned(deltas: seq<Delta>, k: string) {
    exists i :: 0 <= i < |deltas| && k in deltas[i]
  }

  /** What a key ends as depends on the start only if no delta mentions it. */
  lemma {:induction false} ReplayAt(a: Data, b: Data, deltas: seq<Delta>, k: string)
    ensures !Mentioned(deltas, k) ==> At(Replay(a, deltas), k) == At(a, k)
    ensures Mentioned(deltas, k) ==> At(Replay(a, deltas), k) == At(Replay(b, deltas), k)
  {
    if deltas != [] {
      var init, last := deltas[..|deltas| - 1], deltas[|deltas| - 1];
      ReplayAt(a, b, init, k);
      if Mentioned(deltas, k) && k !in last {
        var i :| 0 <= i < |deltas| && k in deltas[i];
        assert k in init[i];
      }
      if Mentioned(init, k) {
        var i :| 0 <= i < |init| && k in init[i];
        assert k in deltas[i];
      }
      if k in last { assert k in deltas[|deltas| - 1]; }
    }
  }

  /** The start under which the log still tells the whole story after a baseline is layered in. */
  function Rebased(origin: Data, data: Data, baseline: Data): Data {
    origin + (baseline - data.Keys)
  }

  /** No key the baseline would add has ever been changed by the log. */
  ghost predicate Unmentioned(data: Data, baseline: Data, deltas: seq<Delta>) {
    forall k :: k in baseline && k !in data ==> !Mentioned(deltas, k)
  }

  /** After a baseline some start replays to the data exactly when no key it added was ever changed:
      a recorded removal would take the baseline's value away again. */
  lemma BaselineIsReplayableIff(origin: Data, data: Data, baseline: Data, deltas: seq<Delta>)
    requires Replay(origin, deltas) == data
    ensures Unmentioned(data, baseline, deltas) ==> Replay(Rebased(origin, data, baseline), deltas) == baseline + data
    ensures (exists start :: Replay(start, deltas) == baseline + data) <==> Unmentioned(data, baseline, deltas)
  {
    if Unmentioned(data, baseline, deltas) {
      var start := Rebased(origin, data, baseline);
      var result := Replay(start, deltas);
      forall k ensures At(result, k) == At(baseline + data, k) {
        ReplayAt(start, origin, deltas, k);
        ReplayAt(origin, start, deltas, k);
      }
      SameEverywhere(result, baseline + data);
    }
    forall start, k | Replay(start, deltas) == baseline + data && k in baseline && k !in data ensures !Mentioned(deltas, k) {
      ReplayAt(start, origin, deltas, k);
      assert At(baseline + data, k).Some? && At(data, k).None?;
    }
  }

  lemma SameEverywhere(a: Data, b: Data)
    requires forall k :: At(a, k) == At(b, k)
    ensures a == b
  {
    forall k ensures (k in a <==> k in b) && (k in a ==> a[k] == b[k]) {
      assert At(a, k) == At(b, k);
    }
  }

  /** Within one flush interval the only obstacle is a pending removal of a baseline key. */
  lemma PendingRemovalIsTheObstacle(checkpoint: Data, data: Data, delta: Delta, baseline: Data)
    requires Applied(checkpoint, delta) == data
    ensures (exists start :: Applied(start, delta) == baseline + data) <==> forall k :: k in baseline && k in delta ==> delta[k].Some?
  {
    assert [delta][..0] == [];
    assert forall start :: Replay(start, [delta]) == Applied(start, delta) by {
      forall start ensures Replay(start, [delta]) == Applied(start, delta) {
        ReplaySnoc(start, [], delta);
        assert [] + [delta] == [delta];
      }
    }
    BaselineIsReplayableIff(checkpoint, data, baseline, [delta]);
    forall k ensures Mentioned([delta], k) <==> k in delta {
      assert [delta][0] == delta;
    }
    forall k | k in delta ensures k !in data <==> delta[k].None? {
      assert k in Applied(checkpoint, delta) <==> delta[k].Some?;
    }
    assert Unmentioned(data, baseline, [delta]) <==> forall k :: k in baseline && k in delta ==> delta[k].Some?;
  }

  // ---- whole runs ---------------------------------------------------------------------------------------------

  datatype Action = Do(change: Change) | Flush | Layer(baseline: Data)

  /** A run's data, pending delta, the deltas flushed so far, and the start they are to be replayed on. */
  datatype Session = Session(origin: Data, flushed: seq<Delta>, data: Data, delta: Delta)

  function Run(start: Data, actions: seq<Action>): Session {
    if actions == [] then Session(start, [], start, map[])
    else
      Acted(Run(start, actions[..|actions| - 1]), actions[|actions| - 1])
  }

  function Acted(s: Session, action: Action): Session {
    match action
    case Do(change) =>
      var (data, delta) := Noted((s.data, s.delta), change);
      s.(data := data, delta := delta)
    case Flush => s.(flushed := s.flushed + [s.delta], delta := map[])
    case Layer(baseline) => s.(origin := Rebased(s.origin, s.data, baseline), data := baseline + s.data)
  }

  /** The flushed deltas, then the pending one, rebuild the data from the start. */
  predicate Replays(s: Session) {
    Replay(s.origin, s.flushed + [s.delta]) == s.data
  }

  lemma ActionKeepsReplay(s: Session, action: Action)
    requires Replays(s)
    requires action.Layer? ==> Unmentioned(s.data, action.baseline, s.flushed + [s.delta])
    ensures Replays(Acted(s, action))
  {
    match action
    case Do(change) =>
      ReplaySnoc(s.origin, s.flushed, s.delta);
      ChangeIsRecorded(Replay(s.origin, s.flushed), (s.data, s.delta), change);
      ReplaySnoc(s.origin, s.flushed, Noted((s.data, s.delta), change).1);
    case Flush =>
      ReplaySnoc(s.origin, s.flushed + [s.delta], map[]);
      assert Applied(s.data, map[]) == s.data;
    case Layer(baseline) =>
      BaselineIsReplayableIff(s.origin, s.data, baseline, s.flushed + [s.delta]);
  }

  /** Every baseline was layered in while none of the keys it added had been changed. */
  ghost predicate BaselinesFit(start: Data, actions: seq<Action>) {
    actions == [] ||
    var init, last := actions[..|actions| - 1], actions[|actions| - 1];
    && BaselinesFit(start, init)
    && (last.Layer? ==>
          var s := Run(start, init);
          Unmentioned(s.data, last.baseline, s.flushed + [s.delta]))
  }

  /** Over any run the flushed deltas in order, then the pending one, rebuild the current data, from
      the initial data when no baseline was layered in. */
  lemma {:induction false} DeltasReplayToData(start: Data, actions: seq<Action>)
    requires BaselinesFit(start, actions)
    ensures Replays(Run(start, actions))
    ensures (forall i :: 0 <= i < |actions| ==> !actions[i].Layer?) ==> Run(start, actions).origin == start
  {
    if actions == [] {
      NothingReplays(start);
    } else {
      var init, last := actions[..|actions| - 1], actions[|actions| - 1];
      DeltasReplayToData(start, init);
      ActionKeepsReplay(Run(start, init), last);
    }
  }

  lemma NothingReplays(start: Data)
    ensures Replays(Session(start, [], start, map[]))
  {
    var none: Delta := map[];
    ReplaySnoc(start, [], none);
    assert [] + [none] == [none] && Applied(start, none) == start;
  }

  lemma RunSnoc(start: Data, actions: seq<Action>, action: Action)
    ensures Run(start, actions + [action]) == Acted(Run(start, actions), action)
  {
    assert (actions + [action])[..|actions|] == actions;
  }

  lemma SetThenRemoved(k: string, v: Json)
    ensures Acted(Session(map[], [], map[], map[]), Do(SetKey(k, v))) == Session(map[], [], map[k := v], map[k := Some(v)])
    ensures Acted(Session(map[], [], map[k := v], map[k := Some(v)]), Do(RemoveKey(k))) == Session(map[], [], map[], map[k := None])
  {
  }

  /** Setting a key, removing it, and layering in a baseline that has it: the data then has the key, but
      the removal recorded takes it away again from every start. */
  lemma BaselineMayBreakReplay(k: string, v: Json, v': Json) returns (actions: seq<Action>)
    ensures actions == [Do(SetKey(k, v)), Do(RemoveKey(k)), Layer(map[k := v'])]
    ensures var s := Run(map[], actions);
            && s.data == map[k := v']
            && forall start :: Replay(start, s.flushed + [s.delta]) != s.data
  {
    actions := [] + [Do(SetKey(k, v))] + [Do(RemoveKey(k))] + [Layer(map[k := v'])];
    RunSnoc(map[], [], Do(SetKey(k, v)));
    RunSnoc(map[], [] + [Do(SetKey(k, v))], Do(RemoveKey(k)));
    RunSnoc(map[], [] + [Do(SetKey(k, v))] + [Do(RemoveKey(k))], Layer(map[k := v']));
    SetThenRemoved(k, v);
    LayeredBack(k, v');
  }

  lemma LayeredBack(k: string, v: Json)
    ensures var s := Acted(Session(map[], [], map[], map[k := None]), Layer(map[k := v]));
            && s.data == map[k := v]
            && forall start :: Replay(start, s.flushed + [s.delta]) != s.data
  {
    var s := Acted(Session(map[], [], map[], map[k := None]), Layer(map[k := v]));
    forall start ensures Replay(start, s.flushed + [s.delta]) != s.data {
      ReplaySnoc(start, s.flushed, s.delta);
      assert k !in Applied(Replay(start, s.flushed), s.delta) && k in s.data;
    }
  }
}
