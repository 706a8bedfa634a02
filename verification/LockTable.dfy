/** The global table of per-path locks: weak entries, reference counts, and pruning. */
module LockTable {
  type Path = string

  /** A mutex is named by the order of its allocation. */
  type MutexId = nat

  const PRUNE_THRESHOLD := 64

  /** `entries` are weak references; `strong` counts the references callers hold to each mutex. */
  datatype Table = Table(entries: map<Path, MutexId>, strong: map<MutexId, nat>, next: MutexId)

  const EMPTY := Table(map[], map[], 0)

  /** Entries name allocated mutexes, every allocated mutex has a count, and no two paths share one. */
  ghost predicate TableOk(t: Table) {
    && (forall m: MutexId :: m in t.strong <==> m < t.next)
    && (forall p :: p in t.entries ==> t.entries[p] < t.next)
    && (forall p, q :: p in t.entries && q in t.entries && t.entries[p] == t.entries[q] ==> p == q)
  }

  /** The mutexes somebody holds a reference to. */
  ghost function Live(t: Table): set<MutexId> {
    set m | m in t.strong && t.strong[m] > 0
  }

  /** The references held to a mutex. */
  function Refs(t: Table, m: MutexId): nat {
    if m in t.strong then t.strong[m] else 0
  }

  function Pruned(t: Table): Table {
    t.(entries := map p | p in t.entries && Refs(t, t.entries[p]) > 0 :: t.entries[p])
  }

  /** Pruning visits the entries one by one; this is the visit of one of them. */
  function PrunedAt(t: Table, p: Path): (r: Table)
    ensures TableOk(t) ==> TableOk(r)
  {
    if p in t.entries && Refs(t, t.entries[p]) == 0 then t.(entries := t.entries - {p}) else t
  }

  /** Sharing the live mutex of a path, or making a new one. */
  function Found(t: Table, target: Path): (r: (Table, MutexId))
    ensures TableOk(t) ==> TableOk(r.0)
  {
    if target in t.entries && Refs(t, t.entries[target]) > 0 then
      var m := t.entries[target];
      (t.(strong := t.strong[m := Refs(t, m) + 1]), m)
    else
      (Table(t.entries[target := t.next], t.strong[t.next := 1], t.next + 1), t.next)
  }

  /** Looking a path up without interruption: prune if the table is full, then share or make a mutex. */
  function Lookup(t: Table, target: Path): (r: (Table, MutexId))
    ensures TableOk(t) ==> TableOk(r.0)
  {
    Found(if |t.entries| >= PRUNE_THRESHOLD then Pruned(t) else t, target)
  }

  /** Giving a reference back. */
  function Release(t: Table, m: MutexId): Table
    requires m in t.strong && t.strong[m] > 0
  {
    t.(strong := t.strong[m := t.strong[m] - 1])
  }

  class LockMap {
    var entries: map<Path, MutexId>
    var strong: map<MutexId, nat>
    var next: MutexId

    ghost function State(): Table
      reads this
    {
      Table(entries, strong, next)
    }

    constructor ()
      ensures State() == EMPTY
    {
      entries, strong, next := map[], map[], 0;
    }

    function StrongCount(m: MutexId): (n: nat)
      reads this
      ensures n == Refs(State(), m)
    {
      if m in strong then strong[m] else 0
    }

    method RetainLive()
      modifies this`entries
      ensures State() == Pruned(old(State()))
    {
      entries := map p | p in entries && StrongCount(entries[p]) > 0 :: entries[p];
    }

    method LockForTarget(target: Path) returns (lock: MutexId)
      modifies this
      ensures (State(), lock) == Lookup(old(State()), target)
    {
      if |entries| >= PRUNE_THRESHOLD {
        RetainLive();
      }
      if target in entries && StrongCount(entries[target]) > 0 {
        lock := entries[target];
        strong := strong[lock := strong[lock] + 1];
        return;
      }
      lock := next;
      next := next + 1;
      strong := strong[lock := 1];
      entries := entries[target := lock];
    }
  }

  // ---- the size of the table -------------------------------------------------------------------

  lemma {:induction false} InjectiveImage(entries: map<Path, MutexId>, live: set<MutexId>)
    requires forall p :: p in entries ==> entries[p] in live
    requires forall p, q :: p in entries && q in entries && entries[p] == entries[q] ==> p == q
    ensures |entries| <= |live|
    decreases |entries|
  {
    if entries != map[] {
      var p :| p in entries;
      var rest := entries - {p};
      assert entries.Keys == rest.Keys + {p};
      InjectiveImage(rest, live - {entries[p]});
    }
  }

  /** What a lookup does: the path is mapped to the mutex returned, which is the live one if there was
      one and a new one otherwise; its count goes up by one; every other live entry stays. */
  ghost predicate Looked(t: Table, target: Path, after: Table, m: MutexId)
    requires TableOk(t)
  {
    && TableOk(after)
    && target in after.entries && after.entries[target] == m
    && m == (if target in t.entries && t.strong[t.entries[target]] > 0 then t.entries[target] else t.next)
    && after.strong == t.strong[m := if m in t.strong then t.strong[m] + 1 else 1]
    && (forall p :: p in t.entries && p != target && t.strong[t.entries[p]] > 0 ==>
          p in after.entries && after.entries[p] == t.entries[p])
  }

  lemma FoundEffect(t: Table, target: Path)
    requires TableOk(t)
    ensures Looked(t, target, Found(t, target).0, Found(t, target).1)
  {
  }

  lemma LookupEffect(t: Table, target: Path)
    requires TableOk(t)
    ensures Looked(t, target, Lookup(t, target).0, Lookup(t, target).1)
  {
    FoundEffect(if |t.entries| >= PRUNE_THRESHOLD then Pruned(t) else t, target);
  }

  /** The table after the first `n` of these visits. */
  function PrunedUpTo(t: Table, order: seq<Path>, n: nat): Table
    requires n <= |order|
  {
    if n == 0 then t else PrunedAt(PrunedUpTo(t, order, n - 1), order[n - 1])
  }

  /** The entry of `p` is there and would not survive a visit. */
  predicate Dead(t: Table, p: Path) {
    p in t.entries && Refs(t, t.entries[p]) == 0
  }

  /** `after` is the table without the entries of these paths. */
  ghost predicate Lost(t: Table, after: Table, gone: set<Path>) {
    after == t.(entries := t.entries - gone)
  }

  lemma VisitLoses(t: Table, before: Table, gone: set<Path>, p: Path)
    requires Lost(t, before, gone)
    ensures Lost(t, PrunedAt(before, p), if Dead(t, p) then gone + {p} else gone)
  {
    assert t.entries - gone - {p} == t.entries - (gone + {p});
    assert Dead(t, p) && p in gone ==> gone + {p} == gone;
  }

  /** The dead paths among the first `n` visited. */
  function DeadAmong(t: Table, order: seq<Path>, n: nat): (gone: set<Path>)
    requires n <= |order|
    ensures forall p :: p in gone <==> Dead(t, p) && p in order[..n]
  {
    if n == 0 then {}
    else
      var before := DeadAmong(t, order, n - 1);
      assert order[..n] == order[..n - 1] + [order[n - 1]];
      if Dead(t, order[n - 1]) then before + {order[n - 1]} else before
  }

  lemma {:induction false} VisitsPrune(t: Table, order: seq<Path>, n: nat)
    requires n <= |order|
    ensures Lost(t, PrunedUpTo(t, order, n), DeadAmong(t, order, n))
  {
    if n == 0 {
      assert t.entries - {} == t.entries;
    } else {
      VisitsPrune(t, order, n - 1);
      VisitLoses(t, PrunedUpTo(t, order, n - 1), DeadAmong(t, order, n - 1), order[n - 1]);
    }
  }

  /** Visiting every entry, in any order, is pruning. */
  lemma VisitingAllPrunes(t: Table, order: seq<Path>)
    requires forall p :: p in t.entries ==> p in order
    ensures PrunedUpTo(t, order, |order|) == Pruned(t)
  {
    VisitsPrune(t, order, |order|);
    assert order[..|order|] == order;
    assert t.entries - DeadAmong(t, order, |order|) == Pruned(t).entries;
  }

  /** Mapping a path adds one entry, unless it has one. */
  lemma LookupAddsOne(entries: map<Path, MutexId>, target: Path, m: MutexId)
    ensures |entries[target := m]| == if target in entries then |entries| else |entries| + 1
  {
    var grown := entries[target := m];
    assert grown.Keys == if target in entries then entries.Keys else entries.Keys + {target};
    assert |grown| == |grown.Keys| && |entries| == |entries.Keys|;
  }

  /** After pruning every entry the lookup leaves is live. */
  lemma PrunedLookupIsLive(t: Table, target: Path)
    requires TableOk(t) && |t.entries| >= PRUNE_THRESHOLD
    ensures var after := Lookup(t, target).0;
            forall p :: p in after.entries ==> after.entries[p] in Live(after)
  {
  }

  /** Right after a lookup the table holds at most 64 entries, or at most one per live mutex. */
  lemma LookupBoundsTable(t: Table, target: Path)
    requires TableOk(t)
    ensures var after := Lookup(t, target).0;
            |after.entries| <= 64 || |after.entries| <= |Live(after)|
  {
    if |t.entries| >= PRUNE_THRESHOLD {
      PrunedLookupIsLive(t, target);
      var after := Lookup(t, target).0;
      InjectiveImage(after.entries, Live(after));
    } else {
      LookupAddsOne(t.entries, target, t.next);
    }
  }
}
