/** Plugins, their registry, and the order they run in. */
module Plugins {
  /** A tool as its author wrote it; `body` stands for what it does. */
  datatype InnerTool = InnerTool(name: string, body: nat)

  /** Policies and event observers are opaque; numbers tell them apart. */
  datatype Plugin = Plugin(
    name: string,
    priority: int,
    preTurn: seq<nat>,
    preDispatch: seq<nat>,
    postTurn: seq<nat>,
    postLoop: seq<nat>,
    tools: seq<InnerTool>)

  ghost predicate DistinctNames(plugins: seq<Plugin>) {
    forall i, j :: 0 <= i < j < |plugins| ==> plugins[i].name != plugins[j].name
  }

  // ---- priority order ----------------------------------------------------------------------------

  function InsertByPriority(p: Plugin, plugins: seq<Plugin>): seq<Plugin> {
    if plugins == [] || p.priority >= plugins[0].priority then [p] + plugins
    else [plugins[0]] + InsertByPriority(p, plugins[1..])
  }

  /** Highest priority first; among equals the order they came in. */
  function SortByPriority(plugins: seq<Plugin>): seq<Plugin> {
    if plugins == [] then [] else InsertByPriority(plugins[0], SortByPriority(plugins[1..]))
  }

  ghost predicate Descending(plugins: seq<Plugin>) {
    forall i, j :: 0 <= i < j < |plugins| ==> plugins[i].priority >= plugins[j].priority
  }

  /** The plugins of one priority, in order. */
  function Class(plugins: seq<Plugin>, priority: int): seq<Plugin> {
    if plugins == [] then []
    else if plugins[0].priority == priority then [plugins[0]] + Class(plugins[1..], priority)
    else Class(plugins[1..], priority)
  }

  lemma {:induction false} InsertKeepsOrder(p: Plugin, plugins: seq<Plugin>)
    requires Descending(plugins)
    ensures var r := InsertByPriority(p, plugins);
            && Descending(r)
            && |r| == |plugins| + 1
            && (forall x :: x in r <==> x == p || x in plugins)
            && forall q :: Class(r, q) == if q == p.priority then [p] + Class(plugins, q) else Class(plugins, q)
  {
    if plugins != [] && p.priority < plugins[0].priority {
      var rest := InsertByPriority(p, plugins[1..]);
      InsertKeepsOrder(p, plugins[1..]);
      assert plugins == [plugins[0]] + plugins[1..];
      forall j | 0 <= j < |rest| ensures plugins[0].priority >= rest[j].priority {
        assert rest[j] in rest;
      }
      EmptyClass(plugins, p.priority);
    }
  }

  /** A descending list has no plugin of a priority above its first. */
  lemma {:induction false} EmptyClass(plugins: seq<Plugin>, q: int)
    requires Descending(plugins)
    ensures (plugins != [] && plugins[0].priority < q) ==> Class(plugins, q) == []
  {
    if plugins != [] && plugins[0].priority < q {
      EmptyClass(plugins[1..], q);
    }
  }

  /** The sort orders by priority, loses and adds nothing, and keeps the order among equals. */
  lemma {:induction false} SortIsStable(plugins: seq<Plugin>)
    ensures Descending(SortByPriority(plugins))
    ensures |SortByPriority(plugins)| == |plugins|
    ensures forall x :: x in SortByPriority(plugins) <==> x in plugins
    ensures forall q :: Class(SortByPriority(plugins), q) == Class(plugins, q)
  {
    if plugins != [] {
      SortIsStable(plugins[1..]);
      InsertKeepsOrder(plugins[0], SortByPriority(plugins[1..]));
      assert plugins == [plugins[0]] + plugins[1..];
    }
  }

  /** Those properties leave only one result. */
  lemma {:induction false} StableOrderIsUnique(a: seq<Plugin>, b: seq<Plugin>)
    requires Descending(a) && Descending(b)
    requires forall q :: Class(a, q) == Class(b, q)
    ensures a == b
    decreases |a|
  {
    assert b != [] ==> Class(b, b[0].priority) != [] && Class(a, b[0].priority) != [];
    if a != [] {
      var q := a[0].priority;
      assert Class(a, q) != [] && Class(b, q) == Class(a, q);
      assert b != [];
      EmptyClass(b, q);
      EmptyClass(a, b[0].priority);
      assert Class(b, b[0].priority) != [];
      assert a[0] == Class(a, q)[0] == Class(b, q)[0] == b[0];
      forall r ensures Class(a[1..], r) == Class(b[1..], r) {
        assert Class(a, r) == Class(b, r);
        if r == q {
          assert Class(a[1..], r) == Class(a, r)[1..] && Class(b[1..], r) == Class(b, r)[1..];
        }
      }
      StableOrderIsUnique(a[1..], b[1..]);
      assert a == [a[0]] + a[1..] && b == [b[0]] + b[1..];
    }
  }

  // ---- the registry --------------------------------------------------------------------------------

  /** The registry after registering `p`: it replaces its namesake in place, or goes last. */
  function Inserted(plugins: seq<Plugin>, p: Plugin): seq<Plugin> {
    if plugins == [] then [p]
    else if plugins[0].name == p.name then [p] + plugins[1..]
    else [plugins[0]] + Inserted(plugins[1..], p)
  }

  lemma {:induction false} InsertedAt(plugins: seq<Plugin>, p: Plugin, pos: nat)
    requires pos <= |plugins| && forall i :: 0 <= i < pos ==> plugins[i].name != p.name
    requires pos < |plugins| ==> plugins[pos].name == p.name
    ensures Inserted(plugins, p) == if pos < |plugins| then plugins[pos := p] else plugins + [p]
    decreases pos
  {
    if pos > 0 {
      InsertedAt(plugins[1..], p, pos - 1);
      assert plugins == [plugins[0]] + plugins[1..];
    }
  }

  /** Registering keeps names distinct, registers the plugin, and keeps every plugin of another name. */
  lemma {:induction false} InsertedKeepsNames(plugins: seq<Plugin>, p: Plugin)
    requires DistinctNames(plugins)
    ensures DistinctNames(Inserted(plugins, p))
    ensures forall x :: x in Inserted(plugins, p) <==> x == p || (x in plugins && x.name != p.name)
  {
    if plugins != [] {
      var rest := plugins[1..];
      assert plugins == [plugins[0]] + rest;
      if plugins[0].name == p.name {
        assert forall x :: x in rest ==> x.name != p.name;
      } else {
        InsertedKeepsNames(rest, p);
        var r := Inserted(rest, p);
        forall j | 0 <= j < |r| ensures plugins[0].name != r[j].name {
          assert r[j] in r;
        }
      }
    }
  }

  class PluginRegistry {
    var plugins: seq<Plugin>

    constructor ()
      ensures plugins == []
    {
      plugins := [];
    }

    method Register(plugin: Plugin)
      modifies this
      ensures plugins == Inserted(old(plugins), plugin)
      ensures old(DistinctNames(plugins)) ==> DistinctNames(plugins)
    {
      var pos := 0;
      while pos < |plugins| && plugins[pos].name != plugin.name
        invariant 0 <= pos <= |plugins| && forall i :: 0 <= i < pos ==> plugins[i].name != plugin.name
      {
        pos := pos + 1;
      }
      InsertedAt(plugins, plugin, pos);
      if DistinctNames(plugins) {
        InsertedKeepsNames(plugins, plugin);
      }
      if pos < |plugins| {
        plugins := plugins[pos := plugin];
      } else {
        plugins := plugins + [plugin];
      }
    }

    method List() returns (sorted: seq<Plugin>)
      ensures Descending(sorted)
      ensures forall q :: Class(sorted, q) == Class(plugins, q)
    {
      sorted := SortByPriority(plugins);
      SortIsStable(plugins);
    }
  }
}
