/** The registry of agents and their parents and children. */
module Hierarchy {
  import opened Wrappers

  datatype AgentEntry = AgentEntry(parent: Option<string>, children: seq<string>, maxRestarts: nat)

  type Entries = map<string, AgentEntry>

  /** Parent and children views agree, and no child is listed twice. */
  ghost predicate ViewsAgree(entries: Entries) {
    && (forall n :: n in entries && entries[n].parent.Some? ==>
          entries[n].parent.value in entries && n in entries[entries[n].parent.value].children)
    && (forall p, i :: p in entries && 0 <= i < |entries[p].children| ==>
          entries[p].children[i] in entries && entries[entries[p].children[i]].parent == Some(p))
    && (forall p, i, j :: p in entries && 0 <= i < j < |entries[p].children| ==> entries[p].children[i] != entries[p].children[j])
  }

  /** Following parents from `n` comes to a root within this many steps. */
  ghost predicate ReachesRoot(entries: Entries, n: string, steps: nat)
    decreases steps
  {
    n in entries &&
    (entries[n].parent.None? || (steps > 0 && ReachesRoot(entries, entries[n].parent.value, steps - 1)))
  }

  ghost predicate Forest(entries: Entries) {
    ViewsAgree(entries) && forall n :: n in entries ==> ReachesRoot(entries, n, |entries|)
  }

  datatype Registration = RootAgent(name: string) | ChildAgent(name: string, parent: string)

  /** A registration is refused, before anything changes, if the name is taken or the parent missing. */
  predicate Refused(entries: Entries, r: Registration) {
    r.name in entries || (r.ChildAgent? && r.parent !in entries)
  }

  function Registered(entries: Entries, r: Registration, maxRestarts: nat): Entries {
    if Refused(entries, r) then entries
    else if r.RootAgent? then entries[r.name := AgentEntry(None, [], maxRestarts)]
    else
      var parent := entries[r.parent];
      entries[r.parent := parent.(children := parent.children + [r.name])][r.name := AgentEntry(Some(r.parent), [], maxRestarts)]
  }

  class AgentOrchestrator {
    var entries: Entries
    var defaultMaxRestarts: nat

    constructor ()
      ensures entries == map[] && defaultMaxRestarts == 3
      ensures Forest(entries)
    {
      entries, defaultMaxRestarts := map[], 3;
    }

    method WithMaxRestarts(max: nat)
      modifies this`defaultMaxRestarts
      ensures defaultMaxRestarts == max
    {
      defaultMaxRestarts := max;
    }

    /** False stands for the panic. */
    method AddAgent(name: string) returns (ok: bool)
      requires Forest(entries)
      modifies this`entries
      ensures ok == !Refused(old(entries), RootAgent(name))
      ensures entries == Registered(old(entries), RootAgent(name), defaultMaxRestarts)
      ensures Forest(entries)
      ensures ok ==> ParentOf(name) == None && ChildrenOf(name) == Some([])
      ensures ok ==> entries == old(entries)[name := AgentEntry(None, [], defaultMaxRestarts)]
      ensures !ok ==> name in old(entries) && entries == old(entries)
    {
      RegistrationKeepsForest(entries, RootAgent(name), defaultMaxRestarts);
      if name in entries {
        return false;
      }
      entries := entries[name := AgentEntry(None, [], defaultMaxRestarts)];
      return true;
    }

    method AddChild(name: string, parent: string) returns (ok: bool)
      requires Forest(entries)
      modifies this`entries
      ensures ok == !Refused(old(entries), ChildAgent(name, parent))
      ensures entries == Registered(old(entries), ChildAgent(name, parent), defaultMaxRestarts)
      ensures Forest(entries)
      ensures ok ==> ParentOf(name) == Some(parent) && ChildrenOf(name) == Some([])
      ensures ok ==> ChildrenOf(parent) == Some(old(entries[parent].children) + [name])
      ensures ok ==> entries[name].maxRestarts == defaultMaxRestarts && entries.Keys == old(entries).Keys + {name}
      ensures ok ==> forall n :: n in old(entries) && n != parent ==> entries[n] == old(entries)[n]
      ensures ok ==> entries[parent] == old(entries)[parent].(children := old(entries)[parent].children + [name])
      ensures !ok ==> (name in old(entries) || parent !in old(entries)) && entries == old(entries)
    {
      RegistrationKeepsForest(entries, ChildAgent(name, parent), defaultMaxRestarts);
      if parent !in entries {
        return false;
      }
      if name in entries {
        return false;
      }
      var entry := entries[parent];
      entries := entries[parent := entry.(children := entry.children + [name])];
      entries := entries[name := AgentEntry(Some(parent), [], defaultMaxRestarts)];
      return true;
    }

    function ParentOf(name: string): Option<string>
      reads this
    {
      if name in entries then entries[name].parent else None
    }

    function ChildrenOf(name: string): Option<seq<string>>
      reads this
    {
      if name in entries then Some(entries[name].children) else None
    }
  }

  // ---- a forest after every registration ---------------------------------------------------------

  /** A path to a root survives registrations, which never change a parent. */
  lemma {:induction false} PathSurvives(entries: Entries, larger: Entries, n: string, steps: nat, more: nat)
    requires ReachesRoot(entries, n, steps) && steps <= more
    requires forall x :: x in entries ==> x in larger && larger[x].parent == entries[x].parent
    ensures ReachesRoot(larger, n, more)
    decreases steps
  {
    if entries[n].parent.Some? {
      PathSurvives(entries, larger, entries[n].parent.value, steps - 1, more - 1);
    }
  }

  lemma RegistrationKeepsForest(entries: Entries, r: Registration, maxRestarts: nat)
    requires Forest(entries)
    ensures Forest(Registered(entries, r, maxRestarts))
  {
    if !Refused(entries, r) {
      RegistrationKeepsViews(entries, r, maxRestarts);
      RegistrationKeepsPaths(entries, r, maxRestarts);
    }
  }

  /** A registration adds one name and changes no parent. */
  lemma RegistrationKeepsParents(entries: Entries, r: Registration, maxRestarts: nat)
    requires !Refused(entries, r)
    ensures var larger := Registered(entries, r, maxRestarts);
            && larger.Keys == entries.Keys + {r.name} && |larger| == |entries| + 1
            && (forall x :: x in entries ==> larger[x].parent == entries[x].parent)
            && larger[r.name].parent == if r.ChildAgent? then Some(r.parent) else None
  {
    var larger := Registered(entries, r, maxRestarts);
    assert larger.Keys == entries.Keys + {r.name};
    assert |larger| == |larger.Keys| && |entries| == |entries.Keys|;
  }

  lemma RegistrationKeepsPaths(entries: Entries, r: Registration, maxRestarts: nat)
    requires !Refused(entries, r) && forall n :: n in entries ==> ReachesRoot(entries, n, |entries|)
    ensures var larger := Registered(entries, r, maxRestarts);
            forall n :: n in larger ==> ReachesRoot(larger, n, |larger|)
  {
    var larger := Registered(entries, r, maxRestarts);
    RegistrationKeepsParents(entries, r, maxRestarts);
    forall n | n in larger ensures ReachesRoot(larger, n, |larger|) {
      if n in entries {
        PathSurvives(entries, larger, n, |entries|, |larger|);
      } else if r.ChildAgent? {
        PathSurvives(entries, larger, r.parent, |entries|, |larger| - 1);
      }
    }
  }

  lemma RegistrationKeepsViews(entries: Entries, r: Registration, maxRestarts: nat)
    requires ViewsAgree(entries) && !Refused(entries, r)
    ensures ViewsAgree(Registered(entries, r, maxRestarts))
  {
    var larger := Registered(entries, r, maxRestarts);
    forall p, i | p in larger && 0 <= i < |larger[p].children|
      ensures larger[p].children[i] in larger && larger[larger[p].children[i]].parent == Some(p)
    {
      if p in entries && i < |entries[p].children| {
        assert larger[p].children[i] == entries[p].children[i];
      }
    }
  }

  function Registry(regs: seq<Registration>, maxRestarts: nat): Entries {
    if regs == [] then map[] else Registered(Registry(regs[..|regs| - 1], maxRestarts), regs[|regs| - 1], maxRestarts)
  }

  /** After any run of registrations the hierarchy is a forest. */
  lemma {:induction false} EveryRegistryIsForest(regs: seq<Registration>, maxRestarts: nat)
    ensures Forest(Registry(regs, maxRestarts))
  {
    if regs != [] {
      EveryRegistryIsForest(regs[..|regs| - 1], maxRestarts);
      RegistrationKeepsForest(Registry(regs[..|regs| - 1], maxRestarts), regs[|regs| - 1], maxRestarts);
    }
  }

  // ---- what a forest gives ----------------------------------------------------------------------------

  /** The ancestor `k` parents up, if the chain is that long. */
  function Ancestor(entries: Entries, n: string, k: nat): Option<string>
    decreases k
  {
    if k == 0 then Some(n)
    else if n in entries && entries[n].parent.Some? then Ancestor(entries, entries[n].parent.value, k - 1)
    else None
  }

  /** A chain of parents within its bound never comes back to where it started. */
  lemma {:induction false} NoWayBack(entries: Entries, n: string, k: nat, steps: nat)
    requires k > 0 && ReachesRoot(entries, n, steps)
    ensures Ancestor(entries, n, k) != Some(n)
    decreases steps
  {
    if Ancestor(entries, n, k) == Some(n) {
      var parent := entries[n].parent.value;
      AncestorStep(entries, parent, k - 1, n);
      NoWayBack(entries, parent, k, steps - 1);
    }
  }

  /** Going up `k` and once more is going up `k + 1`. */
  lemma {:induction false} AncestorStep(entries: Entries, n: string, k: nat, top: string)
    requires Ancestor(entries, n, k) == Some(top) && top in entries && entries[top].parent.Some?
    ensures Ancestor(entries, n, k + 1) == entries[top].parent
    decreases k
  {
    if k > 0 {
      AncestorStep(entries, entries[n].parent.value, k - 1, top);
    }
  }

  /** In a forest no agent is its own ancestor, and each agent is a child of exactly the parent it
      names, listed there exactly once. */
  lemma ForestIsTreeShaped(entries: Entries, n: string, p: string)
    requires Forest(entries) && n in entries && p in entries
    ensures forall k: nat :: k > 0 ==> Ancestor(entries, n, k) != Some(n)
    ensures entries[n].parent == Some(p) <==> n in entries[p].children
    ensures forall i, j :: (0 <= i < |entries[p].children| && 0 <= j < |entries[p].children|
                            && entries[p].children[i] == n && entries[p].children[j] == n) ==> i == j
  {
    forall k: nat | k > 0 ensures Ancestor(entries, n, k) != Some(n) {
      NoWayBack(entries, n, k, |entries|);
    }
  }
}
