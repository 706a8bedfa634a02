/** Merging plugin contributions into an agent's options: order, names and the retry loop. */
module PluginMerge {
  import opened Wrappers
  import opened Plugins
  import opened Sequences

  datatype Tool = Direct(tool: InnerTool) | Namespaced(prefixedName: string, plugin: string, inner: InnerTool)

  function NameOf(t: Tool): string {
    if t.Direct? then t.tool.name else t.prefixedName
  }

  /** How names are made: composing plugin and tool name, and the candidates tried, attempt by attempt,
      when the composed name is taken. The hash inside is not modelled. */
  datatype Naming = Naming(compose: (string, string) -> string, candidate: (string, string, string, nat) -> string)

  ghost function NameSet(tools: seq<Tool>): set<string> {
    set i | 0 <= i < |tools| :: NameOf(tools[i])
  }

  ghost predicate DistinctToolNames(tools: seq<Tool>) {
    forall i, j :: 0 <= i < j < |tools| ==> NameOf(tools[i]) != NameOf(tools[j])
  }

  // ---- the retry loop --------------------------------------------------------------------------------

  /** A search for a free name: the candidates tried for one tool whose composed name is taken. */
  datatype Search = Search(naming: Naming, base: string, plugin: string, raw: string) {
    function Candidate(attempt: nat): string {
      naming.candidate(base, plugin, raw, attempt)
    }
  }

  function SearchFor(naming: Naming, plugin: string, raw: string): Search {
    Search(naming, naming.compose(plugin, raw), plugin, raw)
  }

  /** Over this many attempts and one more, this search tries no candidate twice. */
  ghost predicate Fresh(search: Search, window: nat) {
    forall i: nat, j: nat :: i < j <= window ==> search.Candidate(i) != search.Candidate(j)
  }

  /** Attempt `k` is the first whose candidate is not a name already given to a plugin tool, or is one
      a direct tool owns. */
  ghost predicate FirstFree(search: Search, direct: set<string>, taken: set<string>, k: nat) {
    && (forall j: nat :: j < k ==> search.Candidate(j) in taken && search.Candidate(j) !in direct)
    && (search.Candidate(k) in direct || search.Candidate(k) !in taken)
  }

  /** Distinct candidates that are all taken are no more than the taken names. */
  lemma {:induction false} Pigeonhole(search: Search, taken: set<string>, from: nat, attempts: nat)
    requires forall i: nat, j: nat :: from <= i < j < from + attempts ==> search.Candidate(i) != search.Candidate(j)
    requires forall i: nat :: from <= i < from + attempts ==> search.Candidate(i) in taken
    ensures attempts <= |taken|
    decreases attempts
  {
    if attempts > 0 {
      Pigeonhole(search, taken - {search.Candidate(from + attempts - 1)}, from, attempts - 1);
    }
  }

  /** Not every candidate is a plugin tool's name that no direct tool owns. */
  ghost predicate Ends(search: Search, direct: set<string>, taken: set<string>) {
    !(forall j: nat :: search.Candidate(j) in taken && search.Candidate(j) !in direct)
  }

  /** The search stops at some attempt exactly when it is not the case that every candidate is a plugin
      tool's name that no direct tool owns; otherwise the retry loop runs forever. */
  lemma SearchEndsExactlyWhen(search: Search, direct: set<string>, taken: set<string>)
    ensures (exists k: nat :: FirstFree(search, direct, taken, k)) <==> Ends(search, direct, taken)
  {
    if Ends(search, direct, taken) {
      var j: nat :| !(search.Candidate(j) in taken && search.Candidate(j) !in direct);
      var k := LeastFree(search, direct, taken, 0, j);
    }
  }

  lemma {:induction false} LeastFree(search: Search, direct: set<string>, taken: set<string>, from: nat, bound: nat) returns (k: nat)
    requires from <= bound && !(search.Candidate(bound) in taken && search.Candidate(bound) !in direct)
    requires forall j: nat :: j < from ==> search.Candidate(j) in taken && search.Candidate(j) !in direct
    ensures FirstFree(search, direct, taken, k)
    decreases bound - from
  {
    k := from;
    if search.Candidate(from) in taken && search.Candidate(from) !in direct {
      k := LeastFree(search, direct, taken, from + 1, bound);
    }
  }

  /** A search with more attempts in a row that try different names than there are taken names ends by
      the last of them. */
  lemma WindowEnds(search: Search, direct: set<string>, taken: set<string>, from: nat, attempts: nat) returns (k: nat)
    requires forall i: nat, j: nat :: from <= i < j < from + attempts ==> search.Candidate(i) != search.Candidate(j)
    requires attempts > |taken|
    ensures Ends(search, direct, taken)
    ensures k < from + attempts && FirstFree(search, direct, taken, k)
  {
    if forall j: nat :: from <= j < from + attempts ==> search.Candidate(j) in taken {
      Pigeonhole(search, taken, from, attempts);
    }
    var j: nat :| from <= j < from + attempts && search.Candidate(j) !in taken;
    k := LeastFree(search, direct, taken, 0, j);
  }

  /** A search that tries no candidate twice ends within one more attempt than there are taken names. */
  lemma FreshEndsSoon(search: Search, direct: set<string>, taken: set<string>) returns (k: nat)
    requires Fresh(search, |taken|)
    ensures Ends(search, direct, taken)
    ensures k <= |taken| && FirstFree(search, direct, taken, k)
  {
    k := WindowEnds(search, direct, taken, 0, |taken| + 1);
  }

  lemma FirstFreeIsOne(search: Search, direct: set<string>, taken: set<string>, j: nat, k: nat)
    requires FirstFree(search, direct, taken, j) && FirstFree(search, direct, taken, k)
    ensures j == k
  {
  }

  /** The retry loop, for every search that ends. It stops at the first candidate that is free or a direct
      tool's; None when a direct tool owns it. With fresh candidates it makes at most one more attempt
      than there are taken names. */
  method Disambiguate(search: Search, direct: set<string>, taken: set<string>)
    returns (name: Option<string>, attempt: nat)
    requires Ends(search, direct, taken)
    ensures FirstFree(search, direct, taken, attempt)
    ensures name == if search.Candidate(attempt) in direct then None else Some(search.Candidate(attempt))
    ensures Fresh(search, |taken|) ==> attempt <= |taken|
  {
    SearchEndsExactlyWhen(search, direct, taken);
    ghost var last: nat :| FirstFree(search, direct, taken, last);
    if Fresh(search, |taken|) {
      ghost var k := FreshEndsSoon(search, direct, taken);
      FirstFreeIsOne(search, direct, taken, k, last);
    }
    attempt := 0;
    while true
      invariant attempt <= last
      invariant forall j: nat :: j < attempt ==> search.Candidate(j) in taken && search.Candidate(j) !in direct
      decreases last - attempt
    {
      var candidate := search.Candidate(attempt);
      if candidate in direct {
        return None, attempt;
      }
      if candidate !in taken {
        return Some(candidate), attempt;
      }
      attempt := attempt + 1;
    }
  }

  // ---- which tools get in, and under which name --------------------------------------------------------

  /** The name a plugin tool ends up with, given the names in use; None when a direct tool keeps it out. */
  ghost function Resolved(naming: Naming, plugin: string, raw: string, direct: set<string>, taken: set<string>): Option<string> {
    var search := SearchFor(naming, plugin, raw);
    if search.base in direct then None
    else if search.base !in taken then Some(search.base)
    else if exists k: nat :: FirstFree(search, direct, taken, k) then
      var k: nat :| FirstFree(search, direct, taken, k);
      if search.Candidate(k) in direct then None else Some(search.Candidate(k))
    else None
  }

  /** The plugin tools in the order they are offered, each with its plugin. */
  function Offers(plugins: seq<Plugin>): seq<(string, InnerTool)> {
    if plugins == [] then []
    else
      var last := plugins[|plugins| - 1];
      Offers(plugins[..|plugins| - 1]) + OffersOf(last, |last.tools|)
  }

  /** The first `n` of one plugin's tools. */
  function OffersOf(plugin: Plugin, n: nat): seq<(string, InnerTool)>
    requires n <= |plugin.tools|
  {
    seq(n, i requires 0 <= i < n => (plugin.name, plugin.tools[i]))
  }

  /** The plugin tools accepted, in order, under their final names. */
  ghost function Accepted(naming: Naming, direct: set<string>, offers: seq<(string, InnerTool)>): seq<Tool> {
    AcceptedUpTo(naming, direct, offers, |offers|)
  }

  /** Those among the first `n` offers. */
  ghost function AcceptedUpTo(naming: Naming, direct: set<string>, offers: seq<(string, InnerTool)>, n: nat): seq<Tool>
    requires n <= |offers|
  {
    if n == 0 then []
    else
      var before := AcceptedUpTo(naming, direct, offers, n - 1);
      var (plugin, inner) := offers[n - 1];
      match Resolved(naming, plugin, inner.name, direct, NameSet(before))
      case None => before
      case Some(name) => before + [Namespaced(name, plugin, inner)]
  }

  lemma {:induction false} AcceptedIsNoLonger(naming: Naming, direct: set<string>, offers: seq<(string, InnerTool)>, n: nat)
    requires n <= |offers|
    ensures |AcceptedUpTo(naming, direct, offers, n)| <= n
  {
    if n > 0 {
      AcceptedIsNoLonger(naming, direct, offers, n - 1);
    }
  }

  lemma {:induction false} NameSetSize(tools: seq<Tool>)
    ensures |NameSet(tools)| <= |tools|
  {
    if tools != [] {
      var init, last := tools[..|tools| - 1], tools[|tools| - 1];
      NameSetSize(init);
      assert NameSet(tools) == NameSet(init) + {NameOf(last)};
    }
  }

  /** Accepted tools have names of their own, none of them a direct tool's. */
  lemma AcceptedNamesAreFree(naming: Naming, direct: set<string>, offers: seq<(string, InnerTool)>)
    ensures var tools := Accepted(naming, direct, offers);
            && DistinctToolNames(tools)
            && forall i :: 0 <= i < |tools| ==> NameOf(tools[i]) !in direct
  {
    FirstNamesAreFree(naming, direct, offers, |offers|);
  }

  lemma {:induction false} FirstNamesAreFree(naming: Naming, direct: set<string>, offers: seq<(string, InnerTool)>, n: nat)
    requires n <= |offers|
    ensures var tools := AcceptedUpTo(naming, direct, offers, n);
            && DistinctToolNames(tools)
            && forall i :: 0 <= i < |tools| ==> NameOf(tools[i]) !in direct
  {
    if n > 0 {
      FirstNamesAreFree(naming, direct, offers, n - 1);
      var before := AcceptedUpTo(naming, direct, offers, n - 1);
      assert forall i :: 0 <= i < |before| ==> NameOf(before[i]) in NameSet(before);
    }
  }

  /** The composed name is another plugin tool's, and no direct tool's: the retry loop runs. */
  predicate Retries(search: Search, direct: set<string>, taken: set<string>) {
    search.base !in direct && search.base in taken
  }

  /** Whenever the search ends, a tool is turned away only for a name a direct tool owns: its composed
      name, or the first candidate no plugin tool has. */
  lemma TurnedAwayOnlyForDirect(naming: Naming, plugin: string, raw: string, direct: set<string>, taken: set<string>)
    returns (search: Search, k: nat)
    requires Retries(SearchFor(naming, plugin, raw), direct, taken) ==> Ends(SearchFor(naming, plugin, raw), direct, taken)
    ensures search == SearchFor(naming, plugin, raw)
    ensures Retries(search, direct, taken) ==> FirstFree(search, direct, taken, k)
    ensures Resolved(naming, plugin, raw, direct, taken) == None <==>
            search.base in direct || (search.base in taken && search.Candidate(k) in direct)
    ensures Resolved(naming, plugin, raw, direct, taken).Some? ==>
              Resolved(naming, plugin, raw, direct, taken).value == if search.base in taken then search.Candidate(k) else search.base
  {
    search, k := SearchFor(naming, plugin, raw), 0;
    if Retries(search, direct, taken) {
      SearchEndsExactlyWhen(search, direct, taken);
      k :| FirstFree(search, direct, taken, k);
      forall j: nat | FirstFree(search, direct, taken, j) ensures j == k {
        FirstFreeIsOne(search, direct, taken, j, k);
      }
    }
  }

  function SearchOf(naming: Naming, offer: (string, InnerTool)): Search {
    SearchFor(naming, offer.0, offer.1.name)
  }

  /** If the retry loop runs for this tool, it ends. */
  ghost predicate OfferEnds(naming: Naming, direct: set<string>, offer: (string, InnerTool), taken: set<string>) {
    Retries(SearchOf(naming, offer), direct, taken) ==> Ends(SearchOf(naming, offer), direct, taken)
  }

  /** Every retry loop the offers lead to ends. */
  ghost predicate OffersEnd(naming: Naming, direct: set<string>, offers: seq<(string, InnerTool)>) {
    OffersEndUpTo(naming, direct, offers, |offers|)
  }

  ghost predicate OffersEndUpTo(naming: Naming, direct: set<string>, offers: seq<(string, InnerTool)>, n: nat)
    requires n <= |offers|
  {
    n == 0 ||
    (OffersEndUpTo(naming, direct, offers, n - 1)
     && OfferEnds(naming, direct, offers[n - 1], NameSet(AcceptedUpTo(naming, direct, offers, n - 1))))
  }

  lemma {:induction false} OfferEndsAt(naming: Naming, direct: set<string>, offers: seq<(string, InnerTool)>, i: nat, n: nat)
    requires i < n <= |offers| && OffersEndUpTo(naming, direct, offers, n)
    ensures OfferEnds(naming, direct, offers[i], NameSet(AcceptedUpTo(naming, direct, offers, i)))
  {
    if i < n - 1 {
      OfferEndsAt(naming, direct, offers, i, n - 1);
    }
  }

  /** The search for each tool offered tries no candidate twice within as many attempts as there are
      tools offered before it, and one more. */
  ghost predicate FreshOffers(naming: Naming, offers: seq<(string, InnerTool)>) {
    forall i :: 0 <= i < |offers| ==> Fresh(SearchOf(naming, offers[i]), i)
  }

  /** With candidates fresh for the tools offered every retry loop ends, whatever names direct tools have. */
  lemma FreshOffersEnd(naming: Naming, direct: set<string>, offers: seq<(string, InnerTool)>)
    requires FreshOffers(naming, offers)
    ensures OffersEnd(naming, direct, offers)
  {
    FreshOffersEndUpTo(naming, direct, offers, |offers|);
  }

  lemma {:induction false} FreshOffersEndUpTo(naming: Naming, direct: set<string>, offers: seq<(string, InnerTool)>, n: nat)
    requires n <= |offers| && FreshOffers(naming, offers)
    ensures OffersEndUpTo(naming, direct, offers, n)
  {
    if n > 0 {
      var before := AcceptedUpTo(naming, direct, offers, n - 1);
      FreshOffersEndUpTo(naming, direct, offers, n - 1);
      AcceptedIsNoLonger(naming, direct, offers, n - 1);
      NameSetSize(before);
      assert Fresh(SearchOf(naming, offers[n - 1]), n - 1);
      var k := FreshEndsSoon(SearchOf(naming, offers[n - 1]), direct, NameSet(before));
    }
  }

  /** With a naming whose candidates are all one name, a second plugin tool is enough for a retry loop
      that never ends. */
  lemma StuckNamingNeverEnds(plugin: string, tool: InnerTool, name: string)
    ensures var naming := Naming((p, raw) => name, (base, p, raw, k) => name);
            !OffersEnd(naming, {}, [(plugin, tool), (plugin, tool)])
  {
    var naming := Naming((p, raw) => name, (base, p, raw, k) => name);
    var offers := [(plugin, tool), (plugin, tool)];
    var first := AcceptedUpTo(naming, {}, offers, 1);
    assert AcceptedUpTo(naming, {}, offers, 0) == [] && NameSet([]) == {};
    assert first == [Namespaced(name, plugin, tool)];
    assert NameOf(first[0]) in NameSet(first);
    assert forall j: nat :: SearchOf(naming, offers[1]).Candidate(j) == name;
    assert !OffersEndUpTo(naming, {}, offers, 2);
  }

  // ---- the merge -------------------------------------------------------------------------------------------

  datatype Forwarder = OwnForwarder(id: nat) | PluginForwarder(plugin: string)

  /** The options the merge reads and rewrites. */
  datatype Options = Options(
    plugins: seq<Plugin>,
    preTurn: seq<nat>,
    preDispatch: seq<nat>,
    postTurn: seq<nat>,
    postLoop: seq<nat>,
    tools: seq<Tool>,
    forwarders: seq<Forwarder>)

  /** What all plugins contribute to one slot, plugin after plugin. */
  function Gathered(plugins: seq<Plugin>, slot: Slot): seq<nat> {
    if plugins == [] then [] else Gathered(plugins[..|plugins| - 1], slot) + PoliciesOf(plugins[|plugins| - 1], slot)
  }

  datatype Slot = PreTurn | PreDispatch | PostTurn | PostLoop

  function PoliciesOf(p: Plugin, slot: Slot): seq<nat> {
    match slot
    case PreTurn => p.preTurn
    case PreDispatch => p.preDispatch
    case PostTurn => p.postTurn
    case PostLoop => p.postLoop
  }

  function Forwarders(plugins: seq<Plugin>): seq<Forwarder> {
    seq(|plugins|, i requires 0 <= i < |plugins| => PluginForwarder(plugins[i].name))
  }

  ghost function Merged(naming: Naming, o: Options): Options {
    var plugins := SortByPriority(o.plugins);
    Options(
      plugins,
      Gathered(plugins, PreTurn) + o.preTurn,
      Gathered(plugins, PreDispatch) + o.preDispatch,
      Gathered(plugins, PostTurn) + o.postTurn,
      Gathered(plugins, PostLoop) + o.postLoop,
      o.tools + Accepted(naming, NameSet(o.tools), Offers(plugins)),
      Forwarders(plugins) + o.forwarders)
  }

  class AgentOptions {
    var plugins: seq<Plugin>
    var preTurn: seq<nat>
    var preDispatch: seq<nat>
    var postTurn: seq<nat>
    var postLoop: seq<nat>
    var tools: seq<Tool>
    var forwarders: seq<Forwarder>

    ghost function Value(): Options
      reads this
    {
      Options(plugins, preTurn, preDispatch, postTurn, postLoop, tools, forwarders)
    }

    constructor (o: Options)
      ensures Value() == o
    {
      plugins, preTurn, preDispatch, postTurn, postLoop := o.plugins, o.preTurn, o.preDispatch, o.postTurn, o.postLoop;
      tools, forwarders := o.tools, o.forwarders;
    }

    /** Sorts the plugins and merges what they contribute, whenever every retry loop it runs ends;
        `FreshOffersEnd` says that they do when candidates are fresh. */
    method MergePluginContributions(naming: Naming)
      requires OffersEnd(naming, NameSet(tools), Offers(SortByPriority(plugins)))
      modifies this
      ensures Value() == Merged(naming, old(Value()))
    {
      plugins := SortByPriority(plugins);
      var direct := set i | 0 <= i < |tools| :: NameOf(tools[i]);
      var turn, dispatch, after, end, pluginForwarders := CollectPolicies(plugins);
      var pluginTools := CollectTools(naming, direct, plugins);
      preTurn, preDispatch, postTurn, postLoop := turn + preTurn, dispatch + preDispatch, after + postTurn, end + postLoop;
      tools := tools + pluginTools;
      forwarders := pluginForwarders + forwarders;
    }
  }

  /** The policies and event observers of the merge's loop over plugins. */
  method CollectPolicies(plugins: seq<Plugin>)
    returns (turn: seq<nat>, dispatch: seq<nat>, after: seq<nat>, end: seq<nat>, forwarders: seq<Forwarder>)
    ensures turn == Gathered(plugins, PreTurn) && dispatch == Gathered(plugins, PreDispatch)
    ensures after == Gathered(plugins, PostTurn) && end == Gathered(plugins, PostLoop)
    ensures forwarders == Forwarders(plugins)
  {
    turn, dispatch, after, end, forwarders := [], [], [], [], [];
    for i := 0 to |plugins|
      invariant turn == Gathered(plugins[..i], PreTurn) && dispatch == Gathered(plugins[..i], PreDispatch)
      invariant after == Gathered(plugins[..i], PostTurn) && end == Gathered(plugins[..i], PostLoop)
      invariant forwarders == Forwarders(plugins[..i])
    {
      assert plugins[..i + 1][..i] == plugins[..i];
      turn, dispatch := turn + plugins[i].preTurn, dispatch + plugins[i].preDispatch;
      after, end := after + plugins[i].postTurn, end + plugins[i].postLoop;
      forwarders := forwarders + [PluginForwarder(plugins[i].name)];
    }
    assert plugins[..|plugins|] == plugins;
  }

  /** The tools of the merge's loop over plugins. */
  method CollectTools(naming: Naming, direct: set<string>, plugins: seq<Plugin>) returns (tools: seq<Tool>)
    requires OffersEnd(naming, direct, Offers(plugins))
    ensures tools == Accepted(naming, direct, Offers(plugins))
  {
    ghost var offers := Offers(plugins);
    ghost var n := 0;
    tools := [];
    for i := 0 to |plugins|
      invariant n == |Offers(plugins[..i])| <= |offers|
      invariant tools == AcceptedUpTo(naming, direct, offers, n)
    {
      OffersGrow(plugins, i);
      tools := OfferTools(naming, direct, plugins[i], tools, offers, n);
      n := n + |plugins[i].tools|;
    }
    assert plugins[..|plugins|] == plugins;
  }

  /** Where the tools of plugin `i` stand among all tools offered. */
  lemma {:induction false} OffersGrow(plugins: seq<Plugin>, i: nat)
    requires i < |plugins|
    ensures var n, tools := |Offers(plugins[..i])|, plugins[i].tools;
            && |Offers(plugins[..i + 1])| == n + |tools| <= |Offers(plugins)|
            && forall k :: 0 <= k < |tools| ==> Offers(plugins)[n + k] == (plugins[i].name, tools[k])
    decreases |plugins|
  {
    assert plugins[..i + 1][..i] == plugins[..i];
    if i == |plugins| - 1 {
      assert plugins[..i + 1] == plugins;
    } else {
      var init := plugins[..|plugins| - 1];
      assert init[..i + 1] == plugins[..i + 1] && init[..i] == plugins[..i];
      OffersGrow(init, i);
    }
  }

  /** Offering one plugin's tools, which stand at `from` among all offers, after those before them. */
  method OfferTools(naming: Naming, direct: set<string>, plugin: Plugin, before: seq<Tool>, ghost offers: seq<(string, InnerTool)>, ghost from: nat)
    returns (tools: seq<Tool>)
    requires from + |plugin.tools| <= |offers| && OffersEnd(naming, direct, offers)
    requires forall k :: 0 <= k < |plugin.tools| ==> offers[from + k] == (plugin.name, plugin.tools[k])
    requires before == AcceptedUpTo(naming, direct, offers, from)
    ensures tools == AcceptedUpTo(naming, direct, offers, from + |plugin.tools|)
  {
    tools := before;
    for i := 0 to |plugin.tools|
      invariant tools == AcceptedUpTo(naming, direct, offers, from + i)
    {
      OfferEndsAt(naming, direct, offers, from + i, |offers|);
      var name := ResolveName(naming, plugin.name, plugin.tools[i].name, direct, tools);
      if name.Some? {
        tools := tools + [Namespaced(name.value, plugin.name, plugin.tools[i])];
      }
    }
  }

  method ResolveName(naming: Naming, plugin: string, raw: string, direct: set<string>, tools: seq<Tool>) returns (name: Option<string>)
    requires Retries(SearchFor(naming, plugin, raw), direct, NameSet(tools)) ==>
               Ends(SearchFor(naming, plugin, raw), direct, NameSet(tools))
    ensures name == Resolved(naming, plugin, raw, direct, NameSet(tools))
  {
    var base := naming.compose(plugin, raw);
    var taken := set i | 0 <= i < |tools| :: NameOf(tools[i]);
    if base in direct {
      return None;
    }
    if base !in taken {
      return Some(base);
    }
    var attempt;
    name, attempt := Disambiguate(SearchFor(naming, plugin, raw), direct, taken);
    ghost var search, k := TurnedAwayOnlyForDirect(naming, plugin, raw, direct, taken);
    FirstFreeIsOne(search, direct, taken, attempt, k);
  }

  /** The uniqueness assertion: true exactly when no two tools share a name. */
  method AssertUniqueToolNames(tools: seq<Tool>) returns (unique: bool)
    ensures unique <==> DistinctToolNames(tools)
  {
    var seen: set<string> := {};
    unique := true;
    for i := 0 to |tools|
      invariant seen == NameSet(tools[..i])
      invariant unique <==> DistinctToolNames(tools[..i])
    {
      var name := NameOf(tools[i]);
      assert tools[..i + 1][..i] == tools[..i] && tools[..i + 1][i] == tools[i];
      NameSetSnoc(tools[..i], tools[i]);
      assert tools[..i + 1] == tools[..i] + [tools[i]];
      if name in seen {
        unique := false;
      }
      seen := seen + {name};
    }
    assert tools[..|tools|] == tools;
  }

  lemma NameSetSnoc(tools: seq<Tool>, t: Tool)
    ensures NameSet(tools + [t]) == NameSet(tools) + {NameOf(t)}
    ensures DistinctToolNames(tools + [t]) <==> DistinctToolNames(tools) && NameOf(t) !in NameSet(tools)
  {
    var longer := tools + [t];
    assert longer[|tools|] == t;
    assert forall i :: 0 <= i < |tools| ==> longer[i] == tools[i];
  }

  /** After a merge the direct tools are a verbatim prefix, the plugin tools' names are distinct and
      none is a direct tool's, and the uniqueness assertion passes exactly when the direct names were
      already distinct. */
  lemma MergeIsCollisionFree(naming: Naming, o: Options)
    ensures var merged, n := Merged(naming, o), |o.tools|;
            && o.tools <= merged.tools
            && DistinctToolNames(merged.tools[n..])
            && (forall i :: n <= i < |merged.tools| ==> NameOf(merged.tools[i]) !in NameSet(o.tools))
            && (DistinctToolNames(merged.tools) <==> DistinctToolNames(o.tools))
  {
    var direct := NameSet(o.tools);
    var added := Accepted(naming, direct, Offers(SortByPriority(o.plugins)));
    AcceptedNamesAreFree(naming, direct, Offers(SortByPriority(o.plugins)));
    var all := o.tools + added;
    assert all[|o.tools|..] == added;
    assert forall i :: 0 <= i < |o.tools| ==> all[i] == o.tools[i] && NameOf(o.tools[i]) in direct;
    assert forall i :: |o.tools| <= i < |all| ==> all[i] == added[i - |o.tools|];
  }

  /** No name the search for this tool comes to is a direct tool's. */
  ghost predicate ClearOf(search: Search, direct: set<string>, taken: set<string>) {
    && search.base !in direct
    && (search.base in taken ==> forall k: nat :: FirstFree(search, direct, taken, k) ==> search.Candidate(k) !in direct)
  }

  /** The first `n` offers are clear of direct tools' names. */
  ghost predicate AllClear(naming: Naming, direct: set<string>, offers: seq<(string, InnerTool)>, n: nat)
    requires n <= |offers|
  {
    n == 0 ||
    (AllClear(naming, direct, offers, n - 1)
     && ClearOf(SearchOf(naming, offers[n - 1]), direct, NameSet(AcceptedUpTo(naming, direct, offers, n - 1))))
  }

  /** One tool for each of the first `n` offers, in order. */
  ghost predicate AllIn(tools: seq<Tool>, offers: seq<(string, InnerTool)>, n: nat)
    requires n <= |offers|
  {
    && |tools| == n
    && forall i :: 0 <= i < n ==> tools[i].Namespaced? && tools[i].plugin == offers[i].0 && tools[i].inner == offers[i].1
  }

  lemma ClearIffResolved(naming: Naming, offer: (string, InnerTool), direct: set<string>, taken: set<string>)
    requires Retries(SearchOf(naming, offer), direct, taken) ==> Ends(SearchOf(naming, offer), direct, taken)
    ensures ClearOf(SearchOf(naming, offer), direct, taken) <==> Resolved(naming, offer.0, offer.1.name, direct, taken).Some?
  {
    var search, k := TurnedAwayOnlyForDirect(naming, offer.0, offer.1.name, direct, taken);
    forall j: nat | Retries(search, direct, taken) && FirstFree(search, direct, taken, j) ensures j == k {
      FirstFreeIsOne(search, direct, taken, j, k);
    }
  }

  /** Every plugin tool gets in, in order, exactly when no direct tool owns a name the tools come to. */
  lemma NoneTurnedAwayIff(naming: Naming, direct: set<string>, offers: seq<(string, InnerTool)>)
    requires OffersEnd(naming, direct, offers)
    ensures AllIn(Accepted(naming, direct, offers), offers, |offers|) <==> AllClear(naming, direct, offers, |offers|)
  {
    FirstTurnedAwayIff(naming, direct, offers, |offers|);
  }

  lemma {:induction false} FirstTurnedAwayIff(naming: Naming, direct: set<string>, offers: seq<(string, InnerTool)>, n: nat)
    requires n <= |offers| && OffersEndUpTo(naming, direct, offers, n)
    ensures AllIn(AcceptedUpTo(naming, direct, offers, n), offers, n) <==> AllClear(naming, direct, offers, n)
  {
    if n > 0 {
      var before, offer := AcceptedUpTo(naming, direct, offers, n - 1), offers[n - 1];
      FirstTurnedAwayIff(naming, direct, offers, n - 1);
      AcceptedIsNoLonger(naming, direct, offers, n - 1);
      ClearIffResolved(naming, offer, direct, NameSet(before));
      var name := Resolved(naming, offer.0, offer.1.name, direct, NameSet(before));
      if name.Some? {
        AllInSnoc(before, offers, n - 1, name.value);
      }
    }
  }

  lemma AllInSnoc(tools: seq<Tool>, offers: seq<(string, InnerTool)>, n: nat, name: string)
    requires n < |offers|
    ensures AllIn(tools + [Namespaced(name, offers[n].0, offers[n].1)], offers, n + 1) <==> AllIn(tools, offers, n)
  {
    var longer := tools + [Namespaced(name, offers[n].0, offers[n].1)];
    assert forall i :: 0 <= i < |tools| ==> longer[i] == tools[i];
  }

  function SlotOf(o: Options, slot: Slot): seq<nat> {
    match slot
    case PreTurn => o.preTurn
    case PreDispatch => o.preDispatch
    case PostTurn => o.postTurn
    case PostLoop => o.postLoop
  }

  lemma {:induction false} GatheredConcat(a: seq<Plugin>, b: seq<Plugin>, slot: Slot)
    ensures Gathered(a + b, slot) == Gathered(a, slot) + Gathered(b, slot)
  {
    if b == [] {
      assert a + b == a;
    } else {
      var init, last := b[..|b| - 1], b[|b| - 1];
      assert (a + b)[..|a + b| - 1] == a + init && (a + b)[|a + b| - 1] == last;
      GatheredConcat(a, init, slot);
      Reassociate(Gathered(a, slot), Gathered(init, slot), PoliciesOf(last, slot));
    }
  }

  /** In every slot the policies of plugins come before the agent's own, and those of a plugin before
      those of any plugin of lower priority. */
  lemma PoliciesRunByPriority(naming: Naming, o: Options, slot: Slot, i: nat)
    requires i <= |o.plugins|
    ensures var sorted := Merged(naming, o).plugins;
            && |sorted| == |o.plugins|
            && (forall x, y :: x in sorted[..i] && y in sorted[i..] ==> x.priority >= y.priority)
            && SlotOf(Merged(naming, o), slot) == Gathered(sorted[..i], slot) + Gathered(sorted[i..], slot) + SlotOf(o, slot)
  {
    var sorted := SortByPriority(o.plugins);
    SortIsStable(o.plugins);
    assert sorted == sorted[..i] + sorted[i..];
    GatheredConcat(sorted[..i], sorted[i..], slot);
  }

  // ---- the merge, plugin by plugin ------------------------------------------------------------------------

  lemma GatheredOne(p: Plugin, slot: Slot)
    ensures Gathered([p], slot) == PoliciesOf(p, slot)
  {
    assert [p][..0] == [];
  }

  /** What plugins contribute to a slot is cut by any plugin into what precedes it, its own, and the rest. */
  lemma GatheredAt(plugins: seq<Plugin>, i: nat, slot: Slot)
    requires i < |plugins|
    ensures Gathered(plugins, slot) == Gathered(plugins[..i], slot) + (PoliciesOf(plugins[i], slot) + Gathered(plugins[i + 1..], slot))
  {
    assert plugins == plugins[..i] + ([plugins[i]] + plugins[i + 1..]);
    GatheredConcat(plugins[..i], [plugins[i]] + plugins[i + 1..], slot);
    GatheredConcat([plugins[i]], plugins[i + 1..], slot);
    GatheredOne(plugins[i], slot);
  }

  /** In `whole`, `own` stands right after `before` and `last` at the end. */
  predicate Stands<T(==)>(whole: seq<T>, before: seq<T>, own: seq<T>, last: seq<T>) {
    && |before| + |own| + |last| <= |whole|
    && whole[..|before|] == before
    && whole[|before|..|before| + |own|] == own
    && whole[|whole| - |last|..] == last
  }

  lemma StandsIn<T>(before: seq<T>, own: seq<T>, after: seq<T>, last: seq<T>)
    ensures Stands(before + (own + after) + last, before, own, last)
  {
  }

  /** Each plugin's policies stand in their slots after those of the plugins before it, and the agent's
      own stand at the end. */
  lemma PoliciesStand(naming: Naming, o: Options, i: nat)
    requires i < |Merged(naming, o).plugins|
    ensures var merged := Merged(naming, o);
            var p, before := merged.plugins[i], merged.plugins[..i];
            && Stands(merged.preTurn, Gathered(before, PreTurn), p.preTurn, o.preTurn)
            && Stands(merged.preDispatch, Gathered(before, PreDispatch), p.preDispatch, o.preDispatch)
            && Stands(merged.postTurn, Gathered(before, PostTurn), p.postTurn, o.postTurn)
            && Stands(merged.postLoop, Gathered(before, PostLoop), p.postLoop, o.postLoop)
  {
    var plugins := SortByPriority(o.plugins);
    forall slot ensures SlotStands(o, plugins, i, slot) {
      GatheredAt(plugins, i, slot);
      StandsIn(Gathered(plugins[..i], slot), PoliciesOf(plugins[i], slot), Gathered(plugins[i + 1..], slot), SlotOf(o, slot));
    }
    assert SlotStands(o, plugins, i, PreTurn) && SlotStands(o, plugins, i, PreDispatch) && SlotStands(o, plugins, i, PostTurn) && SlotStands(o, plugins, i, PostLoop);
  }

  predicate SlotStands(o: Options, plugins: seq<Plugin>, i: nat, slot: Slot)
    requires i < |plugins|
  {
    Stands(Gathered(plugins, slot) + SlotOf(o, slot), Gathered(plugins[..i], slot), PoliciesOf(plugins[i], slot), SlotOf(o, slot))
  }

  /** One plugin more adds its policies to each slot. */
  lemma {:induction false} GatheredGrows(plugins: seq<Plugin>)
    ensures |Gathered([], PreTurn)| == |Gathered([], PreDispatch)| == |Gathered([], PostTurn)| == |Gathered([], PostLoop)| == 0
    ensures plugins != [] ==>
              var init, p := plugins[..|plugins| - 1], plugins[|plugins| - 1];
              && Gathered(plugins, PreTurn) == Gathered(init, PreTurn) + p.preTurn
              && Gathered(plugins, PreDispatch) == Gathered(init, PreDispatch) + p.preDispatch
              && Gathered(plugins, PostTurn) == Gathered(init, PostTurn) + p.postTurn
              && Gathered(plugins, PostLoop) == Gathered(init, PostLoop) + p.postLoop
  {
  }

  /** The first forwarders are one per plugin, in the order they run, and the agent's own follow. */
  lemma ForwardersStand(naming: Naming, o: Options)
    ensures var merged := Merged(naming, o);
            && |merged.forwarders| == |o.plugins| + |o.forwarders|
            && (forall i :: 0 <= i < |o.plugins| ==> merged.forwarders[i] == PluginForwarder(merged.plugins[i].name))
            && merged.forwarders[|o.plugins|..] == o.forwarders
  {
    SortIsStable(o.plugins);
  }

  /** The plugins of the merge are those of the options by descending priority, equals in their order. */
  lemma MergedPluginsAre(naming: Naming, o: Options)
    ensures Descending(Merged(naming, o).plugins) && |Merged(naming, o).plugins| == |o.plugins|
    ensures forall x :: x in Merged(naming, o).plugins <==> x in o.plugins
    ensures forall q :: Class(Merged(naming, o).plugins, q) == Class(o.plugins, q)
  {
    SortIsStable(o.plugins);
  }

  /** Tools are offered plugin after plugin, each with its plugin's name. */
  lemma OffersAre(plugins: seq<Plugin>, i: nat, k: nat)
    requires i < |plugins| && k < |plugins[i].tools|
    ensures |Offers([])| == 0
    ensures |Offers(plugins[..i + 1])| == |Offers(plugins[..i])| + |plugins[i].tools|
    ensures |Offers(plugins[..i])| + k < |Offers(plugins)|
    ensures Offers(plugins)[|Offers(plugins[..i])| + k] == (plugins[i].name, plugins[i].tools[k])
  {
    OffersGrow(plugins, i);
  }

  /** The assertion after composition compares the names that callers see: a direct tool's own and a
      plugin tool's final one. */
  lemma NamesAreSeen(tools: seq<Tool>)
    ensures DistinctToolNames(tools) <==>
            forall i, j :: 0 <= i < j < |tools| ==>
              (if tools[i].Direct? then tools[i].tool.name else tools[i].prefixedName) !=
              (if tools[j].Direct? then tools[j].tool.name else tools[j].prefixedName)
  {
  }
}
