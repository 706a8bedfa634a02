/** The sliding-window transformer: a budget for each mode and an anchor taken from two sources. */
module ContextTransformer {
  import opened Wrappers
  import opened Messages
  import opened Context
  import opened ContextLaws

  class SlidingWindowTransformer {
    const normalBudget: nat
    const overflowBudget: nat
    const anchor: nat
    const count: Counter
    var builderPrefix: nat
    var publishedPrefix: nat

    constructor (normalBudget: nat, overflowBudget: nat, anchor: nat, count: Counter)
      ensures this.normalBudget == normalBudget && this.overflowBudget == overflowBudget
      ensures this.anchor == anchor && this.count == count
      ensures builderPrefix == 0 && publishedPrefix == 0
    {
      this.normalBudget, this.overflowBudget, this.anchor, this.count := normalBudget, overflowBudget, anchor, count;
      builderPrefix, publishedPrefix := 0, 0;
    }

    function CachedPrefixLen(): (len: nat)
      reads this
      ensures publishedPrefix == 0 ==> len == builderPrefix
      ensures publishedPrefix != 0 ==> len == publishedPrefix
    {
      if publishedPrefix > 0 then publishedPrefix else builderPrefix
    }

    function Budget(overflow: bool): nat {
      if overflow then overflowBudget else normalBudget
    }

    function EffectiveAnchor(): (a: nat)
      reads this
      ensures publishedPrefix > 0 ==> a == if anchor < publishedPrefix then publishedPrefix else anchor
      ensures publishedPrefix == 0 ==> a == if anchor < builderPrefix then builderPrefix else anchor
    {
      Max(anchor, CachedPrefixLen())
    }

    method SetCachedPrefixLen(len: nat)
      modifies this`builderPrefix
      ensures builderPrefix == len
    {
      builderPrefix := len;
    }

    method PublishCachedPrefix(len: nat)
      modifies this`publishedPrefix
      ensures publishedPrefix == len
    {
      publishedPrefix := len;
    }

    method Transform(log: History, overflow: bool) returns (report: Option<CompactionReport>)
      modifies log
      ensures (log.messages, report) == Compacted(count, old(log.messages), Budget(overflow), EffectiveAnchor(), overflow)
      ensures overflow ==> (log.messages, report) == Compacted(count, old(log.messages), overflowBudget, EffectiveAnchor(), true)
      ensures !overflow ==> (log.messages, report) == Compacted(count, old(log.messages), normalBudget, EffectiveAnchor(), false)
    {
      var budget := if overflow then overflowBudget else normalBudget;
      var prefix := CachedPrefixLen();
      OverflowOnlyMarks(count, log.messages, budget, Max(anchor, prefix), overflow);
      report := CompactSlidingWindowWith(log, budget, Max(anchor, prefix), count);
      if report.Some? {
        report := Some(report.value.(overflow := overflow));
      }
    }
  }

  /** Overflow mode keeps no message that normal mode drops, whenever its budget is no larger. */
  lemma OverflowKeepsLess(t: SlidingWindowTransformer, messages: seq<AgentMessage>, i: nat)
    requires t.overflowBudget <= t.normalBudget
    requires KeptPosition(messages, CutOf(t.count, messages, t.Budget(true), t.EffectiveAnchor()), i)
    ensures KeptPosition(messages, CutOf(t.count, messages, t.Budget(false), t.EffectiveAnchor()), i)
  {
    CompactionIsMonotone(t.count, messages, t.overflowBudget, t.normalBudget, t.EffectiveAnchor(), i);
  }

  /** Both the configured anchor and the cached prefix are protected in either mode. */
  lemma PrefixIsProtected(t: SlidingWindowTransformer, messages: seq<AgentMessage>, overflow: bool, i: nat)
    requires i < |messages| && (i < t.anchor || i < t.CachedPrefixLen())
    ensures var kept := Kept(messages, CutOf(t.count, messages, t.Budget(overflow), t.EffectiveAnchor()));
            i < |kept| && kept[i] == messages[i]
  {
    var cut := CutOf(t.count, messages, t.Budget(overflow), t.EffectiveAnchor());
    if cut.Some? {
      ProtectedStays(t.count, messages, t.Budget(overflow), t.EffectiveAnchor(), overflow);
      var n := Min(t.EffectiveAnchor(), |messages|);
      assert Kept(messages, cut)[..n][i] == messages[..n][i];
    }
  }
}
