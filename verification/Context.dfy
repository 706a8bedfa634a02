/** Sliding-window compaction of a conversation. */
module Context {
  import opened Wrappers
  import opened Messages

  /** A token counter is any function of a message. */
  type Counter = AgentMessage -> nat

  function Tokens(count: Counter, messages: seq<AgentMessage>): nat {
    TokensUpTo(count, messages, |messages|)
  }

  /** The tokens of the first `n` messages. */
  function TokensUpTo(count: Counter, messages: seq<AgentMessage>, n: nat): nat
    requires n <= |messages|
  {
    if n == 0 then 0 else TokensUpTo(count, messages, n - 1) + count(messages[n - 1])
  }

  predicate IsToolResult(messages: seq<AgentMessage>, i: nat) {
    i < |messages| && messages[i].Llm? && messages[i].llm.ToolResult?
  }

  /** The ids of the tool calls in a list of blocks. */
  function CallIds(blocks: seq<ContentBlock>): seq<string> {
    if blocks == [] then []
    else if blocks[0].ToolCall? then [blocks[0].id] + CallIds(blocks[1..])
    else CallIds(blocks[1..])
  }

  /** The ids an assistant message calls; empty for every other message. */
  function ToolCallIds(message: AgentMessage): seq<string> {
    if message.Llm? && message.llm.Assistant? then CallIds(message.llm.message.content) else []
  }

  predicate Answers(messages: seq<AgentMessage>, i: nat, ids: seq<string>) {
    IsToolResult(messages, i) && messages[i].llm.toolCallId in ids
  }

  /** The message before the run of tool results that ends at `i`; `i` itself if it is none. */
  function RunHead(messages: seq<AgentMessage>, i: nat): (head: Option<nat>)
    requires i < |messages|
    ensures head.Some? ==> head.value <= i && !IsToolResult(messages, head.value)
    ensures head.Some? ==> forall k :: head.value < k <= i ==> IsToolResult(messages, k)
    ensures head.None? ==> forall k :: 0 <= k <= i ==> IsToolResult(messages, k)
  {
    if !IsToolResult(messages, i) then Some(i)
    else if i == 0 then None
    else RunHead(messages, i - 1)
  }

  /** Where the results answering `ids` that start at `from` end. */
  function GroupEnd(messages: seq<AgentMessage>, ids: seq<string>, from: nat): (end: nat)
    requires from <= |messages|
    ensures from <= end <= |messages|
    ensures forall k :: from <= k < end ==> Answers(messages, k, ids)
    ensures !Answers(messages, end, ids)
    decreases |messages| - from
  {
    if Answers(messages, from, ids) then GroupEnd(messages, ids, from + 1) else from
  }

  function Max(a: nat, b: nat): (m: nat)
    ensures m >= a && m >= b && (m == a || m == b)
  {
    if a < b then b else a
  }

  function Min(a: nat, b: nat): (m: nat)
    ensures m <= a && m <= b && (m == a || m == b)
  {
    if a < b then a else b
  }

  /** Subtraction that stops at zero. */
  function Minus(a: nat, b: nat): (d: nat)
    ensures a >= b ==> d + b == a
    ensures a < b ==> d == 0
  {
    if a < b then 0 else a - b
  }

  /** The anchor moved forward past the results of the tool call it would cut. */
  function ExtendedAnchor(messages: seq<AgentMessage>, anchor: nat): (e: nat)
    ensures anchor <= e
    ensures anchor <= |messages| ==> e <= |messages|
  {
    if anchor == 0 || anchor >= |messages| then anchor
    else
      var head := RunHead(messages, anchor - 1);
      if head.None? then anchor
      else
        var ids := ToolCallIds(messages[head.value]);
        if ids == [] then anchor else Max(anchor, GroupEnd(messages, ids, head.value + 1))
  }

  /** The start of the longest suffix, from `from` on, that fits the budget. */
  function LongestTail(count: Counter, messages: seq<AgentMessage>, from: nat, budget: nat): (t: nat)
    requires from <= |messages|
    ensures from <= t <= |messages|
    decreases |messages| - from
  {
    if from == |messages| || Tokens(count, messages[from..]) <= budget then from
    else LongestTail(count, messages, from + 1, budget)
  }

  /** The tail start moved back to the message its leading tool results belong to. */
  function BackToCall(messages: seq<AgentMessage>, floor: nat, start: nat): (t: nat)
    requires floor <= start <= |messages|
    ensures floor <= t <= start
    ensures t == floor || t == |messages| || !IsToolResult(messages, t)
    ensures forall k :: t < k <= start && start < |messages| ==> IsToolResult(messages, k)
    ensures start == |messages| ==> t == start
  {
    if start > floor && start < |messages| && IsToolResult(messages, start) then BackToCall(messages, floor, start - 1) else start
  }

  /** What compaction keeps: everything before `end` and everything from `tail` on. */
  datatype Cut = Cut(end: nat, tail: nat)

  /** Where the tail would start before it is adjusted for tool groups. */
  function FittingTail(count: Counter, messages: seq<AgentMessage>, budget: nat, anchor: nat): (t: nat)
    ensures ExtendedAnchor(messages, Min(anchor, |messages|)) <= t <= |messages|
  {
    var end := ExtendedAnchor(messages, Min(anchor, |messages|));
    LongestTail(count, messages, end, Minus(budget, Tokens(count, messages[..end])))
  }

  /** The cut compaction makes, if it drops anything. */
  function CutOf(count: Counter, messages: seq<AgentMessage>, budget: nat, anchor: nat): (cut: Option<Cut>)
    ensures cut.Some? ==> cut.value.end < cut.value.tail <= |messages|
    ensures cut.Some? ==> Min(anchor, |messages|) <= cut.value.end
  {
    if Tokens(count, messages) <= budget then None
    else
      var end := ExtendedAnchor(messages, Min(anchor, |messages|));
      var tail := BackToCall(messages, end, FittingTail(count, messages, budget, anchor));
      if tail <= end then None else Some(Cut(end, tail))
  }

  function Kept(messages: seq<AgentMessage>, cut: Option<Cut>): seq<AgentMessage>
    requires cut.Some? ==> cut.value.end <= cut.value.tail <= |messages|
  {
    if cut.None? then messages else messages[..cut.value.end] + messages[cut.value.tail..]
  }

  /** The LLM messages of a slice, in order; custom messages are left out. */
  function LlmOnly(messages: seq<AgentMessage>): seq<LlmMessage> {
    LlmUpTo(messages, |messages|)
  }

  function LlmUpTo(messages: seq<AgentMessage>, n: nat): seq<LlmMessage>
    requires n <= |messages|
  {
    if n == 0 then []
    else
      var before, last := LlmUpTo(messages, n - 1), messages[n - 1];
      if last.Llm? then before + [last.llm] else before
  }

  datatype CompactionReport = CompactionReport(
    droppedCount: nat, tokensBefore: nat, tokensAfter: nat, overflow: bool, droppedMessages: seq<LlmMessage>)

  function ReportOf(count: Counter, messages: seq<AgentMessage>, cut: Cut, overflow: bool): CompactionReport
    requires cut.end <= cut.tail <= |messages|
  {
    CompactionReport(cut.tail - cut.end, Tokens(count, messages), Tokens(count, Kept(messages, Some(cut))),
                     overflow, LlmOnly(messages[cut.end..cut.tail]))
  }

  /** What a compaction pass leaves and what it reports. */
  function Compacted(count: Counter, messages: seq<AgentMessage>, budget: nat, anchor: nat, overflow: bool)
    : (seq<AgentMessage>, Option<CompactionReport>)
  {
    var cut := CutOf(count, messages, budget, anchor);
    (Kept(messages, cut), if cut.None? then None else Some(ReportOf(count, messages, cut.value, overflow)))
  }

  /** The overflow flag only marks the report. */
  lemma OverflowOnlyMarks(count: Counter, messages: seq<AgentMessage>, budget: nat, anchor: nat, overflow: bool)
    ensures var (kept, report) := Compacted(count, messages, budget, anchor, false);
            Compacted(count, messages, budget, anchor, overflow) ==
            (kept, if report.None? then None else Some(report.value.(overflow := overflow)))
  {
  }

  /** The conversation a transformer edits in place. */
  class History {
    var messages: seq<AgentMessage>

    constructor ()
      ensures messages == []
    {
      messages := [];
    }
  }

  lemma {:induction false} TokensOfPrefix(count: Counter, a: seq<AgentMessage>, b: seq<AgentMessage>, n: nat)
    requires n <= |a|
    ensures TokensUpTo(count, a + b, n) == TokensUpTo(count, a, n)
  {
    if n > 0 {
      TokensOfPrefix(count, a, b, n - 1);
    }
  }

  lemma {:induction false} TokensBeyond(count: Counter, a: seq<AgentMessage>, b: seq<AgentMessage>, n: nat)
    requires n <= |b|
    ensures TokensUpTo(count, a + b, |a| + n) == Tokens(count, a) + TokensUpTo(count, b, n)
  {
    if n == 0 {
      TokensOfPrefix(count, a, b, |a|);
    } else {
      TokensBeyond(count, a, b, n - 1);
    }
  }

  lemma TokensConcat(count: Counter, a: seq<AgentMessage>, b: seq<AgentMessage>)
    ensures Tokens(count, a + b) == Tokens(count, a) + Tokens(count, b)
  {
    TokensBeyond(count, a, b, |b|);
  }

  lemma TokensCons(count: Counter, messages: seq<AgentMessage>, i: nat)
    requires i < |messages|
    ensures Tokens(count, messages[i..]) == count(messages[i]) + Tokens(count, messages[i + 1..])
  {
    assert messages[i..] == [messages[i]] + messages[i + 1..];
    TokensConcat(count, [messages[i]], messages[i + 1..]);
    assert TokensUpTo(count, [messages[i]], 0) == 0;
  }

  lemma {:induction false} LlmOfPrefix(a: seq<AgentMessage>, b: seq<AgentMessage>, n: nat)
    requires n <= |a|
    ensures LlmUpTo(a + b, n) == LlmUpTo(a, n)
  {
    if n > 0 {
      LlmOfPrefix(a, b, n - 1);
    }
  }

  lemma {:induction false} LlmBeyond(a: seq<AgentMessage>, b: seq<AgentMessage>, n: nat)
    requires n <= |b|
    ensures LlmUpTo(a + b, |a| + n) == LlmOnly(a) + LlmUpTo(b, n)
  {
    if n == 0 {
      LlmOfPrefix(a, b, |a|);
    } else {
      LlmBeyond(a, b, n - 1);
      assert (a + b)[|a| + n - 1] == b[n - 1];
    }
  }

  lemma LlmOnlyConcat(a: seq<AgentMessage>, b: seq<AgentMessage>)
    ensures LlmOnly(a + b) == LlmOnly(a) + LlmOnly(b)
  {
    LlmBeyond(a, b, |b|);
  }

  method CountTokens(count: Counter, messages: seq<AgentMessage>) returns (total: nat)
    ensures total == Tokens(count, messages)
  {
    total := 0;
    for i := 0 to |messages|
      invariant total == TokensUpTo(count, messages, i)
    {
      total := total + count(messages[i]);
    }
  }

  method ExtendAnchorForToolResults(messages: seq<AgentMessage>, anchorEnd: nat) returns (end: nat)
    ensures end == ExtendedAnchor(messages, anchorEnd)
  {
    if anchorEnd == 0 || anchorEnd >= |messages| {
      return anchorEnd;
    }
    var assistant := anchorEnd - 1;
    while IsToolResult(messages, assistant)
      invariant 0 <= assistant < anchorEnd
      invariant RunHead(messages, anchorEnd - 1) == RunHead(messages, assistant)
      decreases assistant
    {
      if assistant == 0 {
        return anchorEnd;
      }
      assistant := assistant - 1;
    }
    var ids := ToolCallIds(messages[assistant]);
    if ids == [] {
      return anchorEnd;
    }
    var groupEnd := assistant + 1;
    while groupEnd < |messages| && IsToolResult(messages, groupEnd) && messages[groupEnd].llm.toolCallId in ids
      invariant assistant < groupEnd <= |messages|
      invariant GroupEnd(messages, ids, assistant + 1) == GroupEnd(messages, ids, groupEnd)
    {
      groupEnd := groupEnd + 1;
    }
    return if anchorEnd < groupEnd then groupEnd else anchorEnd;
  }

  /** The tail chosen fits, and no longer one from the same floor does. */
  lemma {:induction false} LongestTailFits(count: Counter, messages: seq<AgentMessage>, from: nat, budget: nat, s: nat)
    requires from <= s <= |messages|
    ensures var t := LongestTail(count, messages, from, budget);
            && Tokens(count, messages[t..]) <= budget
            && (s < t ==> Tokens(count, messages[s..]) > budget)
    decreases |messages| - from
  {
    assert messages[|messages|..] == [];
    if from < |messages| && Tokens(count, messages[from..]) > budget {
      LongestTailFits(count, messages, from + 1, budget, if s == from then from + 1 else s);
    }
  }

  /** The first suffix start that does not fit settles the longest fitting tail. */
  lemma LongestTailIs(count: Counter, messages: seq<AgentMessage>, from: nat, t: nat, budget: nat)
    requires from <= t <= |messages|
    requires Tokens(count, messages[t..]) <= budget
    requires t > from ==> Tokens(count, messages[t - 1..]) > budget
    ensures LongestTail(count, messages, from, budget) == t
    decreases t - from
  {
    if from < t {
      TailsGrow(count, messages, from, t - 1);
      LongestTailIs(count, messages, from + 1, t, budget);
    }
  }

  lemma {:induction false} TailsGrow(count: Counter, messages: seq<AgentMessage>, i: nat, j: nat)
    requires i <= j <= |messages|
    ensures Tokens(count, messages[i..]) >= Tokens(count, messages[j..])
    decreases j - i
  {
    if i < j {
      TokensCons(count, messages, i);
      TailsGrow(count, messages, i + 1, j);
    }
  }

  /** The backward walk over the messages that fit. */
  method WalkTail(count: Counter, messages: seq<AgentMessage>, end: nat, remaining: nat) returns (tailStart: nat)
    requires end <= |messages|
    ensures tailStart == LongestTail(count, messages, end, remaining)
  {
    var tailTokens := 0;
    tailStart := |messages|;
    while tailStart > end && tailTokens + count(messages[tailStart - 1]) <= remaining
      invariant end <= tailStart <= |messages|
      invariant tailTokens == Tokens(count, messages[tailStart..]) <= remaining
    {
      TokensCons(count, messages, tailStart - 1);
      tailTokens := tailTokens + count(messages[tailStart - 1]);
      tailStart := tailStart - 1;
    }
    if tailStart > end {
      TokensCons(count, messages, tailStart - 1);
    }
    LongestTailIs(count, messages, end, tailStart, remaining);
  }

  /** The second walk, back over tool results to the message they belong to. */
  method WalkToCall(messages: seq<AgentMessage>, end: nat, fitting: nat) returns (tailStart: nat)
    requires end <= fitting <= |messages|
    ensures tailStart == BackToCall(messages, end, fitting)
  {
    tailStart := fitting;
    while tailStart > end && tailStart < |messages| && IsToolResult(messages, tailStart)
      invariant end <= tailStart <= |messages|
      invariant BackToCall(messages, end, fitting) == BackToCall(messages, end, tailStart)
    {
      tailStart := tailStart - 1;
    }
  }

  /** Where the pass will cut, and the tokens counted on the way. */
  method FindCut(messages: seq<AgentMessage>, budget: nat, anchor: nat, count: Counter) returns (tokensBefore: nat, cut: Option<Cut>)
    ensures tokensBefore == Tokens(count, messages)
    ensures cut == CutOf(count, messages, budget, anchor)
  {
    tokensBefore := CountTokens(count, messages);
    if tokensBefore <= budget {
      return tokensBefore, None;
    }
    var end := ExtendAnchorForToolResults(messages, Min(anchor, |messages|));
    var anchorTokens := CountTokens(count, messages[..end]);
    var fitting := WalkTail(count, messages, end, Minus(budget, anchorTokens));
    var tailStart := WalkToCall(messages, end, fitting);
    cut := if tailStart <= end then None else Some(Cut(end, tailStart));
  }

  method CompactSlidingWindowWith(log: History, budget: nat, anchor: nat, count: Counter) returns (report: Option<CompactionReport>)
    modifies log
    ensures (log.messages, report) == Compacted(count, old(log.messages), budget, anchor, false)
  {
    var tokensBefore, cut := FindCut(log.messages, budget, anchor, count);
    if cut.None? {
      return None;
    }
    report := DropMiddle(log, cut.value, tokensBefore, count);
  }

  /** Dropping the middle slice and reporting it. */
  method DropMiddle(log: History, cut: Cut, tokensBefore: nat, count: Counter) returns (report: Option<CompactionReport>)
    requires cut.end <= cut.tail <= |log.messages| && tokensBefore == Tokens(count, log.messages)
    modifies log
    ensures log.messages == Kept(old(log.messages), Some(cut))
    ensures report == Some(ReportOf(count, old(log.messages), cut, false))
  {
    var dropped := LlmOnly(log.messages[cut.end..cut.tail]);
    log.messages := log.messages[..cut.end] + log.messages[cut.tail..];
    var tokensAfter := CountTokens(count, log.messages);
    return Some(CompactionReport(cut.tail - cut.end, tokensBefore, tokensAfter, false, dropped));
  }
}
