/** What compaction promises, on every history. */
module ContextLaws {
  import opened Wrappers
  import opened Messages
  import opened Context

  // ---- tool groups -------------------------------------------------------------------------

  /** Every tool result lies in the run right after an assistant message that called it. */
  ghost predicate WellFormed(messages: seq<AgentMessage>) {
    forall i: nat :: IsToolResult(messages, i) ==>
      var head := RunHead(messages, i);
      head.Some? && messages[i].llm.toolCallId in ToolCallIds(messages[head.value])
  }

  /** A place where cutting separates no tool result from its call. */
  predicate CleanCut(messages: seq<AgentMessage>, at: nat) {
    !IsToolResult(messages, at)
  }

  lemma RunHeadIs(messages: seq<AgentMessage>, head: nat, i: nat)
    requires head <= i < |messages| && !IsToolResult(messages, head)
    requires forall k :: head < k <= i ==> IsToolResult(messages, k)
    ensures RunHead(messages, i) == Some(head)
  {
  }

  /** A tool result right after a run belongs to the same run. */
  lemma RunContinues(messages: seq<AgentMessage>, head: nat, at: nat)
    requires head < at <= |messages| && !IsToolResult(messages, head)
    requires forall k :: head < k < at ==> IsToolResult(messages, k)
    ensures IsToolResult(messages, at) ==> RunHead(messages, at) == Some(head)
  {
    if IsToolResult(messages, at) {
      RunHeadIs(messages, head, at);
    }
  }

  /** The extended anchor never falls inside a tool group. */
  lemma AnchorIsClean(messages: seq<AgentMessage>, anchor: nat)
    requires WellFormed(messages) && anchor <= |messages|
    ensures CleanCut(messages, ExtendedAnchor(messages, anchor))
  {
    if 0 < anchor < |messages| && RunHead(messages, anchor - 1).Some? {
      var h := RunHead(messages, anchor - 1).value;
      var ids := ToolCallIds(messages[h]);
      var groupEnd := GroupEnd(messages, ids, h + 1);
      forall k: nat | h < k < Max(anchor, groupEnd) ensures IsToolResult(messages, k) {
        assert k >= anchor ==> Answers(messages, k, ids);
      }
      RunContinues(messages, h, anchor);
      RunContinues(messages, h, groupEnd);
    }
  }

  /** On a well-formed history both boundaries of the cut are clean. */
  lemma CutIsClean(count: Counter, messages: seq<AgentMessage>, budget: nat, anchor: nat)
    requires WellFormed(messages) && CutOf(count, messages, budget, anchor).Some?
    ensures var cut := CutOf(count, messages, budget, anchor).value;
            CleanCut(messages, cut.end) && CleanCut(messages, cut.tail)
  {
    AnchorIsClean(messages, Min(anchor, |messages|));
  }

  predicate KeptAt(cut: Cut, i: nat) {
    i < cut.end || i >= cut.tail
  }

  /** A tool call and each of its results are kept together or dropped together. */
  lemma ToolGroupsStayWhole(count: Counter, messages: seq<AgentMessage>, budget: nat, anchor: nat, i: nat)
    requires WellFormed(messages) && CutOf(count, messages, budget, anchor).Some?
    requires IsToolResult(messages, i)
    ensures var cut := CutOf(count, messages, budget, anchor).value;
            KeptAt(cut, i) <==> KeptAt(cut, RunHead(messages, i).value)
    ensures messages[i].llm.toolCallId in ToolCallIds(messages[RunHead(messages, i).value])
  {
    CutIsClean(count, messages, budget, anchor);
  }

  /** A message moved by `shift` together with its run keeps its head. */
  lemma ShiftedHead(messages: seq<AgentMessage>, other: seq<AgentMessage>, i: nat, shift: nat)
    requires i < |messages| && RunHead(messages, i).Some? && shift <= RunHead(messages, i).value
    requires i - shift < |other|
    requires forall k {:trigger messages[k]} :: RunHead(messages, i).value <= k <= i ==> messages[k] == other[k - shift]
    ensures RunHead(other, i - shift) == Some(RunHead(messages, i).value - shift)
    ensures other[RunHead(messages, i).value - shift] == messages[RunHead(messages, i).value]
  {
    var head := RunHead(messages, i).value;
    forall k: nat | head - shift < k <= i - shift ensures IsToolResult(other, k) {
      assert messages[k + shift] == other[k] && IsToolResult(messages, k + shift);
    }
    RunHeadIs(other, head - shift, i - shift);
  }

  /** `kept` is `messages` without the slice between the cut's boundaries. */
  ghost predicate IsCut(messages: seq<AgentMessage>, cut: Cut, kept: seq<AgentMessage>) {
    && cut.end <= cut.tail <= |messages|
    && |kept| == |messages| - (cut.tail - cut.end)
    && (forall k {:trigger messages[k]} :: 0 <= k < cut.end ==> messages[k] == kept[k])
    && (forall k {:trigger messages[k]} :: cut.tail <= k < |messages| ==> messages[k] == kept[k - (cut.tail - cut.end)])
  }

  lemma KeptIsCut(messages: seq<AgentMessage>, cut: Cut)
    requires cut.end <= cut.tail <= |messages|
    ensures IsCut(messages, cut, Kept(messages, Some(cut)))
  {
  }

  /** A tool result that is kept keeps the message that called it. */
  lemma CutKeepsCall(messages: seq<AgentMessage>, cut: Cut, kept: seq<AgentMessage>, i: nat, shift: nat)
    requires IsCut(messages, cut, kept) && CleanCut(messages, cut.tail)
    requires i < |kept| && shift == if i < cut.end then 0 else cut.tail - cut.end
    requires RunHead(messages, i + shift).Some?
    ensures RunHead(kept, i) == Some(RunHead(messages, i + shift).value - shift)
    ensures kept[RunHead(kept, i).value] == messages[RunHead(messages, i + shift).value]
  {
    var head := RunHead(messages, i + shift).value;
    assert cut.end <= i && head < cut.tail ==> IsToolResult(messages, cut.tail);
    ShiftedHead(messages, kept, i + shift, shift);
  }

  /** Dropping a slice between clean boundaries keeps a history well formed. */
  lemma CleanCutKeepsWellFormed(messages: seq<AgentMessage>, cut: Cut, kept: seq<AgentMessage>)
    requires WellFormed(messages) && IsCut(messages, cut, kept)
    requires CleanCut(messages, cut.tail)
    ensures WellFormed(kept)
  {
    forall i: nat | IsToolResult(kept, i)
      ensures RunHead(kept, i).Some? && kept[i].llm.toolCallId in ToolCallIds(kept[RunHead(kept, i).value])
    {
      var shift := if i < cut.end then 0 else cut.tail - cut.end;
      assert messages[i + shift] == kept[i] && IsToolResult(messages, i + shift);
      CutKeepsCall(messages, cut, kept, i, shift);
    }
  }

  /** Compaction of a well-formed history gives a well-formed history. */
  lemma CompactionKeepsWellFormed(count: Counter, messages: seq<AgentMessage>, budget: nat, anchor: nat)
    requires WellFormed(messages)
    ensures WellFormed(Kept(messages, CutOf(count, messages, budget, anchor)))
  {
    var cut := CutOf(count, messages, budget, anchor);
    if cut.Some? {
      CutIsClean(count, messages, budget, anchor);
      KeptIsCut(messages, cut.value);
      CleanCutKeepsWellFormed(messages, cut.value, Kept(messages, cut));
    }
  }

  // ---- stability of the anchor -----------------------------------------------------------------

  /** The extended anchor depends on the messages before it, as long as no tool result follows it. */
  lemma AnchorIsStable(messages: seq<AgentMessage>, other: seq<AgentMessage>, anchor: nat)
    requires anchor <= |messages|
    requires ExtendedAnchor(messages, anchor) <= |other|
    requires messages[..ExtendedAnchor(messages, anchor)] == other[..ExtendedAnchor(messages, anchor)]
    requires !IsToolResult(other, ExtendedAnchor(messages, anchor))
    ensures ExtendedAnchor(other, anchor) == ExtendedAnchor(messages, anchor)
  {
    var e := ExtendedAnchor(messages, anchor);
    assert forall k :: 0 <= k < e ==> messages[k] == messages[..e][k] && other[k] == other[..e][k];
    if 0 < anchor < |other| {
      var head := RunHead(messages, anchor - 1);
      if head.Some? {
        forall k: nat | head.value < k <= anchor - 1 ensures IsToolResult(other, k) {
          assert IsToolResult(messages, k);
        }
        RunHeadIs(other, head.value, anchor - 1);
        var ids := ToolCallIds(messages[head.value]);
        if anchor < |messages| {
          SameGroupEnd(messages, other, ids, head.value + 1, e);
        } else {
          assert GroupEnd(other, ids, head.value + 1) > e ==> Answers(other, e, ids);
        }
      } else {
        forall k: nat | k < anchor ensures IsToolResult(other, k) {
          assert IsToolResult(messages, k);
        }
      }
    }
  }

  lemma SameGroupEnd(messages: seq<AgentMessage>, other: seq<AgentMessage>, ids: seq<string>, from: nat, e: nat)
    requires from <= e <= |messages| && e <= |other|
    requires forall k :: 0 <= k < e ==> messages[k] == other[k]
    requires !IsToolResult(other, e)
    ensures var g := GroupEnd(messages, ids, from);
            if g <= e then GroupEnd(other, ids, from) == g else GroupEnd(other, ids, from) == e
  {
    var g, g' := GroupEnd(messages, ids, from), GroupEnd(other, ids, from);
    assert g' > e ==> Answers(other, e, ids);
    assert g' < g ==> Answers(messages, g', ids);
    assert g < g' ==> Answers(other, g, ids);
  }

  // ---- idempotence -------------------------------------------------------------------------------

  /** The middle of the kept messages, index by index. */
  lemma KeptTail(messages: seq<AgentMessage>, cut: Cut, k: nat)
    requires cut.end <= cut.tail <= |messages| && cut.tail <= k <= |messages|
    ensures Kept(messages, Some(cut))[k - cut.tail + cut.end..] == messages[k..]
    ensures Kept(messages, Some(cut))[..cut.end] == messages[..cut.end]
  {
  }

  /** Compacting twice is compacting once: the second pass drops nothing, whatever the history. */
  lemma CompactionIsIdempotent(count: Counter, messages: seq<AgentMessage>, budget: nat, anchor: nat)
    ensures CutOf(count, Kept(messages, CutOf(count, messages, budget, anchor)), budget, anchor) == None
  {
    var cut := CutOf(count, messages, budget, anchor);
    if cut.Some? {
      var Cut(end, tail) := cut.value;
      var kept := Kept(messages, cut);
      KeptTail(messages, cut.value, tail);
      AnchorIsStable(messages, kept, Min(anchor, |messages|));
      assert ExtendedAnchor(kept, Min(anchor, |kept|)) == end;
      SecondWalk(count, messages, budget, anchor);
    }
  }

  /** The second pass's first walk stops at the message where the first pass's did. */
  lemma SecondFit(count: Counter, messages: seq<AgentMessage>, kept: seq<AgentMessage>, cut: Cut, fitting: nat, room: nat)
    requires cut.end < cut.tail <= fitting <= |messages| && |kept| == |messages| - (cut.tail - cut.end)
    requires LongestTail(count, messages, cut.end, room) == fitting
    requires Tokens(count, kept[fitting - cut.tail + cut.end..]) == Tokens(count, messages[fitting..])
    requires fitting > cut.tail ==> Tokens(count, kept[fitting - cut.tail + cut.end - 1..]) == Tokens(count, messages[fitting - 1..])
    ensures LongestTail(count, kept, cut.end, room) == fitting - cut.tail + cut.end
  {
    LongestTailFits(count, messages, cut.end, room, fitting - 1);
    LongestTailIs(count, kept, cut.end, fitting - cut.tail + cut.end, room);
  }

  /** Its second walk then goes all the way back to the anchor. */
  lemma SecondBack(messages: seq<AgentMessage>, kept: seq<AgentMessage>, cut: Cut, fitting: nat)
    requires IsCut(messages, cut, kept)
    requires cut.end < cut.tail <= fitting <= |messages| && cut.tail == BackToCall(messages, cut.end, fitting)
    ensures BackToCall(kept, cut.end, fitting - cut.tail + cut.end) == cut.end
  {
    var start := fitting - cut.tail + cut.end;
    if fitting < |messages| {
      forall k: nat | cut.end < k <= start ensures IsToolResult(kept, k) {
        assert IsToolResult(messages, k - cut.end + cut.tail);
        assert messages[k - cut.end + cut.tail] == kept[k];
      }
    }
  }

  /** The second pass's walks both end at the anchor. */
  lemma SecondWalk(count: Counter, messages: seq<AgentMessage>, budget: nat, anchor: nat)
    requires CutOf(count, messages, budget, anchor).Some?
    ensures var cut := CutOf(count, messages, budget, anchor).value;
            var kept := Kept(messages, Some(cut));
            && cut.end <= |kept|
            && BackToCall(kept, cut.end, LongestTail(count, kept, cut.end, Minus(budget, Tokens(count, kept[..cut.end])))) == cut.end
  {
    var cut := CutOf(count, messages, budget, anchor).value;
    var fitting := FittingTail(count, messages, budget, anchor);
    var kept := Kept(messages, Some(cut));
    KeptTail(messages, cut, fitting);
    KeptTail(messages, cut, if fitting > cut.tail then fitting - 1 else fitting);
    SecondFit(count, messages, kept, cut, fitting, Minus(budget, Tokens(count, messages[..cut.end])));
    KeptIsCut(messages, cut);
    SecondBack(messages, kept, cut, fitting);
  }

  // ---- monotonicity in the budget ------------------------------------------------------------------

  predicate KeptPosition(messages: seq<AgentMessage>, cut: Option<Cut>, i: nat) {
    i < |messages| && (cut.None? || KeptAt(cut.value, i))
  }

  lemma BackToCallMonotone(messages: seq<AgentMessage>, floor: nat, x: nat, y: nat)
    requires floor <= y <= x <= |messages|
    ensures BackToCall(messages, floor, y) <= BackToCall(messages, floor, x)
  {
  }

  /** A larger budget keeps every position a smaller one keeps. */
  lemma CompactionIsMonotone(count: Counter, messages: seq<AgentMessage>, small: nat, large: nat, anchor: nat, i: nat)
    requires small <= large
    requires KeptPosition(messages, CutOf(count, messages, small, anchor), i)
    ensures KeptPosition(messages, CutOf(count, messages, large, anchor), i)
  {
    var end := ExtendedAnchor(messages, Min(anchor, |messages|));
    var anchorTokens := Tokens(count, messages[..end]);
    LongestTailFits(count, messages, end, Minus(small, anchorTokens), end);
    LongestTailFits(count, messages, end, Minus(large, anchorTokens), FittingTail(count, messages, small, anchor));
    BackToCallMonotone(messages, end, FittingTail(count, messages, small, anchor), FittingTail(count, messages, large, anchor));
  }

  // ---- what the report says --------------------------------------------------------------------------

  lemma TokensSplit(count: Counter, messages: seq<AgentMessage>, i: nat, j: nat)
    requires i <= j <= |messages|
    ensures Tokens(count, messages[i..]) == Tokens(count, messages[i..j]) + Tokens(count, messages[j..])
  {
    assert messages[i..] == messages[i..j] + messages[j..];
    TokensConcat(count, messages[i..j], messages[j..]);
  }

  /** The tail chosen by budget is the longest suffix that fits beside the anchor; adjusting it pulls
      in one message and tool results of its run. */
  lemma TailIsLongest(count: Counter, messages: seq<AgentMessage>, budget: nat, anchor: nat)
    requires CutOf(count, messages, budget, anchor).Some?
    ensures var cut := CutOf(count, messages, budget, anchor).value;
            var fitting, room := FittingTail(count, messages, budget, anchor), Minus(budget, Tokens(count, messages[..cut.end]));
            && Tokens(count, messages[fitting..]) <= room
            && (forall s :: cut.end <= s < fitting ==> Tokens(count, messages[s..]) > room)
            && cut.tail <= fitting
            && (forall k :: cut.tail < k <= fitting && k < |messages| ==> IsToolResult(messages, k))
            && (cut.tail < fitting ==> fitting < |messages|)
  {
    var cut := CutOf(count, messages, budget, anchor).value;
    var fitting, room := FittingTail(count, messages, budget, anchor), Minus(budget, Tokens(count, messages[..cut.end]));
    LongestTailFits(count, messages, cut.end, room, fitting);
    forall s | cut.end <= s < fitting ensures Tokens(count, messages[s..]) > room {
      LongestTailFits(count, messages, cut.end, room, s);
    }
  }

  /** The token counts balance, and the result is over budget by no more than the anchor and the
      part of one tool group that was pulled in. */
  lemma TokensBalance(count: Counter, messages: seq<AgentMessage>, budget: nat, anchor: nat, overflow: bool)
    requires CutOf(count, messages, budget, anchor).Some?
    ensures var cut := CutOf(count, messages, budget, anchor).value;
            var report, fitting := ReportOf(count, messages, cut, overflow), FittingTail(count, messages, budget, anchor);
            && cut.tail <= fitting
            && report.tokensBefore == report.tokensAfter + Tokens(count, messages[cut.end..cut.tail])
            && report.tokensAfter <= Max(budget, Tokens(count, messages[..cut.end])) + Tokens(count, messages[cut.tail..fitting])
  {
    var cut := CutOf(count, messages, budget, anchor).value;
    TailIsLongest(count, messages, budget, anchor);
    TokensConcat(count, messages[..cut.end], messages[cut.tail..]);
    TokensConcat(count, messages[..cut.end], messages[cut.end..]);
    assert messages == messages[..cut.end] + messages[cut.end..];
    TokensSplit(count, messages, cut.end, cut.tail);
    TokensSplit(count, messages, cut.tail, FittingTail(count, messages, budget, anchor));
  }

  lemma LlmOnlySplit(messages: seq<AgentMessage>, end: nat)
    requires end <= |messages|
    ensures LlmOnly(messages) == LlmOnly(messages[..end]) + LlmOnly(messages[end..])
  {
    assert messages == messages[..end] + messages[end..];
    LlmOnlyConcat(messages[..end], messages[end..]);
  }

  /** Protected messages stay where they are, and the report counts the others that went. */
  lemma ProtectedStays(count: Counter, messages: seq<AgentMessage>, budget: nat, anchor: nat, overflow: bool)
    requires CutOf(count, messages, budget, anchor).Some?
    ensures var cut := CutOf(count, messages, budget, anchor).value;
            var report, kept := ReportOf(count, messages, cut, overflow), Kept(messages, Some(cut));
            && Min(anchor, |messages|) <= |kept|
            && kept[..Min(anchor, |messages|)] == messages[..Min(anchor, |messages|)]
            && report.droppedCount == |messages| - |kept| > 0
  {
  }

  /** The report lists the LLM messages dropped, in order, and no other is lost. */
  lemma NothingElseIsLost(messages: seq<AgentMessage>, cut: Cut)
    requires cut.end <= cut.tail <= |messages|
    ensures LlmOnly(messages) ==
            LlmOnly(messages[..cut.end]) + LlmOnly(messages[cut.end..cut.tail]) + LlmOnly(messages[cut.tail..])
    ensures LlmOnly(Kept(messages, Some(cut))) == LlmOnly(messages[..cut.end]) + LlmOnly(messages[cut.tail..])
  {
    assert messages == messages[..cut.end] + messages[cut.end..cut.tail] + messages[cut.tail..];
    LlmOnlyParts(messages[..cut.end], messages[cut.end..cut.tail], messages[cut.tail..]);
  }

  lemma LlmOnlyParts(a: seq<AgentMessage>, b: seq<AgentMessage>, c: seq<AgentMessage>)
    ensures LlmOnly(a + b + c) == LlmOnly(a) + LlmOnly(b) + LlmOnly(c)
    ensures LlmOnly(a + c) == LlmOnly(a) + LlmOnly(c)
  {
    LlmOnlyConcat(a, b);
    LlmOnlyConcat(a + b, c);
    LlmOnlyConcat(a, c);
  }

  /** The LLM messages of a slice are all of them, each as often as it occurs. */
  lemma LlmOnlyKeepsAll(messages: seq<AgentMessage>, m: LlmMessage)
    ensures multiset(LlmOnly(messages))[m] == multiset(messages)[Llm(m)]
  {
    LlmUpToKeepsAll(messages, m, |messages|);
    assert messages[..|messages|] == messages;
  }

  lemma {:induction false} LlmUpToKeepsAll(messages: seq<AgentMessage>, m: LlmMessage, n: nat)
    requires n <= |messages|
    ensures multiset(LlmUpTo(messages, n))[m] == multiset(messages[..n])[Llm(m)]
  {
    if n > 0 {
      LlmUpToKeepsAll(messages, m, n - 1);
      assert messages[..n] == messages[..n - 1] + [messages[n - 1]];
    }
  }

  /** The ids a message calls are those of its tool-call blocks. */
  lemma {:induction false} CallIdsAreIds(blocks: seq<ContentBlock>, id: string)
    ensures id in CallIds(blocks) <==> exists i :: 0 <= i < |blocks| && blocks[i].ToolCall? && blocks[i].id == id
  {
    if blocks != [] {
      CallIdsAreIds(blocks[1..], id);
      assert blocks == [blocks[0]] + blocks[1..];
      if exists i :: 0 <= i < |blocks[1..]| && blocks[1..][i].ToolCall? && blocks[1..][i].id == id {
        var i :| 0 <= i < |blocks[1..]| && blocks[1..][i].ToolCall? && blocks[1..][i].id == id;
        assert blocks[i + 1].ToolCall? && blocks[i + 1].id == id;
      }
    }
  }

  /** The ids that count for tool groups: those of all tool-call blocks of an assistant message, and
      none for any other message. */
  lemma ToolCallIdsAre(message: AgentMessage, id: string)
    ensures id in ToolCallIds(message) <==>
            && message.Llm? && message.llm.Assistant?
            && exists i :: 0 <= i < |message.llm.message.content| && message.llm.message.content[i].ToolCall? && message.llm.message.content[i].id == id
  {
    if message.Llm? && message.llm.Assistant? {
      CallIdsAreIds(message.llm.message.content, id);
    }
  }

  /** Tokens are what the counter says of each message, added up. */
  lemma TokensAre(count: Counter, a: seq<AgentMessage>, m: AgentMessage)
    ensures Tokens(count, []) == 0 && Tokens(count, [m]) == count(m)
    ensures Tokens(count, a + [m]) == Tokens(count, a) + count(m)
  {
    assert TokensUpTo(count, [m], 0) == 0;
    TokensConcat(count, a, [m]);
  }

  // ---- the whole pass ----------------------------------------------------------------------------------

  /** The message before the run of tool results that ends just before `anchor`. */
  ghost predicate HeadsRun(messages: seq<AgentMessage>, head: nat, anchor: nat) {
    head < anchor <= |messages| && !IsToolResult(messages, head) && forall j :: head < j < anchor ==> IsToolResult(messages, j)
  }

  /** The anchor moves over answers to the calls of the message its run belongs to, and over nothing
      else; if the run before it consists of such answers, it stops at the first message that is none. */
  lemma AnchorMovesOverAnswers(messages: seq<AgentMessage>, anchor: nat, head: nat)
    requires anchor < |messages| && HeadsRun(messages, head, anchor)
    ensures var e, ids := ExtendedAnchor(messages, anchor), ToolCallIds(messages[head]);
            && (forall k :: anchor <= k < e ==> Answers(messages, k, ids))
            && ((forall j :: head < j < anchor ==> Answers(messages, j, ids)) ==> !Answers(messages, e, ids))
  {
    RunHeadIs(messages, head, anchor - 1);
    var ids := ToolCallIds(messages[head]);
    var group := GroupEnd(messages, ids, head + 1);
    assert group < anchor ==> !Answers(messages, group, ids);
  }

  /** With only tool results before it the anchor stays. */
  lemma HeadlessAnchorStays(messages: seq<AgentMessage>, anchor: nat)
    requires anchor <= |messages| && forall j :: 0 <= j < anchor ==> IsToolResult(messages, j)
    ensures ExtendedAnchor(messages, anchor) == anchor
  {
  }

  /** On a well-formed history the anchor stops at the first place at or after it that splits no group. */
  lemma AnchorIsFirstClean(messages: seq<AgentMessage>, anchor: nat, k: nat)
    requires WellFormed(messages) && anchor <= k <= |messages| && CleanCut(messages, k)
    ensures CleanCut(messages, ExtendedAnchor(messages, anchor)) && anchor <= ExtendedAnchor(messages, anchor) <= k
  {
    AnchorIsClean(messages, anchor);
    if 0 < anchor < |messages| && RunHead(messages, anchor - 1).Some? {
      var head := RunHead(messages, anchor - 1).value;
      AnchorMovesOverAnswers(messages, anchor, head);
      assert k < ExtendedAnchor(messages, anchor) ==> Answers(messages, k, ToolCallIds(messages[head]));
    }
  }

  /** A history within the budget is left as it is and nothing is reported. */
  lemma WithinBudgetIsKept(count: Counter, messages: seq<AgentMessage>, budget: nat, anchor: nat, overflow: bool)
    requires Tokens(count, messages) <= budget
    ensures Compacted(count, messages, budget, anchor, overflow) == (messages, None)
  {
  }

  /** A history over the budget keeps what lies before `end`, where the protected messages end, and
      what lies from `tail` on. `fit` starts the longest suffix after `end` that fits beside the
      protected messages, and `tail` is `fit` moved back over tool results to the message they follow.
      There is no report exactly when nothing lies between. */
  lemma OverBudgetIsCut(count: Counter, messages: seq<AgentMessage>, budget: nat, anchor: nat, overflow: bool)
    returns (end: nat, fit: nat, tail: nat)
    requires Tokens(count, messages) > budget
    ensures end == ExtendedAnchor(messages, if anchor < |messages| then anchor else |messages|)
    ensures end <= tail <= fit <= |messages|
    ensures fit < |messages| ==> Tokens(count, messages[..end]) + Tokens(count, messages[fit..]) <= budget
                                 || Tokens(count, messages[fit..]) == 0
    ensures forall s :: end <= s < fit ==>
              Tokens(count, messages[s..]) > 0 && Tokens(count, messages[..end]) + Tokens(count, messages[s..]) > budget
    ensures forall k :: tail < k <= fit && k < |messages| ==> IsToolResult(messages, k)
    ensures tail == end || tail == |messages| || !IsToolResult(messages, tail)
    ensures fit == |messages| ==> tail == fit
    ensures var (kept, report) := Compacted(count, messages, budget, anchor, overflow);
            && kept == messages[..end] + messages[tail..]
            && report == if tail == end then None
                         else Some(CompactionReport(tail - end, Tokens(count, messages), Tokens(count, kept), overflow, LlmOnly(messages[end..tail])))
  {
    end := ExtendedAnchor(messages, if anchor < |messages| then anchor else |messages|);
    fit := FittingTail(count, messages, budget, anchor);
    tail := BackToCall(messages, end, fit);
    FitIsLongest(count, messages, budget, end, fit);
    assert tail == end ==> messages == messages[..end] + messages[tail..];
  }

  lemma FitIsLongest(count: Counter, messages: seq<AgentMessage>, budget: nat, end: nat, fit: nat)
    requires end <= fit <= |messages| && fit == LongestTail(count, messages, end, Minus(budget, Tokens(count, messages[..end])))
    ensures fit < |messages| ==> Tokens(count, messages[..end]) + Tokens(count, messages[fit..]) <= budget
                                 || Tokens(count, messages[fit..]) == 0
    ensures forall s :: end <= s < fit ==>
              Tokens(count, messages[s..]) > 0 && Tokens(count, messages[..end]) + Tokens(count, messages[s..]) > budget
  {
    var room := Minus(budget, Tokens(count, messages[..end]));
    LongestTailFits(count, messages, end, room, fit);
    forall s | end <= s < fit
      ensures Tokens(count, messages[s..]) > 0 && Tokens(count, messages[..end]) + Tokens(count, messages[s..]) > budget
    {
      LongestTailFits(count, messages, end, room, s);
    }
  }
}
