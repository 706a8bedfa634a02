/** The producer side of the block protocol: allocating, opening, feeding and closing blocks. */
module BlockAccumulator {
  import opened Wrappers
  import E = StreamEvents

  datatype OpenBlock =
    | Text(index: nat)
    | Thinking(index: nat, signature: Option<string>)
    | ToolCall(index: nat)

  /** The accumulator's state as a value. */
  datatype Producer = Producer(next: nat, text: Option<nat>, thinking: Option<(nat, Option<string>)>, tools: seq<nat>)

  const NEW := Producer(0, None, None, [])

  datatype Op =
    | AllocIndex
    | EnsureTextOpen
    | TextDelta(delta: string)
    | CloseText
    | EnsureThinkingOpen
    | ThinkingDelta(delta: string)
    | SetThinkingSignature(mark: string)
    | CloseThinking(signature: Option<string>)
    | OpenToolCall(id: string, name: string)
    | ToolCallDelta(index: nat, delta: string)
    | CloseToolCall(index: nat)

  function Without(s: seq<nat>, x: nat): seq<nat> {
    if s == [] then [] else if s[0] == x then s[1..] else [s[0]] + Without(s[1..], x)
  }

  /** The state after an operation and the event it returns, if any. */
  function Apply(p: Producer, op: Op): (Producer, Option<E.Event>) {
    match op
    case AllocIndex => (p.(next := p.next + 1), None)
    case EnsureTextOpen =>
      if p.text.Some? then (p, None)
      else (p.(next := p.next + 1, text := Some(p.next)), Some(E.TextStart(p.next)))
    case TextDelta(delta) => (p, if p.text.Some? then Some(E.TextDelta(p.text.value, delta)) else None)
    case CloseText => (p.(text := None), if p.text.Some? then Some(E.TextEnd(p.text.value)) else None)
    case EnsureThinkingOpen =>
      if p.thinking.Some? then (p, None)
      else (p.(next := p.next + 1, thinking := Some((p.next, None))), Some(E.ThinkingStart(p.next)))
    case ThinkingDelta(delta) => (p, if p.thinking.Some? then Some(E.ThinkingDelta(p.thinking.value.0, delta)) else None)
    case SetThinkingSignature(mark) =>
      (if p.thinking.Some? then p.(thinking := Some((p.thinking.value.0, Some(mark)))) else p, None)
    case CloseThinking(signature) =>
      (p.(thinking := None),
       if p.thinking.Some?
       then Some(E.ThinkingEnd(p.thinking.value.0, if signature.Some? then signature else p.thinking.value.1))
       else None)
    case OpenToolCall(id, name) =>
      (p.(next := p.next + 1, tools := p.tools + [p.next]), Some(E.ToolCallStart(p.next, id, name)))
    case ToolCallDelta(index, delta) => (p, Some(E.ToolCallDelta(index, delta)))
    case CloseToolCall(index) =>
      if index in p.tools then (p.(tools := Without(p.tools, index)), Some(E.ToolCallEnd(index))) else (p, None)
  }

  // ---- draining --------------------------------------------------------------------------

  ghost predicate Ascending(blocks: seq<OpenBlock>) {
    forall i, j :: 0 <= i < j < |blocks| ==> blocks[i].index < blocks[j].index
  }

  ghost predicate DistinctIndices(blocks: seq<OpenBlock>) {
    forall i, j :: 0 <= i < j < |blocks| ==> blocks[i].index != blocks[j].index
  }

  function InsertByIndex(b: OpenBlock, blocks: seq<OpenBlock>): seq<OpenBlock> {
    if blocks == [] || b.index <= blocks[0].index then [b] + blocks
    else [blocks[0]] + InsertByIndex(b, blocks[1..])
  }

  function SortByIndex(blocks: seq<OpenBlock>): seq<OpenBlock> {
    if blocks == [] then [] else InsertByIndex(blocks[0], SortByIndex(blocks[1..]))
  }

  lemma {:induction false} InsertByIndexSorts(b: OpenBlock, blocks: seq<OpenBlock>)
    requires Ascending(blocks) && forall x :: x in blocks ==> x.index != b.index
    ensures Ascending(InsertByIndex(b, blocks))
    ensures forall x :: x in InsertByIndex(b, blocks) <==> x == b || x in blocks
  {
    if blocks != [] && b.index > blocks[0].index {
      InsertByIndexSorts(b, blocks[1..]);
      var rest := InsertByIndex(b, blocks[1..]);
      forall j | 0 <= j < |rest| ensures blocks[0].index < rest[j].index {
        assert rest[j] in rest;
      }
      assert blocks == [blocks[0]] + blocks[1..];
    }
  }

  /** Sorting keeps the blocks and puts them in close order. */
  lemma {:induction false} SortByIndexSorts(blocks: seq<OpenBlock>)
    requires DistinctIndices(blocks)
    ensures Ascending(SortByIndex(blocks))
    ensures forall x :: x in SortByIndex(blocks) <==> x in blocks
  {
    if blocks != [] {
      var rest := blocks[1..];
      SortByIndexSorts(rest);
      forall x | x in SortByIndex(rest) ensures x.index != blocks[0].index {
        var i :| 0 <= i < |rest| && rest[i] == x;
        assert blocks[i + 1] == x;
      }
      InsertByIndexSorts(blocks[0], SortByIndex(rest));
      assert blocks == [blocks[0]] + rest;
    }
  }

  /** The open blocks: thinking, text, then tool calls in the order they were opened. */
  function OpenBlocks(p: Producer): seq<OpenBlock> {
    (if p.thinking.Some? then [Thinking(p.thinking.value.0, p.thinking.value.1)] else [])
    + (if p.text.Some? then [Text(p.text.value)] else [])
    + seq(|p.tools|, i requires 0 <= i < |p.tools| => ToolCall(p.tools[i]))
  }

  function EndEvent(b: OpenBlock): E.Event {
    match b
    case Text(index) => E.TextEnd(index)
    case Thinking(index, signature) => E.ThinkingEnd(index, signature)
    case ToolCall(index) => E.ToolCallEnd(index)
  }

  /** The end events that close whatever is open, in index order. */
  function FinalEvents(p: Producer): seq<E.Event> {
    var blocks := SortByIndex(OpenBlocks(p));
    seq(|blocks|, i requires 0 <= i < |blocks| => EndEvent(blocks[i]))
  }

  // ---- the accumulator -------------------------------------------------------------------

  class Accumulator {
    var nextIndex: nat
    var textIndex: Option<nat>
    var thinkingIndex: Option<(nat, Option<string>)>
    var openToolCalls: seq<nat>

    ghost function Snapshot(): Producer
      reads this
    {
      Producer(nextIndex, textIndex, thinkingIndex, openToolCalls)
    }

    constructor ()
      ensures Snapshot() == NEW
    {
      nextIndex, textIndex, thinkingIndex, openToolCalls := 0, None, None, [];
    }

    method AllocIndex() returns (index: nat)
      modifies this
      ensures (Snapshot(), None) == Apply(old(Snapshot()), Op.AllocIndex)
      ensures index == old(nextIndex)
    {
      index := nextIndex;
      nextIndex := nextIndex + 1;
    }

    method EnsureTextOpen() returns (event: Option<E.Event>)
      modifies this
      ensures (Snapshot(), event) == Apply(old(Snapshot()), Op.EnsureTextOpen)
    {
      if textIndex.None? {
        var index := AllocIndex();
        textIndex := Some(index);
        return Some(E.TextStart(index));
      }
      return None;
    }

    method CloseText() returns (event: Option<E.Event>)
      modifies this
      ensures (Snapshot(), event) == Apply(old(Snapshot()), Op.CloseText)
    {
      event := None;
      if textIndex.Some? {
        event := Some(E.TextEnd(textIndex.value));
      }
      textIndex := None;
    }

    method TextDelta(delta: string) returns (event: Option<E.Event>)
      ensures (Snapshot(), event) == Apply(Snapshot(), Op.TextDelta(delta))
    {
      if textIndex.None? {
        return None;
      }
      return Some(E.TextDelta(textIndex.value, delta));
    }

    method EnsureThinkingOpen() returns (event: Option<E.Event>)
      modifies this
      ensures (Snapshot(), event) == Apply(old(Snapshot()), Op.EnsureThinkingOpen)
    {
      if thinkingIndex.None? {
        var index := AllocIndex();
        thinkingIndex := Some((index, None));
        return Some(E.ThinkingStart(index));
      }
      return None;
    }

    method SetThinkingSignature(signature: string)
      modifies this
      ensures (Snapshot(), None) == Apply(old(Snapshot()), Op.SetThinkingSignature(signature))
    {
      if thinkingIndex.Some? {
        thinkingIndex := Some((thinkingIndex.value.0, Some(signature)));
      }
    }

    method CloseThinking(signature: Option<string>) returns (event: Option<E.Event>)
      modifies this
      ensures (Snapshot(), event) == Apply(old(Snapshot()), Op.CloseThinking(signature))
    {
      event := None;
      if thinkingIndex.Some? {
        var (index, accumulated) := thinkingIndex.value;
        event := Some(E.ThinkingEnd(index, if signature.Some? then signature else accumulated));
      }
      thinkingIndex := None;
    }

    method ThinkingDelta(delta: string) returns (event: Option<E.Event>)
      ensures (Snapshot(), event) == Apply(Snapshot(), Op.ThinkingDelta(delta))
    {
      if thinkingIndex.None? {
        return None;
      }
      return Some(E.ThinkingDelta(thinkingIndex.value.0, delta));
    }

    method OpenToolCall(id: string, name: string) returns (index: nat, event: E.Event)
      modifies this
      ensures (Snapshot(), Some(event)) == Apply(old(Snapshot()), Op.OpenToolCall(id, name))
      ensures index == old(nextIndex)
    {
      index := AllocIndex();
      openToolCalls := openToolCalls + [index];
      event := E.ToolCallStart(index, id, name);
    }

    method CloseToolCall(index: nat) returns (event: Option<E.Event>)
      modifies this
      ensures (Snapshot(), event) == Apply(old(Snapshot()), Op.CloseToolCall(index))
    {
      var pos := 0;
      while pos < |openToolCalls| && openToolCalls[pos] != index
        invariant 0 <= pos <= |openToolCalls| && index !in openToolCalls[..pos]
      {
        pos := pos + 1;
      }
      WithoutAt(openToolCalls, pos, index);
      if pos < |openToolCalls| {
        openToolCalls := openToolCalls[..pos] + openToolCalls[pos + 1..];
        return Some(E.ToolCallEnd(index));
      }
      assert openToolCalls[..pos] == openToolCalls;
      return None;
    }

    static method ToolCallDelta(index: nat, delta: string) returns (event: E.Event)
      ensures forall p :: (p, Some(event)) == Apply(p, Op.ToolCallDelta(index, delta))
    {
      event := E.ToolCallDelta(index, delta);
    }

    method DrainOpenBlocks() returns (blocks: seq<OpenBlock>)
      modifies this
      ensures Snapshot() == old(Snapshot()).(text := None, thinking := None, tools := [])
      ensures blocks == SortByIndex(OpenBlocks(old(Snapshot())))
    {
      var entries: seq<OpenBlock> := [];
      if thinkingIndex.Some? {
        entries := entries + [Thinking(thinkingIndex.value.0, thinkingIndex.value.1)];
      }
      thinkingIndex := None;
      if textIndex.Some? {
        entries := entries + [Text(textIndex.value)];
      }
      textIndex := None;
      ghost var before := entries;
      var drained := openToolCalls;
      for i := 0 to |drained|
        invariant |entries| == |before| + i && entries[..|before|] == before
        invariant forall j :: 0 <= j < i ==> entries[|before| + j] == ToolCall(drained[j])
      {
        entries := entries + [ToolCall(drained[i])];
      }
      openToolCalls := [];
      assert entries == OpenBlocks(old(Snapshot()));
      blocks := SortByIndex(entries);
    }

    method FinalizeBlocks() returns (events: seq<E.Event>)
      modifies this
      ensures Snapshot() == old(Snapshot()).(text := None, thinking := None, tools := [])
      ensures events == FinalEvents(old(Snapshot()))
    {
      var blocks := DrainOpenBlocks();
      events := seq(|blocks|, i requires 0 <= i < |blocks| => EndEvent(blocks[i]));
    }
  }

  lemma WithoutAt(s: seq<nat>, pos: nat, x: nat)
    requires pos <= |s| && x !in s[..pos]
    requires pos < |s| ==> s[pos] == x
    ensures Without(s, x) == if pos < |s| then s[..pos] + s[pos + 1..] else s
    decreases pos
  {
    if pos > 0 {
      assert s[0] in s[..pos];
      assert s[1..][..pos - 1] == s[..pos][1..];
      WithoutAt(s[1..], pos - 1, x);
      if pos < |s| {
        assert s[..pos] + s[pos + 1..] == [s[0]] + (s[1..][..pos - 1] + s[1..][pos..]);
      }
    }
  }
}
