/** sanitize_incomplete_tool_calls: making a truncated message safe to replay to a provider. */
module StreamSanitize {
  import opened Wrappers
  import opened Messages
  import opened StreamEvents
  import opened StreamGrammar

  predicate NeedsFix(block: ContentBlock) {
    block.ToolCall? && (block.partialJson.Some? || !block.arguments.Object?)
  }

  function Repaired(block: ContentBlock): ContentBlock {
    if NeedsFix(block) then block.(arguments := EMPTY_OBJECT, partialJson := None) else block
  }

  ghost function Sanitized(blocks: seq<ContentBlock>): seq<ContentBlock> {
    seq(|blocks|, i requires 0 <= i < |blocks| => Repaired(blocks[i]))
  }

  /** The number of blocks that need repair. */
  ghost function Incomplete(blocks: seq<ContentBlock>): nat {
    if blocks == [] then 0
    else Incomplete(blocks[..|blocks| - 1]) + if NeedsFix(blocks[|blocks| - 1]) then 1 else 0
  }

  method SanitizeIncompleteToolCalls(content: array<ContentBlock>) returns (fixed: nat)
    modifies content
    ensures content[..] == Sanitized(old(content[..]))
    ensures fixed == Incomplete(old(content[..]))
  {
    fixed := 0;
    ghost var before := content[..];
    for i := 0 to content.Length
      invariant fixed == Incomplete(before[..i])
      invariant forall k :: 0 <= k < i ==> content[k] == Repaired(before[k])
      invariant forall k :: i <= k < content.Length ==> content[k] == before[k]
    {
      assert before[..i + 1][..i] == before[..i];
      match content[i] {
        case ToolCall(id, name, args, json) =>
          if json.Some? || !args.Object? {
            content[i] := ToolCall(id, name, EMPTY_OBJECT, None);
            fixed := fixed + 1;
          }
        case _ =>
      }
    }
    assert before[..content.Length] == before;
  }

  /** The positions of tool calls that still have partial JSON or whose arguments are no object. */
  ghost function IncompleteAt(blocks: seq<ContentBlock>): set<nat> {
    set i: nat | i < |blocks| && blocks[i].ToolCall? && (blocks[i].partialJson.Some? || !blocks[i].arguments.Object?)
  }

  /** The count is the number of these positions. */
  lemma {:induction false} IncompleteCounts(blocks: seq<ContentBlock>)
    ensures Incomplete(blocks) == |IncompleteAt(blocks)|
  {
    if blocks != [] {
      var n := |blocks| - 1;
      IncompleteCounts(blocks[..n]);
      assert IncompleteAt(blocks) == if NeedsFix(blocks[n]) then IncompleteAt(blocks[..n]) + {n} else IncompleteAt(blocks[..n]);
    }
  }

  /** Repair gives such a tool call an empty object, keeps its id and name, and leaves every other block alone. */
  lemma RepairedIs(block: ContentBlock)
    ensures Repaired(block) ==
            if block.ToolCall? && (block.partialJson.Some? || !block.arguments.Object?)
            then ToolCall(block.id, block.name, Object(map[]), None)
            else block
  {
  }

  /** A second pass finds nothing to repair and changes nothing. */
  lemma {:induction false} SanitizeIsIdempotent(blocks: seq<ContentBlock>)
    ensures Incomplete(Sanitized(blocks)) == 0 && Sanitized(Sanitized(blocks)) == Sanitized(blocks)
    decreases |blocks|
  {
    if blocks != [] {
      var init := blocks[..|blocks| - 1];
      SanitizeIsIdempotent(init);
      assert Sanitized(blocks)[..|blocks| - 1] == Sanitized(init);
    }
  }

  /** Arguments the stream delivered whole: an object, or nothing at all. */
  predicate DeliveredObject(parse: Parser, trace: seq<Event>) {
    Closed(trace) && (Joined(trace) == "" || (parse(Joined(trace)).Some? && parse(Joined(trace)).value.Object?))
  }

  /** On any accepted stream, repair touches exactly the tool calls whose arguments did not arrive as
      an object, keeps their id and name, and leaves every other block as accumulated. */
  lemma SanitizeAfterStream(parse: Parser, events: seq<Event>, k: nat)
    requires StreamOk(parse, events) && k < |Openings(Body(events))|
    ensures var blocks, trace := Blocks(parse, Truncates(events[|events| - 1]), Body(events)), Projection(Body(events), k);
            && trace != []
            && Sanitized(blocks)[k] ==
               if trace[0].ToolCallStart? && !DeliveredObject(parse, trace)
               then ToolCall(trace[0].id, trace[0].name, EMPTY_OBJECT, None)
               else blocks[k]
    ensures Sanitized(Blocks(parse, Truncates(events[|events| - 1]), Body(events)))[k].ToolCall? ==>
              var block := Sanitized(Blocks(parse, Truncates(events[|events| - 1]), Body(events)))[k];
              block.arguments.Object? && block.partialJson == None
  {
    assert TraceOk(parse, Truncates(events[|events| - 1]), Projection(Body(events), k));
  }
}
