/** accumulate_message: rebuilding a message from its events, proved against the stream grammar. */
module StreamAccumulator {
  import opened Wrappers
  import opened Messages
  import opened StreamEvents
  import opened StreamGrammar

  // ---- the acceptor as a fold ----------------------------------------------------------

  /** `content` is None before Start; `open` says which blocks still await their end event. */
  datatype Acc = Acc(content: Option<seq<ContentBlock>>, open: seq<bool>, terminal: Option<Event>)

  const INITIAL := Acc(None, [], None)

  function Fresh(e: Event): ContentBlock
    requires e.IsOpening()
  {
    match e
    case TextStart(_) => Text("")
    case ThinkingStart(_) => Thinking("", None)
    case ToolCallStart(_, id, name) => ToolCall(id, name, Null, Some(""))
  }

  /** A block after one more of its own delta or end events; None when the event is refused. */
  function Feed(parse: Parser, truncated: bool, block: ContentBlock, e: Event): Option<ContentBlock>
    requires e.IsDelta() || e.IsClosing()
  {
    match (block, e)
    case (Text(text), TextDelta(_, delta)) => Some(Text(text + delta))
    case (Text(_), TextEnd(_)) => Some(block)
    case (Thinking(text, signature), ThinkingDelta(_, delta)) => Some(Thinking(text + delta, signature))
    case (Thinking(text, _), ThinkingEnd(_, signature)) => Some(Thinking(text, signature))
    case (ToolCall(id, name, args, Some(json)), ToolCallDelta(_, delta)) => Some(ToolCall(id, name, args, Some(json + delta)))
    case (ToolCall(id, name, _, Some(json)), ToolCallEnd(_)) =>
      if json == "" then Some(ToolCall(id, name, EMPTY_OBJECT, None))
      else if parse(json).Some? then Some(ToolCall(id, name, parse(json).value, None))
      else if truncated then Some(block)
      else None
    case _ => None
  }

  /** Whether a terminal event may arrive: no open block, or only tool calls when truncated. */
  ghost predicate MayEnd(truncated: bool, acc: Acc, e: Event) {
    forall i :: 0 <= i < |acc.open| && acc.open[i] ==>
      && truncated && e.Done?
      && acc.content.Some? && i < |acc.content.value| && acc.content.value[i].ToolCall?
  }

  /** One event; None when the event is refused. */
  ghost function Step(parse: Parser, truncated: bool, acc: Acc, e: Event): Option<Acc> {
    if acc.terminal.Some? then None
    else if e.Start? then
      if acc.content.Some? then None else Some(acc.(content := Some([])))
    else if e.IsTerminal() then
      if MayEnd(truncated, acc, e) then Some(acc.(terminal := Some(e))) else None
    else if acc.content.None? then None
    else
      var blocks := acc.content.value;
      if e.IsOpening() then
        if e.index == |blocks| then Some(acc.(content := Some(blocks + [Fresh(e)]), open := acc.open + [true])) else None
      else if e.index < |blocks| && e.index < |acc.open| && acc.open[e.index] then
        match Feed(parse, truncated, blocks[e.index], e)
        case Some(block) =>
          Some(acc.(content := Some(blocks[e.index := block]), open := acc.open[e.index := e.IsDelta()]))
        case None => None
      else None
  }

  ghost function Run(parse: Parser, truncated: bool, events: seq<Event>): Option<Acc> {
    if events == [] then Some(INITIAL)
    else
      match Run(parse, truncated, events[..|events| - 1])
      case Some(acc) => Step(parse, truncated, acc, events[|events| - 1])
      case None => None
  }

  lemma RunSnoc(parse: Parser, truncated: bool, events: seq<Event>, e: Event)
    ensures Run(parse, truncated, events + [e]) ==
            match Run(parse, truncated, events)
            case Some(acc) => Step(parse, truncated, acc, e)
            case None => None
  {
    assert (events + [e])[..|events|] == events;
  }

  /** A refused prefix refuses the whole stream. */
  lemma {:induction false} RefusalIsFinal(parse: Parser, truncated: bool, events: seq<Event>, i: nat)
    requires i <= |events|
    requires Run(parse, truncated, events[..i]).None?
    ensures Run(parse, truncated, events).None?
  {
    if i < |events| {
      assert events[..|events| - 1][..i] == events[..i];
      RefusalIsFinal(parse, truncated, events[..|events| - 1], i);
    } else {
      assert events[..i] == events;
    }
  }

  // ---- the fold against the grammar ------------------------------------------------------

  /** The acceptor's state after Start and a well-formed body. */
  ghost function StateOf(parse: Parser, truncated: bool, body: seq<Event>): Acc
    requires BodyOk(parse, truncated, body)
  {
    Acc(Some(Blocks(parse, truncated, body)), OpenFlags(body), None)
  }

  ghost function OpenFlags(body: seq<Event>): seq<bool> {
    seq(|Openings(body)|, (k: nat) requires k < |Openings(body)| => !Closed(Projection(body, k)))
  }

  /** What a well-formed trace admits next. */
  ghost predicate Admits(parse: Parser, truncated: bool, trace: seq<Event>, e: Event)
    requires TraceOk(parse, truncated, trace) && e.IsContent()
  {
    && !Closed(trace)
    && !e.IsOpening()
    && e.Kind() == trace[0].Kind()
    && (e.ToolCallEnd? ==> ArgumentsOk(parse, truncated, Joined(trace)))
  }

  lemma AdmittedExtends(parse: Parser, truncated: bool, trace: seq<Event>, e: Event)
    requires TraceOk(parse, truncated, trace) && e.IsContent() && Admits(parse, truncated, trace, e)
    ensures TraceOk(parse, truncated, trace + [e])
  {
    JoinedSnoc(trace, e);
    var longer := trace + [e];
    assert longer[|trace|] == e && forall i :: 0 <= i < |trace| ==> longer[i] == trace[i];
  }

  lemma ExtensionIsAdmitted(parse: Parser, truncated: bool, trace: seq<Event>, e: Event)
    requires TraceOk(parse, truncated, trace) && e.IsContent() && TraceOk(parse, truncated, trace + [e])
    ensures Admits(parse, truncated, trace, e)
  {
    JoinedSnoc(trace, e);
    var longer := trace + [e];
    assert longer[0] == trace[0] && longer[|trace|] == e && longer[|trace| - 1] == trace[|trace| - 1];
  }

  /** When a well-formed trace may take one more event. */
  lemma TraceSnoc(parse: Parser, truncated: bool, trace: seq<Event>, e: Event)
    requires TraceOk(parse, truncated, trace) && e.IsContent()
    ensures TraceOk(parse, truncated, trace + [e]) <==> Admits(parse, truncated, trace, e)
  {
    if Admits(parse, truncated, trace, e) {
      AdmittedExtends(parse, truncated, trace, e);
    }
    if TraceOk(parse, truncated, trace + [e]) {
      ExtensionIsAdmitted(parse, truncated, trace, e);
    }
  }

  /** Feeding a block is what extending its trace describes, and refusal is exactly a bad trace. */
  lemma FeedMatchesTrace(parse: Parser, truncated: bool, trace: seq<Event>, e: Event)
    requires TraceOk(parse, truncated, trace) && !Closed(trace)
    requires e.IsDelta() || e.IsClosing()
    ensures TraceOk(parse, truncated, trace + [e]) <==> Feed(parse, truncated, BlockOf(parse, trace), e).Some?
    ensures TraceOk(parse, truncated, trace + [e]) ==>
            && Feed(parse, truncated, BlockOf(parse, trace), e) == Some(BlockOf(parse, trace + [e]))
            && Closed(trace + [e]) == !e.IsDelta()
  {
    JoinedSnoc(trace, e);
    TraceSnoc(parse, truncated, trace, e);
    assert (trace + [e])[0] == trace[0] && (trace + [e])[|trace|] == e;
  }

  /** A well-formed body has only well-formed prefixes. */
  lemma PrefixOk(parse: Parser, truncated: bool, body: seq<Event>, e: Event)
    requires BodyOk(parse, truncated, body + [e])
    ensures BodyOk(parse, truncated, body)
  {
    OpeningsSnoc(body, e);
    assert (body + [e])[|body|] == e;
    forall i | 0 <= i < |body| ensures body[i].IsContent() { assert (body + [e])[i] == body[i]; }
    forall i | 0 <= i < |Openings(body)| ensures Openings(body)[i] == i { assert Openings(body + [e])[i] == Openings(body)[i]; }
    forall k: nat | k < |Openings(body)| ensures TraceOk(parse, truncated, Projection(body, k)) {
      assert Openings(body)[k] == k;
      OpenedHasEvents(body, k);
      ProjectionSnoc(body, e, k);
      TracePrefixOk(parse, truncated, Projection(body, k), Projection(body + [e], k));
    }
    forall k: nat | k >= |Openings(body)| ensures Projection(body, k) == [] {
      ProjectionSnoc(body, e, k);
      if k < |Openings(body + [e])| {
        var trace := Projection(body + [e], k);
        assert Openings(body + [e])[|Openings(body)|] == e.index == k;
        assert trace[|trace| - 1] == e;
      }
    }
  }

  lemma TracePrefixOk(parse: Parser, truncated: bool, trace: seq<Event>, longer: seq<Event>)
    requires trace != [] && trace <= longer <= trace + [longer[|longer| - 1]]
    requires TraceOk(parse, truncated, longer)
    ensures TraceOk(parse, truncated, trace)
  {
    if |longer| == |trace| {
      assert longer == trace;
    } else {
      assert forall i :: 0 <= i < |trace| ==> trace[i] == longer[i];
      assert |trace| > 1 ==> longer[|trace| - 1].IsDelta();
    }
  }

  /** A one-event block is well formed and is the fresh block of its opening event. */
  lemma FreshTrace(parse: Parser, truncated: bool, e: Event)
    requires e.IsOpening()
    ensures TraceOk(parse, truncated, [e]) && BlockOf(parse, [e]) == Fresh(e) && !Closed([e])
  {
    assert JoinedUpTo([e], 0) == "";
  }

  /** An opening event that takes the next index adds a one-event block and leaves the others alone. */
  lemma OpeningProjections(body: seq<Event>, e: Event)
    requires e.IsOpening() && e.index == |Openings(body)| && Projection(body, e.index) == []
    ensures Openings(body + [e]) == Openings(body) + [e.index]
    ensures forall k: nat :: Projection(body + [e], k) == if k == e.index then [e] else Projection(body, k)
  {
    OpeningsSnoc(body, e);
    forall k: nat ensures Projection(body + [e], k) == if k == e.index then [e] else Projection(body, k) {
      ProjectionSnoc(body, e, k);
      assert [] + [e] == [e];
    }
  }

  /** An opening event keeps a body well formed exactly when it takes the next index. */
  lemma OpeningOk(parse: Parser, truncated: bool, body: seq<Event>, e: Event)
    requires BodyOk(parse, truncated, body) && e.IsOpening()
    ensures BodyOk(parse, truncated, body + [e]) <==> e.index == |Openings(body)|
  {
    OpeningsSnoc(body, e);
    assert Openings(body + [e])[|Openings(body)|] == e.index;
    if e.index == |Openings(body)| {
      OpeningProjections(body, e);
      FreshTrace(parse, truncated, e);
    }
  }

  /** An opening event is accepted exactly when it takes the next index. */
  lemma OpeningStep(parse: Parser, truncated: bool, body: seq<Event>, e: Event)
    requires BodyOk(parse, truncated, body) && e.IsOpening()
    ensures Step(parse, truncated, StateOf(parse, truncated, body), e) ==
            if BodyOk(parse, truncated, body + [e]) then Some(StateOf(parse, truncated, body + [e])) else None
  {
    OpeningOk(parse, truncated, body, e);
    if e.index == |Openings(body)| {
      OpeningProjections(body, e);
      FreshTrace(parse, truncated, e);
      assert Blocks(parse, truncated, body + [e]) == Blocks(parse, truncated, body) + [Fresh(e)];
      assert OpenFlags(body + [e]) == OpenFlags(body) + [true];
    }
  }

  /** A delta or end event touches the events of its own block only. */
  lemma FeedingProjections(body: seq<Event>, e: Event)
    requires e.IsDelta() || e.IsClosing()
    ensures Openings(body + [e]) == Openings(body)
    ensures forall k: nat :: Projection(body + [e], k) ==
                             if k == e.index then Projection(body, k) + [e] else Projection(body, k)
  {
    OpeningsSnoc(body, e);
    forall k: nat ensures Projection(body + [e], k) == if k == e.index then Projection(body, k) + [e] else Projection(body, k) {
      ProjectionSnoc(body, e, k);
    }
  }

  /** A delta or end event keeps a body well formed exactly when it extends its block's trace. */
  lemma FeedingOk(parse: Parser, truncated: bool, body: seq<Event>, e: Event)
    requires BodyOk(parse, truncated, body) && (e.IsDelta() || e.IsClosing())
    ensures BodyOk(parse, truncated, body + [e]) <==>
            e.index < |Openings(body)| && TraceOk(parse, truncated, Projection(body, e.index) + [e])
  {
    FeedingProjections(body, e);
    assert e.index >= |Openings(body)| ==> Projection(body + [e], e.index) != [];
  }

  /** What feeding an event does to the state: only the block it names matters. */
  lemma FeedingEffect(parse: Parser, truncated: bool, body: seq<Event>, e: Event)
    requires BodyOk(parse, truncated, body) && (e.IsDelta() || e.IsClosing())
    ensures Step(parse, truncated, StateOf(parse, truncated, body), e) ==
            if e.index >= |Openings(body)| || Closed(Projection(body, e.index)) then None
            else
              assert TraceOk(parse, truncated, Projection(body, e.index));
              match Feed(parse, truncated, BlockOf(parse, Projection(body, e.index)), e)
              case None => None
              case Some(block) =>
                Some(Acc(Some(Blocks(parse, truncated, body)[e.index := block]), OpenFlags(body)[e.index := e.IsDelta()], None))
  {
  }

  /** A delta or end event is accepted exactly when the body stays well formed. */
  lemma FeedingStep(parse: Parser, truncated: bool, body: seq<Event>, e: Event)
    requires BodyOk(parse, truncated, body) && (e.IsDelta() || e.IsClosing())
    ensures Step(parse, truncated, StateOf(parse, truncated, body), e) ==
            if BodyOk(parse, truncated, body + [e]) then Some(StateOf(parse, truncated, body + [e])) else None
  {
    FeedingOk(parse, truncated, body, e);
    FeedingEffect(parse, truncated, body, e);
    if e.index < |Openings(body)| {
      var trace := Projection(body, e.index);
      assert TraceOk(parse, truncated, trace);
      if Closed(trace) {
        TraceSnoc(parse, truncated, trace, e);
      } else {
        FeedMatchesTrace(parse, truncated, trace, e);
        if BodyOk(parse, truncated, body + [e]) {
          FeedingBlocks(parse, truncated, body, e);
          FeedingFlags(body, e);
        }
      }
    }
  }

  lemma FeedingBlocks(parse: Parser, truncated: bool, body: seq<Event>, e: Event)
    requires BodyOk(parse, truncated, body) && BodyOk(parse, truncated, body + [e])
    requires (e.IsDelta() || e.IsClosing()) && e.index < |Openings(body)|
    requires TraceOk(parse, truncated, Projection(body, e.index) + [e])
    ensures Blocks(parse, truncated, body + [e]) ==
            Blocks(parse, truncated, body)[e.index := BlockOf(parse, Projection(body, e.index) + [e])]
  {
    FeedingProjections(body, e);
    var before, after := Blocks(parse, truncated, body), Blocks(parse, truncated, body + [e]);
    forall k: nat | k < |before|
      ensures after[k] == if k == e.index then BlockOf(parse, Projection(body, k) + [e]) else before[k]
    {
    }
  }

  lemma FeedingFlags(body: seq<Event>, e: Event)
    requires (e.IsDelta() || e.IsClosing()) && e.index < |Openings(body)|
    ensures OpenFlags(body + [e]) == OpenFlags(body)[e.index := e.IsDelta()]
  {
    FeedingProjections(body, e);
    assert Closed(Projection(body, e.index) + [e]) == e.IsClosing();
  }

  /** One more content event: the state stays the one the body describes, or the event is refused. */
  lemma ContentStepMatches(parse: Parser, truncated: bool, body: seq<Event>, e: Event)
    requires BodyOk(parse, truncated, body) && e.IsContent()
    ensures Step(parse, truncated, StateOf(parse, truncated, body), e) ==
            if BodyOk(parse, truncated, body + [e]) then Some(StateOf(parse, truncated, body + [e])) else None
  {
    if e.IsOpening() {
      OpeningStep(parse, truncated, body, e);
    } else {
      FeedingStep(parse, truncated, body, e);
    }
  }

  /** After Start, the acceptor survives exactly the well-formed bodies, holding the blocks they describe. */
  lemma {:induction false} RunBody(parse: Parser, truncated: bool, body: seq<Event>)
    requires forall i :: 0 <= i < |body| ==> body[i].IsContent()
    ensures Run(parse, truncated, [Start] + body) ==
            if BodyOk(parse, truncated, body) then Some(StateOf(parse, truncated, body)) else None
  {
    if body == [] {
      StartState(parse, truncated);
      assert [Start] + body == [Start];
    } else {
      var init, e := body[..|body| - 1], body[|body| - 1];
      assert body == init + [e] && [Start] + body == ([Start] + init) + [e];
      RunBody(parse, truncated, init);
      RunSnoc(parse, truncated, [Start] + init, e);
      if BodyOk(parse, truncated, init) {
        ContentStepMatches(parse, truncated, init, e);
      } else if BodyOk(parse, truncated, body) {
        PrefixOk(parse, truncated, init, e);
      }
    }
  }

  lemma StartState(parse: Parser, truncated: bool)
    ensures BodyOk(parse, truncated, [])
    ensures Run(parse, truncated, [Start]) == Some(StateOf(parse, truncated, []))
  {
    assert [] + [Start] == [Start];
    RunSnoc(parse, truncated, [], Start);
    assert Blocks(parse, truncated, []) == [] && OpenFlags([]) == [];
  }

  // ---- whole streams ---------------------------------------------------------------------

  predicate Tolerates(events: seq<Event>) {
    exists i :: 0 <= i < |events| && Truncates(events[i])
  }

  /** Where a stream that has not been refused can stand. */
  lemma {:induction false} RunShape(parse: Parser, truncated: bool, events: seq<Event>)
    requires Run(parse, truncated, events).Some?
    ensures var acc := Run(parse, truncated, events).value;
            if acc.content.None? then
              if acc.terminal.None? then events == [] else events == [acc.terminal.value] && acc.terminal.value.IsTerminal()
            else
              var cut := if acc.terminal.None? then |events| else |events| - 1;
              && 1 <= cut
              && events[0].Start?
              && (forall i :: 1 <= i < cut ==> events[i].IsContent())
              && (acc.terminal.Some? ==> acc.terminal.value == events[cut] && events[cut].IsTerminal())
  {
    if events != [] {
      RunShape(parse, truncated, events[..|events| - 1]);
    }
  }

  /** The terminal check is the grammar's rule for unfinished blocks. */
  lemma MayEndMatches(parse: Parser, truncated: bool, body: seq<Event>, end: Event)
    requires BodyOk(parse, truncated, body) && end.IsTerminal() && truncated == Truncates(end)
    ensures MayEnd(truncated, StateOf(parse, truncated, body), end) <==> Finished(truncated, body)
  {
    var acc := StateOf(parse, truncated, body);
    forall k: nat | k < |Openings(body)|
      ensures acc.open[k] == !Closed(Projection(body, k))
      ensures acc.content.value[k].ToolCall? <==> Projection(body, k)[0].ToolCallStart?
      ensures Projection(body, k) != []
    {
      assert TraceOk(parse, truncated, Projection(body, k));
    }
  }

  /** A stream cut into Start, content events and one terminal. */
  lemma FramedRun(parse: Parser, events: seq<Event>, body: seq<Event>, end: Event)
    requires events == [Start] + body + [end] && end.IsTerminal()
    requires forall i :: 0 <= i < |body| ==> body[i].IsContent()
    ensures Tolerates(events) == Truncates(end)
    ensures Run(parse, Tolerates(events), events) ==
            if BodyOk(parse, Truncates(end), body) && Finished(Truncates(end), body)
            then Some(StateOf(parse, Truncates(end), body).(terminal := Some(end)))
            else None
  {
    assert events[|events| - 1] == end;
    assert forall i :: 0 <= i < |events| - 1 ==> events[i] == ([Start] + body)[i] && !Truncates(events[i]);
    var truncated := Truncates(end);
    RunBody(parse, truncated, body);
    RunSnoc(parse, truncated, [Start] + body, end);
    if BodyOk(parse, truncated, body) {
      MayEndMatches(parse, truncated, body, end);
    }
  }

  /** The fold completes exactly on the streams the grammar accepts, with the blocks the grammar describes. */
  lemma RunDecidesStream(parse: Parser, events: seq<Event>)
    ensures var run := Run(parse, Tolerates(events), events);
            && (StreamOk(parse, events) <==> run.Some? && run.value.content.Some? && run.value.terminal.Some?)
            && (StreamOk(parse, events) ==>
                  var end := events[|events| - 1];
                  && run.value.content.value == Blocks(parse, Truncates(end), Body(events))
                  && run.value.terminal.value == end)
  {
    var run := Run(parse, Tolerates(events), events);
    if run.Some? {
      RunShape(parse, Tolerates(events), events);
    }
    if StreamOk(parse, events) || (run.Some? && run.value.content.Some? && run.value.terminal.Some?) {
      FrameOf(events);
      FramedRun(parse, events, Body(events), events[|events| - 1]);
    }
  }

  lemma FrameOf(events: seq<Event>)
    requires |events| >= 2 && events[0].Start?
    ensures events == [Start] + Body(events) + [events[|events| - 1]]
    ensures forall i :: 0 <= i < |Body(events)| ==> Body(events)[i] == events[i + 1]
  {
  }

  /** What accumulating a stream means: the message it describes if it is well formed, else a failure. */
  ghost function Outcome(parse: Parser, events: seq<Event>, provider: string, modelId: string, now: nat): Result<AssistantMessage> {
    if StreamOk(parse, events) then Ok(MessageOf(parse, events, provider, modelId, now)) else Err
  }

  lemma RefusedOutcome(parse: Parser, events: seq<Event>, i: nat, provider: string, modelId: string, now: nat)
    requires i <= |events| && Run(parse, Tolerates(events), events[..i]).None?
    ensures Outcome(parse, events, provider, modelId, now) == Err
  {
    RefusalIsFinal(parse, Tolerates(events), events, i);
    RunDecidesStream(parse, events);
  }

  lemma CompletedOutcome(parse: Parser, events: seq<Event>, acc: Acc, provider: string, modelId: string, now: nat)
    requires Run(parse, Tolerates(events), events) == Some(acc)
    ensures Outcome(parse, events, provider, modelId, now) ==
            if acc.content.None? || acc.terminal.None? || !acc.terminal.value.IsTerminal() then Err
            else
              var end := acc.terminal.value;
              Ok(AssistantMessage(
                  acc.content.value, provider, modelId,
                  if end.Done? then end.usage else end.lastUsage.GetOr(NO_USAGE),
                  if end.Done? then end.cost else NO_COST,
                  end.stopReason,
                  if end.Done? then None else Some(end.errorMessage),
                  if end.Done? then None else end.errorKind,
                  now))
  {
    RunDecidesStream(parse, events);
    RunShape(parse, Tolerates(events), events);
  }

  predicate EnsureBlockOpen(openBlocks: seq<bool>, index: nat) {
    index < |openBlocks| ==> openBlocks[index]
  }

  predicate AllOpenBlocksAreToolCalls(content: seq<ContentBlock>, openBlocks: seq<bool>) {
    forall i :: 0 <= i < |openBlocks| && openBlocks[i] ==> i < |content| && content[i].ToolCall?
  }

  predicate ValidateTerminalOpenBlocks(content: Option<seq<ContentBlock>>, openBlocks: seq<bool>, tolerate: bool) {
    (exists i :: 0 <= i < |openBlocks| && openBlocks[i]) ==>
      content.Some? && tolerate && AllOpenBlocksAreToolCalls(content.value, openBlocks)
  }

  /** What one content event does to the blocks received so far; None when it is refused. */
  ghost function ContentStep(parse: Parser, tolerate: bool, blocks: seq<ContentBlock>, open: seq<bool>, e: Event): Option<(seq<ContentBlock>, seq<bool>)>
    requires e.IsContent()
  {
    match Step(parse, tolerate, Acc(Some(blocks), open, None), e)
    case Some(Acc(Some(blocks'), open', _)) => Some((blocks', open'))
    case _ => None
  }

  method AccumulateText(parse: Parser, tolerate: bool, blocks: seq<ContentBlock>, open: seq<bool>, event: Event)
    returns (r: Option<(seq<ContentBlock>, seq<bool>)>)
    requires |open| == |blocks|
    requires event.IsContent() && event.Kind() == TextKind
    ensures r == ContentStep(parse, tolerate, blocks, open, event)
  {
    match event {
      case TextStart(index) =>
        if index != |blocks| {
          return None;
        }
        return Some((blocks + [Text("")], open + [true]));

      case TextDelta(index, delta) =>
        if !EnsureBlockOpen(open, index) || index >= |blocks| {
          return None;
        }
        assert open == open[index := true];
        match blocks[index] {
          case Text(text) => return Some((blocks[index := Text(text + delta)], open));
          case _ => return None;
        }

      case TextEnd(index) =>
        if index >= |blocks| || !blocks[index].Text? || !EnsureBlockOpen(open, index) {
          return None;
        }
        assert blocks == blocks[index := blocks[index]];
        return Some((blocks, open[index := false]));
    }
  }

  method AccumulateThinking(parse: Parser, tolerate: bool, blocks: seq<ContentBlock>, open: seq<bool>, event: Event)
    returns (r: Option<(seq<ContentBlock>, seq<bool>)>)
    requires |open| == |blocks|
    requires event.IsContent() && event.Kind() == ThinkingKind
    ensures r == ContentStep(parse, tolerate, blocks, open, event)
  {
    match event {
      case ThinkingStart(index) =>
        if index != |blocks| {
          return None;
        }
        return Some((blocks + [Thinking("", None)], open + [true]));

      case ThinkingDelta(index, delta) =>
        if !EnsureBlockOpen(open, index) || index >= |blocks| {
          return None;
        }
        assert open == open[index := true];
        match blocks[index] {
          case Thinking(text, signature) => return Some((blocks[index := Thinking(text + delta, signature)], open));
          case _ => return None;
        }

      case ThinkingEnd(index, signature) =>
        if !EnsureBlockOpen(open, index) || index >= |blocks| {
          return None;
        }
        match blocks[index] {
          case Thinking(text, _) => return Some((blocks[index := Thinking(text, signature)], open[index := false]));
          case _ => return None;
        }
    }
  }

  method AccumulateToolCall(parse: Parser, tolerate: bool, blocks: seq<ContentBlock>, open: seq<bool>, event: Event)
    returns (r: Option<(seq<ContentBlock>, seq<bool>)>)
    requires |open| == |blocks|
    requires event.IsContent() && event.Kind() == ToolKind
    ensures r == ContentStep(parse, tolerate, blocks, open, event)
  {
    match event {
      case ToolCallStart(index, id, name) =>
        if index != |blocks| {
          return None;
        }
        return Some((blocks + [ToolCall(id, name, Null, Some(""))], open + [true]));

      case ToolCallDelta(index, delta) =>
        if !EnsureBlockOpen(open, index) || index >= |blocks| {
          return None;
        }
        assert open == open[index := true];
        match blocks[index] {
          case ToolCall(id, name, args, Some(json)) =>
            return Some((blocks[index := ToolCall(id, name, args, Some(json + delta))], open));
          case _ => return None;
        }

      case ToolCallEnd(index) =>
        if index >= |blocks| || !EnsureBlockOpen(open, index) {
          return None;
        }
        match blocks[index] {
          case ToolCall(id, name, args, Some(json)) =>
            var block := blocks[index];
            if json == "" {
              block := ToolCall(id, name, EMPTY_OBJECT, None);
            } else {
              match parse(json) {
                case Some(v) => block := ToolCall(id, name, v, None);
                case None =>
                  if !tolerate {
                    return None;
                  }
              }
            }
            return Some((blocks[index := block], open[index := false]));
          case _ => return None;
        }
    }
  }

  method AccumulateContent(parse: Parser, tolerate: bool, blocks: seq<ContentBlock>, open: seq<bool>, event: Event)
    returns (r: Option<(seq<ContentBlock>, seq<bool>)>)
    requires |open| == |blocks|
    requires event.IsContent()
    ensures r == ContentStep(parse, tolerate, blocks, open, event)
    ensures r.Some? ==> |r.value.0| == |r.value.1|
  {
    var kind := event.Kind();
    if kind == TextKind {
      r := AccumulateText(parse, tolerate, blocks, open, event);
    } else if kind == ThinkingKind {
      r := AccumulateThinking(parse, tolerate, blocks, open, event);
    } else {
      r := AccumulateToolCall(parse, tolerate, blocks, open, event);
    }
  }

  method AccumulateMessage(parse: Parser, events: seq<Event>, provider: string, modelId: string, now: nat)
    returns (r: Result<AssistantMessage>)
    ensures r == Outcome(parse, events, provider, modelId, now)
  {
    var content: Option<seq<ContentBlock>> := None;
    var openBlocks: seq<bool> := [];
    var stopReason: Option<StopReason> := None;
    var usage: Option<Usage> := None;
    var cost: Option<Cost> := None;
    var errorMessage: Option<string> := None;
    var errorKind: Option<ErrorKind> := None;
    var sawStart := false;
    var sawTerminal := false;
    var tolerate := exists i :: 0 <= i < |events| && Truncates(events[i]);
    ghost var terminal: Option<Event> := None;

    for i := 0 to |events|
      invariant Run(parse, tolerate, events[..i]) == Some(Acc(content, openBlocks, terminal))
      invariant sawStart == content.Some? && sawTerminal == terminal.Some?
      invariant |openBlocks| == |content.GetOr([])|
      invariant terminal.None? ==> stopReason == None && usage == None && cost == None && errorMessage == None && errorKind == None
      invariant terminal.Some? ==>
                  var end := terminal.value;
                  && end.IsTerminal()
                  && stopReason == Some(end.stopReason)
                  && usage == (if end.Done? then Some(end.usage) else end.lastUsage)
                  && cost == (if end.Done? then Some(end.cost) else None)
                  && errorMessage == (if end.Done? then None else Some(end.errorMessage))
                  && errorKind == (if end.Done? then None else end.errorKind)
    {
      var event := events[i];
      assert events[..i + 1] == events[..i] + [event];
      RunSnoc(parse, tolerate, events[..i], event);
      if Step(parse, tolerate, Acc(content, openBlocks, terminal), event).None? {
        RefusedOutcome(parse, events, i + 1, provider, modelId, now);
      }

      if sawTerminal {
        return Err;
      }
      if event.IsContent() {
        if content.None? {
          return Err;
        }
        var fed := AccumulateContent(parse, tolerate, content.value, openBlocks, event);
        if fed.None? {
          return Err;
        }
        content, openBlocks := Some(fed.value.0), fed.value.1;
      } else if event.Start? {
        if sawStart {
          return Err;
        }
        sawStart := true;
        content := Some([]);
      } else {
        if !ValidateTerminalOpenBlocks(content, openBlocks, tolerate && event.Done?) {
          return Err;
        }
        stopReason := Some(event.stopReason);
        if event.Done? {
          usage, cost := Some(event.usage), Some(event.cost);
        } else {
          errorMessage, errorKind := Some(event.errorMessage), event.errorKind;
          if event.lastUsage.Some? {
            usage := event.lastUsage;
          }
        }
        sawTerminal, terminal := true, Some(event);
      }
    }
    assert events[..|events|] == events;
    CompletedOutcome(parse, events, Acc(content, openBlocks, terminal), provider, modelId, now);
    if content.None? || stopReason.None? {
      return Err;
    }
    return Ok(AssistantMessage(content.value, provider, modelId, usage.GetOr(NO_USAGE), cost.GetOr(NO_COST),
                               stopReason.value, errorMessage, errorKind, now));
  }
}
