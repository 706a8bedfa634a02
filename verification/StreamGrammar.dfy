/** What a stream must look like, block by block, and the message such a stream describes.
    Nothing here mentions the accumulator: this is the reference it is proved against. */
module StreamGrammar {
  import opened Wrappers
  import opened Messages
  import opened StreamEvents

  // ---- one block ---------------------------------------------------------------------

  /** The deltas of a block's events, joined in order. */
  function Joined(trace: seq<Event>): string {
    JoinedUpTo(trace, |trace|)
  }

  function JoinedUpTo(trace: seq<Event>, n: nat): string
    requires n <= |trace|
  {
    if n == 0 then ""
    else
      var text := JoinedUpTo(trace, n - 1);
      if trace[n - 1].IsDelta() then text + trace[n - 1].delta else text
  }

  predicate Closed(trace: seq<Event>) {
    trace != [] && trace[|trace| - 1].IsClosing()
  }

  /** Tool arguments may be empty (an empty object) or JSON; a length-limited stream may truncate them. */
  predicate ArgumentsOk(parse: Parser, truncated: bool, text: string) {
    truncated || text == "" || parse(text).Some?
  }

  /** start delta* end?, all of one kind; a closed tool call has acceptable arguments. */
  ghost predicate TraceOk(parse: Parser, truncated: bool, trace: seq<Event>) {
    && trace != []
    && trace[0].IsOpening()
    && (forall i :: 0 <= i < |trace| ==> trace[i].IsContent() && trace[i].Kind() == trace[0].Kind())
    && (forall i :: 0 < i < |trace| - 1 ==> trace[i].IsDelta())
    && (|trace| > 1 ==> !trace[|trace| - 1].IsOpening())
    && (Closed(trace) && trace[0].ToolCallStart? ==> ArgumentsOk(parse, truncated, Joined(trace)))
  }

  /** The content block a block's events describe. */
  function BlockOf(parse: Parser, trace: seq<Event>): ContentBlock
    requires trace != [] && trace[0].IsOpening()
  {
    var text := Joined(trace);
    match trace[0]
    case TextStart(_) => Text(text)
    case ThinkingStart(_) =>
      var last := trace[|trace| - 1];
      Thinking(text, if last.ThinkingEnd? then last.signature else None)
    case ToolCallStart(_, id, name) =>
      if !Closed(trace) then ToolCall(id, name, Null, Some(text))
      else if text == "" then ToolCall(id, name, EMPTY_OBJECT, None)
      else match parse(text)
        case Some(v) => ToolCall(id, name, v, None)
        case None => ToolCall(id, name, Null, Some(text))
  }

  // ---- the blocks of a stream --------------------------------------------------------

  /** The events that belong to block `k`, in order. */
  function Projection(body: seq<Event>, k: nat): seq<Event> {
    ProjectionUpTo(body, k, |body|)
  }

  function ProjectionUpTo(body: seq<Event>, k: nat, n: nat): seq<Event>
    requires n <= |body|
  {
    if n == 0 then []
    else
      var trace := ProjectionUpTo(body, k, n - 1);
      if body[n - 1].IsContent() && body[n - 1].index == k then trace + [body[n - 1]] else trace
  }

  /** The indices of the blocks opened, in the order they were opened. */
  function Openings(body: seq<Event>): seq<nat> {
    OpeningsUpTo(body, |body|)
  }

  function OpeningsUpTo(body: seq<Event>, n: nat): seq<nat>
    requires n <= |body|
  {
    if n == 0 then []
    else
      var indices := OpeningsUpTo(body, n - 1);
      if body[n - 1].IsOpening() then indices + [body[n - 1].index] else indices
  }

  /** Blocks are numbered 0, 1, 2, ... as they open, and each one's events are well formed. */
  ghost predicate BodyOk(parse: Parser, truncated: bool, body: seq<Event>) {
    && (forall i :: 0 <= i < |body| ==> body[i].IsContent())
    && (forall i :: 0 <= i < |Openings(body)| ==> Openings(body)[i] == i)
    && (forall k: nat :: k < |Openings(body)| ==> TraceOk(parse, truncated, Projection(body, k)))
    && (forall k: nat :: k >= |Openings(body)| ==> Projection(body, k) == [])
  }

  /** Every block is closed, except that truncation may leave tool calls open. */
  ghost predicate Finished(truncated: bool, body: seq<Event>) {
    forall k: nat :: k < |Openings(body)| ==>
      var trace := Projection(body, k);
      Closed(trace) || (truncated && trace != [] && trace[0].ToolCallStart?)
  }

  // ---- whole streams -----------------------------------------------------------------

  predicate Truncates(e: Event) {
    e.Done? && e.stopReason == Length
  }

  /** One Start first, one terminal last, and a well-formed, finished body between them. */
  ghost predicate StreamOk(parse: Parser, events: seq<Event>) {
    && |events| >= 2
    && events[0].Start?
    && events[|events| - 1].IsTerminal()
    && var body, cut := Body(events), Truncates(events[|events| - 1]);
       BodyOk(parse, cut, body) && Finished(cut, body)
  }

  function Body(events: seq<Event>): seq<Event>
    requires |events| >= 2
  {
    events[1..|events| - 1]
  }

  ghost function Blocks(parse: Parser, truncated: bool, body: seq<Event>): seq<ContentBlock>
    requires BodyOk(parse, truncated, body)
  {
    seq(|Openings(body)|, (k: nat) requires k < |Openings(body)| =>
      assert TraceOk(parse, truncated, Projection(body, k)); BlockOf(parse, Projection(body, k)))
  }

  /** The message a well-formed stream describes. */
  ghost function MessageOf(parse: Parser, events: seq<Event>, provider: string, modelId: string, now: nat): AssistantMessage
    requires StreamOk(parse, events)
  {
    var end := events[|events| - 1];
    AssistantMessage(
      Blocks(parse, Truncates(end), Body(events)),
      provider,
      modelId,
      if end.Done? then end.usage else end.lastUsage.GetOr(NO_USAGE),
      if end.Done? then end.cost else NO_COST,
      end.stopReason,
      if end.Done? then None else Some(end.errorMessage),
      if end.Done? then None else end.errorKind,
      now)
  }

  // ---- basic laws ----------------------------------------------------------------------

  lemma {:induction false} ProjectionOfPrefix(a: seq<Event>, b: seq<Event>, k: nat, n: nat)
    requires n <= |a|
    ensures ProjectionUpTo(a + b, k, n) == ProjectionUpTo(a, k, n)
  {
    if n > 0 {
      ProjectionOfPrefix(a, b, k, n - 1);
    }
  }

  lemma ProjectionSnoc(body: seq<Event>, e: Event, k: nat)
    ensures Projection(body + [e], k) ==
            if e.IsContent() && e.index == k then Projection(body, k) + [e] else Projection(body, k)
  {
    ProjectionOfPrefix(body, [e], k, |body|);
  }

  lemma {:induction false} OpeningsOfPrefix(a: seq<Event>, b: seq<Event>, n: nat)
    requires n <= |a|
    ensures OpeningsUpTo(a + b, n) == OpeningsUpTo(a, n)
  {
    if n > 0 {
      OpeningsOfPrefix(a, b, n - 1);
    }
  }

  lemma OpeningsSnoc(body: seq<Event>, e: Event)
    ensures Openings(body + [e]) == if e.IsOpening() then Openings(body) + [e.index] else Openings(body)
  {
    OpeningsOfPrefix(body, [e], |body|);
  }

  lemma {:induction false} JoinedOfPrefix(a: seq<Event>, b: seq<Event>, n: nat)
    requires n <= |a|
    ensures JoinedUpTo(a + b, n) == JoinedUpTo(a, n)
  {
    if n > 0 {
      JoinedOfPrefix(a, b, n - 1);
    }
  }

  lemma JoinedSnoc(trace: seq<Event>, e: Event)
    ensures Joined(trace + [e]) == if e.IsDelta() then Joined(trace) + e.delta else Joined(trace)
  {
    JoinedOfPrefix(trace, [e], |trace|);
  }

  /** An opened block has events. */
  lemma OpenedHasEvents(body: seq<Event>, k: nat)
    requires k in Openings(body)
    ensures Projection(body, k) != []
  {
    OpenedHasEventsUpTo(body, k, |body|);
  }

  lemma {:induction false} OpenedHasEventsUpTo(body: seq<Event>, k: nat, n: nat)
    requires n <= |body| && k in OpeningsUpTo(body, n)
    ensures ProjectionUpTo(body, k, n) != []
  {
    if !(body[n - 1].IsOpening() && body[n - 1].index == k) {
      OpenedHasEventsUpTo(body, k, n - 1);
    }
  }
}
