/** From producer calls to the rebuilt message: what the accumulator emits, the acceptor rebuilds.

    The producer's calls are given a meaning of their own, a log of blocks that knows nothing of
    content indices or events; the stream is then shown to carry exactly that log. */
module StreamRoundTrip {
  import opened Wrappers
  import opened Messages
  import opened StreamEvents
  import opened StreamGrammar
  import opened StreamAccumulator
  import opened Sequences
  import B = BlockAccumulator

  // ---- what a run of calls means ------------------------------------------------------------

  /** One block as the caller sees it; `pending` is a signature set before the block is closed. */
  datatype Record = Record(kind: BlockKind, id: string, name: string, text: string,
                           pending: Option<string>, signature: Option<string>, open: bool)

  /** The block of this kind still open, the newest if there are several. */
  function OpenAt(log: seq<Record>, kind: BlockKind): (r: Option<nat>)
    ensures r.Some? ==> r.value < |log| && log[r.value].kind == kind && log[r.value].open
    ensures r.None? ==> forall i :: 0 <= i < |log| ==> !(log[i].kind == kind && log[i].open)
  {
    if log == [] then None
    else
      var last := log[|log| - 1];
      if last.kind == kind && last.open then Some(|log| - 1) else OpenAt(log[..|log| - 1], kind)
  }

  function ToolAt(log: seq<Record>, index: nat): Option<nat> {
    if index < |log| && log[index].kind == ToolKind && log[index].open then Some(index) else None
  }

  function Blank(kind: BlockKind, id: string, name: string): Record {
    Record(kind, id, name, "", None, None, true)
  }

  function Append(log: seq<Record>, at: Option<nat>, delta: string): seq<Record>
    requires at.Some? ==> at.value < |log|
  {
    if at.None? then log else log[at.value := log[at.value].(text := log[at.value].text + delta)]
  }

  function Shut(r: Record, signature: Option<string>): Record {
    if r.kind == ThinkingKind
    then r.(open := false, signature := if signature.Some? then signature else r.pending)
    else r.(open := false)
  }

  function Close(log: seq<Record>, at: Option<nat>, signature: Option<string>): seq<Record>
    requires at.Some? ==> at.value < |log|
  {
    if at.None? then log else log[at.value := Shut(log[at.value], signature)]
  }

  function Note(log: seq<Record>, op: B.Op): seq<Record> {
    match op
    case AllocIndex => log
    case EnsureTextOpen => if OpenAt(log, TextKind).Some? then log else log + [Blank(TextKind, "", "")]
    case TextDelta(delta) => Append(log, OpenAt(log, TextKind), delta)
    case CloseText => Close(log, OpenAt(log, TextKind), None)
    case EnsureThinkingOpen => if OpenAt(log, ThinkingKind).Some? then log else log + [Blank(ThinkingKind, "", "")]
    case ThinkingDelta(delta) => Append(log, OpenAt(log, ThinkingKind), delta)
    case SetThinkingSignature(mark) =>
      var at := OpenAt(log, ThinkingKind);
      if at.None? then log else log[at.value := log[at.value].(pending := Some(mark))]
    case CloseThinking(signature) => Close(log, OpenAt(log, ThinkingKind), signature)
    case OpenToolCall(id, name) => log + [Blank(ToolKind, id, name)]
    case ToolCallDelta(index, delta) => Append(log, ToolAt(log, index), delta)
    case CloseToolCall(index) => Close(log, ToolAt(log, index), None)
  }

  /** The blocks after a run of calls. */
  function Log(ops: seq<B.Op>): seq<Record> {
    if ops == [] then [] else Note(Log(ops[..|ops| - 1]), ops[|ops| - 1])
  }

  /** The blocks once everything left open has been closed. */
  function Settled(log: seq<Record>): seq<Record> {
    seq(|log|, i requires 0 <= i < |log| => if log[i].open then Shut(log[i], None) else log[i])
  }

  /** The number of indices allocated without opening a block. */
  function Skipped(ops: seq<B.Op>): nat {
    if ops == [] then 0 else Skipped(ops[..|ops| - 1]) + if ops[|ops| - 1].AllocIndex? then 1 else 0
  }

  /** The two rules a caller must keep: tool deltas go to an open tool call, and no block is
      opened after an index was allocated and left unused. */
  predicate OpOk(log: seq<Record>, skipped: nat, op: B.Op) {
    match op
    case EnsureTextOpen => OpenAt(log, TextKind).Some? || skipped == 0
    case EnsureThinkingOpen => OpenAt(log, ThinkingKind).Some? || skipped == 0
    case OpenToolCall(_, _) => skipped == 0
    case ToolCallDelta(index, _) => ToolAt(log, index).Some?
    case _ => true
  }

  predicate Disciplined(ops: seq<B.Op>) {
    ops == [] ||
    (Disciplined(ops[..|ops| - 1]) && OpOk(Log(ops[..|ops| - 1]), Skipped(ops[..|ops| - 1]), ops[|ops| - 1]))
  }

  /** A block as a content block of the message; an open tool call keeps its text unparsed. */
  function Rendered(parse: Parser, r: Record): ContentBlock {
    match r.kind
    case TextKind => Text(r.text)
    case ThinkingKind => Thinking(r.text, r.signature)
    case ToolKind =>
      if r.open then ToolCall(r.id, r.name, Null, Some(r.text))
      else if r.text == "" then ToolCall(r.id, r.name, Object(map[]), None)
      else match parse(r.text)
        case Some(v) => ToolCall(r.id, r.name, v, None)
        case None => ToolCall(r.id, r.name, Null, Some(r.text))
  }

  /** Every tool call is closed with joined deltas that are empty or JSON, and every other block is
      closed; only a stream that is done because of its length may end with tool calls open or cut short. */
  predicate Acceptable(parse: Parser, log: seq<Record>, end: Event) {
    forall i :: 0 <= i < |log| ==>
      if log[i].kind == ToolKind
      then (end.Done? && end.stopReason == Length) || (!log[i].open && (log[i].text == "" || parse(log[i].text).Some?))
      else !log[i].open
  }

  /** The message that holds one block for each block of the log, and what the terminal says. */
  function Rebuilt(parse: Parser, log: seq<Record>, end: Event, provider: string, modelId: string, now: nat): AssistantMessage
    requires end.IsTerminal()
  {
    AssistantMessage(
      seq(|log|, i requires 0 <= i < |log| => Rendered(parse, log[i])),
      provider, modelId,
      if end.Done? then end.usage
      else if end.lastUsage.Some? then end.lastUsage.value
      else Usage(0, 0, 0, 0, 0, map[]),
      if end.Done? then end.cost else Cost(0.0, 0.0, 0.0, 0.0, 0.0, map[]),
      end.stopReason,
      if end.Done? then None else Some(end.errorMessage),
      if end.Done? then None else end.errorKind,
      now)
  }

  // ---- what a run of calls emits ------------------------------------------------------------

  function Emit(ops: seq<B.Op>): (B.Producer, seq<Event>) {
    if ops == [] then (B.NEW, [])
    else
      var (p, events) := Emit(ops[..|ops| - 1]);
      var (p', event) := B.Apply(p, ops[|ops| - 1]);
      (p', if event.Some? then events + [event.value] else events)
  }

  /** Start, the events of the calls, the end events of whatever is open, and the terminal. */
  function Stream(ops: seq<B.Op>, end: Event): seq<Event> {
    var (p, events) := Emit(ops);
    [Start] + (events + B.FinalEvents(p)) + [end]
  }

  // ---- the producer tracks the log -----------------------------------------------------------

  ghost predicate Linked(p: B.Producer, log: seq<Record>, skipped: nat) {
    && p.next == |log| + skipped
    && p.text == OpenAt(log, TextKind)
    && (p.thinking.None? <==> OpenAt(log, ThinkingKind).None?)
    && (p.thinking.Some? ==>
          && OpenAt(log, ThinkingKind) == Some(p.thinking.value.0)
          && log[p.thinking.value.0].pending == p.thinking.value.1)
    && (forall i: nat :: i in p.tools <==> ToolAt(log, i).Some?)
    && Rising(p.tools)
    && AtMostOneOpen(log)
  }

  /** Text and thinking blocks never overlap with another of their kind. */
  ghost predicate AtMostOneOpen(log: seq<Record>) {
    forall i, j :: 0 <= i < j < |log| && log[i].open && log[j].open && log[i].kind == log[j].kind ==> log[i].kind == ToolKind
  }

  ghost predicate Rising(s: seq<nat>) {
    forall i, j :: 0 <= i < j < |s| ==> s[i] < s[j]
  }

  lemma {:induction false} WithoutKeeps(s: seq<nat>, x: nat)
    requires Rising(s)
    ensures Rising(B.Without(s, x))
    ensures forall y :: y in B.Without(s, x) <==> y in s && y != x
  {
    if s != [] {
      var rest := s[1..];
      assert s == [s[0]] + rest;
      WithoutKeeps(rest, x);
      assert forall y :: y in rest ==> s[0] < y;
      if s[0] != x {
        var r := B.Without(rest, x);
        forall j | 0 <= j < |r| ensures s[0] < r[j] {
          assert r[j] in r;
        }
      }
    }
  }

  lemma Pushed(log: seq<Record>, r: Record)
    requires AtMostOneOpen(log) && r.open
    requires r.kind == ToolKind || OpenAt(log, r.kind).None?
    ensures AtMostOneOpen(log + [r])
    ensures forall kind :: OpenAt(log + [r], kind) == if kind == r.kind then Some(|log|) else OpenAt(log, kind)
    ensures forall i: nat :: ToolAt(log + [r], i) == if i == |log| && r.kind == ToolKind then Some(i) else ToolAt(log, i)
  {
    assert (log + [r])[..|log|] == log;
  }

  /** Editing one open record moves the open block only if it closes it. */
  lemma Edited(log: seq<Record>, at: nat, r: Record)
    requires at < |log| && log[at].open && r.kind == log[at].kind && AtMostOneOpen(log)
    ensures AtMostOneOpen(log[at := r])
    ensures forall kind :: kind != ToolKind ==>
                             OpenAt(log[at := r], kind) == if kind == r.kind && !r.open then None else OpenAt(log, kind)
    ensures forall i: nat :: ToolAt(log[at := r], i) == if i == at && !r.open then None else ToolAt(log, i)
  {
    var edited := log[at := r];
    forall i: nat ensures ToolAt(edited, i) == if i == at && !r.open then None else ToolAt(log, i) {
      if i < |log| {
        assert edited[i] == if i == at then r else log[i];
      }
    }
    forall kind | kind != ToolKind ensures OpenAt(edited, kind) == if kind == r.kind && !r.open then None else OpenAt(log, kind) {
      var before, after := OpenAt(log, kind), OpenAt(edited, kind);
      if before.Some? {
        assert edited[before.value] == if before.value == at then r else log[before.value];
      }
      if after.Some? {
        assert edited[after.value] == if after.value == at then r else log[after.value];
      }
      assert kind == r.kind ==> before == Some(at);
    }
  }

  /** Every allowed call keeps the producer's indices in step with the log. */
  lemma LinkedStep(p: B.Producer, log: seq<Record>, skipped: nat, op: B.Op)
    requires Linked(p, log, skipped) && OpOk(log, skipped, op)
    ensures Linked(B.Apply(p, op).0, Note(log, op), if op.AllocIndex? then skipped + 1 else skipped)
  {
    match op
    case AllocIndex =>
    case EnsureTextOpen => if p.text.None? { Pushed(log, Blank(TextKind, "", "")); }
    case EnsureThinkingOpen => if p.thinking.None? { Pushed(log, Blank(ThinkingKind, "", "")); }
    case OpenToolCall(id, name) =>
      Pushed(log, Blank(ToolKind, id, name));
      forall i | 0 <= i < |p.tools| ensures p.tools[i] < |log| { assert p.tools[i] in p.tools; }
    case _ => LinkedEdit(p, log, skipped, op);
  }

  lemma LinkedEdit(p: B.Producer, log: seq<Record>, skipped: nat, op: B.Op)
    requires Linked(p, log, skipped)
    requires !op.AllocIndex? && !op.EnsureTextOpen? && !op.EnsureThinkingOpen? && !op.OpenToolCall?
    ensures Linked(B.Apply(p, op).0, Note(log, op), skipped)
  {
    var at := match op
      case TextDelta(_) => p.text
      case CloseText => p.text
      case ToolCallDelta(index, _) => ToolAt(log, index)
      case CloseToolCall(index) => ToolAt(log, index)
      case _ => OpenAt(log, ThinkingKind);
    if at.Some? {
      Edited(log, at.value, Note(log, op)[at.value]);
      assert Note(log, op) == log[at.value := Note(log, op)[at.value]];
    }
    if op.CloseToolCall? {
      WithoutKeeps(p.tools, op.index);
    }
  }

  // ---- the events carry the log -----------------------------------------------------------------

  ghost predicate RecordMatches(r: Record, trace: seq<Event>) {
    && trace != []
    && trace[0].IsOpening()
    && trace[0].Kind() == r.kind
    && Joined(trace) == r.text
    && Closed(trace) == !r.open
    && (trace[0].ToolCallStart? ==> trace[0].id == r.id && trace[0].name == r.name)
    && (trace[|trace| - 1].ThinkingEnd? ==> trace[|trace| - 1].signature == r.signature)
  }

  /** The events are well formed, JSON aside, and block `k`'s events say what the log says of it. */
  ghost predicate Mirrors(parse: Parser, log: seq<Record>, events: seq<Event>) {
    && BodyOk(parse, true, events)
    && |Openings(events)| == |log|
    && forall k: nat :: k < |log| ==> RecordMatches(log[k], Projection(events, k))
  }

  /** The record an opening event starts. */
  function Opened(e: Event): Record
    requires e.IsOpening()
  {
    if e.ToolCallStart? then Blank(ToolKind, e.id, e.name) else Blank(e.Kind(), "", "")
  }

  /** A record after one of its delta or end events. */
  function Fed(r: Record, e: Event): Record
    requires e.IsDelta() || e.IsClosing()
  {
    if e.IsDelta() then r.(text := r.text + e.delta)
    else if e.ThinkingEnd? then r.(open := false, signature := e.signature)
    else r.(open := false)
  }

  lemma MirrorOpen(parse: Parser, log: seq<Record>, events: seq<Event>, e: Event)
    requires Mirrors(parse, log, events) && e.IsOpening()
    ensures if e.index == |log| then Mirrors(parse, log + [Opened(e)], events + [e]) else !BodyOk(parse, true, events + [e])
  {
    OpeningOk(parse, true, events, e);
    if e.index == |log| {
      OpeningProjections(events, e);
      assert JoinedUpTo([e], 0) == "";
    }
  }

  lemma RecordFed(r: Record, trace: seq<Event>, e: Event)
    requires RecordMatches(r, trace) && (e.IsDelta() || e.IsClosing()) && r.open
    ensures RecordMatches(Fed(r, e), trace + [e])
  {
    JoinedSnoc(trace, e);
    assert (trace + [e])[0] == trace[0] && (trace + [e])[|trace|] == e;
  }

  lemma MirrorFeed(parse: Parser, log: seq<Record>, events: seq<Event>, e: Event)
    requires Mirrors(parse, log, events) && (e.IsDelta() || e.IsClosing())
    ensures if e.index < |log| && log[e.index].open && log[e.index].kind == e.Kind()
            then Mirrors(parse, log[e.index := Fed(log[e.index], e)], events + [e])
            else !BodyOk(parse, true, events + [e])
  {
    FeedingOk(parse, true, events, e);
    FeedingProjections(events, e);
    if e.index < |log| {
      var trace := Projection(events, e.index);
      assert RecordMatches(log[e.index], trace) && TraceOk(parse, true, trace);
      TraceSnoc(parse, true, trace, e);
      if log[e.index].open && log[e.index].kind == e.Kind() {
        RecordFed(log[e.index], trace, e);
      }
    }
  }

  /** What the log learns from a call is what the call's event tells, and a call breaks the rules
      exactly when its event does not fit the log. */
  lemma NoteIsFed(p: B.Producer, log: seq<Record>, skipped: nat, op: B.Op)
    requires Linked(p, log, skipped)
    ensures var event := B.Apply(p, op).1;
            if event.None? then
              && OpOk(log, skipped, op)
              && |Note(log, op)| == |log|
              && forall k :: 0 <= k < |log| ==> Note(log, op)[k] == log[k].(pending := Note(log, op)[k].pending)
            else if event.value.IsOpening() then
              && (OpOk(log, skipped, op) <==> event.value.index == |log|)
              && (OpOk(log, skipped, op) ==> Note(log, op) == log + [Opened(event.value)])
            else
              var e := event.value;
              && (e.IsDelta() || e.IsClosing())
              && (OpOk(log, skipped, op) <==> e.index < |log| && log[e.index].open && log[e.index].kind == e.Kind())
              && (OpOk(log, skipped, op) ==> Note(log, op) == log[e.index := Fed(log[e.index], e)])
  {
    if op.CloseToolCall? {
      assert op.index in p.tools <==> ToolAt(log, op.index).Some?;
    }
  }

  /** One call: an allowed one keeps the events in step with the log, any other spoils the stream. */
  lemma MirrorStep(parse: Parser, p: B.Producer, log: seq<Record>, skipped: nat, events: seq<Event>, op: B.Op)
    requires Linked(p, log, skipped) && Mirrors(parse, log, events)
    ensures var event := B.Apply(p, op).1;
            var events' := if event.Some? then events + [event.value] else events;
            if OpOk(log, skipped, op) then Mirrors(parse, Note(log, op), events') else !BodyOk(parse, true, events')
  {
    NoteIsFed(p, log, skipped, op);
    var event := B.Apply(p, op).1;
    if event.Some? {
      if event.value.IsOpening() {
        MirrorOpen(parse, log, events, event.value);
      } else {
        MirrorFeed(parse, log, events, event.value);
      }
    } else {
      forall k: nat | k < |log| ensures RecordMatches(Note(log, op)[k], Projection(events, k)) {
        assert RecordMatches(log[k], Projection(events, k));
      }
    }
  }

  /** A run of calls: allowed throughout, the events carry its log; otherwise no stream that starts
      with these events is well formed. */
  lemma {:induction false} Simulation(parse: Parser, ops: seq<B.Op>)
    ensures Disciplined(ops) ==> Linked(Emit(ops).0, Log(ops), Skipped(ops)) && Mirrors(parse, Log(ops), Emit(ops).1)
    ensures !Disciplined(ops) ==> !BodyOk(parse, true, Emit(ops).1)
  {
    if ops != [] {
      var init, op := ops[..|ops| - 1], ops[|ops| - 1];
      var (p, events) := Emit(init);
      Simulation(parse, init);
      if Disciplined(init) {
        MirrorStep(parse, p, Log(init), Skipped(init), events, op);
        if OpOk(Log(init), Skipped(init), op) {
          LinkedStep(p, Log(init), Skipped(init), op);
        }
      } else if B.Apply(p, op).1.Some? && BodyOk(parse, true, Emit(ops).1) {
        PrefixOk(parse, true, events, B.Apply(p, op).1.value);
      }
    }
  }

  // ---- closing what is open -----------------------------------------------------------------------

  /** The drained blocks are exactly the open ones, each once. */
  lemma DrainedBlocks(p: B.Producer, log: seq<Record>, skipped: nat)
    requires Linked(p, log, skipped)
    ensures B.DistinctIndices(B.OpenBlocks(p))
    ensures forall b :: b in B.OpenBlocks(p) <==> b.index < |log| && log[b.index].open && b == DrainedAs(log, b.index)
  {
    var blocks := B.OpenBlocks(p);
    forall b | b in blocks ensures b.index < |log| && log[b.index].open && b == DrainedAs(log, b.index) {
      if b.ToolCall? {
        assert b.index in p.tools;
        assert ToolAt(log, b.index).Some?;
      }
    }
    forall b: B.OpenBlock | b.index < |log| && log[b.index].open && b == DrainedAs(log, b.index) ensures b in blocks {
      OpenBlockListed(p, log, skipped, b);
    }
  }

  function DrainedAs(log: seq<Record>, i: nat): B.OpenBlock
    requires i < |log|
  {
    match log[i].kind
    case TextKind => B.OpenBlock.Text(i)
    case ThinkingKind => B.OpenBlock.Thinking(i, log[i].pending)
    case ToolKind => B.OpenBlock.ToolCall(i)
  }

  lemma OpenBlockListed(p: B.Producer, log: seq<Record>, skipped: nat, b: B.OpenBlock)
    requires Linked(p, log, skipped)
    requires b.index < |log| && log[b.index].open && b == DrainedAs(log, b.index)
    ensures b in B.OpenBlocks(p)
  {
    var i := b.index;
    var tools := seq(|p.tools|, j requires 0 <= j < |p.tools| => B.OpenBlock.ToolCall(p.tools[j]));
    if log[i].kind == ToolKind {
      assert ToolAt(log, i).Some?;
      var j :| 0 <= j < |p.tools| && p.tools[j] == i;
      assert tools[j] == b;
    } else {
      var at := OpenAt(log, log[i].kind);
      assert at == Some(i);
    }
  }

  ghost predicate DrainOf(log: seq<Record>, blocks: seq<B.OpenBlock>) {
    && B.Ascending(blocks)
    && forall j :: 0 <= j < |blocks| ==>
                     var b := blocks[j]; b.index < |log| && log[b.index].open && b == DrainedAs(log, b.index)
  }

  /** The log with the given blocks closed one after the other. */
  ghost function CloseAll(log: seq<Record>, blocks: seq<B.OpenBlock>): seq<Record>
    requires DrainOf(log, blocks)
    decreases |blocks|
  {
    if blocks == [] then log
    else
      var i := blocks[0].index;
      DrainRest(log, blocks);
      CloseAll(log[i := Shut(log[i], None)], blocks[1..])
  }

  lemma {:induction false} CloseAllAt(log: seq<Record>, blocks: seq<B.OpenBlock>, k: nat)
    requires DrainOf(log, blocks) && k < |log|
    ensures |CloseAll(log, blocks)| == |log|
    ensures CloseAll(log, blocks)[k] ==
            if exists j :: 0 <= j < |blocks| && blocks[j].index == k then Shut(log[k], None) else log[k]
    decreases |blocks|
  {
    if blocks != [] {
      var i, rest := blocks[0].index, blocks[1..];
      assert blocks == [blocks[0]] + rest;
      CloseAllAt(log[i := Shut(log[i], None)], rest, k);
      if exists j :: 0 <= j < |rest| && rest[j].index == k {
        var j :| 0 <= j < |rest| && rest[j].index == k;
        assert blocks[j + 1].index == k;
      }
    }
  }

  lemma MirrorClose(parse: Parser, log: seq<Record>, events: seq<Event>, b: B.OpenBlock)
    requires Mirrors(parse, log, events)
    requires b.index < |log| && log[b.index].open && b == DrainedAs(log, b.index)
    ensures Mirrors(parse, log[b.index := Shut(log[b.index], None)], events + [B.EndEvent(b)])
  {
    assert Fed(log[b.index], B.EndEvent(b)) == Shut(log[b.index], None);
    MirrorFeed(parse, log, events, B.EndEvent(b));
  }

  function Ends(blocks: seq<B.OpenBlock>): seq<Event> {
    if blocks == [] then [] else [B.EndEvent(blocks[0])] + Ends(blocks[1..])
  }

  lemma DrainRest(log: seq<Record>, blocks: seq<B.OpenBlock>)
    requires DrainOf(log, blocks) && blocks != []
    ensures var i := blocks[0].index;
            && i < |log| && log[i].open && blocks[0] == DrainedAs(log, i)
            && DrainOf(log[i := Shut(log[i], None)], blocks[1..])
  {
    assert blocks == [blocks[0]] + blocks[1..];
  }

  /** The events with the end events of the blocks added one after the other. */
  ghost function Closing(events: seq<Event>, blocks: seq<B.OpenBlock>): seq<Event>
    decreases |blocks|
  {
    if blocks == [] then events else Closing(events + [B.EndEvent(blocks[0])], blocks[1..])
  }

  lemma {:induction false} ClosingAddsEnds(events: seq<Event>, blocks: seq<B.OpenBlock>)
    ensures Closing(events, blocks) == events + Ends(blocks)
    decreases |blocks|
  {
    if blocks != [] {
      ClosingAddsEnds(events + [B.EndEvent(blocks[0])], blocks[1..]);
    }
  }

  lemma {:induction false} DrainMirrors(parse: Parser, log: seq<Record>, events: seq<Event>, blocks: seq<B.OpenBlock>)
    requires Mirrors(parse, log, events) && DrainOf(log, blocks)
    ensures Mirrors(parse, CloseAll(log, blocks), Closing(events, blocks))
    decreases |blocks|
  {
    if blocks != [] {
      var b := blocks[0];
      DrainRest(log, blocks);
      MirrorClose(parse, log, events, b);
      DrainMirrors(parse, log[b.index := Shut(log[b.index], None)], events + [B.EndEvent(b)], blocks[1..]);
    }
  }

  lemma {:induction false} EndsAreFinal(blocks: seq<B.OpenBlock>)
    ensures |Ends(blocks)| == |blocks| && forall i :: 0 <= i < |blocks| ==> Ends(blocks)[i] == B.EndEvent(blocks[i])
  {
    if blocks != [] {
      EndsAreFinal(blocks[1..]);
    }
  }

  /** Sorted, the open blocks of the log can be closed in turn, and that settles the log. */
  lemma DrainSettles(log: seq<Record>, blocks: seq<B.OpenBlock>)
    requires B.Ascending(blocks)
    requires forall b :: b in blocks <==> b.index < |log| && log[b.index].open && b == DrainedAs(log, b.index)
    ensures DrainOf(log, blocks) && CloseAll(log, blocks) == Settled(log)
  {
    assert forall j :: 0 <= j < |blocks| ==> blocks[j] in blocks;
    if log != [] {
      CloseAllAt(log, blocks, 0);
    }
    forall k: nat | k < |log| ensures CloseAll(log, blocks)[k] == Settled(log)[k] {
      CloseAllAt(log, blocks, k);
      if log[k].open {
        assert DrainedAs(log, k) in blocks;
      }
    }
  }

  /** The final events are the end events of the open blocks, in an order that settles the log. */
  lemma FinalEventsDrain(p: B.Producer, log: seq<Record>, skipped: nat)
    requires Linked(p, log, skipped)
    ensures var blocks := B.SortByIndex(B.OpenBlocks(p));
            DrainOf(log, blocks) && CloseAll(log, blocks) == Settled(log) && B.FinalEvents(p) == Ends(blocks)
  {
    var blocks := B.SortByIndex(B.OpenBlocks(p));
    DrainedBlocks(p, log, skipped);
    B.SortByIndexSorts(B.OpenBlocks(p));
    DrainSettles(log, blocks);
    EndsAreFinal(blocks);
  }

  /** Finalizing closes every block in the log and nothing else. */
  lemma FinalEventsSettle(parse: Parser, p: B.Producer, log: seq<Record>, skipped: nat, events: seq<Event>)
    requires Linked(p, log, skipped) && Mirrors(parse, log, events)
    ensures Mirrors(parse, Settled(log), events + B.FinalEvents(p))
  {
    var blocks := B.SortByIndex(B.OpenBlocks(p));
    FinalEventsDrain(p, log, skipped);
    ClosingAddsEnds(events, blocks);
    DrainMirrors(parse, log, events, blocks);
  }

  /** End events for exactly the open blocks, in index order. */
  ghost predicate ClosesAllInOrder(log: seq<Record>, ends: seq<Event>) {
    && (forall i :: 0 <= i < |ends| ==> ends[i].IsClosing() && ends[i].index < |log| && log[ends[i].index].open)
    && (forall i, j :: 0 <= i < j < |ends| ==> ends[i].index < ends[j].index)
    && (forall k :: 0 <= k < |log| && log[k].open ==> exists i :: 0 <= i < |ends| && ends[i].index == k)
  }

  lemma EndsCloseInOrder(log: seq<Record>, blocks: seq<B.OpenBlock>)
    requires B.Ascending(blocks)
    requires forall b :: b in blocks <==> b.index < |log| && log[b.index].open && b == DrainedAs(log, b.index)
    ensures ClosesAllInOrder(log, Ends(blocks))
  {
    var ends := Ends(blocks);
    EndsAreFinal(blocks);
    forall i | 0 <= i < |ends| ensures ends[i].index == blocks[i].index && blocks[i] in blocks && ends[i].IsClosing() {
    }
    forall k | 0 <= k < |log| && log[k].open ensures exists i :: 0 <= i < |ends| && ends[i].index == k {
      assert DrainedAs(log, k) in blocks;
      var i :| 0 <= i < |blocks| && blocks[i] == DrainedAs(log, k);
      assert ends[i].index == k;
    }
  }

  /** After allowed calls the final events close exactly the open blocks, in the order of their indices. */
  lemma FinalEventsInOrder(parse: Parser, ops: seq<B.Op>)
    requires Disciplined(ops)
    ensures ClosesAllInOrder(Log(ops), B.FinalEvents(Emit(ops).0))
  {
    var p := Emit(ops).0;
    var blocks := B.SortByIndex(B.OpenBlocks(p));
    Simulation(parse, ops);
    DrainedBlocks(p, Log(ops), Skipped(ops));
    B.SortByIndexSorts(B.OpenBlocks(p));
    EndsCloseInOrder(Log(ops), blocks);
    EndsAreFinal(blocks);
    assert B.FinalEvents(p) == Ends(blocks);
  }

  // ---- finalizing in the middle of a run ----------------------------------------------------------

  /** The call that closes a drained block. */
  function CloseOp(b: B.OpenBlock): B.Op {
    match b
    case Text(_) => B.CloseText
    case Thinking(_, _) => B.CloseThinking(None)
    case ToolCall(index) => B.CloseToolCall(index)
  }

  function CloseOps(blocks: seq<B.OpenBlock>): seq<B.Op> {
    if blocks == [] then [] else [CloseOp(blocks[0])] + CloseOps(blocks[1..])
  }

  /** Closing an open block by its call emits its end event and shuts its record. */
  lemma CloseByCall(p: B.Producer, log: seq<Record>, skipped: nat, b: B.OpenBlock)
    requires Linked(p, log, skipped)
    requires b.index < |log| && log[b.index].open && b == DrainedAs(log, b.index)
    ensures OpOk(log, skipped, CloseOp(b))
    ensures B.Apply(p, CloseOp(b)).1 == Some(B.EndEvent(b))
    ensures Note(log, CloseOp(b)) == log[b.index := Shut(log[b.index], None)]
  {
    var kind := log[b.index].kind;
    if kind == ToolKind {
      assert b.index in p.tools <==> ToolAt(log, b.index).Some?;
    } else {
      assert OpenAt(log, kind) == Some(b.index);
    }
  }

  /** What further calls emit, and where they leave the producer and the log. */
  function Further(p: B.Producer, calls: seq<B.Op>): (B.Producer, seq<Event>)
    decreases |calls|
  {
    if calls == [] then (p, [])
    else
      var (p', event) := B.Apply(p, calls[0]);
      var (end, events) := Further(p', calls[1..]);
      (end, if event.Some? then [event.value] + events else events)
  }

  lemma {:induction false} EmitFurther(ops: seq<B.Op>, calls: seq<B.Op>)
    ensures var (p, events) := Emit(ops);
            Emit(ops + calls) == (Further(p, calls).0, events + Further(p, calls).1)
    decreases |calls|
  {
    if calls == [] {
      assert ops + calls == ops && Emit(ops).1 + [] == Emit(ops).1;
    } else {
      var more := ops + [calls[0]];
      assert more[..|ops|] == ops;
      assert more + calls[1..] == ops + calls;
      EmitFurther(more, calls[1..]);
      var event := B.Apply(Emit(ops).0, calls[0]).1;
      if event.Some? {
        Reassociate(Emit(ops).1, [event.value], Further(Emit(more).0, calls[1..]).1);
      }
    }
  }

  /** The closing calls, one for each drained block, emit the end events and settle the log. */
  lemma {:induction false} ClosingByCalls(p: B.Producer, log: seq<Record>, skipped: nat, blocks: seq<B.OpenBlock>)
    requires Linked(p, log, skipped) && DrainOf(log, blocks)
    ensures var (end, events) := Further(p, CloseOps(blocks));
            events == Ends(blocks) && Linked(end, CloseAll(log, blocks), skipped)
    decreases |blocks|
  {
    if blocks != [] {
      DrainRest(log, blocks);
      CloseByCall(p, log, skipped, blocks[0]);
      LinkedStep(p, log, skipped, CloseOp(blocks[0]));
      ClosingByCalls(B.Apply(p, CloseOp(blocks[0])).0, log[blocks[0].index := Shut(log[blocks[0].index], None)], skipped, blocks[1..]);
      assert CloseOps(blocks)[1..] == CloseOps(blocks[1..]);
    }
  }

  lemma NonEmpty(s: seq<nat>)
    requires s != []
    ensures exists x :: x in s
  {
    assert s[0] in s;
  }

  lemma NothingOpen(p: B.Producer, log: seq<Record>, skipped: nat)
    requires Linked(p, Settled(log), skipped)
    ensures p == B.Producer(|log| + skipped, None, None, [])
  {
    if p.tools != [] {
      NonEmpty(p.tools);
      assert false;
    }
  }

  lemma ClosingSettles(p: B.Producer, log: seq<Record>, skipped: nat)
    requires Linked(p, log, skipped)
    ensures var (end, events) := Further(p, CloseOps(B.SortByIndex(B.OpenBlocks(p))));
            Linked(end, Settled(log), skipped) && events == B.FinalEvents(p)
  {
    FinalEventsDrain(p, log, skipped);
    ClosingByCalls(p, log, skipped, B.SortByIndex(B.OpenBlocks(p)));
  }

  lemma FinalizedState(p: B.Producer, log: seq<Record>, skipped: nat)
    requires Linked(p, log, skipped)
    ensures Further(p, CloseOps(B.SortByIndex(B.OpenBlocks(p)))) == (p.(text := None, thinking := None, tools := []), B.FinalEvents(p))
  {
    ClosingSettles(p, log, skipped);
    NothingOpen(Further(p, CloseOps(B.SortByIndex(B.OpenBlocks(p)))).0, log, skipped);
  }

  /** Finalizing in the middle of a run is closing each open block by its call, in index order: so
      what holds for every run of calls holds for runs that finalize on the way. */
  lemma FinalizeIsClosing(parse: Parser, ops: seq<B.Op>)
    requires Disciplined(ops)
    ensures var (p, events) := Emit(ops);
            Emit(ops + CloseOps(B.SortByIndex(B.OpenBlocks(p)))) ==
            (p.(text := None, thinking := None, tools := []), events + B.FinalEvents(p))
  {
    Simulation(parse, ops);
    FinalizedState(Emit(ops).0, Log(ops), Skipped(ops));
    EmitFurther(ops, CloseOps(B.SortByIndex(B.OpenBlocks(Emit(ops).0))));
  }

  lemma {:induction false} PrefixesOk(parse: Parser, truncated: bool, body: seq<Event>, more: seq<Event>)
    requires BodyOk(parse, truncated, body + more)
    ensures BodyOk(parse, truncated, body)
    decreases |more|
  {
    if more == [] {
      assert body + more == body;
    } else {
      var init, last := more[..|more| - 1], more[|more| - 1];
      assert body + more == (body + init) + [last];
      PrefixOk(parse, truncated, body + init, last);
      PrefixesOk(parse, truncated, body, init);
    }
  }

  // ---- the round trip ----------------------------------------------------------------------------

  /** One block: what its events must satisfy, said of its record. */
  predicate RecordOk(parse: Parser, truncated: bool, r: Record) {
    if r.kind == ToolKind then truncated || (!r.open && ArgumentsOk(parse, false, r.text)) else !r.open
  }

  lemma RecordRule(parse: Parser, truncated: bool, r: Record, trace: seq<Event>)
    requires RecordMatches(r, trace) && TraceOk(parse, true, trace)
    ensures RecordOk(parse, truncated, r) <==>
            TraceOk(parse, truncated, trace) && (Closed(trace) || (truncated && trace[0].ToolCallStart?))
    ensures RecordOk(parse, truncated, r) ==> BlockOf(parse, trace) == Rendered(parse, r)
  {
  }

  /** The rules of well-formed and finished bodies, said of the log the body carries. */
  lemma LogRule(parse: Parser, truncated: bool, log: seq<Record>, body: seq<Event>)
    requires Mirrors(parse, log, body)
    ensures BodyOk(parse, truncated, body) && Finished(truncated, body) <==>
            forall i :: 0 <= i < |log| ==> RecordOk(parse, truncated, log[i])
  {
    forall k: nat | k < |log|
      ensures RecordOk(parse, truncated, log[k]) <==>
              TraceOk(parse, truncated, Projection(body, k))
              && (Closed(Projection(body, k)) || (truncated && Projection(body, k)[0].ToolCallStart?))
      ensures Projection(body, k) != []
    {
      assert RecordMatches(log[k], Projection(body, k)) && TraceOk(parse, true, Projection(body, k));
      RecordRule(parse, truncated, log[k], Projection(body, k));
    }
  }

  lemma BlocksRendered(parse: Parser, truncated: bool, log: seq<Record>, body: seq<Event>)
    requires Mirrors(parse, log, body) && forall i :: 0 <= i < |log| ==> RecordOk(parse, truncated, log[i])
    requires BodyOk(parse, truncated, body)
    ensures Blocks(parse, truncated, body) == seq(|log|, i requires 0 <= i < |log| => Rendered(parse, log[i]))
  {
    forall k: nat | k < |log| ensures BlockOf(parse, Projection(body, k)) == Rendered(parse, log[k]) {
      assert RecordMatches(log[k], Projection(body, k)) && TraceOk(parse, truncated, Projection(body, k));
      RecordRule(parse, truncated, log[k], Projection(body, k));
    }
  }

  /** The outcome of any stream whose body carries a log. */
  lemma LogOutcome(parse: Parser, log: seq<Record>, body: seq<Event>, end: Event, provider: string, modelId: string, now: nat)
    requires Mirrors(parse, log, body) && end.IsTerminal()
    ensures Outcome(parse, [Start] + body + [end], provider, modelId, now) ==
            if Acceptable(parse, log, end) then Ok(Rebuilt(parse, log, end, provider, modelId, now)) else Err
  {
    var stream, cut := [Start] + body + [end], Truncates(end);
    assert stream[|stream| - 1] == end && Body(stream) == body;
    LogRule(parse, cut, log, body);
    if forall i :: 0 <= i < |log| ==> RecordOk(parse, cut, log[i]) {
      BlocksRendered(parse, cut, log, body);
    }
  }

  lemma SpoiltOutcome(parse: Parser, body: seq<Event>, end: Event, provider: string, modelId: string, now: nat)
    requires !BodyOk(parse, true, body) && end.IsTerminal()
    ensures Outcome(parse, [Start] + body + [end], provider, modelId, now) == Err
  {
    var stream := [Start] + body + [end];
    assert stream[|stream| - 1] == end && Body(stream) == body;
  }

  /** For every run of calls and every terminal, without finalizing: the stream is accepted exactly when
      the calls kept the two rules and every block is closed and acceptable; when the stream is done
      because of its length, tool calls may be open or cut short and keep their text unparsed. */
  lemma CutOffStream(parse: Parser, ops: seq<B.Op>, end: Event, provider: string, modelId: string, now: nat)
    requires end.IsTerminal()
    ensures Outcome(parse, [Start] + Emit(ops).1 + [end], provider, modelId, now) ==
            if Disciplined(ops) && Acceptable(parse, Log(ops), end)
            then Ok(Rebuilt(parse, Log(ops), end, provider, modelId, now))
            else Err
  {
    Simulation(parse, ops);
    if Disciplined(ops) {
      LogOutcome(parse, Log(ops), Emit(ops).1, end, provider, modelId, now);
    } else {
      SpoiltOutcome(parse, Emit(ops).1, end, provider, modelId, now);
    }
  }

  /** For every run of calls and every terminal, with everything left open closed at the end: the stream
      is accepted exactly when the calls kept the two rules and the tool texts are acceptable, and the
      message then holds one block for each block opened, in that order, with its kind, joined deltas,
      id, name and signature. */
  lemma RoundTrip(parse: Parser, ops: seq<B.Op>, end: Event, provider: string, modelId: string, now: nat)
    requires end.IsTerminal()
    ensures var log := Settled(Log(ops));
            Outcome(parse, Stream(ops, end), provider, modelId, now) ==
            if Disciplined(ops)
               && forall i :: 0 <= i < |log| && log[i].kind == ToolKind ==>
                    log[i].text == "" || parse(log[i].text).Some? || (end.Done? && end.stopReason == Length)
            then Ok(Rebuilt(parse, log, end, provider, modelId, now))
            else Err
  {
    var (p, events) := Emit(ops);
    Simulation(parse, ops);
    if Disciplined(ops) {
      FinalEventsSettle(parse, p, Log(ops), Skipped(ops), events);
      LogOutcome(parse, Settled(Log(ops)), events + B.FinalEvents(p), end, provider, modelId, now);
    } else {
      if BodyOk(parse, true, events + B.FinalEvents(p)) {
        PrefixesOk(parse, true, events, B.FinalEvents(p));
      }
      SpoiltOutcome(parse, events + B.FinalEvents(p), end, provider, modelId, now);
    }
  }

  /** The second rule is needed: an index allocated and left unused spoils the next block. */
  lemma BareAllocSpoilsStream(parse: Parser, end: Event)
    requires end.IsTerminal()
    ensures Outcome(parse, Stream([B.AllocIndex, B.EnsureTextOpen], end), "", "", 0) == Err
  {
    var ops := [B.AllocIndex, B.EnsureTextOpen];
    assert ops[..1] == [B.AllocIndex] && [B.AllocIndex][..0] == [];
    assert Skipped([B.AllocIndex]) == 1;
    assert !Disciplined(ops);
    RoundTrip(parse, ops, end, "", "", 0);
  }
}
