/** The block event protocol between stream producers and the message accumulator. */
module StreamEvents {
  import opened Wrappers
  import opened Messages

  datatype Event =
    | Start
    | TextStart(index: nat)
    | TextDelta(index: nat, delta: string)
    | TextEnd(index: nat)
    | ThinkingStart(index: nat)
    | ThinkingDelta(index: nat, delta: string)
    | ThinkingEnd(index: nat, signature: Option<string>)
    | ToolCallStart(index: nat, id: string, name: string)
    | ToolCallDelta(index: nat, delta: string)
    | ToolCallEnd(index: nat)
    | Done(stopReason: StopReason, usage: Usage, cost: Cost)
    | Error(stopReason: StopReason, errorMessage: string, lastUsage: Option<Usage>, errorKind: Option<ErrorKind>, retryAfter: Option<nat>)
  {
    predicate IsOpening() { TextStart? || ThinkingStart? || ToolCallStart? }

    predicate IsDelta() { TextDelta? || ThinkingDelta? || ToolCallDelta? }

    predicate IsClosing() { TextEnd? || ThinkingEnd? || ToolCallEnd? }

    /** A content event belongs to one block, the one its `index` names. */
    predicate IsContent() { IsOpening() || IsDelta() || IsClosing() }

    predicate IsTerminal() { Done? || Error? }

    function Kind(): BlockKind
      requires IsContent()
    {
      if TextStart? || TextDelta? || TextEnd? then TextKind
      else if ThinkingStart? || ThinkingDelta? || ThinkingEnd? then ThinkingKind
      else ToolKind
    }
  }

  datatype BlockKind = TextKind | ThinkingKind | ToolKind

  /** JSON parsing is not modelled: it is any partial function on strings. */
  type Parser = string -> Option<Json>
}
