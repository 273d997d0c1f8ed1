/**
 * What an assistant's answer is, given what the provider's stream delivered
 * (packages/agent/src/assistant-terminal-state.ts:46-137 and packages/agent/src/agent-loop.ts:735-906).
 */
module AgentAnswers {
  import opened Options
  import opened AgentMessages

  /** `error` is the reason of an error event; `done` events have none. */
  datatype StreamRecord =
    | Progress
    | StreamStart(partial: AssistantMessage)
    | Update(partial: AssistantMessage)
    | Terminal(result: AssistantMessage, error: Option<StopReason>)

  /**
   * How reading ends when no terminal record is read: the stream's end, with the stream's result, or a step that failed
   * (before the stream, at a read, by an abort), `idle` when it was the idle timeout. `id` is the new message's identity.
   */
  datatype StreamEnd = EndOfStream(result: AssistantMessage) | StepFails(idle: bool, id: int)

  /** One response: the records in order, how they end, and the results of tools the provider ran itself. */
  datatype ProviderStream = ProviderStream(records: seq<StreamRecord>, end: StreamEnd, toolResults: seq<ToolResultMessage>)

  // ---------------------------------------------------------------- the stop reason the loop acts on

  predicate HasToolCallBlocks(m: Message) {
    m.toolCalls != [] || m.resolvedCalls != []
  }

  function DemoteToolUseWithoutToolCalls(m: AssistantMessage): AssistantMessage {
    if m.stopReason != ToolUse || HasToolCallBlocks(m) then m else m.(stopReason := Stop)
  }

  function PromoteStopWithPendingToolCalls(m: AssistantMessage): AssistantMessage {
    if m.stopReason != Stop || !HasToolCallBlocks(m) then m else m.(stopReason := ToolUse)
  }

  function SettleStopReason(m: AssistantMessage): AssistantMessage {
    DemoteToolUseWithoutToolCalls(PromoteStopWithPendingToolCalls(m))
  }

  /**
   * Settling changes nothing but a stop reason that contradicts the blocks: a message that stopped for tools has tool calls,
   * one that just stopped has none, and truncated, failed and aborted messages stay as they are.
   */
  lemma SettledStopReasons(m: AssistantMessage)
    ensures var s := SettleStopReason(m);
      && s == m.(stopReason := s.stopReason)
      && (m.stopReason == Length || m.stopReason == Error || m.stopReason == Aborted ==> s == m)
      && (m.stopReason == Stop || m.stopReason == ToolUse ==>
            (s.stopReason == ToolUse <==> m.toolCalls != [] || m.resolvedCalls != [])
            && (s.stopReason == Stop <==> m.toolCalls == [] && m.resolvedCalls == []))
  {}

  // ---------------------------------------------------------------- what is read

  function FirstTerminal(records: seq<StreamRecord>): (n: nat)
    ensures n <= |records|
    ensures n < |records| ==> records[n].Terminal?
    ensures forall j :: 0 <= j < n ==> !records[j].Terminal?
  {
    if records == [] || records[0].Terminal? then 0
    else
      var rest := FirstTerminal(records[1..]);
      assert forall j :: 0 < j < 1 + rest ==> records[j] == records[1..][j - 1];
      1 + rest
  }

  /** The records before the terminal one. */
  function Body(records: seq<StreamRecord>): seq<StreamRecord> {
    records[..FirstTerminal(records)]
  }

  function Starts(records: seq<StreamRecord>): nat {
    if records == [] then 0
    else Starts(records[..|records| - 1]) + (if records[|records| - 1].StreamStart? then 1 else 0)
  }

  /** The partial message: that of the last start, or of an update after it; updates before the first start count nothing. */
  function PartialOf(records: seq<StreamRecord>): Option<AssistantMessage> {
    if records == [] then None
    else
      var before, last := PartialOf(records[..|records| - 1]), records[|records| - 1];
      if last.StreamStart? || (last.Update? && before.Some?) then Some(last.partial) else before
  }

  /** A context in which records put their partial messages. */
  function ContextOf(context: seq<Message>, records: seq<StreamRecord>): seq<Message> {
    if records == [] then context
    else
      var before, last := records[..|records| - 1], records[|records| - 1];
      var c := ContextOf(context, before);
      if last.StreamStart? then c + [last.partial]
      else if last.Update? && PartialOf(before).Some? && c != [] then c[|c| - 1 := last.partial]
      else c
  }

  function Emitted(records: seq<StreamRecord>): seq<AgentEvent> {
    if records == [] then []
    else
      var before, last := records[..|records| - 1], records[|records| - 1];
      Emitted(before)
      + (if last.StreamStart? then [MessageStart(last.partial)]
         else if last.Update? && PartialOf(before).Some? then [MessageUpdate(last.partial)]
         else [])
  }

  lemma OneMoreRecord(context: seq<Message>, records: seq<StreamRecord>, record: StreamRecord)
    ensures var longer := records + [record];
      && Starts(longer) == Starts(records) + (if record.StreamStart? then 1 else 0)
      && PartialOf(longer) == (if record.StreamStart? || (record.Update? && PartialOf(records).Some?)
                               then Some(record.partial) else PartialOf(records))
      && ContextOf(context, longer) == (
           var c := ContextOf(context, records);
           if record.StreamStart? then c + [record.partial]
           else if record.Update? && PartialOf(records).Some? && c != [] then c[|c| - 1 := record.partial]
           else c)
      && Emitted(longer) == Emitted(records)
           + (if record.StreamStart? then [MessageStart(record.partial)]
              else if record.Update? && PartialOf(records).Some? then [MessageUpdate(record.partial)]
              else [])
  {
    var longer := records + [record];
    assert longer[..|longer| - 1] == records;
  }

  /** The context gains one message per start, the last of them being the partial message as it stands. */
  lemma {:induction false} PartialIsInContext(context: seq<Message>, records: seq<StreamRecord>)
    ensures var c := ContextOf(context, records);
      && |c| == |context| + Starts(records) && context <= c
      && (PartialOf(records).Some? <==> Starts(records) > 0)
      && (Starts(records) > 0 ==> c[|c| - 1] == PartialOf(records).value)
    decreases |records|
  {
    if records != [] { PartialIsInContext(context, records[..|records| - 1]); }
  }

  // ---------------------------------------------------------------- the message that is ended

  function NormalizeTerminal(result: AssistantMessage, error: Option<StopReason>): AssistantMessage {
    if error.Some? then result.(stopReason := error.value) else result
  }

  /** After tools already finished, a silent provider is a finished turn. */
  predicate ShouldFinalizeIdleAsStop(partial: Option<AssistantMessage>, toolResults: seq<Message>) {
    partial.Some? && HasToolCallBlocks(partial.value) && (toolResults != [] || partial.value.toolCalls == [])
  }

  function TerminalFailure(id: int, partial: Option<AssistantMessage>, aborted: bool): AssistantMessage {
    Message(id, Assistant, if aborted then Aborted else Error, false,
            if partial.Some? then partial.value.toolCalls else [],
            if partial.Some? then partial.value.resolvedCalls else [], 0)
  }

  /** What the response ends with, when the abort flag is `aborted` as it fails. */
  function Answer(stream: ProviderStream, aborted: bool): AssistantMessage {
    var n, partial := FirstTerminal(stream.records), PartialOf(Body(stream.records));
    if n < |stream.records| then
      SettleStopReason(NormalizeTerminal(stream.records[n].result, stream.records[n].error))
    else
      match stream.end
      case EndOfStream(result) => SettleStopReason(result)
      case StepFails(idle, id) =>
        if idle && ShouldFinalizeIdleAsStop(partial, stream.toolResults) then
          SettleStopReason(partial.value.(id := id, stopReason := Stop))
        else TerminalFailure(id, partial, aborted)
  }

  /** The answer of a stream read while the abort flag went from `before` to `after`. */
  predicate IsAnswer(stream: ProviderStream, before: bool, after: bool, message: Message) {
    (!before && message == Answer(stream, false)) || (after && message == Answer(stream, true))
  }

  /**
   * Once a terminal record is read, the answer is its result with all its tool calls, whatever else the stream has and
   * whether or not the run is aborted: an error event's reason is the stop reason, a `done` result's is settled.
   */
  lemma TerminalRecordIsTheAnswer(stream: ProviderStream, aborted: bool, n: nat)
    requires n < |stream.records| && stream.records[n].Terminal?
    requires forall j :: 0 <= j < n ==> !stream.records[j].Terminal?
    ensures var answer, record := Answer(stream, aborted), stream.records[n];
      && answer.id == record.result.id
      && answer.toolCalls == record.result.toolCalls && answer.resolvedCalls == record.result.resolvedCalls
      && (record.error == Some(Error) || record.error == Some(Aborted) ==> answer.stopReason == record.error.value)
      && (record.error == None && record.result.stopReason in {Length, Error, Aborted} ==> answer == record.result)
      && (record.error == None && record.result.stopReason in {Stop, ToolUse} ==>
            answer.stopReason == if HasToolCallBlocks(record.result) then ToolUse else Stop)
  {
    assert FirstTerminal(stream.records) == n;
  }

  /** Without a terminal record: the end of the stream gives the stream's own result. */
  lemma EndOfStreamIsTheResult(stream: ProviderStream, aborted: bool)
    requires stream.end.EndOfStream? && forall j :: 0 <= j < |stream.records| ==> !stream.records[j].Terminal?
    ensures var answer, result := Answer(stream, aborted), stream.end.result;
      && answer == result.(stopReason := answer.stopReason)
      && (result.stopReason in {Length, Error, Aborted} ==> answer == result)
      && (result.stopReason in {Stop, ToolUse} ==>
            answer.stopReason == if HasToolCallBlocks(result) then ToolUse else Stop)
  {}

  /**
   * A failed step ends the response with a terminal message, `aborted` exactly under an abort, with the tool calls seen so
   * far; except that an idle timeout after the provider's tools have finished ends it as a finished turn.
   */
  lemma FailedStepIsTerminal(stream: ProviderStream, aborted: bool)
    requires stream.end.StepFails? && forall j :: 0 <= j < |stream.records| ==> !stream.records[j].Terminal?
    ensures var answer, partial := Answer(stream, aborted), PartialOf(stream.records);
      var finished := stream.end.idle && partial.Some? && (partial.value.toolCalls != [] || partial.value.resolvedCalls != [])
                      && (stream.toolResults != [] || partial.value.toolCalls == []);
      && (finished <==> answer.stopReason == ToolUse)
      && (!finished ==> answer.stopReason == (if aborted then Aborted else Error) && !answer.refusal)
      && (finished ==> answer.refusal == partial.value.refusal) && answer.id == stream.end.id
      && (partial.Some? ==>
            answer.toolCalls == partial.value.toolCalls && answer.resolvedCalls == partial.value.resolvedCalls)
      && (partial == None ==> answer.toolCalls == [] && answer.resolvedCalls == [])
  {
    assert Body(stream.records) == stream.records;
  }
}
