/** The values that travel through the agent: messages, lifecycle events and queued entries. */
module AgentMessages {
  datatype Role = User | Assistant | ToolResult | System | AppDefined

  datatype StopReason = Stop | Length | ToolUse | Error | Aborted

  /**
   * `id` is the identity of the JavaScript object; two messages are the same object iff they are equal. An assistant's
   * tool-call blocks are its `toolCalls` and those the provider resolved itself; `refusal` is what its details say of a
   * refusal. A tool result answers the call `toolCallId`.
   */
  datatype Message = Message(id: int, role: Role, stopReason: StopReason, refusal: bool, toolCalls: seq<int>,
                             resolvedCalls: seq<int>, toolCallId: int)

  type AssistantMessage = m: Message | m.role == Assistant witness Message(0, Assistant, Stop, false, [], [], 0)

  type ToolResultMessage = m: Message | m.role == ToolResult witness Message(0, ToolResult, Stop, false, [], [], 0)

  datatype AgentEvent =
    | AgentStart
    | TurnStart
    | MessageStart(message: Message)
    | MessageUpdate(message: Message)
    | MessageEnd(message: Message)
    | ToolExecutionStart(toolCallId: int)
    | ToolExecutionEnd(toolCallId: int)
    | TurnEnd(message: Message, toolResults: seq<Message>)
    | AgentEnd(messages: seq<Message>)

  /** A queued message with an app-defined role. */
  predicate IsBackgroundNotice(message: Message) {
    message.role == AppDefined
  }

  predicate IsClassifierRefusal(message: Message) {
    (message.stopReason == Error || message.stopReason == ToolUse) && message.refusal
  }

  predicate ShouldTerminateAssistantTurn(message: Message) {
    message.stopReason == Error || message.stopReason == Aborted || IsClassifierRefusal(message)
  }

  /** The events of messages that are started and ended one after another. */
  function Announced(messages: seq<Message>): seq<AgentEvent> {
    if messages == [] then []
    else
      var n := |messages| - 1;
      Announced(messages[..n]) + [MessageStart(messages[n]), MessageEnd(messages[n])]
  }

  lemma AnnounceOne(messages: seq<Message>, i: nat)
    requires i < |messages|
    ensures Announced(messages[..i + 1]) == Announced(messages[..i]) + [MessageStart(messages[i]), MessageEnd(messages[i])]
  {
    assert messages[..i + 1][..i] == messages[..i];
  }

  lemma {:induction false} AnnounceBoth(a: seq<Message>, b: seq<Message>)
    ensures Announced(a + b) == Announced(a) + Announced(b)
    decreases |b|
  {
    if b == [] {
      assert a + b == a;
    } else {
      var n := |b| - 1;
      AnnounceBoth(a, b[..n]);
      assert (a + b)[..|a + b| - 1] == a + b[..n];
    }
  }

  /** The events of tool calls that are run and answered one after another. */
  function ToolEvents(results: seq<Message>): seq<AgentEvent> {
    if results == [] then []
    else
      var n := |results| - 1;
      ToolEvents(results[..n])
      + [ToolExecutionStart(results[n].toolCallId), ToolExecutionEnd(results[n].toolCallId), MessageStart(results[n]),
         MessageEnd(results[n])]
  }

  // ---------------------------------------------------------------- what a run's events say

  /** The messages a log of events ended, in order: what `processEvents` appends to the transcript. */
  function EndedMessages(events: seq<AgentEvent>): seq<Message> {
    if events == [] then []
    else
      var before := EndedMessages(events[..|events| - 1]);
      match events[|events| - 1]
      case MessageEnd(m) => before + [m]
      case _ => before
  }

  /**
   * Where a log stands in the grammar of a run: `agent_start (turn_start turn_end)* [turn_start] agent_end`, where inside
   * a turn every message is started before it is updated or ended. A message that is not an assistant's ends as the very
   * message that was started; an assistant's grows, and may be started again, until it ends as its final message.
   */
  datatype Phase = NotStarted | BetweenTurns | InTurn | InMessage(message: Message) | InAssistant | Ended | Malformed

  function Within(message: Message): Phase {
    if message.role == Assistant then InAssistant else InMessage(message)
  }

  function NextPhase(phase: Phase, event: AgentEvent): Phase {
    match event
    case AgentStart => if phase == NotStarted then BetweenTurns else Malformed
    case TurnStart => if phase == BetweenTurns then InTurn else Malformed
    case TurnEnd(_, _) => if phase == InTurn then BetweenTurns else Malformed
    case AgentEnd(_) => if phase == BetweenTurns || phase == InTurn then Ended else Malformed
    case MessageStart(m) =>
      if phase == InTurn || (phase == InAssistant && m.role == Assistant) then Within(m) else Malformed
    case MessageUpdate(m) => if phase == InAssistant && m.role == Assistant then InAssistant else Malformed
    case MessageEnd(m) => if phase == Within(m) then InTurn else Malformed
    case _ => if phase == InTurn || phase == InAssistant then phase else Malformed
  }

  function PhaseOf(events: seq<AgentEvent>): Phase {
    if events == [] then NotStarted
    else NextPhase(PhaseOf(events[..|events| - 1]), events[|events| - 1])
  }

  lemma EmptyLog()
    ensures PhaseOf([]) == NotStarted && EndedMessages([]) == []
  {}

  lemma LogGrows(events: seq<AgentEvent>, event: AgentEvent)
    ensures PhaseOf(events + [event]) == NextPhase(PhaseOf(events), event)
    ensures EndedMessages(events + [event])
         == EndedMessages(events) + (if event.MessageEnd? then [event.message] else [])
  {
    var log := events + [event];
    assert log[..|log| - 1] == events;
  }

  /** A turn start (or a turn end). */
  predicate IsMark(event: AgentEvent, start: bool) {
    if start then event.TurnStart? else event.TurnEnd?
  }

  ghost predicate MarkBetween(events: seq<AgentEvent>, i: int, j: int, start: bool) {
    exists k :: i < k < j && 0 <= k < |events| && IsMark(events[k], start)
  }

  /** Between two turn starts lies a turn end, and between two turn ends a turn start. */
  ghost predicate TurnsAlternate(events: seq<AgentEvent>) {
    forall i, j, start :: 0 <= i < j < |events| && IsMark(events[i], start) && IsMark(events[j], start) ==>
      MarkBetween(events, i, j, !start)
  }

  /** The last turn mark, if any, is a start (or an end). */
  ghost predicate LastMarkIs(events: seq<AgentEvent>, start: bool) {
    forall i :: 0 <= i < |events| && IsMark(events[i], !start) ==> MarkBetween(events, i, |events|, start)
  }

  lemma MarkStays(events: seq<AgentEvent>, event: AgentEvent, i: int, j: int, start: bool)
    requires MarkBetween(events, i, j, start)
    ensures MarkBetween(events + [event], i, j, start) && MarkBetween(events + [event], i, j + 1, start)
  {
    var k :| i < k < j && 0 <= k < |events| && IsMark(events[k], start);
    assert IsMark((events + [event])[k], start);
  }

  lemma AppendKeepsAlternation(events: seq<AgentEvent>, event: AgentEvent)
    requires TurnsAlternate(events)
    requires event.TurnStart? ==> LastMarkIs(events, false)
    requires event.TurnEnd? ==> LastMarkIs(events, true)
    ensures TurnsAlternate(events + [event])
  {
    hide MarkBetween;
    var log := events + [event];
    forall i, j, start | 0 <= i < j < |log| && IsMark(log[i], start) && IsMark(log[j], start)
      ensures MarkBetween(log, i, j, !start)
    {
      assert IsMark(events[i], start);
      assert MarkBetween(events, i, j, !start);
      MarkStays(events, event, i, j, !start);
    }
  }

  lemma AppendMovesLastMark(events: seq<AgentEvent>, event: AgentEvent, start: bool)
    requires IsMark(event, start) || (!IsMark(event, !start) && LastMarkIs(events, start))
    ensures LastMarkIs(events + [event], start)
  {
    var log := events + [event];
    forall i | 0 <= i < |log| && IsMark(log[i], !start)
      ensures MarkBetween(log, i, |log|, start)
    {
      if IsMark(event, start) {
        assert IsMark(log[|events|], start);
      } else {
        assert IsMark(events[i], !start);
        MarkStays(events, event, i, |events|, start);
      }
    }
  }

  /** The message that ends may be the one that was started: it is that message, or both are an assistant's. */
  predicate SameMessage(started: Message, ended: Message) {
    Within(started) == Within(ended)
  }

  /** Position `k` starts a message, and up to `end` no message ends. */
  ghost predicate StartedAt(events: seq<AgentEvent>, k: int, end: int)
    requires end <= |events|
  {
    0 <= k < end && events[k].MessageStart? && forall j :: k < j < end ==> !events[j].MessageEnd?
  }

  ghost predicate MessageOpen(events: seq<AgentEvent>, phase: Phase) {
    exists k :: StartedAt(events, k, |events|) && Within(events[k].message) == phase
  }

  ghost predicate StartsBefore(events: seq<AgentEvent>, i: int, ended: Message)
    requires i <= |events|
  {
    exists k :: StartedAt(events, k, i) && SameMessage(events[k].message, ended)
  }

  /** Every message that ended was started, with no other message ending in between. */
  ghost predicate MessagesPaired(events: seq<AgentEvent>) {
    forall i :: 0 <= i < |events| && events[i].MessageEnd? ==> StartsBefore(events, i, events[i].message)
  }

  lemma LongerLogKeepsStarts(events: seq<AgentEvent>, event: AgentEvent, i: int, ended: Message)
    requires 0 <= i <= |events| && StartsBefore(events, i, ended)
    ensures StartsBefore(events + [event], i, ended)
  {
    var k :| StartedAt(events, k, i) && SameMessage(events[k].message, ended);
    assert StartedAt(events + [event], k, i) && (events + [event])[k] == events[k];
  }

  lemma AppendKeepsPairing(events: seq<AgentEvent>, event: AgentEvent)
    requires MessagesPaired(events)
    requires event.MessageEnd? ==> MessageOpen(events, Within(event.message))
    ensures MessagesPaired(events + [event])
  {
    var log := events + [event];
    forall i | 0 <= i < |log| && log[i].MessageEnd?
      ensures StartsBefore(log, i, log[i].message)
    {
      if i == |events| {
        assert MessageOpen(events, Within(event.message));
        var k :| StartedAt(events, k, |events|) && Within(events[k].message) == Within(event.message);
        assert StartedAt(log, k, i) && log[k] == events[k];
      } else {
        LongerLogKeepsStarts(events, event, i, events[i].message);
      }
    }
  }

  lemma AppendOpens(events: seq<AgentEvent>, event: AgentEvent, phase: Phase)
    requires event.MessageStart? ==> phase == Within(event.message)
    requires !event.MessageStart? ==> !event.MessageEnd? && MessageOpen(events, phase)
    ensures MessageOpen(events + [event], phase)
  {
    var log := events + [event];
    if event.MessageStart? {
      assert StartedAt(log, |events|, |events| + 1);
    } else {
      var k :| StartedAt(events, k, |events|) && Within(events[k].message) == phase;
      assert StartedAt(log, k, |events| + 1) && log[k] == events[k];
    }
  }

  ghost predicate OpenLog(events: seq<AgentEvent>) {
    StartsOnce(events) && TurnsAlternate(events) && MessagesPaired(events)
  }

  ghost predicate StartsOnce(events: seq<AgentEvent>) {
    && |events| >= 1 && events[0].AgentStart?
    && (forall i :: 0 < i < |events| ==> !events[i].AgentStart?)
    && (forall i :: 0 <= i < |events| ==> !events[i].AgentEnd?)
  }

  lemma StartsOnceGrows(events: seq<AgentEvent>, event: AgentEvent)
    requires StartsOnce(events) && !event.AgentStart? && !event.AgentEnd?
    ensures StartsOnce(events + [event])
  {}

  predicate InsideMessage(phase: Phase) {
    phase.InMessage? || phase == InAssistant
  }

  predicate Open(phase: Phase) {
    phase == BetweenTurns || phase == InTurn || InsideMessage(phase)
  }

  lemma SingleStart(event: AgentEvent)
    requires event.AgentStart?
    ensures TurnsAlternate([event]) && MessagesPaired([event]) && LastMarkIs([event], false)
  {}

  /** One more event, from one phase of an open log to another. */
  lemma OpenLogGrows(before: seq<AgentEvent>, event: AgentEvent, phase: Phase, next: Phase)
    requires OpenLog(before) && Open(phase) && Open(next) && next == NextPhase(phase, event)
    requires LastMarkIs(before, phase != BetweenTurns)
    requires InsideMessage(phase) ==> MessageOpen(before, phase)
    ensures OpenLog(before + [event]) && LastMarkIs(before + [event], next != BetweenTurns)
    ensures InsideMessage(next) ==> MessageOpen(before + [event], next)
  {
    hide TurnsAlternate, MessagesPaired, LastMarkIs, MessageOpen, StartsOnce, PhaseOf, EndedMessages;
    StartsOnceGrows(before, event);
    AppendKeepsAlternation(before, event);
    AppendMovesLastMark(before, event, next != BetweenTurns);
    AppendKeepsPairing(before, event);
    if InsideMessage(next) { AppendOpens(before, event, next); }
  }

  lemma {:induction false} OpenLogsAreWellFormed(events: seq<AgentEvent>)
    requires Open(PhaseOf(events))
    ensures OpenLog(events)
    ensures LastMarkIs(events, PhaseOf(events) != BetweenTurns)
    ensures InsideMessage(PhaseOf(events)) ==> MessageOpen(events, PhaseOf(events))
  {
    hide TurnsAlternate, MessagesPaired, LastMarkIs, MessageOpen;
    var n := |events| - 1;
    var before := events[..n];
    assert events == before + [events[n]];
    if n == 0 {
      assert before == [] && PhaseOf(before) == NotStarted;
      SingleStart(events[0]);
    } else {
      assert PhaseOf(before) != NotStarted;
      OpenLogsAreWellFormed(before);
      OpenLogGrows(before, events[n], PhaseOf(before), PhaseOf(events));
    }
  }

  lemma StartsOnceBefore(events: seq<AgentEvent>)
    requires events != [] && StartsOnce(events[..|events| - 1])
    ensures |events| >= 2 && events[0].AgentStart?
    ensures forall i :: 0 < i < |events| - 1 ==> !events[i].AgentStart?
    ensures forall i :: 0 <= i < |events| - 1 ==> !events[i].AgentEnd?
  {
    var before := events[..|events| - 1];
    assert forall i :: 0 <= i < |before| ==> events[i] == before[i];
  }

  /**
   * A log that reached `Ended` opens with its only `agent_start`, closes with its only `agent_end`, its turn starts and
   * turn ends alternate (so at most the last turn is left open), and every message that ended was the one started.
   */
  lemma {:induction false} EndedLogsAreWellFormed(events: seq<AgentEvent>)
    requires PhaseOf(events) == Ended
    ensures |events| >= 2 && events[0].AgentStart? && events[|events| - 1].AgentEnd?
    ensures forall i :: 0 < i < |events| ==> !events[i].AgentStart?
    ensures forall i :: 0 <= i < |events| - 1 ==> !events[i].AgentEnd?
    ensures TurnsAlternate(events) && MessagesPaired(events)
  {
    hide TurnsAlternate, MessagesPaired, LastMarkIs, MessageOpen, StartsOnce;
    var n := |events| - 1;
    var before := events[..n];
    OpenLogsAreWellFormed(before);
    StartsOnceBefore(events);
    assert events == before + [events[n]];
    AppendKeepsAlternation(before, events[n]);
    AppendKeepsPairing(before, events[n]);
  }
}
