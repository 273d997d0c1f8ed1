/**
 * The agent run: `runLoop` with its two nested loops, its flags and its two queues, and one streamed response
 * (packages/agent/src/agent-loop.ts:138-478 and 619-911), over the owner's callbacks.
 *
 * What the world answers (the port, the hooks, the provider's streams, the tool host) is given for any number of turns:
 * `Suspended` is the state of a run that has not ended within them.
 */
module AgentLoop {
  import opened Options
  import opened AgentMessages
  import opened AgentAnswers
  import opened AgentQueues
  import opened AgentHistory
  import opened AgentAccounts
  import opened AgentOwner

  datatype Outcome = Finished(exit: Exit) | Threw | Suspended

  /** What the hooks answer: `prepareRequest`, `finishTurn` and `prepareNextTurn`. */
  datatype RequestHook = RequestHook(throws: bool, context: Option<seq<Message>>)

  datatype FinishHook = FinishHook(throws: bool, decision: Decision)

  datatype TurnUpdate = TurnUpdate(context: Option<seq<Message>>, messages: Option<seq<Message>>)

  datatype PrepareHook = PrepareHook(throws: bool, update: Option<TurnUpdate>)

  /** What a tool host answers to a batch of calls: results, whether they end the batch, and whether it then throws. */
  datatype HostAnswer = HostAnswer(results: seq<ToolResultMessage>, terminate: bool, throws: bool)

  /**
   * What the world around the loop answers in one turn: the port's commit, the hooks, the provider's stream, `commitStep`
   * and the tool host.
   */
  datatype TurnWorld = TurnWorld(accepts: bool, request: RequestHook, stream: ProviderStream, stepThrows: bool,
                                 host: HostAnswer, finish: FinishHook, prepare: PrepareHook)

  /** Something in this turn may fail the run. */
  predicate Faulty(world: TurnWorld) {
    !world.accepts || world.request.throws || world.stepThrows || world.host.throws || world.finish.throws
    || world.prepare.throws
  }

  /** The locals of `runLoop`. */
  datatype Loop = Loop(
    context: seq<Message>,
    newMessages: seq<Message>,
    firstTurn: bool,
    drainedTerminatingQueue: Option<QueueKind>,
    turnStartAlreadyEmitted: bool,
    explicitContinuation: bool,
    preparedMessages: seq<Message>,
    pendingSource: QueueKind,
    pendingMessages: seq<Entry>,
    hasMoreToolCalls: bool,
    toolBatchTerminated: bool)

  /**
   * The run's own log ends exactly its `newMessages`, the transcript is what it was at the start plus those, and unless
   * a hook or a restarted stream interfered the loop's context is the transcript.
   */
  ghost predicate Mirrors(agent: Agent, context: seq<Message>, newMessages: seq<Message>, base: seq<Message>)
    reads agent`events, agent`transcript, agent`contextDiverged
  {
    && EndedMessages(agent.events) == newMessages
    && agent.transcript == base + newMessages
    && (!agent.contextDiverged ==> context == agent.transcript)
  }

  /** A claimed batch can still be given back: the recorded generation is the one of its own drain. */
  ghost predicate Returnable(agent: Agent, pending: seq<Entry>, source: QueueKind)
    reads agent`steeringQueueGeneration, agent`followUpQueueGeneration, agent`claimedAt
  {
    pending != [] ==> agent.GenerationOf(source) == agent.claimedAt
  }

  /** The queue a non-empty pending batch belongs to. */
  ghost function Claimed(l: Loop): QueueKind {
    if l.pendingMessages == [] then Steering else l.pendingSource
  }

  ghost predicate Sound(agent: Agent, l: Loop, base: seq<Message>)
    reads agent, agent.steering, agent.followUp
  {
    && agent.Ledger(l.pendingMessages, Claimed(l))
    && Returnable(agent, l.pendingMessages, l.pendingSource)
    && Mirrors(agent, l.context, l.newMessages, base)
  }

  /** Queues may still be polled, and every poll reaches its queue. */
  ghost predicate Polling(agent: Agent)
    reads agent`sealed, agent`skipInitialSteeringPoll
  {
    !agent.sealed && !agent.skipInitialSteeringPoll
  }

  // ---------------------------------------------------------------- admission

  /** A message that came from no queue is started and ended. */
  method Announce(agent: Agent, message: Message, ghost held: seq<Entry>, ghost from: QueueKind)
    requires agent.Ledger(held, from) && PhaseOf(agent.events) == InTurn
    modifies agent`nextPlace, agent`home, agent`calls, agent`discarded, agent`aborted,
             agent`suppressQueuedMessageDrain, agent.steering, agent.followUp, agent`events, agent`transcript,
             agent`origins
    ensures agent.Ledger(held, from) && PhaseOf(agent.events) == InTurn
    ensures EndedMessages(agent.events) == EndedMessages(old(agent.events)) + [message]
    ensures agent.transcript == old(agent.transcript) + [message]
    ensures agent.events == old(agent.events) + [MessageStart(message), MessageEnd(message)]
    ensures Extends(old(agent.Past()), agent.Past())
  {
    hide Agent.Ledger, Agent.Past, Extends, StageOf, PhaseOf, EndedMessages;
    ExtendsIsAnOrder();
    agent.Emit(MessageStart(message), held, from);
    agent.EmitMessageEnd(message, held, from);
  }

  /** Messages that came from no queue (prompted, prepared, or results): each is started, ended and pushed in order. */
  method AdmitLocal(agent: Agent, context: seq<Message>, newMessages: seq<Message>, local: seq<Message>,
                    ghost held: seq<Entry>, ghost from: QueueKind, ghost base: seq<Message>)
    returns (context': seq<Message>, newMessages': seq<Message>)
    requires agent.Ledger(held, from)
    requires Mirrors(agent, context, newMessages, base) && PhaseOf(agent.events) == InTurn
    modifies agent`nextPlace, agent`home, agent`calls, agent`discarded, agent`aborted,
             agent`suppressQueuedMessageDrain, agent.steering, agent.followUp, agent`events, agent`transcript,
             agent`origins
    ensures agent.Ledger(held, from)
    ensures Mirrors(agent, context', newMessages', base) && PhaseOf(agent.events) == InTurn
    ensures newMessages' == newMessages + local && context' == context + local
    ensures agent.events == old(agent.events) + Announced(local)
    ensures Extends(old(agent.Past()), agent.Past())
  {
    hide Agent.Ledger, Agent.Past, Extends, StageOf, PhaseOf, EndedMessages, Announced;
    ExtendsIsAnOrder();
    context', newMessages' := context, newMessages;
    NothingAnnounced();
    for i := 0 to |local|
      invariant agent.Ledger(held, from)
      invariant Mirrors(agent, context', newMessages', base) && PhaseOf(agent.events) == InTurn
      invariant agent.events == old(agent.events) + Announced(local[..i])
      invariant newMessages' == newMessages + local[..i] && context' == context + local[..i]
      invariant Extends(old(agent.Past()), agent.Past())
    {
      AnnounceOne(local, i);
      Announce(agent, local[i], held, from);
      context', newMessages' := context' + [local[i]], newMessages' + [local[i]];
    }
    assert local[..|local|] == local;
  }

  lemma NothingAnnounced()
    ensures Announced([]) == []
  {}

  method AdmitNext(agent: Agent, context: seq<Message>, newMessages: seq<Message>,
                   held: seq<Entry>, ghost source: QueueKind, ghost base: seq<Message>)
    returns (context': seq<Message>, newMessages': seq<Message>)
    requires held != [] && agent.Ledger(held, source) && agent.AllCommitted(held, source)
    requires Mirrors(agent, context, newMessages, base) && PhaseOf(agent.events) == InTurn
    modifies agent`nextPlace, agent`home, agent`calls, agent`discarded, agent`aborted,
             agent`suppressQueuedMessageDrain, agent.steering, agent.followUp, agent`events, agent`transcript,
             agent`origins
    ensures agent.Ledger(held[1..], if |held| == 1 then Steering else source)
    ensures Mirrors(agent, context', newMessages', base) && PhaseOf(agent.events) == InTurn
    ensures agent.events == old(agent.events) + [MessageStart(held[0].message), MessageEnd(held[0].message)]
    ensures newMessages' == newMessages + [held[0].message] && context' == context + [held[0].message]
    ensures Extends(old(agent.Past()), agent.Past())
  {
    hide Agent.Ledger, Agent.Past, Extends, StageOf;
    ExtendsIsAnOrder();
    var message := held[0].message;
    agent.Emit(MessageStart(message), held, source);
    agent.EmitQueuedMessageEnd(held, source);
    context', newMessages' := context + [message], newMessages + [message];
  }

  /** A claimed and committed batch: each message leaves the batch for the transcript, the context and `newMessages`. */
  method AdmitQueued(agent: Agent, context: seq<Message>, newMessages: seq<Message>,
                     pending: seq<Entry>, ghost source: QueueKind, ghost base: seq<Message>)
    returns (context': seq<Message>, newMessages': seq<Message>)
    requires agent.Ledger(pending, source) && agent.AllCommitted(pending, source)
    requires pending == [] ==> source == Steering
    requires Mirrors(agent, context, newMessages, base) && PhaseOf(agent.events) == InTurn
    modifies agent`nextPlace, agent`home, agent`calls, agent`discarded, agent`aborted,
             agent`suppressQueuedMessageDrain, agent.steering, agent.followUp, agent`events, agent`transcript,
             agent`origins
    ensures agent.Ledger([], Steering)
    ensures Mirrors(agent, context', newMessages', base) && PhaseOf(agent.events) == InTurn
    ensures newMessages' == newMessages + Messages(pending)
    ensures agent.events == old(agent.events) + Announced(Messages(pending))
    ensures context' == context + Messages(pending)
    ensures Extends(old(agent.Past()), agent.Past())
  {
    hide Agent.Ledger, Agent.Past, Extends, StageOf, Announced;
    ExtendsIsAnOrder();
    context', newMessages' := context, newMessages;
    NothingAnnounced();
    for i := 0 to |pending|
      invariant agent.Ledger(pending[i..], if i == |pending| then Steering else source)
      invariant agent.AllCommitted(pending, source)
      invariant Mirrors(agent, context', newMessages', base) && PhaseOf(agent.events) == InTurn
      invariant agent.events == old(agent.events) + Announced(Messages(pending)[..i])
      invariant newMessages' == newMessages + Messages(pending[..i])
      invariant context' == context + Messages(pending[..i])
      invariant Extends(old(agent.Past()), agent.Past())
    {
      AnnounceOne(Messages(pending), i);
      assert pending[i..][1..] == pending[i + 1..];
      assert Messages(pending[..i + 1]) == Messages(pending[..i]) + [pending[i].message];
      context', newMessages' := AdmitNext(agent, context', newMessages', pending[i..], source, base);
    }
    assert pending[..|pending|] == pending;
    assert Messages(pending)[..|pending|] == Messages(pending);
  }

  // ---------------------------------------------------------------- one streamed response

  predicate AreToolResults(messages: seq<Message>) {
    forall i :: 0 <= i < |messages| ==> messages[i].role == ToolResult
  }

  /** The end of every path of a response: the final message replaces the partial one, or is started here. */
  method FinishResponse(agent: Agent, context: seq<Message>, addedPartial: bool, final: AssistantMessage)
    returns (context': seq<Message>)
    requires agent.Ledger([], Steering)
    requires addedPartial ==> context != []
    requires PhaseOf(agent.events) == (if addedPartial then InAssistant else InTurn)
    modifies agent`nextPlace, agent`home, agent`calls, agent`discarded, agent`aborted,
             agent`suppressQueuedMessageDrain, agent.steering, agent.followUp, agent`events, agent`transcript,
             agent`origins
    ensures agent.Ledger([], Steering) && PhaseOf(agent.events) == InTurn
    ensures context' == (if addedPartial then context[..|context| - 1] else context) + [final]
    ensures EndedMessages(agent.events) == EndedMessages(old(agent.events)) + [final]
    ensures agent.transcript == old(agent.transcript) + [final]
    ensures agent.events
         == old(agent.events) + (if addedPartial then [] else [MessageStart(final)]) + [MessageEnd(final)]
    ensures Extends(old(agent.Past()), agent.Past())
  {
    hide Agent.Ledger, Agent.Past, Extends, StageOf;
    ExtendsIsAnOrder();
    if addedPartial {
      context' := context[|context| - 1 := final];
    } else {
      context' := context + [final];
      agent.Emit(MessageStart(final), [], Steering);
    }
    agent.EmitMessageEnd(final, [], Steering);
  }

  /** A record that does not end the response; updates before the first `start` are ignored. */
  method OnRecord(agent: Agent, context: seq<Message>, partial: Option<AssistantMessage>, event: StreamRecord)
    returns (context': seq<Message>, partial': Option<AssistantMessage>)
    requires agent.Ledger([], Steering) && !event.Terminal?
    requires partial.Some? ==> context != []
    requires PhaseOf(agent.events) == (if partial.Some? then InAssistant else InTurn)
    modifies agent`nextPlace, agent`home, agent`calls, agent`discarded, agent`aborted,
             agent`suppressQueuedMessageDrain, agent.steering, agent.followUp, agent`events, agent`transcript,
             agent`origins, agent`contextDiverged
    ensures agent.Ledger([], Steering)
    ensures partial' == (if event.StreamStart? || (event.Update? && partial.Some?) then Some(event.partial) else partial)
    ensures PhaseOf(agent.events) == (if partial'.Some? then InAssistant else InTurn)
    ensures context' == if event.StreamStart? then context + [event.partial]
                        else if event.Update? && partial.Some? then context[|context| - 1 := event.partial]
                        else context
    ensures EndedMessages(agent.events) == EndedMessages(old(agent.events))
    ensures agent.events == old(agent.events)
         + (if event.StreamStart? then [MessageStart(event.partial)]
            else if event.Update? && partial.Some? then [MessageUpdate(event.partial)]
            else [])
    ensures agent.transcript == old(agent.transcript)
    ensures agent.contextDiverged == (old(agent.contextDiverged) || (event.StreamStart? && partial.Some?))
    ensures Extends(old(agent.Past()), agent.Past())
  {
    hide Agent.Ledger, Agent.Past, Extends, StageOf;
    ExtendsIsAnOrder();
    context', partial' := context, partial;
    match event
    case Progress =>
      agent.Await([], Steering);
    case StreamStart(started) =>
      context' := context + [started];
      partial' := Some(started);
      agent.contextDiverged := agent.contextDiverged || partial.Some?;
      agent.Emit(MessageStart(started), [], Steering);
    case Update(updated) =>
      if partial.Some? {
        context' := context[|context| - 1 := updated];
        partial' := Some(updated);
        agent.Emit(MessageUpdate(updated), [], Steering);
      }
  }

  /** The reading loop: it takes records until a terminal one, or until the stream has no more. */
  method ReadRecords(agent: Agent, context: seq<Message>, stream: ProviderStream)
    returns (context': seq<Message>, partial: Option<AssistantMessage>, terminal: Option<StreamRecord>)
    requires agent.Ledger([], Steering) && PhaseOf(agent.events) == InTurn
    modifies agent`nextPlace, agent`home, agent`calls, agent`discarded, agent`aborted,
             agent`suppressQueuedMessageDrain, agent.steering, agent.followUp, agent`events, agent`transcript,
             agent`origins, agent`contextDiverged
    ensures agent.Ledger([], Steering)
    ensures var body := Body(stream.records);
      && context' == ContextOf(context, body) && partial == PartialOf(body)
      && agent.events == old(agent.events) + Emitted(body)
      && agent.contextDiverged == (old(agent.contextDiverged) || Starts(body) > 1)
    ensures var n := FirstTerminal(stream.records);
      terminal == if n < |stream.records| then Some(stream.records[n]) else None
    ensures PhaseOf(agent.events) == (if partial.Some? then InAssistant else InTurn)
    ensures EndedMessages(agent.events) == EndedMessages(old(agent.events))
    ensures agent.transcript == old(agent.transcript)
    ensures Extends(old(agent.Past()), agent.Past())
  {
    hide Agent.Ledger, Agent.Past, Extends, StageOf, PhaseOf, EndedMessages, ContextOf, PartialOf, Emitted, Starts;
    ExtendsIsAnOrder();
    context', partial, terminal := context, None, None;
    NoRecords(context);
    ghost var n := FirstTerminal(stream.records);
    var i := 0;
    while i < |stream.records| && terminal == None
      invariant 0 <= i <= |stream.records|
      invariant agent.Ledger([], Steering)
      invariant terminal == None ==> i <= n
      invariant terminal.Some? ==> i == n + 1 && terminal == Some(stream.records[n])
      invariant var read := stream.records[..if terminal == None then i else n];
        && context' == ContextOf(context, read) && partial == PartialOf(read)
        && agent.events == old(agent.events) + Emitted(read)
        && agent.contextDiverged == (old(agent.contextDiverged) || Starts(read) > 1)
      invariant PhaseOf(agent.events) == (if partial.Some? then InAssistant else InTurn)
      invariant EndedMessages(agent.events) == EndedMessages(old(agent.events))
      invariant agent.transcript == old(agent.transcript)
      invariant Extends(old(agent.Past()), agent.Past())
    {
      agent.Await([], Steering);
      var event := stream.records[i];
      if event.Terminal? {
        terminal := Some(event);
      } else {
        PartialIsInContext(context, stream.records[..i]);
        OneMoreRecord(context, stream.records[..i], event);
        assert stream.records[..i] + [event] == stream.records[..i + 1];
        context', partial := OnRecord(agent, context', partial, event);
      }
      i := i + 1;
    }
  }

  lemma NoRecords(context: seq<Message>)
    ensures ContextOf(context, []) == context && PartialOf([]) == None && Emitted([]) == [] && Starts([]) == 0
  {}

  /** The terminal record's message; without one, the stream's result, or a message for the failure. */
  method FinalMessage(agent: Agent, stream: ProviderStream, terminal: Option<StreamRecord>,
                      partial: Option<AssistantMessage>) returns (message: AssistantMessage)
    requires terminal == if FirstTerminal(stream.records) < |stream.records|
                         then Some(stream.records[FirstTerminal(stream.records)]) else None
    requires partial == PartialOf(Body(stream.records))
    ensures message == Answer(stream, agent.aborted)
  {
    if terminal.Some? {
      return SettleStopReason(NormalizeTerminal(terminal.value.result, terminal.value.error));
    }
    match stream.end
    case EndOfStream(result) =>
      message := SettleStopReason(result);
    case StepFails(idle, id) =>
      if idle && ShouldFinalizeIdleAsStop(partial, stream.toolResults) {
        message := SettleStopReason(partial.value.(id := id, stopReason := Stop));
      } else {
        message := TerminalFailure(id, partial, agent.aborted);
      }
  }

  /** Everything up to the answer: the records are read, and the message the response ends with is settled. */
  method ReadAnswer(agent: Agent, context: seq<Message>, stream: ProviderStream)
    returns (message: AssistantMessage, context': seq<Message>, addedPartial: bool)
    requires agent.Ledger([], Steering) && PhaseOf(agent.events) == InTurn
    modifies agent`nextPlace, agent`home, agent`calls, agent`discarded, agent`aborted,
             agent`suppressQueuedMessageDrain, agent.steering, agent.followUp, agent`events, agent`transcript,
             agent`origins, agent`contextDiverged
    ensures agent.Ledger([], Steering) && message == Answer(stream, agent.aborted)
    ensures var body := Body(stream.records);
      && context' == ContextOf(context, body) && addedPartial == PartialOf(body).Some?
      && agent.events == old(agent.events) + Emitted(body)
      && agent.contextDiverged == (old(agent.contextDiverged) || Starts(body) > 1)
    ensures PhaseOf(agent.events) == (if addedPartial then InAssistant else InTurn)
    ensures EndedMessages(agent.events) == EndedMessages(old(agent.events))
    ensures agent.transcript == old(agent.transcript)
    ensures Extends(old(agent.Past()), agent.Past())
  {
    hide Agent.Ledger, Agent.Past, Extends, StageOf, PhaseOf, EndedMessages, Answer, ContextOf, PartialOf, Emitted,
         Starts;
    var partial, terminal;
    context', partial, terminal := ReadRecords(agent, context, stream);
    message := FinalMessage(agent, stream, terminal, partial);
    addedPartial := partial.Some?;
  }

  /** The events of one response. */
  function ResponseEvents(stream: ProviderStream, answer: Message): seq<AgentEvent> {
    Emitted(Body(stream.records)) + (if Starts(Body(stream.records)) > 0 then [] else [MessageStart(answer)])
    + [MessageEnd(answer)]
  }

  /**
   * `streamAssistantResponse`: on every path one message is ended, the answer of this stream, and the context gains exactly
   * that message iff the stream started it at most once (each further `start` leaves the superseded partial in it).
   */
  method StreamAssistantResponse(agent: Agent, context: seq<Message>, stream: ProviderStream)
    returns (message: Message, context': seq<Message>)
    requires agent.Ledger([], Steering) && PhaseOf(agent.events) == InTurn
    requires !agent.contextDiverged ==> context == agent.transcript
    requires MayAsk(StageOf(agent.history))
    modifies agent`nextPlace, agent`home, agent`calls, agent`discarded, agent`aborted,
             agent`suppressQueuedMessageDrain, agent.steering, agent.followUp, agent`events, agent`transcript,
             agent`origins, agent`history, agent`contextDiverged
    ensures agent.Ledger([], Steering) && PhaseOf(agent.events) == InTurn
    ensures message.role == Assistant && StageOf(agent.history) == Replied(message, stream.toolResults, false, false)
    ensures IsAnswer(stream, old(agent.aborted), agent.aborted, message)
    ensures agent.history == old(agent.history)
         + [Requested(context, old(agent.transcript), old(agent.contextDiverged)), Answered(message, stream.toolResults)]
    ensures EndedMessages(agent.events) == EndedMessages(old(agent.events)) + [message]
    ensures var body := Body(stream.records);
      && |context'| == |context| + (if Starts(body) <= 1 then 1 else Starts(body))
      && (Starts(body) <= 1 <==> context' == context + [message])
      && agent.contextDiverged == (old(agent.contextDiverged) || Starts(body) > 1)
    ensures agent.events == old(agent.events) + ResponseEvents(stream, message)
    ensures agent.transcript == old(agent.transcript) + [message]
    ensures context <= context' && context'[|context'| - 1] == message
    ensures Extends(old(agent.Past()), agent.Past())
  {
    hide Agent.Ledger, Agent.Past, Extends, StageOf, NextStage, PhaseOf, EndedMessages, MayAsk, Answer, ContextOf, PartialOf,
         Emitted, Starts;
    ExtendsIsAnOrder();
    agent.Flags();
    Asking(StageOf(agent.history), context, agent.transcript, agent.contextDiverged);
    agent.Note(Requested(context, agent.transcript, agent.contextDiverged));
    var addedPartial;
    message, context', addedPartial := ReadAnswer(agent, context, stream);
    PartialIsInContext(context, Body(stream.records));
    agent.FlagsStay(old(agent.Past()));
    Answers(message, stream.toolResults);
    agent.Note(Answered(message, stream.toolResults));
    agent.Flags();
    ghost var answered := agent.Past();
    context' := FinishResponse(agent, context', addedPartial, message);
    agent.FlagsStay(answered);
  }

  // ---------------------------------------------------------------- the run

  /** The head of the inner loop. The second refresh of a terminating drain (lines 275-282) is never reached. */
  ghost predicate AtTop(agent: Agent, l: Loop, base: seq<Message>)
    reads agent, agent.steering, agent.followUp
  {
    && Sound(agent, l, base) && Polling(agent)
    && l.drainedTerminatingQueue == None
    && !(l.turnStartAlreadyEmitted && l.firstTurn)
    && PhaseOf(agent.events) == (if l.turnStartAlreadyEmitted || l.firstTurn then InTurn else BetweenTurns)
    && var stage := StageOf(agent.history);
       && stage.Ready?
       && (l.hasMoreToolCalls ==> stage.due || l.pendingMessages != [])
       && (l.explicitContinuation ==> stage.due)
       && (stage.due ==> l.hasMoreToolCalls || l.explicitContinuation || l.pendingMessages != [])
  }

  /** Inside a turn with nothing claimed. */
  ghost predicate MidTurn(agent: Agent, l: Loop, base: seq<Message>)
    reads agent, agent.steering, agent.followUp
  {
    && Sound(agent, l, base) && Polling(agent) && PhaseOf(agent.events) == InTurn
    && l.pendingMessages == [] && l.preparedMessages == [] && l.drainedTerminatingQueue == None
    && !l.firstTurn && !l.turnStartAlreadyEmitted
  }

  /** A claim of the terminating drain is on record exactly while its batch is held. */
  ghost predicate DrainOnRecord(l: Loop) {
    l.drainedTerminatingQueue == if l.pendingMessages == [] then None else Some(l.pendingSource)
  }

  /** Lines 268-274: `turn_start`, unless it was emitted already. */
  method OpenTurn(agent: Agent, l: Loop, ghost base: seq<Message>) returns (l': Loop)
    requires agent.Ledger(l.pendingMessages, Claimed(l))
    requires Mirrors(agent, l.context, l.newMessages, base)
    requires PhaseOf(agent.events) == (if l.turnStartAlreadyEmitted || l.firstTurn then InTurn else BetweenTurns)
    requires !(l.turnStartAlreadyEmitted && l.firstTurn)
    modifies agent`nextPlace, agent`home, agent`calls, agent`discarded, agent`aborted,
             agent`suppressQueuedMessageDrain, agent.steering, agent.followUp, agent`events
    ensures agent.Ledger(l.pendingMessages, Claimed(l))
    ensures PhaseOf(agent.events) == InTurn && Mirrors(agent, l.context, l.newMessages, base)
    ensures agent.events == old(agent.events) + (if l.turnStartAlreadyEmitted || l.firstTurn then [] else [TurnStart])
    ensures l' == l.(firstTurn := false, turnStartAlreadyEmitted := false)
    ensures Extends(old(agent.Past()), agent.Past())
  {
    hide Agent.Ledger, Agent.Past, Extends, StageOf;
    ExtendsIsAnOrder();
    l' := l;
    if l'.turnStartAlreadyEmitted {
      l' := l'.(turnStartAlreadyEmitted := false);
    } else if !l'.firstTurn {
      agent.Emit(TurnStart, l.pendingMessages, Claimed(l));
    } else {
      l' := l'.(firstTurn := false);
    }
  }

  /** Lines 284-293: consumption is committed before admission; a rejected commit gives the whole batch back. */
  method CommitPending(agent: Agent, pending: seq<Entry>, source: QueueKind, ghost from: QueueKind,
                       accepts: bool)
    returns (threw: bool)
    requires pending != [] ==> from == source
    requires agent.Ledger(pending, from) && Returnable(agent, pending, source)
    modifies agent`nextPlace, agent`home, agent`calls, agent`discarded, agent`aborted,
             agent`suppressQueuedMessageDrain, agent.steering, agent.followUp, agent`committed
    ensures threw <==> pending != [] && agent.hasPort && !accepts
    ensures !threw ==> agent.Ledger(pending, from) && agent.AllCommitted(pending, from)
    ensures threw ==> agent.Ledger([], Steering) && agent.committed == old(agent.committed)
    ensures threw ==> pending != [] && agent.NotLost(pending, source, [], Steering)
    ensures Extends(old(agent.Past()), agent.Past())
  {
    hide Agent.Ledger, Agent.Past, Extends, StageOf, Agent.NotLost;
    ExtendsIsAnOrder();
    threw := false;
    if pending != [] && agent.hasPort {
      var ok := agent.CommitConsumption(source, pending, accepts);
      if !ok {
        agent.RestorePendingMessages(source, pending);
        threw := true;
      }
    }
  }

  /** Lines 295-307: prepared messages first, then the claimed batch. */
  method AdmitPending(agent: Agent, l: Loop, ghost base: seq<Message>) returns (l': Loop)
    requires agent.Ledger(l.pendingMessages, Claimed(l)) && agent.AllCommitted(l.pendingMessages, Claimed(l))
    requires Mirrors(agent, l.context, l.newMessages, base) && PhaseOf(agent.events) == InTurn
    requires StageOf(agent.history).Ready?
    modifies agent`nextPlace, agent`home, agent`calls, agent`discarded, agent`aborted,
             agent`suppressQueuedMessageDrain, agent.steering, agent.followUp, agent`events, agent`transcript,
             agent`origins, agent`history
    ensures agent.Ledger([], Steering)
    ensures agent.history == old(agent.history) + (if l.pendingMessages != [] then [Took(l.pendingMessages)] else [])
    ensures StageOf(agent.history) == if l.pendingMessages != [] then Ready(true, false, false) else StageOf(old(agent.history))
    ensures Mirrors(agent, l'.context, l'.newMessages, base) && PhaseOf(agent.events) == InTurn
    ensures agent.events == old(agent.events) + Announced(l.preparedMessages + Messages(l.pendingMessages))
    ensures l' == l.(context := l'.context, preparedMessages := [], pendingMessages := [],
                     newMessages := l.newMessages + l.preparedMessages + Messages(l.pendingMessages))
    ensures Extends(old(agent.Past()), agent.Past())
  {
    hide Agent.Ledger, Agent.Past, Extends, StageOf, NextStage, PhaseOf, EndedMessages, Messages, Announced;
    ExtendsIsAnOrder();
    var context, newMessages := AdmitLocal(agent, l.context, l.newMessages, l.preparedMessages,
                                           l.pendingMessages, Claimed(l), base);
    context, newMessages := AdmitQueued(agent, context, newMessages, l.pendingMessages, Claimed(l), base);
    AnnounceBoth(l.preparedMessages, Messages(l.pendingMessages));
    if l.pendingMessages != [] {
      TakesInput(StageOf(agent.history), l.pendingMessages);
      agent.Note(Took(l.pendingMessages));
    }
    l' := l.(context := context, newMessages := newMessages, preparedMessages := [], pendingMessages := []);
  }

  /** Lines 268-307: open the turn, commit the claimed batch, admit prepared and claimed messages. */
  method BeginTurn(agent: Agent, l: Loop, accepts: bool, ghost base: seq<Message>) returns (threw: bool, l': Loop)
    requires AtTop(agent, l, base) && (l.hasMoreToolCalls || l.pendingMessages != [])
    modifies agent`nextPlace, agent`home, agent`calls, agent`discarded, agent`aborted,
             agent`suppressQueuedMessageDrain, agent.steering, agent.followUp, agent`events, agent`transcript,
             agent`origins, agent`history, agent`committed
    ensures threw <==> l.pendingMessages != [] && agent.hasPort && !accepts
    ensures threw ==> agent.Ledger([], Steering)
    ensures threw ==> agent.transcript == old(agent.transcript) && agent.origins == old(agent.origins)
    ensures threw ==> agent.NotLost(l.pendingMessages, l.pendingSource, [], Steering)
    ensures !threw ==> MidTurn(agent, l', base) && MayAsk(StageOf(agent.history))
    ensures threw ==> agent.history == old(agent.history)
    ensures !threw ==>
      agent.history == old(agent.history) + (if l.pendingMessages != [] then [Took(l.pendingMessages)] else [])
    ensures !threw ==>
      agent.events == old(agent.events) + (if l.turnStartAlreadyEmitted || l.firstTurn then [] else [TurnStart])
                      + Announced(l.preparedMessages + Messages(l.pendingMessages))
    ensures !threw ==> l'.newMessages == l.newMessages + l.preparedMessages + Messages(l.pendingMessages)
    ensures Extends(old(agent.Past()), agent.Past())
  {
    hide Agent.NotLost, Agent.Ledger, Agent.Past, Extends, PhaseOf, EndedMessages, Messages, Announced,
         Agent.AllCommitted, Mirrors;
    ExtendsIsAnOrder();
    l' := OpenTurn(agent, l, base);
    threw := CommitPending(agent, l.pendingMessages, l.pendingSource, Claimed(l), accepts);
    if !threw {
      l' := AdmitPending(agent, l', base);
    }
  }

  /** The `prepareRequest` hook, which may throw or replace the context. */
  method PrepareRequest(agent: Agent, context: seq<Message>, hook: RequestHook)
    returns (threw: bool, context': seq<Message>)
    requires agent.Ledger([], Steering) && (!agent.contextDiverged ==> context == agent.transcript)
    modifies agent`nextPlace, agent`home, agent`calls, agent`discarded, agent`aborted,
             agent`suppressQueuedMessageDrain, agent.steering, agent.followUp, agent`contextDiverged
    ensures agent.Ledger([], Steering) && (!agent.contextDiverged ==> context' == agent.transcript)
    ensures threw == hook.throws
    ensures context' == if !threw && hook.context.Some? then hook.context.value else context
    ensures agent.contextDiverged == (old(agent.contextDiverged) || (!threw && hook.context.Some?))
    ensures Extends(old(agent.Past()), agent.Past())
  {
    context' := context;
    agent.Await([], Steering);
    threw := hook.throws;
    if !threw && hook.context.Some? {
      context' := hook.context.value;
      agent.contextDiverged := true;
    }
  }

  /** Lines 332-350: the response, then the results the provider delivered itself, right after it. */
  method RespondOnce(agent: Agent, context: seq<Message>, newMessages: seq<Message>, stream: ProviderStream,
                     ghost base: seq<Message>)
    returns (message: Message, toolResults: seq<Message>, context': seq<Message>, newMessages': seq<Message>)
    requires agent.Ledger([], Steering) && MayAsk(StageOf(agent.history))
    requires Mirrors(agent, context, newMessages, base) && PhaseOf(agent.events) == InTurn
    modifies agent`nextPlace, agent`home, agent`calls, agent`discarded, agent`aborted,
             agent`suppressQueuedMessageDrain, agent.steering, agent.followUp, agent`events, agent`transcript,
             agent`origins, agent`history, agent`contextDiverged
    ensures agent.Ledger([], Steering) && StageOf(agent.history) == Replied(message, stream.toolResults, false, false)
    ensures IsAnswer(stream, old(agent.aborted), agent.aborted, message)
    ensures agent.history == old(agent.history)
         + [Requested(context, old(agent.transcript), old(agent.contextDiverged)), Answered(message, stream.toolResults)]
    ensures Mirrors(agent, context', newMessages', base) && PhaseOf(agent.events) == InTurn
    ensures newMessages' == newMessages + [message] + toolResults && message.role == Assistant
    ensures toolResults == stream.toolResults
    ensures agent.events == old(agent.events) + ResponseEvents(stream, message) + Announced(toolResults)
    ensures Extends(old(agent.Past()), agent.Past())
  {
    hide Agent.Ledger, Agent.Past, Extends, StageOf, PhaseOf, EndedMessages, Answer, ResponseEvents, Announced;
    ExtendsIsAnOrder();
    agent.Flags();
    message, context' := StreamAssistantResponse(agent, context, stream);
    ghost var answered := agent.Past();
    agent.Flags();
    toolResults := stream.toolResults;
    newMessages' := newMessages + [message];
    context', newMessages' := AdmitLocal(agent, context', newMessages', toolResults, [], Steering, base);
    agent.FlagsStay(answered);
  }

  /** One request was made, beside this transcript, and answered so. */
  ghost predicate OneRequest(before: seq<Mark>, after: seq<Mark>, transcript: seq<Message>, answer: Message,
                             delivered: seq<Message>)
  {
    && |after| == |before| + 2 && before <= after
    && after[|before|].Requested? && after[|before|].transcript == transcript
    && after[|before| + 1] == Answered(answer, delivered)
  }

  /** Lines 309-351: the `prepareRequest` hook, the provider request, the provider's own results, `commitStep`. */
  method RequestTurn(agent: Agent, l: Loop, hook: RequestHook, stream: ProviderStream, stepThrows: bool,
                     ghost base: seq<Message>)
    returns (threw: bool, l': Loop, message: Message, toolResults: seq<Message>)
    requires MidTurn(agent, l, base) && MayAsk(StageOf(agent.history))
    modifies agent`nextPlace, agent`home, agent`calls, agent`discarded, agent`aborted,
             agent`suppressQueuedMessageDrain, agent.steering, agent.followUp, agent`events, agent`transcript,
             agent`origins, agent`history, agent`contextDiverged
    ensures threw ==> agent.Ledger([], Steering)
    ensures !threw ==> MidTurn(agent, l', base) && StageOf(agent.history) == Replied(message, stream.toolResults, false, false)
    ensures threw == (hook.throws || stepThrows)
    ensures hook.throws ==> agent.history == old(agent.history) && agent.events == old(agent.events)
    ensures !hook.throws ==>
      && IsAnswer(stream, old(agent.aborted), agent.aborted, message)
      && OneRequest(old(agent.history), agent.history, old(agent.transcript), message, stream.toolResults)
      && agent.events == old(agent.events) + ResponseEvents(stream, message) + Announced(stream.toolResults)
    ensures StageOf(agent.history) != Broken && (!threw ==> toolResults == stream.toolResults)
    ensures !threw ==> l' == l.(context := l'.context, newMessages := l.newMessages + [message] + toolResults)
    ensures message.role == Assistant
    ensures Extends(old(agent.Past()), agent.Past())
  {
    hide Agent.Ledger, Agent.Past, Extends, StageOf, PhaseOf, EndedMessages, Answer, ResponseEvents, Announced;
    ExtendsIsAnOrder();
    l' := l;
    message, toolResults := Message(0, Assistant, Error, false, [], [], 0), [];
    agent.Flags();
    var context;
    threw, context := PrepareRequest(agent, l.context, hook);
    if threw {
      return;
    }
    agent.FlagsStay(old(agent.Past()));
    var newMessages;
    message, toolResults, context, newMessages := RespondOnce(agent, context, l.newMessages, stream, base);
    l' := l'.(context := context, newMessages := newMessages);
    ghost var answered := agent.Past();
    agent.Flags();
    agent.Await([], Steering);
    agent.FlagsStay(answered);
    threw := stepThrows;
  }

  method EmitToolResult(agent: Agent, toolCallId: int, result: Message)
    requires agent.Ledger([], Steering) && PhaseOf(agent.events) == InTurn
    modifies agent`nextPlace, agent`home, agent`calls, agent`discarded, agent`aborted,
             agent`suppressQueuedMessageDrain, agent.steering, agent.followUp, agent`events, agent`transcript,
             agent`origins
    ensures agent.Ledger([], Steering) && PhaseOf(agent.events) == InTurn
    ensures EndedMessages(agent.events) == EndedMessages(old(agent.events)) + [result]
    ensures agent.events == old(agent.events)
         + [ToolExecutionStart(toolCallId), ToolExecutionEnd(toolCallId), MessageStart(result), MessageEnd(result)]
    ensures agent.transcript == old(agent.transcript) + [result]
    ensures Extends(old(agent.Past()), agent.Past())
  {
    hide Agent.Ledger, Agent.Past, Extends, StageOf, PhaseOf, EndedMessages;
    ExtendsIsAnOrder();
    agent.Emit(ToolExecutionStart(toolCallId), [], Steering);
    agent.Emit(ToolExecutionEnd(toolCallId), [], Steering);
    Announce(agent, result, [], Steering);
  }

  /** The stand-in for the results of a truncated message's calls. */
  method IncompleteResult(toolCallId: int) returns (result: ToolResultMessage)
    ensures result.toolCallId == toolCallId
  {
    result := *;
    result := result.(toolCallId := toolCallId);
  }

  /** The tool host, or the stand-in for a truncated message: results are emitted in the order they are returned. */
  method ExecuteToolBatch(agent: Agent, message: Message, host: HostAnswer)
    returns (threw: bool, results: seq<Message>, terminate: bool)
    requires agent.Ledger([], Steering) && PhaseOf(agent.events) == InTurn
    modifies agent`nextPlace, agent`home, agent`calls, agent`discarded, agent`aborted,
             agent`suppressQueuedMessageDrain, agent.steering, agent.followUp, agent`events, agent`transcript,
             agent`origins
    ensures agent.Ledger([], Steering) && PhaseOf(agent.events) == InTurn
    ensures EndedMessages(agent.events) == EndedMessages(old(agent.events)) + results
    ensures agent.events == old(agent.events) + ToolEvents(results)
    ensures agent.transcript == old(agent.transcript) + results && AreToolResults(results)
    ensures if message.stopReason == Length then !threw && !terminate && AnswersEach(results, message.toolCalls)
            else threw == host.throws && terminate == host.terminate && results == host.results
    ensures Extends(old(agent.Past()), agent.Past())
  {
    hide Agent.Ledger, Agent.Past, Extends, StageOf, PhaseOf, EndedMessages;
    ExtendsIsAnOrder();
    results := [];
    var truncated := message.stopReason == Length;
    var count := if truncated then |message.toolCalls| else |host.results|;
    for i := 0 to count
      invariant agent.Ledger([], Steering) && PhaseOf(agent.events) == InTurn
      invariant EndedMessages(agent.events) == EndedMessages(old(agent.events)) + results
      invariant agent.transcript == old(agent.transcript) + results && AreToolResults(results)
      invariant agent.events == old(agent.events) + ToolEvents(results)
      invariant |results| == i
      invariant if truncated then AnswersEach(results, message.toolCalls[..i]) else results == host.results[..i]
      invariant Extends(old(agent.Past()), agent.Past())
    {
      var result: ToolResultMessage;
      if truncated {
        result := IncompleteResult(message.toolCalls[i]);
      } else {
        result := host.results[i];
      }
      EmitToolResult(agent, result.toolCallId, result);
      assert (results + [result])[..i] == results;
      results := results + [result];
    }
    assert message.toolCalls[..|message.toolCalls|] == message.toolCalls && host.results[..|host.results|] == host.results;
    terminate, threw := !truncated && host.terminate, !truncated && host.throws;
  }

  /** Lines 361-384: tool calls, if any; results that do not terminate the batch ask for another request. */
  method ToolTurn(agent: Agent, l: Loop, message: Message, delivered: seq<Message>, host: HostAnswer,
                  ghost base: seq<Message>)
    returns (threw: bool, l': Loop, results: seq<Message>)
    requires MidTurn(agent, l, base)
    requires StageOf(agent.history) == Replied(message, delivered, false, false) && !ShouldTerminateAssistantTurn(message)
    modifies agent`nextPlace, agent`home, agent`calls, agent`discarded, agent`aborted,
             agent`suppressQueuedMessageDrain, agent.steering, agent.followUp, agent`events, agent`transcript,
             agent`origins, agent`history
    ensures threw ==> agent.Ledger([], Steering)
    ensures !threw ==> MidTurn(agent, l', base)
    ensures !threw ==> l' == l.(context := l.context + results, newMessages := l.newMessages + results,
                                hasMoreToolCalls := l'.hasMoreToolCalls, toolBatchTerminated := l'.toolBatchTerminated)
    ensures l'.hasMoreToolCalls == (message.toolCalls != [] && !threw && !l'.toolBatchTerminated)
    ensures StageOf(agent.history) ==
      Replied(message, if threw then delivered else delivered + results, message.toolCalls != [] && !threw,
              l'.hasMoreToolCalls)
    ensures agent.events == old(agent.events) + ToolEvents(results)
    ensures agent.history ==
      old(agent.history) + (if message.toolCalls != [] && !threw then [ToolsRan(results, l'.hasMoreToolCalls)] else [])
    ensures if message.toolCalls == [] then results == [] && !threw
            else if message.stopReason == Length then !threw && AnswersEach(results, message.toolCalls)
            else results == host.results && threw == host.throws
    ensures !threw ==> (l'.toolBatchTerminated <==>
                          message.toolCalls != [] && message.stopReason != Length && host.terminate)
    ensures Extends(old(agent.Past()), agent.Past())
  {
    hide Agent.Ledger, Agent.Past, Extends, StageOf, NextStage, PhaseOf, EndedMessages;
    ExtendsIsAnOrder();
    threw, results := false, [];
    l' := l.(hasMoreToolCalls := false, toolBatchTerminated := false);
    if message.toolCalls != [] {
      var terminate;
      threw, results, terminate := ExecuteToolBatch(agent, message, host);
      if !threw {
        l' := l'.(toolBatchTerminated := terminate, hasMoreToolCalls := !terminate,
                  context := l.context + results, newMessages := l.newMessages + results);
        RunsTools(StageOf(agent.history), results, !terminate);
        agent.Note(ToolsRan(results, !terminate));
      }
    }
  }

  method SuppressDrain(agent: Agent)
    requires agent.Ledger([], Steering)
    modifies agent`suppressQueuedMessageDrain
    ensures agent.Ledger([], Steering) && agent.suppressQueuedMessageDrain && Extends(old(agent.Past()), agent.Past())
  {
    hide Agent.Ledger;
    agent.suppressQueuedMessageDrain := true;
  }

  /** The `finishTurn` hook as `createLoopConfig` wraps it: an `end` decision also suppresses the post-run drain. */
  method FinishTurn(agent: Agent, ghost message: Message, ghost toolResults: seq<Message>, hook: FinishHook)
    returns (threw: bool, decision: Decision)
    requires agent.Ledger([], Steering) && !agent.sealed
    requires StageOf(agent.history).Replied? && StageOf(agent.history).reply == message
    requires StageOf(agent.history).results == toolResults
    requires StageOf(agent.history).ran || message.toolCalls == [] || ShouldTerminateAssistantTurn(message)
    modifies agent`nextPlace, agent`home, agent`calls, agent`discarded, agent`aborted,
             agent`suppressQueuedMessageDrain, agent.steering, agent.followUp, agent`sealed, agent`history
    ensures agent.Ledger([], Steering) && threw == hook.throws && decision == hook.decision
    ensures agent.history == old(agent.history) + (if threw then [] else [Decided(message, toolResults, decision)])
    ensures StageOf(agent.history) ==
      if threw then StageOf(old(agent.history))
      else Over(message, StageOf(old(agent.history)).due || AsksOn(message, decision), decision)
    ensures agent.sealed == (!threw && decision == End)
    ensures agent.sealed ==> agent.suppressQueuedMessageDrain
    ensures Extends(old(agent.Past()), agent.Past())
  {
    hide Agent.Ledger, Agent.Past, Extends, StageOf, NextStage;
    ExtendsIsAnOrder();
    agent.Await([], Steering);
    threw, decision := hook.throws, hook.decision;
    if threw {
      return;
    }
    Decides(StageOf(agent.history), decision);
    agent.Note(Decided(message, toolResults, decision));
    if decision == End {
      SuppressDrain(agent);
      agent.sealed := true;
    }
  }

  /** `turn_end`. */
  method EndTurn(agent: Agent, message: Message, toolResults: seq<Message>)
    requires agent.Ledger([], Steering) && PhaseOf(agent.events) == InTurn
    modifies agent`nextPlace, agent`home, agent`calls, agent`discarded, agent`aborted,
             agent`suppressQueuedMessageDrain, agent.steering, agent.followUp, agent`events
    ensures agent.Ledger([], Steering) && PhaseOf(agent.events) == BetweenTurns
    ensures EndedMessages(agent.events) == EndedMessages(old(agent.events))
    ensures agent.events == old(agent.events) + [TurnEnd(message, toolResults)]
    ensures Extends(old(agent.Past()), agent.Past())
    ensures old(agent.suppressQueuedMessageDrain) ==> agent.suppressQueuedMessageDrain
  {
    hide Agent.Ledger, Agent.Past, Extends, StageOf;
    ExtendsIsAnOrder();
    agent.Flags();
    agent.Emit(TurnEnd(message, toolResults), [], Steering);
    agent.FlagsStay(old(agent.Past()));
  }

  /** What holds once `agent_end` was emitted. */
  ghost predicate Closed(agent: Agent, newMessages: seq<Message>, base: seq<Message>)
    reads agent, agent.steering, agent.followUp
  {
    && agent.Ledger([], Steering)
    && PhaseOf(agent.events) == Ended
    && |agent.events| > 0 && agent.events[|agent.events| - 1] == AgentEnd(newMessages)
    && EndedMessages(agent.events) == newMessages
    && agent.transcript == base + newMessages
  }

  method EndRun(agent: Agent, newMessages: seq<Message>, ghost exit: Exit, ghost base: seq<Message>)
    requires agent.Ledger([], Steering) && (PhaseOf(agent.events) == InTurn || PhaseOf(agent.events) == BetweenTurns)
    requires NextStage(StageOf(agent.history), Left(exit)) == Done(exit)
    requires EndedMessages(agent.events) == newMessages && agent.transcript == base + newMessages
    modifies agent`nextPlace, agent`home, agent`calls, agent`discarded, agent`aborted,
             agent`suppressQueuedMessageDrain, agent.steering, agent.followUp, agent`events, agent`history
    ensures Closed(agent, newMessages, base) && agent.events == old(agent.events) + [AgentEnd(newMessages)]
    ensures StageOf(agent.history) == Done(exit) && agent.history == old(agent.history) + [Left(exit)]
    ensures Extends(old(agent.Past()), agent.Past())
    ensures old(agent.aborted) ==> agent.aborted
    ensures old(agent.suppressQueuedMessageDrain) ==> agent.suppressQueuedMessageDrain
  {
    hide Agent.Ledger, Agent.Past, Extends, StageOf, NextStage;
    ExtendsIsAnOrder();
    agent.Flags();
    agent.Note(Left(exit));
    agent.Emit(AgentEnd(newMessages), [], Steering);
    agent.FlagsStay(old(agent.Past()));
  }

  /** Steering was polled first, and the follow-ups just when that found nothing. */
  ghost predicate SteeringFirst(before: seq<Mark>, after: seq<Mark>, batch: seq<Entry>, source: QueueKind) {
    if source == Steering then batch != [] && after == before + [Poll(Steering, batch)]
    else after == before + [Poll(Steering, []), Poll(FollowUp, batch)]
  }

  /** The same work is due at the same place, however the queues were polled in between. */
  predicate Repolled(before: Stage, after: Stage) {
    if before.Ready? then after.Ready? && after.due == before.due else after.Between? && before.Between? && after.due == before.due
  }

  /** Steering first; only when it is empty the follow-ups. The drained queue is on record while its batch is held. */
  method PollBoth(agent: Agent, l: Loop, ghost base: seq<Message>) returns (l': Loop)
    requires l.pendingMessages == [] && Sound(agent, l, base) && Polling(agent)
    requires StageOf(agent.history).Ready? || StageOf(agent.history).Between?
    modifies agent`nextPlace, agent`home, agent`calls, agent`discarded, agent`aborted,
             agent`suppressQueuedMessageDrain, agent.steering, agent.followUp, agent`skipInitialSteeringPoll,
             agent`steeringQueueGeneration, agent`followUpQueueGeneration, agent`claimedFrom, agent`claimedAt,
             agent`claimSince, agent`history
    ensures Repolled(StageOf(old(agent.history)), StageOf(agent.history))
    ensures Sound(agent, l', base) && Polling(agent) && DrainOnRecord(l')
    ensures l' == l.(pendingMessages := l'.pendingMessages, pendingSource := l'.pendingSource,
                     drainedTerminatingQueue := l'.drainedTerminatingQueue)
    ensures l'.pendingMessages == [] ==> BothDry(StageOf(agent.history))
    ensures SteeringFirst(old(agent.history), agent.history, l'.pendingMessages, l'.pendingSource)
    ensures Extends(old(agent.Past()), agent.Past())
  {
    hide Agent.Ledger, Agent.Past, Extends, StageOf, PhaseOf, EndedMessages;
    ExtendsIsAnOrder();
    var batch := agent.GetSteeringMessages();
    l' := l.(pendingMessages := batch, pendingSource := Steering,
             drainedTerminatingQueue := if batch != [] then Some(Steering) else None);
    if batch == [] {
      batch := agent.GetFollowUpMessages();
      l' := l'.(pendingMessages := batch, pendingSource := FollowUp,
                drainedTerminatingQueue := if batch != [] then Some(FollowUp) else None);
    }
  }

  /** `refreshTerminatingQueueDrain`: give the drained batch back and poll again, so a clear or replacement wins. */
  method RefreshTerminatingDrain(agent: Agent, l: Loop, ghost base: seq<Message>) returns (l': Loop)
    requires l.drainedTerminatingQueue.Some? && DrainOnRecord(l) && Sound(agent, l, base) && Polling(agent)
    requires StageOf(agent.history).Ready? || StageOf(agent.history).Between?
    modifies agent`nextPlace, agent`home, agent`calls, agent`discarded, agent`aborted,
             agent`suppressQueuedMessageDrain, agent.steering, agent.followUp, agent`skipInitialSteeringPoll,
             agent`steeringQueueGeneration, agent`followUpQueueGeneration, agent`claimedFrom, agent`claimedAt,
             agent`claimSince, agent`history
    ensures Repolled(StageOf(old(agent.history)), StageOf(agent.history))
    ensures Sound(agent, l', base) && Polling(agent) && DrainOnRecord(l')
    ensures l' == l.(pendingMessages := l'.pendingMessages, pendingSource := l'.pendingSource,
                     drainedTerminatingQueue := l'.drainedTerminatingQueue)
    ensures agent.NotLost(l.pendingMessages, l.pendingSource, l'.pendingMessages, Claimed(l'))
    ensures l'.pendingMessages == [] ==> BothDry(StageOf(agent.history))
    ensures SteeringFirst(old(agent.history), agent.history, l'.pendingMessages, l'.pendingSource)
    ensures Extends(old(agent.Past()), agent.Past())
  {
    hide Agent.Ledger, Agent.Past, Extends, StageOf, PhaseOf, EndedMessages, Agent.NotLost, Waiting;
    ExtendsIsAnOrder();
    agent.ClaimIsWaiting(l.pendingMessages, Claimed(l));
    agent.RestorePendingMessages(l.drainedTerminatingQueue.value, l.pendingMessages);
    l' := l.(pendingMessages := []);
    l' := PollBoth(agent, l', base);
    agent.StillThere(old(agent.Past()), l.pendingMessages, l.pendingSource, l'.pendingMessages, Claimed(l'));
  }

  method EmitTurnStart(agent: Agent, l: Loop, ghost base: seq<Message>)
    requires Sound(agent, l, base) && PhaseOf(agent.events) == BetweenTurns
    modifies agent`nextPlace, agent`home, agent`calls, agent`discarded, agent`aborted,
             agent`suppressQueuedMessageDrain, agent.steering, agent.followUp, agent`events
    ensures Sound(agent, l, base) && PhaseOf(agent.events) == InTurn
    ensures Extends(old(agent.Past()), agent.Past())
  {
    hide Agent.Ledger, Agent.Past, Extends, PhaseOf, EndedMessages;
    agent.Emit(TurnStart, l.pendingMessages, Claimed(l));
  }

  method LeaveNaturally(agent: Agent, l: Loop, ghost base: seq<Message>)
    requires Sound(agent, l, base) && l.pendingMessages == []
    requires PhaseOf(agent.events) == InTurn || PhaseOf(agent.events) == BetweenTurns
    requires BothDry(StageOf(agent.history)) && !StageOf(agent.history).due
    modifies agent`nextPlace, agent`home, agent`calls, agent`discarded, agent`aborted,
             agent`suppressQueuedMessageDrain, agent.steering, agent.followUp, agent`events, agent`history
    ensures Closed(agent, l.newMessages, base) && StageOf(agent.history) == Done(Natural)
    ensures agent.history == old(agent.history) + [Left(Natural)]
    ensures Extends(old(agent.Past()), agent.Past())
  {
    hide Agent.Ledger, Agent.Past, Extends, StageOf, NextStage, PhaseOf, EndedMessages;
    LeavesNaturally(StageOf(agent.history));
    EndRun(agent, l.newMessages, Natural, base);
  }

  /** Lines 404-421: after a terminating tool batch only queued input, or a `continue` decision, keeps the run going. */
  method TerminatingDrain(agent: Agent, l: Loop, ghost base: seq<Message>) returns (ended: bool, l': Loop)
    requires l.pendingMessages == [] && Sound(agent, l, base) && Polling(agent)
    requires PhaseOf(agent.events) == BetweenTurns && !l.turnStartAlreadyEmitted
    requires StageOf(agent.history).Between? && StageOf(agent.history).due == l.explicitContinuation
    modifies agent`nextPlace, agent`home, agent`calls, agent`discarded, agent`aborted,
             agent`suppressQueuedMessageDrain, agent.steering, agent.followUp, agent`skipInitialSteeringPoll,
             agent`steeringQueueGeneration, agent`followUpQueueGeneration, agent`claimedFrom, agent`claimedAt,
             agent`claimSince, agent`history, agent`events
    ensures if ended then StageOf(agent.history) == Done(Natural)
            else Repolled(StageOf(old(agent.history)), StageOf(agent.history))
    ensures !ended && l'.pendingMessages == [] ==> BothDry(StageOf(agent.history))
    ensures ended ==> Closed(agent, l.newMessages, base)
    ensures ended ==> !l.explicitContinuation
    ensures SteeringFirst(old(agent.history), if ended then agent.history[..|agent.history| - 1] else agent.history,
                          l'.pendingMessages, l'.pendingSource)
    ensures !ended ==> Sound(agent, l', base) && Polling(agent) && DrainOnRecord(l')
    ensures !ended ==> l'.turnStartAlreadyEmitted == (l'.pendingMessages != [])
    ensures !ended ==> l'.pendingMessages != [] || l.explicitContinuation
    ensures !ended ==> PhaseOf(agent.events) == (if l'.turnStartAlreadyEmitted then InTurn else BetweenTurns)
    ensures l' == l.(pendingMessages := l'.pendingMessages, pendingSource := l'.pendingSource,
                     drainedTerminatingQueue := l'.drainedTerminatingQueue,
                     turnStartAlreadyEmitted := l'.turnStartAlreadyEmitted)
    ensures Extends(old(agent.Past()), agent.Past())
  {
    hide Agent.Ledger, Agent.Past, Extends, StageOf, NextStage, PhaseOf, EndedMessages, Mirrors, Closed;
    ExtendsIsAnOrder();
    ended := false;
    l' := PollBoth(agent, l, base);
    if l'.pendingMessages == [] && !l.explicitContinuation {
      LeaveNaturally(agent, l', base);
      ended := true;
    } else if l'.pendingMessages != [] {
      EmitTurnStart(agent, l', base);
      l' := l'.(turnStartAlreadyEmitted := true);
    }
  }

  datatype Next = GoOn | EndedNaturally | EndedByAbort | Failed

  /** Lines 423-435: the `prepareNextTurn` hook; a failure gives a recorded drain back before it surfaces. */
  method PrepareNextTurn(agent: Agent, l: Loop, hook: PrepareHook, ghost base: seq<Message>) returns (threw: bool, l': Loop)
    requires DrainOnRecord(l) && Sound(agent, l, base) && Polling(agent)
    modifies agent`nextPlace, agent`home, agent`calls, agent`discarded, agent`aborted,
             agent`suppressQueuedMessageDrain, agent.steering, agent.followUp, agent`contextDiverged
    ensures threw ==> agent.Ledger([], Steering) && agent.NotLost(l.pendingMessages, l.pendingSource, [], Steering)
    ensures !threw ==> Sound(agent, l', base) && Polling(agent) && DrainOnRecord(l')
    ensures threw == hook.throws
    ensures l' == if threw || hook.update == None then l
                  else l.(context := if hook.update.value.context.Some? then hook.update.value.context.value else l.context,
                          preparedMessages := if hook.update.value.messages.Some? then hook.update.value.messages.value
                                              else [])
    ensures agent.contextDiverged ==
      (old(agent.contextDiverged) || (!threw && hook.update.Some? && hook.update.value.context.Some?))
    ensures Extends(old(agent.Past()), agent.Past())
  {
    hide Agent.Ledger, Agent.Past, Extends, StageOf, PhaseOf, EndedMessages;
    ExtendsIsAnOrder();
    l' := l;
    agent.Await(l.pendingMessages, Claimed(l));
    threw := hook.throws;
    if threw {
      if l.drainedTerminatingQueue.Some? {
        agent.RestorePendingMessages(l.drainedTerminatingQueue.value, l.pendingMessages);
      }
      return;
    }
    if hook.update.Some? {
      var update := hook.update.value;
      if update.context.Some? {
        l' := l'.(context := update.context.value);
        agent.contextDiverged := true;
      }
      l' := l'.(preparedMessages := if update.messages.Some? then update.messages.value else []);
    }
  }

  /** Lines 436-441: an aborted run gives a recorded drain back before it ends. */
  method LeaveAborted(agent: Agent, l: Loop, ghost base: seq<Message>)
    requires agent.aborted && DrainOnRecord(l) && Sound(agent, l, base)
    requires PhaseOf(agent.events) == InTurn || PhaseOf(agent.events) == BetweenTurns
    requires StageOf(agent.history) == Leaving(AbortExit)
    modifies agent`nextPlace, agent`home, agent`calls, agent`discarded, agent`aborted,
             agent`suppressQueuedMessageDrain, agent.steering, agent.followUp, agent`events, agent`history
    ensures StageOf(agent.history) == Done(AbortExit) && agent.history == old(agent.history) + [Left(AbortExit)]
    ensures Closed(agent, l.newMessages, base) && agent.aborted
    ensures agent.NotLost(l.pendingMessages, l.pendingSource, [], Steering)
    ensures Extends(old(agent.Past()), agent.Past())
  {
    hide Agent.Ledger, Agent.Past, Extends, StageOf, NextStage, PhaseOf, EndedMessages, Agent.NotLost, Waiting;
    ExtendsIsAnOrder();
    agent.Flags();
    agent.ClaimIsWaiting(l.pendingMessages, Claimed(l));
    if l.drainedTerminatingQueue.Some? {
      agent.RestorePendingMessages(l.drainedTerminatingQueue.value, l.pendingMessages);
      agent.FlagsStay(old(agent.Past()));
    }
    Leaves(AbortExit);
    EndRun(agent, l.newMessages, AbortExit, base);
    if l.pendingMessages != [] {
      agent.StillThere(old(agent.Past()), l.pendingMessages, l.pendingSource, [], Steering);
    } else {
      NothingIsLost(agent, l.pendingSource);
    }
  }

  lemma NothingIsLost(agent: Agent, queue: QueueKind)
    ensures agent.NotLost([], queue, [], Steering)
  {}

  /** Lines 442-449: the recorded drain is refreshed; if nothing is left to take and no `continue` stands, the run ends. */
  method RefreshAfterPrepare(agent: Agent, l: Loop, ghost base: seq<Message>) returns (ended: bool, l': Loop)
    requires l.drainedTerminatingQueue.Some? && DrainOnRecord(l) && Sound(agent, l, base) && Polling(agent)
    requires PhaseOf(agent.events) == (if l.turnStartAlreadyEmitted then InTurn else BetweenTurns)
    requires StageOf(agent.history).Ready? && StageOf(agent.history).due == l.explicitContinuation
    modifies agent`nextPlace, agent`home, agent`calls, agent`discarded, agent`aborted,
             agent`suppressQueuedMessageDrain, agent.steering, agent.followUp, agent`skipInitialSteeringPoll,
             agent`steeringQueueGeneration, agent`followUpQueueGeneration, agent`claimedFrom, agent`claimedAt,
             agent`claimSince, agent`history, agent`events
    ensures ended ==> Closed(agent, l.newMessages, base)
    ensures !ended && l'.pendingMessages == [] ==> BothDry(StageOf(agent.history))
    ensures ended ==> l'.pendingMessages == [] && !l.explicitContinuation && StageOf(agent.history) == Done(Natural)
    ensures agent.NotLost(l.pendingMessages, l.pendingSource, if ended then [] else l'.pendingMessages,
                          if ended then Steering else Claimed(l'))
    ensures !ended ==> Sound(agent, l', base) && Polling(agent) && l'.drainedTerminatingQueue == None
    ensures !ended ==> agent.events == old(agent.events) && Repolled(StageOf(old(agent.history)), StageOf(agent.history))
    ensures !ended ==> l'.pendingMessages != [] || l.explicitContinuation
    ensures l' == l.(pendingMessages := l'.pendingMessages, pendingSource := l'.pendingSource,
                     drainedTerminatingQueue := l'.drainedTerminatingQueue)
    ensures old(agent.history) <= agent.history
    ensures Extends(old(agent.Past()), agent.Past())
  {
    hide Agent.Ledger, Agent.Past, Extends, StageOf, NextStage, PhaseOf, EndedMessages, Mirrors, Agent.NotLost, Waiting;
    ExtendsIsAnOrder();
    agent.ClaimIsWaiting(l.pendingMessages, Claimed(l));
    l' := RefreshTerminatingDrain(agent, l, base);
    ended := l'.pendingMessages == [] && !l'.explicitContinuation;
    if ended {
      LeaveNaturally(agent, l', base);
      agent.StillThere(old(agent.Past()), l.pendingMessages, l.pendingSource, [], Steering);
    } else {
      l' := l'.(drainedTerminatingQueue := None);
    }
  }

  /** The look at the abort flag once the next turn is prepared. */
  ghost method LookAgain(agent: Agent, l: Loop, base: seq<Message>)
    requires Sound(agent, l, base) && StageOf(agent.history).Between?
    modifies agent`history
    ensures Sound(agent, l, base) && agent.history == old(agent.history) + [Looked(agent.aborted)]
    ensures var before := StageOf(old(agent.history));
      StageOf(agent.history) == if agent.aborted then Leaving(AbortExit)
                                else Ready(before.due, before.steeringDry, before.followUpDry)
    ensures Extends(old(agent.Past()), agent.Past())
  {
    hide Agent.Ledger, Agent.Past, Extends, StageOf, NextStage, PhaseOf, EndedMessages;
    LooksAgain(StageOf(agent.history), agent.aborted);
    agent.Note(Looked(agent.aborted));
  }

  /** Lines 436-449: leave on an abort, giving a recorded drain back, or refresh the recorded drain. */
  method AfterPrepare(agent: Agent, l: Loop, ghost base: seq<Message>) returns (next: Next, l': Loop)
    requires DrainOnRecord(l) && Sound(agent, l, base) && Polling(agent)
    requires PhaseOf(agent.events) == (if l.turnStartAlreadyEmitted then InTurn else BetweenTurns)
    requires StageOf(agent.history).Between?
    requires l.pendingMessages != [] ==> StageOf(agent.history).due == l.explicitContinuation
    modifies agent`nextPlace, agent`home, agent`calls, agent`discarded, agent`aborted,
             agent`suppressQueuedMessageDrain, agent.steering, agent.followUp, agent`skipInitialSteeringPoll,
             agent`steeringQueueGeneration, agent`followUpQueueGeneration, agent`claimedFrom, agent`claimedAt,
             agent`claimSince, agent`history, agent`events
    ensures next != Failed && old(agent.history) + [Looked(next == EndedByAbort)] <= agent.history
    ensures next == EndedByAbort ==> agent.history == old(agent.history) + [Looked(true), Left(AbortExit)]
    ensures next == EndedNaturally ==> StageOf(agent.history) == Done(Natural)
    ensures next == EndedByAbort ==> StageOf(agent.history) == Done(AbortExit)
    ensures next == GoOn ==>
      StageOf(agent.history).Ready? && StageOf(agent.history).due == StageOf(old(agent.history)).due
    ensures next == GoOn && l'.pendingMessages == [] && (l.pendingMessages != [] || BothDry(StageOf(old(agent.history)))) ==>
      BothDry(StageOf(agent.history))
    ensures agent.NotLost(l.pendingMessages, l.pendingSource, if next == GoOn then l'.pendingMessages else [],
                          if next == GoOn then Claimed(l') else Steering)
    ensures next == EndedNaturally || next == EndedByAbort ==> Closed(agent, l.newMessages, base)
    ensures next == EndedNaturally ==> !l.explicitContinuation && l.pendingMessages != []
    ensures next == EndedByAbort ==> agent.aborted
    ensures next == GoOn ==> Sound(agent, l', base) && Polling(agent) && l'.drainedTerminatingQueue == None
    ensures next == GoOn ==> agent.events == old(agent.events)
    ensures next == GoOn && l'.pendingMessages == [] ==> l.pendingMessages == [] || l.explicitContinuation
    ensures l.pendingMessages == [] ==> l'.pendingMessages == []
    ensures l' == l.(pendingMessages := l'.pendingMessages, pendingSource := l'.pendingSource,
                     drainedTerminatingQueue := l'.drainedTerminatingQueue)
    ensures Extends(old(agent.Past()), agent.Past())
  {
    hide Agent.Ledger, Agent.Past, Extends, StageOf, NextStage, PhaseOf, EndedMessages, Sound, Closed, Agent.NotLost;
    ExtendsIsAnOrder();
    next, l' := GoOn, l;
    LookAgain(agent, l', base);
    if agent.aborted {
      LeaveAborted(agent, l, base);
      next := EndedByAbort;
    } else if l'.drainedTerminatingQueue.Some? {
      var ended;
      ended, l' := RefreshAfterPrepare(agent, l', base);
      next := if ended then EndedNaturally else GoOn;
    } else {
      NothingIsLost(agent, l.pendingSource);
    }
  }

  /** Lines 423-449: prepare, then leave on an abort (giving a recorded drain back) or refresh the recorded drain. */
  method Prepare(agent: Agent, l: Loop, hook: PrepareHook, ghost base: seq<Message>) returns (next: Next, l': Loop)
    requires DrainOnRecord(l) && Sound(agent, l, base) && Polling(agent)
    requires PhaseOf(agent.events) == (if l.turnStartAlreadyEmitted then InTurn else BetweenTurns)
    requires StageOf(agent.history).Between?
    requires l.pendingMessages != [] ==> StageOf(agent.history).due == l.explicitContinuation
    modifies agent`nextPlace, agent`home, agent`calls, agent`discarded, agent`aborted,
             agent`suppressQueuedMessageDrain, agent.steering, agent.followUp, agent`skipInitialSteeringPoll,
             agent`steeringQueueGeneration, agent`followUpQueueGeneration, agent`claimedFrom, agent`claimedAt,
             agent`claimSince, agent`history, agent`events,
             agent`contextDiverged
    ensures next == Failed ==> agent.history == old(agent.history)
    ensures next != Failed ==> old(agent.history) + [Looked(next == EndedByAbort)] <= agent.history
    ensures next == EndedByAbort ==> agent.history == old(agent.history) + [Looked(true), Left(AbortExit)]
    ensures match next
            case Failed => StageOf(agent.history) == StageOf(old(agent.history))
            case EndedNaturally => StageOf(agent.history) == Done(Natural)
            case EndedByAbort => StageOf(agent.history) == Done(AbortExit)
            case GoOn => StageOf(agent.history).Ready? && StageOf(agent.history).due == StageOf(old(agent.history)).due
    ensures next == GoOn && l'.pendingMessages == [] && (l.pendingMessages != [] || BothDry(StageOf(old(agent.history)))) ==>
      BothDry(StageOf(agent.history))
    ensures next == Failed <==> hook.throws
    ensures next != Failed ==>
      l'.preparedMessages == match hook.update
                             case None => l.preparedMessages
                             case Some(update) => if update.messages.Some? then update.messages.value else []
    ensures next == Failed ==> agent.Ledger([], Steering)
    ensures agent.NotLost(l.pendingMessages, l.pendingSource, if next == GoOn then l'.pendingMessages else [],
                          if next == GoOn then Claimed(l') else Steering)
    ensures next == EndedNaturally || next == EndedByAbort ==> Closed(agent, l.newMessages, base)
    ensures next == EndedNaturally ==> !l.explicitContinuation && l.pendingMessages != []
    ensures next == EndedByAbort ==> agent.aborted
    ensures next == GoOn ==> Sound(agent, l', base) && Polling(agent) && l'.drainedTerminatingQueue == None
    ensures next == GoOn ==> PhaseOf(agent.events) == PhaseOf(old(agent.events))
    ensures next == GoOn && l'.pendingMessages == [] ==> l.pendingMessages == [] || l.explicitContinuation
    ensures l.pendingMessages == [] ==> l'.pendingMessages == []
    ensures l' == l.(context := l'.context, preparedMessages := l'.preparedMessages,
                     pendingMessages := l'.pendingMessages, pendingSource := l'.pendingSource,
                     drainedTerminatingQueue := l'.drainedTerminatingQueue)
    ensures Extends(old(agent.Past()), agent.Past())
  {
    hide Agent.Ledger, Agent.Past, Extends, StageOf, NextStage, PhaseOf, EndedMessages, Sound, Closed, Agent.NotLost,
         DrainOnRecord, Polling, Claimed, BothDry;
    ExtendsIsAnOrder();
    var threw;
    threw, l' := PrepareNextTurn(agent, l, hook, base);
    next := if threw then Failed else GoOn;
    if threw {
      return;
    }
    next, l' := AfterPrepare(agent, l', base);
  }

  /** The last assistant message is terminal; only the provider's own tool results follow it. */
  ghost predicate EndsTerminally(messages: seq<Message>) {
    exists i ::
      && 0 <= i < |messages| && messages[i].role == Assistant && ShouldTerminateAssistantTurn(messages[i])
      && AreToolResults(messages[i + 1..])
  }

  lemma TerminalAtTheEnd(before: seq<Message>, answer: Message, results: seq<Message>)
    requires answer.role == Assistant && ShouldTerminateAssistantTurn(answer) && AreToolResults(results)
    ensures EndsTerminally(before + [answer] + results)
  {
    var messages := before + [answer] + results;
    assert messages[|before|] == answer && messages[|before| + 1..] == results;
  }

  /**
   * What each way out of the loop means. Ending naturally needs both queues polled empty since the last `turn_end` and
   * nothing left that asks for another request; no way out leaves a claimed message behind.
   */
  ghost predicate Concluded(agent: Agent, outcome: Outcome, l: Loop, base: seq<Message>)
    reads agent, agent.steering, agent.followUp
  {
    match outcome
    case Suspended =>
      && agent.Ledger(l.pendingMessages, Claimed(l)) && !agent.sealed && StageOf(agent.history).Ready?
      && Open(PhaseOf(agent.events)) && Mirrors(agent, l.context, l.newMessages, base)
    case Threw => agent.Ledger([], Steering) && !agent.sealed && StageOf(agent.history) != Broken
    case Finished(exit) =>
      && Closed(agent, l.newMessages, base) && StageOf(agent.history) == Done(exit)
      && (exit == Natural ==> !agent.sealed)
      && (exit == HardStop ==> EndsTerminally(l.newMessages))
      && (exit == AbortExit ==> agent.aborted)
      && (exit == EndDecision ==> agent.sealed)
      && (agent.sealed ==> agent.suppressQueuedMessageDrain)
  }

  /** The hook, then `turn_end`: the turn is over and the queues unpolled, or the hook threw. */
  method CloseTurn(agent: Agent, l: Loop, message: Message, toolResults: seq<Message>, hook: FinishHook,
                   ghost base: seq<Message>)
    returns (threw: bool, decision: Decision)
    requires MidTurn(agent, l, base)
    requires StageOf(agent.history).Replied? && StageOf(agent.history).reply == message
    requires StageOf(agent.history).results == toolResults
    requires StageOf(agent.history).ran || message.toolCalls == [] || ShouldTerminateAssistantTurn(message)
    modifies agent`nextPlace, agent`home, agent`calls, agent`discarded, agent`aborted,
             agent`suppressQueuedMessageDrain, agent.steering, agent.followUp, agent`events, agent`sealed, agent`history
    ensures agent.history == old(agent.history) + (if threw then [] else [Decided(message, toolResults, decision)])
    ensures StageOf(agent.history) ==
      if threw then StageOf(old(agent.history))
      else Over(message, StageOf(old(agent.history)).due || AsksOn(message, decision), decision)
    ensures agent.Ledger([], Steering) && agent.sealed == (!threw && decision == End)
    ensures !threw ==> Mirrors(agent, l.context, l.newMessages, base) && PhaseOf(agent.events) == BetweenTurns
    ensures threw == hook.throws && decision == hook.decision
    ensures agent.events == old(agent.events) + (if threw then [] else [TurnEnd(message, toolResults)])
    ensures agent.sealed ==> agent.suppressQueuedMessageDrain
    ensures Extends(old(agent.Past()), agent.Past())
  {
    hide Agent.Ledger, Agent.Past, Extends, StageOf, NextStage, PhaseOf, EndedMessages;
    ExtendsIsAnOrder();
    threw, decision := FinishTurn(agent, message, toolResults, hook);
    if !threw {
      EndTurn(agent, message, toolResults);
    }
  }

  /** `agent_end` for an abort or an `end` decision. */
  method LeaveBy(agent: Agent, l: Loop, ghost exit: Exit, ghost base: seq<Message>)
    requires agent.Ledger([], Steering) && PhaseOf(agent.events) == BetweenTurns
    requires Mirrors(agent, l.context, l.newMessages, base) && StageOf(agent.history) == Leaving(exit)
    requires exit == AbortExit || exit == EndDecision
    requires exit == AbortExit ==> agent.aborted
    requires exit == EndDecision ==> agent.sealed
    requires agent.sealed ==> agent.suppressQueuedMessageDrain
    modifies agent`nextPlace, agent`home, agent`calls, agent`discarded, agent`aborted,
             agent`suppressQueuedMessageDrain, agent.steering, agent.followUp, agent`events, agent`history
    ensures agent.events == old(agent.events) + [AgentEnd(l.newMessages)]
    ensures Concluded(agent, Finished(exit), l, base) && agent.history == old(agent.history) + [Left(exit)]
    ensures Extends(old(agent.Past()), agent.Past())
  {
    hide Agent.Ledger, Agent.Past, Extends, StageOf, NextStage, PhaseOf, EndedMessages;
    Leaves(exit);
    EndRun(agent, l.newMessages, exit, base);
  }

  /** Lines 386-403: the abort flag is looked at, then the decision. */
  method AfterTurn(agent: Agent, l: Loop, ghost message: Message, decision: Decision, ghost base: seq<Message>)
    returns (outcome: Option<Outcome>, l': Loop)
    requires agent.Ledger([], Steering) && agent.sealed == (decision == End)
    requires agent.sealed ==> agent.suppressQueuedMessageDrain
    requires Mirrors(agent, l.context, l.newMessages, base) && PhaseOf(agent.events) == BetweenTurns
    requires l.pendingMessages == [] && !agent.skipInitialSteeringPoll && !ShouldTerminateAssistantTurn(message)
    requires StageOf(agent.history) == Over(message, l.hasMoreToolCalls || decision == Continue, decision)
    modifies agent`nextPlace, agent`home, agent`calls, agent`discarded, agent`aborted,
             agent`suppressQueuedMessageDrain, agent.steering, agent.followUp, agent`events, agent`history
    ensures outcome.Some? ==> outcome.value.Finished? && Concluded(agent, outcome.value, l', base)
    ensures outcome == None ==> Sound(agent, l', base) && Polling(agent) && PhaseOf(agent.events) == BetweenTurns
    ensures outcome == None ==> !agent.aborted && decision != End && l'.explicitContinuation == (decision == Continue)
    ensures outcome == None ==> StageOf(agent.history) == Between(l'.hasMoreToolCalls || l'.explicitContinuation, false, false)
    ensures outcome == None ==> agent.history == old(agent.history) + [Looked(false)]
    ensures outcome.Some? ==>
      agent.history == old(agent.history) + (if outcome.value.exit == AbortExit then [Looked(true), Left(AbortExit)]
                                             else [Looked(false), Left(EndDecision)])
    ensures outcome.Some? && outcome.value.exit != AbortExit ==>
      outcome.value.exit == EndDecision && decision == End
    ensures agent.events == old(agent.events) + (if outcome.Some? then [AgentEnd(l.newMessages)] else [])
    ensures l' == l.(explicitContinuation := l'.explicitContinuation)
    ensures Extends(old(agent.Past()), agent.Past())
  {
    hide Agent.Ledger, Agent.Past, Extends, StageOf, NextStage, PhaseOf, EndedMessages, Concluded;
    ExtendsIsAnOrder();
    outcome, l' := None, l;
    LooksAfterTurn(StageOf(agent.history), agent.aborted);
    agent.Note(Looked(agent.aborted));
    if agent.aborted {
      LeaveBy(agent, l, AbortExit, base);
      outcome := Some(Finished(AbortExit));
    } else if decision == End {
      LeaveBy(agent, l, EndDecision, base);
      outcome := Some(Finished(EndDecision));
    } else {
      l' := l.(explicitContinuation := decision == Continue);
    }
  }

  /** Lines 353-403: leave on a hard stop, an abort or an `end` decision; otherwise note a `continue` decision. */
  method Conclude(agent: Agent, l: Loop, message: Message, toolResults: seq<Message>, hook: FinishHook,
                  ghost base: seq<Message>)
    returns (outcome: Option<Outcome>, l': Loop, ghost said: Decision)
    requires MidTurn(agent, l, base)
    requires StageOf(agent.history) == Replied(message, toolResults, message.toolCalls != [], l.hasMoreToolCalls)
    requires !ShouldTerminateAssistantTurn(message)
    modifies agent`nextPlace, agent`home, agent`calls, agent`discarded, agent`aborted,
             agent`suppressQueuedMessageDrain, agent.steering, agent.followUp, agent`events, agent`sealed,
             agent`history
    ensures outcome.Some? ==> outcome.value != Suspended && Concluded(agent, outcome.value, l', base)
    ensures said == hook.decision && (outcome == Some(Threw) <==> hook.throws)
    ensures agent.events == old(agent.events) + (if hook.throws then [] else [TurnEnd(message, toolResults)])
         + (if outcome.Some? && outcome.value.Finished? then [AgentEnd(l.newMessages)] else [])
    ensures outcome.Some? && outcome.value.Finished? ==>
      outcome.value.exit == AbortExit || outcome.value.exit == EndDecision
    ensures outcome == None ==> Sound(agent, l', base) && Polling(agent) && PhaseOf(agent.events) == BetweenTurns
    ensures outcome == None ==> !agent.aborted && said != End && l'.explicitContinuation == (said == Continue)
    ensures outcome == None ==> StageOf(agent.history) == Between(l'.hasMoreToolCalls || l'.explicitContinuation, false, false)
    ensures agent.history == old(agent.history) + match outcome
                                                  case None => [Decided(message, toolResults, said), Looked(false)]
                                                  case Some(Finished(AbortExit)) =>
                                                    [Decided(message, toolResults, said), Looked(true), Left(AbortExit)]
                                                  case Some(Finished(_)) =>
                                                    [Decided(message, toolResults, End), Looked(false), Left(EndDecision)]
                                                  case _ => []
    ensures l' == l.(explicitContinuation := l'.explicitContinuation)
    ensures Extends(old(agent.Past()), agent.Past())
  {
    hide Agent.Ledger, Agent.Past, Extends, StageOf, NextStage, PhaseOf, EndedMessages, Mirrors, Closed;
    ExtendsIsAnOrder();
    outcome, l' := None, l;
    var threw, decision := CloseTurn(agent, l, message, toolResults, hook, base);
    said := decision;
    if threw {
      outcome := Some(Threw);
      return;
    }
    outcome, l' := AfterTurn(agent, l, message, decision, base);
  }

  /** Lines 353-359: the decision of the hook is ignored, but an `end` still seals the queues. */
  method HardStopTurn(agent: Agent, l: Loop, message: Message, toolResults: seq<Message>, hook: FinishHook,
                      ghost base: seq<Message>)
    returns (outcome: Outcome)
    requires MidTurn(agent, l, base)
    requires ShouldTerminateAssistantTurn(message) && EndsTerminally(l.newMessages)
    requires StageOf(agent.history).Replied? && StageOf(agent.history).reply == message
    requires StageOf(agent.history).results == toolResults
    modifies agent`nextPlace, agent`home, agent`calls, agent`discarded, agent`aborted,
             agent`suppressQueuedMessageDrain, agent.steering, agent.followUp, agent`events, agent`sealed, agent`history
    ensures outcome == if hook.throws then Threw else Finished(HardStop)
    ensures agent.events == old(agent.events)
         + (if hook.throws then [] else [TurnEnd(message, toolResults), AgentEnd(l.newMessages)])
    ensures Concluded(agent, outcome, l, base)
    ensures Extends(old(agent.Past()), agent.Past())
  {
    hide Agent.Ledger, Agent.Past, Extends, StageOf, NextStage, PhaseOf, EndedMessages;
    ExtendsIsAnOrder();
    var threw, _ := CloseTurn(agent, l, message, toolResults, hook, base);
    if threw {
      outcome := Threw;
      return;
    }
    StopsHard(StageOf(agent.history));
    EndRun(agent, l.newMessages, HardStop, base);
    outcome := Finished(HardStop);
  }

  lemma ThrownIsConcluded(agent: Agent, l: Loop, base: seq<Message>)
    requires agent.Ledger([], Steering) && !agent.sealed && StageOf(agent.history) != Broken
    ensures Concluded(agent, Threw, l, base)
  {}

  lemma NoCalls()
    ensures AnswersEach([], [])
  {}

  /** Lines 361-455: tools, the hook, and what the next pass starts from. */
  method GoOnWithTurn(agent: Agent, l: Loop, message: Message, toolResults: seq<Message>, world: TurnWorld,
                      ghost base: seq<Message>)
    returns (outcome: Option<Outcome>, l': Loop, ghost results: seq<Message>)
    requires MidTurn(agent, l, base)
    requires StageOf(agent.history) == Replied(message, toolResults, false, false) && !ShouldTerminateAssistantTurn(message)
    modifies agent`nextPlace, agent`home, agent`calls, agent`discarded, agent`aborted,
             agent`suppressQueuedMessageDrain, agent.steering, agent.followUp, agent`skipInitialSteeringPoll,
             agent`steeringQueueGeneration, agent`followUpQueueGeneration, agent`claimedFrom, agent`claimedAt,
             agent`claimSince, agent`history, agent`events, agent`transcript,
             agent`origins, agent`sealed, agent`contextDiverged
    ensures outcome.Some? ==> outcome.value != Suspended && Concluded(agent, outcome.value, l', base)
    ensures outcome != Some(Finished(HardStop))
    ensures outcome == Some(Threw) ==> world.host.throws || world.finish.throws || world.prepare.throws
    ensures world.finish.throws ==> outcome == Some(Threw)
    ensures message.toolCalls != [] && message.stopReason != Length && outcome != Some(Threw) ==>
      results == world.host.results
    ensures outcome != Some(Threw) ==>
      && l'.newMessages == l.newMessages + results
      && (if message.toolCalls == [] then results == []
          else old(agent.history) < agent.history && agent.history[|old(agent.history)|].ToolsRan?
               && agent.history[|old(agent.history)|].results == results)
    ensures outcome != Some(Threw) && message.stopReason == Length ==> AnswersEach(results, message.toolCalls)
    ensures outcome == None ==> AtTop(agent, l', base) && !l'.firstTurn
    ensures outcome == None ==>
      l'.hasMoreToolCalls || l'.pendingMessages != [] || SteeringDry(StageOf(agent.history))
    ensures Extends(old(agent.Past()), agent.Past())
  {
    hide Agent.Ledger, Agent.Past, Extends, StageOf, NextStage, PhaseOf, EndedMessages, Sound, Concluded, AtTop,
         AnswersEach, ShouldTerminateAssistantTurn;
    ExtendsIsAnOrder();
    NoCalls();
    outcome := None;
    var threw, toolBatch;
    threw, l', toolBatch := ToolTurn(agent, l, message, toolResults, world.host, base);
    results := toolBatch;
    if threw {
      ThrownIsConcluded(agent, l', base);
      outcome := Some(Threw);
      return;
    }
    ghost var ran := agent.Past();
    ghost var said;
    agent.Flags();
    outcome, l', said := Conclude(agent, l', message, toolResults + toolBatch, world.finish, base);
    if outcome == None {
      outcome, l' := NextTurn(agent, l', world.prepare, base);
    }
    agent.HistoryStays(ran);
  }

  /** Lines 353-455: a terminal answer stops the run, any other is acted on. */
  method FollowAnswer(agent: Agent, l: Loop, message: Message, toolResults: seq<Message>, world: TurnWorld,
                      ghost begun: seq<Message>, ghost base: seq<Message>)
    returns (outcome: Option<Outcome>, l': Loop, ghost results: seq<Message>)
    requires MidTurn(agent, l, base)
    requires StageOf(agent.history) == Replied(message, toolResults, false, false)
    requires l.newMessages == begun + [message] + toolResults && message.role == Assistant && AreToolResults(toolResults)
    modifies agent`nextPlace, agent`home, agent`calls, agent`discarded, agent`aborted,
             agent`suppressQueuedMessageDrain, agent.steering, agent.followUp, agent`skipInitialSteeringPoll,
             agent`steeringQueueGeneration, agent`followUpQueueGeneration, agent`claimedFrom, agent`claimedAt,
             agent`claimSince, agent`history, agent`events, agent`transcript,
             agent`origins, agent`sealed, agent`contextDiverged
    ensures outcome.Some? ==> outcome.value != Suspended && Concluded(agent, outcome.value, l', base)
    ensures ShouldTerminateAssistantTurn(message) ==>
      outcome == Some(if world.finish.throws then Threw else Finished(HardStop)) && results == []
    ensures !ShouldTerminateAssistantTurn(message) ==> outcome != Some(Finished(HardStop))
    ensures outcome == Some(Threw) ==> world.host.throws || world.finish.throws || world.prepare.throws
    ensures world.finish.throws ==> outcome == Some(Threw)
    ensures outcome != Some(Threw) ==>
      && l'.newMessages == l.newMessages + results
      && (if message.toolCalls == [] || ShouldTerminateAssistantTurn(message) then results == []
          else old(agent.history) < agent.history && agent.history[|old(agent.history)|].ToolsRan?
               && agent.history[|old(agent.history)|].results == results)
      && (message.stopReason == Length ==> AnswersEach(results, message.toolCalls))
      && (results == [] || message.stopReason == Length || results == world.host.results)
    ensures outcome == None ==> AtTop(agent, l', base) && !l'.firstTurn
    ensures outcome == None ==>
      l'.hasMoreToolCalls || l'.pendingMessages != [] || SteeringDry(StageOf(agent.history))
    ensures Extends(old(agent.Past()), agent.Past())
  {
    hide Agent.Ledger, Agent.Past, Extends, StageOf, PhaseOf, EndedMessages, Mirrors, AtTop, EndsTerminally,
         AnswersEach, MidTurn, Concluded;
    if ShouldTerminateAssistantTurn(message) {
      TerminalAtTheEnd(begun, message, toolResults);
      var stopped := HardStopTurn(agent, l, message, toolResults, world.finish, base);
      outcome, l', results := Some(stopped), l, [];
    } else {
      outcome, l', results := GoOnWithTurn(agent, l, message, toolResults, world, base);
    }
  }

  /** What one turn got: the provider's stream, the answer, the results of its tool calls. */
  datatype Reply = Reply(stream: ProviderStream, answer: Message, results: seq<Message>)

  /** The turn's input, its one request and its answer come next in the history. */
  ghost predicate IsOnRecord(before: seq<Mark>, after: seq<Mark>, pending: seq<Entry>, answer: Message) {
    var taken := if pending != [] then [Took(pending)] else [];
    var n := |before| + |taken|;
    && before + taken <= after && n + 2 <= |after|
    && after[n].Requested? && after[n + 1].Answered? && after[n + 1].answer == answer
  }

  /**
   * What the turn adds to the run's messages: prepared and claimed input, the answer, the results the provider delivered,
   * and the results of the answer's tool calls, which are run exactly when it has any and is not terminal.
   */
  ghost predicate Produced(l: Loop, l': Loop, reply: Reply, history: seq<Mark>, from: nat) {
    var n := from + if l.pendingMessages != [] then 3 else 2;
    && l'.newMessages == l.newMessages + l.preparedMessages + Messages(l.pendingMessages) + [reply.answer]
                         + reply.stream.toolResults + reply.results
    && (if reply.answer.toolCalls == [] || ShouldTerminateAssistantTurn(reply.answer) then reply.results == []
        else n < |history| && history[n].ToolsRan? && history[n].results == reply.results)
    && (reply.answer.stopReason == Length ==> AnswersEach(reply.results, reply.answer.toolCalls))
  }

  lemma OnRecordSince(before: seq<Mark>, begun: seq<Mark>, after: seq<Mark>, pending: seq<Entry>, answer: Message)
    requires begun == before + (if pending != [] then [Took(pending)] else []) && IsOnRecord(begun, after, [], answer)
    ensures IsOnRecord(before, after, pending, answer)
  {
    assert begun + [] == begun;
  }

  lemma ProducedSince(l: Loop, l1: Loop, l': Loop, reply: Reply, history: seq<Mark>, from: nat)
    requires l1.newMessages == l.newMessages + l.preparedMessages + Messages(l.pendingMessages)
    requires l1.preparedMessages == [] && l1.pendingMessages == []
    requires Produced(l1, l', reply, history, from + if l.pendingMessages != [] then 1 else 0)
    ensures Produced(l, l', reply, history, from)
  {
    assert l1.newMessages + [] + Messages([]) == l1.newMessages;
  }

  lemma AnswerLater(stream: ProviderStream, before: bool, after: bool, later: bool, answer: Message)
    requires IsAnswer(stream, before, after, answer) && (after ==> later)
    ensures IsAnswer(stream, before, later, answer)
  {}

  lemma OnRecordHere(before: seq<Mark>, answered: seq<Mark>, after: seq<Mark>, transcript: seq<Message>, answer: Message,
                     delivered: seq<Message>)
    requires OneRequest(before, answered, transcript, answer, delivered) && answered <= after
    ensures IsOnRecord(before, after, [], answer) && |answered| == |before| + 2
  {
    assert before + [] == before;
  }

  lemma ProducedHere(l: Loop, l': Loop, reply: Reply, answered: seq<Mark>, history: seq<Mark>, from: nat)
    requires l.preparedMessages == [] && l.pendingMessages == [] && |answered| == from + 2
    requires l'.newMessages == l.newMessages + [reply.answer] + reply.stream.toolResults + reply.results
    requires if reply.answer.toolCalls == [] || ShouldTerminateAssistantTurn(reply.answer) then reply.results == []
             else answered < history && history[|answered|].ToolsRan? && history[|answered|].results == reply.results
    requires reply.answer.stopReason == Length ==> AnswersEach(reply.results, reply.answer.toolCalls)
    ensures Produced(l, l', reply, history, from)
  {
    hide AnswersEach;
    assert l.newMessages + [] + Messages([]) == l.newMessages;
  }

  lemma NothingWaits(agent: Agent, l: Loop, base: seq<Message>)
    requires MidTurn(agent, l, base)
    ensures l.preparedMessages == [] && l.pendingMessages == [] && !agent.sealed && agent.Ledger([], Steering)
  {}

  lemma TopIsOpen(agent: Agent, l: Loop, base: seq<Message>)
    requires AtTop(agent, l, base)
    ensures !agent.sealed && StageOf(agent.history) != Broken
  {}

  /** If anything comes next, it is not a poll. */
  ghost predicate BeginsWithWork(before: seq<Mark>, after: seq<Mark>) {
    before <= after && (|after| > |before| ==> !after[|before|].Poll?)
  }

  lemma NothingBegun(history: seq<Mark>)
    ensures BeginsWithWork(history, history)
  {}

  lemma BegunByWork(before: seq<Mark>, begun: seq<Mark>, after: seq<Mark>, pending: seq<Entry>, reply: Option<Reply>)
    requires begun == before + (if pending != [] then [Took(pending)] else [])
    requires if reply.Some? then IsOnRecord(begun, after, [], reply.value.answer) else after == begun
    ensures BeginsWithWork(before, after) && (reply.Some? ==> |after| > |before|)
  {
    assert begun + [] == begun;
  }

  /** Lines 309-455: the request, its answer, and what follows from it. */
  method AnswerTurn(agent: Agent, l: Loop, world: TurnWorld, ghost base: seq<Message>)
    returns (outcome: Option<Outcome>, l': Loop, ghost reply: Option<Reply>)
    requires MidTurn(agent, l, base) && MayAsk(StageOf(agent.history))
    modifies agent`nextPlace, agent`home, agent`calls, agent`discarded, agent`aborted,
             agent`suppressQueuedMessageDrain, agent.steering, agent.followUp, agent`skipInitialSteeringPoll,
             agent`steeringQueueGeneration, agent`followUpQueueGeneration, agent`claimedFrom, agent`claimedAt,
             agent`claimSince, agent`history, agent`events, agent`transcript,
             agent`origins, agent`committed, agent`sealed, agent`contextDiverged
    ensures outcome.Some? ==> outcome.value != Suspended && Concluded(agent, outcome.value, l', base)
    ensures outcome == None ==> AtTop(agent, l', base) && !l'.firstTurn
    ensures outcome == None ==>
      l'.hasMoreToolCalls || l'.pendingMessages != [] || SteeringDry(StageOf(agent.history))
    ensures outcome == Some(Threw) ==> Faulty(world)
    ensures reply == None ==> agent.history == old(agent.history)
    ensures world.request.throws || world.stepThrows || world.finish.throws ==> outcome == Some(Threw)
    ensures outcome != Some(Threw) ==> reply.Some?
    ensures reply.Some? ==> reply.value.stream == world.stream
    ensures outcome != Some(Threw) ==> (reply.value.results == [] || reply.value.answer.stopReason == Length
                                        || reply.value.results == world.host.results)
    ensures reply.Some? ==>
      && IsAnswer(reply.value.stream, old(agent.aborted), agent.aborted, reply.value.answer)
      && IsOnRecord(old(agent.history), agent.history, [], reply.value.answer)
    ensures outcome != Some(Threw) ==> Produced(l, l', reply.value, agent.history, |old(agent.history)|)
    ensures reply.Some? && ShouldTerminateAssistantTurn(reply.value.answer) ==>
      outcome == Some(Threw) || outcome == Some(Finished(HardStop))
    ensures outcome == Some(Finished(HardStop)) ==> ShouldTerminateAssistantTurn(reply.value.answer)
    ensures Extends(old(agent.Past()), agent.Past())
  {
    hide Agent.Ledger, Agent.Past, Extends, StageOf, PhaseOf, EndedMessages, Answer, Mirrors, Produced, IsOnRecord, OneRequest, AtTop,
         EndsTerminally, AnswersEach, IsAnswer, MidTurn, Concluded, MayAsk, ShouldTerminateAssistantTurn, SteeringDry;
    ExtendsIsAnOrder();
    NothingWaits(agent, l, base);
    outcome, reply := None, None;
    var threw;
    ghost var begun := l.newMessages;
    var message, toolResults;
    threw, l', message, toolResults := RequestTurn(agent, l, world.request, world.stream, world.stepThrows, base);
    if world.request.throws {
      ThrownIsConcluded(agent, l', base);
      outcome := Some(Threw);
      return;
    }
    ghost var answered, results := agent.Past(), [];
    agent.Flags();
    if threw {
      ThrownIsConcluded(agent, l', base);
      outcome := Some(Threw);
    } else {
      outcome, l', results := FollowAnswer(agent, l', message, toolResults, world, begun, base);
    }
    reply := Some(Reply(world.stream, message, results));
    agent.HistoryStays(answered);
    agent.FlagsStay(answered);
    AnswerLater(world.stream, old(agent.aborted), answered.aborted, agent.aborted, message);
    OnRecordHere(old(agent.history), answered.history, agent.history, old(agent.transcript), message,
                 world.stream.toolResults);
    if outcome != Some(Threw) {
      ProducedHere(l, l', reply.value, answered.history, agent.history, |old(agent.history)|);
    }
  }

  /**
   * One pass of the inner loop. `None` means the loop goes on; then `AtTop` holds again, and if no work is left at the
   * head of the loop, steering was polled empty.
   */
  method Turn(agent: Agent, l: Loop, world: TurnWorld, ghost base: seq<Message>)
    returns (outcome: Option<Outcome>, l': Loop, ghost reply: Option<Reply>)
    requires AtTop(agent, l, base) && (l.hasMoreToolCalls || l.pendingMessages != [])
    modifies agent`nextPlace, agent`home, agent`calls, agent`discarded, agent`aborted,
             agent`suppressQueuedMessageDrain, agent.steering, agent.followUp, agent`skipInitialSteeringPoll,
             agent`steeringQueueGeneration, agent`followUpQueueGeneration, agent`claimedFrom, agent`claimedAt,
             agent`claimSince, agent`history, agent`events, agent`transcript,
             agent`origins, agent`committed, agent`sealed, agent`contextDiverged
    ensures outcome.Some? ==> outcome.value != Suspended && Concluded(agent, outcome.value, l', base)
    ensures outcome == None ==> AtTop(agent, l', base) && !l'.firstTurn
    ensures outcome == None ==>
      l'.hasMoreToolCalls || l'.pendingMessages != [] || SteeringDry(StageOf(agent.history))
    ensures BeginsWithWork(old(agent.history), agent.history)
    ensures outcome == None ==> |agent.history| > |old(agent.history)|
    ensures outcome == Some(Threw) ==> Faulty(world)
    ensures l.pendingMessages != [] && agent.hasPort && !world.accepts ==> outcome == Some(Threw)
    ensures reply == None ==>
      (agent.history == old(agent.history)
       || agent.history == old(agent.history) + (if l.pendingMessages != [] then [Took(l.pendingMessages)] else []))
    ensures world.request.throws || world.stepThrows || world.finish.throws ==> outcome == Some(Threw)
    ensures outcome != Some(Threw) ==> reply.Some?
    ensures reply.Some? ==> reply.value.stream == world.stream
    ensures outcome != Some(Threw) ==> (reply.value.results == [] || reply.value.answer.stopReason == Length
                                        || reply.value.results == world.host.results)
    ensures reply.Some? ==>
      && IsAnswer(reply.value.stream, old(agent.aborted), agent.aborted, reply.value.answer)
      && IsOnRecord(old(agent.history), agent.history, l.pendingMessages, reply.value.answer)
    ensures outcome != Some(Threw) ==> Produced(l, l', reply.value, agent.history, |old(agent.history)|)
    ensures reply.Some? && (reply.value.answer.stopReason == Error || reply.value.answer.stopReason == Aborted) ==>
      outcome == Some(Threw) || outcome == Some(Finished(HardStop))
    ensures outcome == Some(Finished(HardStop)) ==>
      var answer := reply.value.answer;
      || answer.stopReason == Error || answer.stopReason == Aborted
      || (answer.stopReason == ToolUse && answer.refusal)
    ensures Extends(old(agent.Past()), agent.Past())
  {
    hide Agent.Ledger, Agent.Past, Extends, StageOf, PhaseOf, EndedMessages, Answer, Messages, Produced, IsOnRecord,
         Mirrors, BeginsWithWork, AtTop, MidTurn, Concluded, MayAsk;
    ExtendsIsAnOrder();
    agent.Flags();
    TopIsOpen(agent, l, base);
    outcome, reply := None, None;
    var threw;
    threw, l' := BeginTurn(agent, l, world.accepts, base);
    if threw {
      NothingBegun(old(agent.history));
      ThrownIsConcluded(agent, l', base);
      outcome := Some(Threw);
      return;
    }
    agent.FlagsStay(old(agent.Past()));
    NothingWaits(agent, l', base);
    ghost var l1, begun := l', agent.history;
    outcome, l', reply := AnswerTurn(agent, l', world, base);
    BegunByWork(old(agent.history), begun, agent.history, l.pendingMessages, reply);
    if reply.Some? {
      OnRecordSince(old(agent.history), begun, agent.history, l.pendingMessages, reply.value.answer);
      if outcome != Some(Threw) {
        ProducedSince(l, l1, l', reply.value, agent.history, |old(agent.history)|);
      }
    }
  }

  /** Lines 450-452: steering is polled after every batch that did not terminate. */
  method DrainSteering(agent: Agent, l: Loop, ghost base: seq<Message>) returns (l': Loop)
    requires Sound(agent, l, base) && Polling(agent) && l.pendingMessages == []
    requires StageOf(agent.history).Ready? || StageOf(agent.history).Between?
    modifies agent`nextPlace, agent`home, agent`calls, agent`discarded, agent`aborted,
             agent`suppressQueuedMessageDrain, agent.steering, agent.followUp, agent`skipInitialSteeringPoll,
             agent`steeringQueueGeneration, agent`claimedFrom, agent`claimedAt, agent`claimSince, agent`history
    ensures StageOf(agent.history) == StageOf(old(agent.history)).(steeringDry := l'.pendingMessages == [])
    ensures Sound(agent, l', base) && Polling(agent)
    ensures l' == l.(pendingMessages := l'.pendingMessages, pendingSource := Steering)
    ensures agent.history == old(agent.history) + [Poll(Steering, l'.pendingMessages)]
    ensures Extends(old(agent.Past()), agent.Past())
  {
    hide Agent.Ledger, Agent.Past, Extends, StageOf, PhaseOf, EndedMessages;
    ExtendsIsAnOrder();
    var batch := agent.GetSteeringMessages();
    l' := l.(pendingMessages := batch, pendingSource := Steering);
  }

  lemma EndedIsConcluded(agent: Agent, exit: Exit, l: Loop, base: seq<Message>)
    requires Closed(agent, l.newMessages, base) && StageOf(agent.history) == Done(exit) && !agent.sealed
    requires exit == Natural || (exit == AbortExit && agent.aborted)
    ensures Concluded(agent, Finished(exit), l, base)
  {}

  /** Lines 404-455: what the next pass starts from. */
  method NextTurn(agent: Agent, l: Loop, hook: PrepareHook, ghost base: seq<Message>) returns (outcome: Option<Outcome>, l': Loop)
    requires Sound(agent, l, base) && Polling(agent) && PhaseOf(agent.events) == BetweenTurns
    requires l.pendingMessages == [] && l.drainedTerminatingQueue == None
    requires !l.turnStartAlreadyEmitted && !l.firstTurn
    requires StageOf(agent.history).Between?
    requires StageOf(agent.history).due == (l.hasMoreToolCalls || l.explicitContinuation)
    requires l.toolBatchTerminated ==> !l.hasMoreToolCalls
    modifies agent`nextPlace, agent`home, agent`calls, agent`discarded, agent`aborted,
             agent`suppressQueuedMessageDrain, agent.steering, agent.followUp, agent`skipInitialSteeringPoll,
             agent`steeringQueueGeneration, agent`followUpQueueGeneration, agent`claimedFrom, agent`claimedAt,
             agent`claimSince, agent`history, agent`events,
             agent`contextDiverged
    ensures l'.newMessages == l.newMessages
    ensures outcome.Some? ==> outcome.value != Suspended && Concluded(agent, outcome.value, l', base)
    ensures outcome == None ==> AtTop(agent, l', base) && !l'.firstTurn
    ensures outcome == None ==>
      l'.hasMoreToolCalls || l'.pendingMessages != [] || SteeringDry(StageOf(agent.history))
    ensures outcome != Some(Finished(HardStop)) && (outcome == Some(Threw) ==> hook.throws)
    ensures outcome == None && !l.toolBatchTerminated ==>
      agent.history != [] && agent.history[|agent.history| - 1] == Poll(Steering, l'.pendingMessages)
    ensures outcome == None ==>
      l'.preparedMessages == match hook.update
                             case None => l.preparedMessages
                             case Some(update) => if update.messages.Some? then update.messages.value else []
    ensures Extends(old(agent.Past()), agent.Past())
  {
    hide Agent.Ledger, Agent.Past, Extends, StageOf, NextStage, PhaseOf, EndedMessages, Mirrors, Closed, Concluded,
         Agent.NotLost, Returnable;
    ExtendsIsAnOrder();
    outcome, l' := None, l;
    if l.toolBatchTerminated {
      var ended;
      ended, l' := TerminatingDrain(agent, l', base);
      if ended {
        EndedIsConcluded(agent, Natural, l', base);
        return Some(Finished(Natural)), l';
      }
    }
    var next;
    next, l' := Prepare(agent, l', hook, base);
    match next
    case Failed =>
      ThrownIsConcluded(agent, l', base);
      return Some(Threw), l';
    case EndedNaturally =>
      EndedIsConcluded(agent, Natural, l', base);
      return Some(Finished(Natural)), l';
    case EndedByAbort =>
      EndedIsConcluded(agent, AbortExit, l', base);
      return Some(Finished(AbortExit)), l';
    case GoOn =>
      if !l.toolBatchTerminated {
        l' := DrainSteering(agent, l', base);
      }
      if l'.hasMoreToolCalls || l'.pendingMessages != [] {
        l' := l'.(explicitContinuation := false);
      }
  }

  /** Lines 459-474: follow-ups restart the loop, so does an unfulfilled `continue` decision (once); else it stops. */
  method PollFollowUps(agent: Agent, l: Loop, ghost base: seq<Message>) returns (stop: bool, l': Loop)
    requires AtTop(agent, l, base) && !l.firstTurn && !l.hasMoreToolCalls && l.pendingMessages == []
    requires SteeringDry(StageOf(agent.history))
    modifies agent`nextPlace, agent`home, agent`calls, agent`discarded, agent`aborted,
             agent`suppressQueuedMessageDrain, agent.steering, agent.followUp, agent`followUpQueueGeneration,
             agent`claimedFrom, agent`claimedAt, agent`claimSince, agent`history
    ensures l'.newMessages == l.newMessages
    ensures !l'.explicitContinuation && agent.history == old(agent.history) + [Poll(FollowUp, l'.pendingMessages)]
    ensures stop <==> l'.pendingMessages == [] && !l.explicitContinuation
    ensures stop ==> Sound(agent, l', base) && (PhaseOf(agent.events) == InTurn || PhaseOf(agent.events) == BetweenTurns)
    ensures stop ==> BothDry(StageOf(agent.history)) && !StageOf(agent.history).due && !agent.sealed
    ensures stop ==> l'.pendingMessages == []
    ensures !stop ==> AtTop(agent, l'.(hasMoreToolCalls := true), base)
    ensures Extends(old(agent.Past()), agent.Past())
  {
    hide Agent.Ledger, Agent.Past, Extends, StageOf, PhaseOf, EndedMessages;
    ExtendsIsAnOrder();
    var followUpMessages := agent.GetFollowUpMessages();
    l' := l.(pendingMessages := followUpMessages, pendingSource := FollowUp);
    stop := false;
    if followUpMessages != [] {
      l' := l'.(explicitContinuation := false);
    } else if l.explicitContinuation {
      l' := l'.(explicitContinuation := false);
    } else {
      stop := true;
    }
  }

  /** Line 478: the natural end. */
  method StopNaturally(agent: Agent, l: Loop, ghost base: seq<Message>)
    requires Sound(agent, l, base) && (PhaseOf(agent.events) == InTurn || PhaseOf(agent.events) == BetweenTurns)
    requires BothDry(StageOf(agent.history)) && !StageOf(agent.history).due && !agent.sealed && l.pendingMessages == []
    modifies agent`nextPlace, agent`home, agent`calls, agent`discarded, agent`aborted,
             agent`suppressQueuedMessageDrain, agent.steering, agent.followUp, agent`events, agent`history
    ensures Concluded(agent, Finished(Natural), l, base) && agent.history == old(agent.history) + [Left(Natural)]
    ensures Extends(old(agent.Past()), agent.Past())
  {
    hide Agent.Ledger, Agent.Past, Extends, StageOf, PhaseOf, EndedMessages, Mirrors, Closed;
    LeaveNaturally(agent, l, base);
  }

  /** Lines 226-260: the flags start out unset, and steering is polled once before the first turn. */
  method StartLoop(agent: Agent, context: seq<Message>, newMessages: seq<Message>, ghost base: seq<Message>)
    returns (l: Loop)
    requires agent.Ledger([], Steering) && !agent.sealed && MayAsk(StageOf(agent.history))
    requires Mirrors(agent, context, newMessages, base) && PhaseOf(agent.events) == InTurn
    modifies agent`nextPlace, agent`home, agent`calls, agent`discarded, agent`aborted,
             agent`suppressQueuedMessageDrain, agent.steering, agent.followUp, agent`skipInitialSteeringPoll,
             agent`steeringQueueGeneration, agent`claimedFrom, agent`claimedAt, agent`claimSince, agent`history
    ensures AtTop(agent, l, base) && l.hasMoreToolCalls
    ensures agent.history == old(agent.history)
         + (if old(agent.skipInitialSteeringPoll) then [] else [Poll(Steering, l.pendingMessages)])
    ensures old(agent.skipInitialSteeringPoll) ==> l.pendingMessages == []
    ensures Extends(old(agent.Past()), agent.Past())
  {
    hide Agent.Ledger, Agent.Past, Extends, StageOf, PhaseOf, EndedMessages;
    ExtendsIsAnOrder();
    var batch := agent.GetSteeringMessages();
    l := Loop(context, newMessages, true, None, false, false, [], Steering, batch, true, false);
  }

  lemma TopIsSuspendable(agent: Agent, l: Loop, base: seq<Message>)
    requires AtTop(agent, l, base)
    ensures Concluded(agent, Suspended, l, base)
  {}

  /** Before the run left, the last poll of each queue, with nothing taken or requested since, found it empty. */
  ghost predicate BothFoundEmpty(history: seq<Mark>) {
    history != [] && FoundEmpty(history, Steering, |history| - 1) && FoundEmpty(history, FollowUp, |history| - 1)
  }

  lemma ConcludedRunsAreComplete(agent: Agent, outcome: Outcome, l: Loop, base: seq<Message>)
    requires Concluded(agent, outcome, l, base)
    ensures outcome.Finished? && outcome.exit != AbortExit ==> EveryContinueIsFollowed(agent.history)
    ensures outcome.Finished? ==> EveryCallIsRun(agent.history)
    ensures outcome == Finished(Natural) || outcome == Finished(HardStop) ==> EveryAskIsFollowed(agent.history)
    ensures outcome == Finished(Natural) ==> BothFoundEmpty(agent.history)
  {
    hide EveryContinueIsFollowed, EveryCallIsRun, EveryAskIsFollowed, StageOf, FoundEmpty;
    if outcome.Finished? {
      if outcome.exit == Natural { NaturalEndsFoundEmpty(agent.history); }
      DoneMeansRun(agent.history);
      if outcome.exit != AbortExit { DoneMeansFollowed(agent.history, outcome.exit); }
      if outcome.exit == Natural || outcome.exit == HardStop { NothingIsLeftUnasked(agent.history); }
    }
  }

  /** The first thing a run does is to poll steering, unless that poll is to be skipped; then it is something else. */
  ghost predicate PollsFirst(skip: bool, before: seq<Mark>, after: seq<Mark>) {
    && before <= after
    && if skip then |after| > |before| ==> !after[|before|].Poll?
       else |after| > |before| && after[|before|].Poll? && after[|before|].queue == Steering
  }

  lemma BegunByPoll(skip: bool, before: seq<Mark>, now: seq<Mark>, batch: seq<Entry>)
    requires now == before + (if skip then [] else [Poll(Steering, batch)])
    ensures PollsFirst(skip, before, now)
  {}

  lemma StillPolledFirst(skip: bool, before: seq<Mark>, at: seq<Mark>, now: seq<Mark>)
    requires PollsFirst(skip, before, at) && (BeginsWithWork(at, now) || (at <= now && |at| > |before|))
    ensures PollsFirst(skip, before, now) && |before| <= |at| <= |now|
  {}

  /**
   * `runLoop`: the outer loop restarts for follow-ups or for an unfulfilled `continue` decision.
   */
  method RunLoop(agent: Agent, context: seq<Message>, newMessages: seq<Message>, worlds: seq<TurnWorld>,
                 ghost base: seq<Message>)
    returns (outcome: Outcome, l: Loop)
    requires agent.Ledger([], Steering) && !agent.sealed && MayAsk(StageOf(agent.history))
    requires Mirrors(agent, context, newMessages, base) && PhaseOf(agent.events) == InTurn
    modifies agent`nextPlace, agent`home, agent`calls, agent`discarded, agent`aborted,
             agent`suppressQueuedMessageDrain, agent.steering, agent.followUp, agent`skipInitialSteeringPoll,
             agent`steeringQueueGeneration, agent`followUpQueueGeneration, agent`claimedFrom, agent`claimedAt,
             agent`claimSince, agent`history, agent`events, agent`transcript,
             agent`origins, agent`committed, agent`sealed, agent`contextDiverged
    ensures Concluded(agent, outcome, l, base)
    ensures outcome.Finished? && outcome.exit != AbortExit ==> EveryContinueIsFollowed(agent.history)
    ensures outcome.Finished? ==> EveryCallIsRun(agent.history)
    ensures outcome == Finished(Natural) || outcome == Finished(HardStop) ==> EveryAskIsFollowed(agent.history)
    ensures outcome == Finished(Natural) ==> BothFoundEmpty(agent.history)
    ensures outcome == Threw ==> exists k :: 0 <= k < |worlds| && Faulty(worlds[k])
    ensures PollsFirst(old(agent.skipInitialSteeringPoll), old(agent.history), agent.history)
    ensures Extends(old(agent.Past()), agent.Past())
  {
    hide PollsFirst, BothFoundEmpty, BeginsWithWork, EveryContinueIsFollowed, EveryCallIsRun, EveryAskIsFollowed,
         Produced, IsOnRecord, IsAnswer, Sound, Concluded, Agent.Ledger, Agent.Past, Extends, PhaseOf, EndedMessages,
         AtTop;
    ExtendsIsAnOrder();
    l := StartLoop(agent, context, newMessages, base);
    ghost var skip := old(agent.skipInitialSteeringPoll);
    BegunByPoll(skip, old(agent.history), agent.history, l.pendingMessages);
    var turn := 0;
    while true
      invariant 0 <= turn <= |worlds|
      invariant AtTop(agent, l.(hasMoreToolCalls := true), base)
      invariant PollsFirst(skip, old(agent.history), agent.history)
      invariant turn > 0 ==> |agent.history| > |old(agent.history)|
      invariant Extends(old(agent.Past()), agent.Past())
      decreases |worlds| - turn
    {
      ghost var turnBefore := turn;
      l := l.(hasMoreToolCalls := true);
      while l.hasMoreToolCalls || l.pendingMessages != []
        invariant turnBefore <= turn <= |worlds|
        invariant AtTop(agent, l, base)
        invariant if turn == turnBefore then l.hasMoreToolCalls else !l.firstTurn
        invariant PollsFirst(skip, old(agent.history), agent.history)
        invariant turn > 0 ==> |agent.history| > |old(agent.history)|
        invariant l.hasMoreToolCalls || l.pendingMessages != [] || SteeringDry(StageOf(agent.history))
        invariant Extends(old(agent.Past()), agent.Past())
        decreases |worlds| - turn
      {
        if turn == |worlds| {
          TopIsSuspendable(agent, l, base);
          return Suspended, l;
        }
        var left;
        ghost var reply;
        ghost var before := agent.history;
        left, l, reply := Turn(agent, l, worlds[turn], base);
        StillPolledFirst(skip, old(agent.history), before, agent.history);
        turn := turn + 1;
        if left.Some? {
          ConcludedRunsAreComplete(agent, left.value, l, base);
          return left.value, l;
        }
      }
      var stop;
      ghost var before := agent.history;
      stop, l := PollFollowUps(agent, l, base);
      StillPolledFirst(skip, old(agent.history), before, agent.history);
      if stop {
        break;
      }
    }
    ghost var before := agent.history;
    StopNaturally(agent, l, base);
    StillPolledFirst(skip, old(agent.history), before, agent.history);
    outcome := Finished(Natural);
    ConcludedRunsAreComplete(agent, outcome, l, base);
  }
}
