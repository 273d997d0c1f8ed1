/**
 * One active run of the agent and the runs it starts for input still queued at its end
 * (packages/agent/src/agent-loop.ts:138-187, packages/agent/src/agent.ts:682-704 and 865-961).
 */
module AgentLifecycle {
  import opened Options
  import opened AgentMessages
  import opened AgentQueues
  import opened AgentHistory
  import opened AgentAccounts
  import opened AgentOwner
  import opened AgentLoop

  /** What the world answers in one run: the port's commit of input drained before it, then turn by turn. */
  datatype RunWorld = RunWorld(accepts: bool, turns: seq<TurnWorld>)

  ghost predicate AnyFaulty(turns: seq<TurnWorld>) {
    exists k :: 0 <= k < |turns| && Faulty(turns[k])
  }

  ghost predicate FaultyRun(world: RunWorld) {
    !world.accepts || AnyFaulty(world.turns)
  }

  datatype Start = Prompt(messages: seq<Message>) | Resume(deferQueuedMessages: bool) | FromQueue(queue: QueueKind)

  /** After a run that did not throw, or none at all, the flags are as its way out left them. */
  ghost predicate CameOut(agent: Agent)
    reads agent`history, agent`aborted, agent`suppressQueuedMessageDrain
  {
    var stage := StageOf(agent.history);
    || stage == Free
    || (stage.Done? && (stage.exit == AbortExit ==> agent.aborted)
        && (stage.exit == EndDecision ==> agent.suppressQueuedMessageDrain))
  }

  /** Nothing is claimed, unless the run is only suspended; no claim is made once an `end` decision sealed the queues. */
  ghost predicate Accounted(agent: Agent, outcome: Outcome, l: Loop)
    reads agent, agent.steering, agent.followUp
  {
    && agent.Ledger(if outcome.Suspended? then l.pendingMessages else [],
                    if outcome.Suspended? then Claimed(l) else Steering)
    && (agent.sealed ==> agent.suppressQueuedMessageDrain)
    && StageOf(agent.history) != Broken
    && (outcome.Finished? ==> CameOut(agent))
  }

  const NO_LOOP := Loop([], [], true, None, false, false, [], Steering, [], false, false)

  /** `createLoopConfig`: the generations start out as those of the queues now. */
  method CreateLoopConfig(agent: Agent, skipInitialSteeringPoll: bool)
    modifies agent`skipInitialSteeringPoll, agent`steeringQueueGeneration, agent`followUpQueueGeneration
    ensures agent.skipInitialSteeringPoll == skipInitialSteeringPoll
    ensures agent.steeringQueueGeneration == agent.steering.clearGeneration
    ensures agent.followUpQueueGeneration == agent.followUp.clearGeneration
  {
    agent.skipInitialSteeringPoll := skipInitialSteeringPoll;
    agent.steeringQueueGeneration := agent.steering.clearGeneration;
    agent.followUpQueueGeneration := agent.followUp.clearGeneration;
  }

  /** A fresh log with `agent_start` and the first `turn_start`; the run's input asks for a provider request. */
  method StartRun(agent: Agent, ghost batch: seq<Entry>, ghost from: QueueKind)
    requires agent.Ledger(batch, from) && StageOf(agent.history) == Free
    modifies agent`nextPlace, agent`home, agent`calls, agent`discarded, agent`aborted,
             agent`suppressQueuedMessageDrain, agent.steering, agent.followUp, agent`events, agent`contextDiverged,
             agent`history
    ensures agent.Ledger(batch, from)
    ensures PhaseOf(agent.events) == InTurn && EndedMessages(agent.events) == []
    ensures !agent.contextDiverged
    ensures agent.history == old(agent.history) + [Began] && StageOf(agent.history) == Ready(true, false, false)
    ensures Extends(old(agent.Past()), agent.Past())
  {
    hide Agent.Ledger, Agent.Past, Extends, StageOf, PhaseOf, EndedMessages;
    ExtendsIsAnOrder();
    EmptyLog();
    agent.events := [];
    agent.contextDiverged := false;
    agent.Note(Began);
    agent.Emit(AgentStart, batch, from);
    agent.Emit(TurnStart, batch, from);
  }

  /** The run's opening and its first messages: prompts, or a batch already claimed. */
  method OpenRun(agent: Agent, prompts: seq<Message>, batch: seq<Entry>, ghost from: QueueKind,
                 skipInitialSteeringPoll: bool)
    returns (context: seq<Message>, newMessages: seq<Message>)
    requires agent.Ledger(batch, from) && agent.AllCommitted(batch, from)
    requires batch == [] ==> from == Steering
    requires StageOf(agent.history) == Free
    modifies agent`nextPlace, agent`home, agent`calls, agent`discarded, agent`aborted,
             agent`suppressQueuedMessageDrain, agent.steering, agent.followUp, agent`skipInitialSteeringPoll,
             agent`steeringQueueGeneration, agent`followUpQueueGeneration, agent`events, agent`transcript,
             agent`origins, agent`history, agent`contextDiverged
    ensures agent.Ledger([], Steering)
    ensures agent.history == old(agent.history) + [Began] && StageOf(agent.history) == Ready(true, false, false)
    ensures Mirrors(agent, context, newMessages, old(agent.transcript)) && PhaseOf(agent.events) == InTurn
    ensures newMessages == prompts + Messages(batch) && agent.skipInitialSteeringPoll == skipInitialSteeringPoll
    ensures Extends(old(agent.Past()), agent.Past())
  {
    hide Agent.Ledger, Agent.Past, Extends, StageOf, PhaseOf, EndedMessages, Messages;
    ExtendsIsAnOrder();
    context := agent.transcript;
    CreateLoopConfig(agent, skipInitialSteeringPoll);
    StartRun(agent, batch, from);
    context, newMessages := AdmitLocal(agent, context, [], prompts, batch, from, old(agent.transcript));
    context, newMessages := AdmitQueued(agent, context, newMessages, batch, from, old(agent.transcript));
  }

  /**
   * A run began at this place of the history, and its first messages (with what was there before) are in the transcript
   * ahead of every request made since.
   */
  ghost predicate RunStarted(history: seq<Mark>, transcript: seq<Message>, from: nat, first: seq<Message>) {
    && from < |history| && history[from] == Began && first <= transcript
    && forall k :: from <= k < |history| && history[k].Requested? ==> first <= history[k].transcript
  }

  lemma RunStartedStays(before: Record, after: Record, from: nat, first: seq<Message>)
    requires Extends(before, after) && RunStarted(before.history, before.transcript, from, first)
    ensures RunStarted(after.history, after.transcript, from, first)
  {}

  lemma JustStarted(history: seq<Mark>, transcript: seq<Message>, from: nat, first: seq<Message>)
    requires |history| == from + 1 && history[from] == Began && first == transcript
    ensures RunStarted(history, transcript, from, first)
  {}

  lemma FirstIsIn(history: seq<Mark>, transcript: seq<Message>, from: nat, first: seq<Message>)
    requires RunStarted(history, transcript, from, first)
    ensures first <= transcript
  {}

  /** What the run adds begins with its first messages. */
  lemma BeginsWith(agent: Agent, outcome: Outcome, l: Loop, base: seq<Message>, first: seq<Message>)
    requires Concluded(agent, outcome, l, base) && base + first <= agent.transcript && outcome != Threw
    ensures first <= l.newMessages
  {
    assert agent.transcript == base + l.newMessages;
    PrefixAfter(base, first, l.newMessages);
  }

  lemma PrefixAfter(base: seq<Message>, a: seq<Message>, b: seq<Message>)
    requires base + a <= base + b
    ensures a <= b
  {
    assert (base + a)[|base|..] == a && (base + b)[|base|..] == b;
    assert a == (base + b)[..|base| + |a|][|base|..] == b[..|a|];
  }

  /** `runAgentLoop` (for prompts, or for a batch already claimed and committed). */
  method RunAgentLoop(agent: Agent, prompts: seq<Message>, batch: seq<Entry>, ghost from: QueueKind,
                      skipInitialSteeringPoll: bool, turns: seq<TurnWorld>)
    returns (outcome: Outcome, l: Loop)
    requires agent.Ledger(batch, from) && agent.AllCommitted(batch, from) && !agent.sealed
    requires batch == [] ==> from == Steering
    requires StageOf(agent.history) == Free
    modifies agent, agent.steering, agent.followUp
    ensures Concluded(agent, outcome, l, old(agent.transcript)) && Accounted(agent, outcome, l)
    ensures Extends(old(agent.Past()), agent.Past())
    ensures RunStarted(agent.history, agent.transcript, |old(agent.history)|,
                       old(agent.transcript) + (prompts + Messages(batch)))
    ensures outcome != Threw ==> prompts + Messages(batch) <= l.newMessages
    ensures PollsFirst(skipInitialSteeringPoll, old(agent.history) + [Began], agent.history)
    ensures outcome == Threw ==> AnyFaulty(turns)
  {
    hide PollsFirst, Agent.Ledger, Agent.Past, Extends, StageOf, RunStarted, Messages;
    ExtendsIsAnOrder();
    var context, newMessages := OpenRun(agent, prompts, batch, from, skipInitialSteeringPoll);
    ghost var begun, first := agent.Past(), prompts + Messages(batch);
    agent.Flags();
    JustStarted(begun.history, begun.transcript, |old(agent.history)|, old(agent.transcript) + first);
    outcome, l := RunLoop(agent, context, newMessages, turns, old(agent.transcript));
    RunStartedStays(begun, agent.Past(), |old(agent.history)|, old(agent.transcript) + first);
    agent.Flags();
    if outcome != Threw {
      FirstIsIn(agent.history, agent.transcript, |old(agent.history)|, old(agent.transcript) + first);
      BeginsWith(agent, outcome, l, old(agent.transcript), first);
    }
  }

  predicate CanContinue(agent: Agent)
    reads agent`transcript
  {
    agent.transcript != [] && agent.transcript[|agent.transcript| - 1].role != Assistant
  }

  /** `runAgentLoopContinue`: refused, before any event, for an empty transcript or one ending with an assistant. */
  method RunAgentLoopContinue(agent: Agent, skipInitialSteeringPoll: bool, turns: seq<TurnWorld>)
    returns (outcome: Outcome, l: Loop)
    requires agent.Ledger([], Steering) && !agent.sealed && agent.events == []
    requires StageOf(agent.history) == Free
    modifies agent, agent.steering, agent.followUp
    ensures Concluded(agent, outcome, l, old(agent.transcript)) && Accounted(agent, outcome, l)
    ensures Extends(old(agent.Past()), agent.Past())
    ensures if old(CanContinue(agent))
            then RunStarted(agent.history, agent.transcript, |old(agent.history)|, old(agent.transcript))
                 && PollsFirst(skipInitialSteeringPoll, old(agent.history) + [Began], agent.history)
                 && (outcome == Threw ==> AnyFaulty(turns))
            else outcome == Threw && agent.events == [] && agent.history == old(agent.history)
                 && agent.transcript == old(agent.transcript)
  {
    hide PollsFirst, AnyFaulty, Agent.Ledger, Agent.Past, Extends, StageOf, RunStarted;
    ExtendsIsAnOrder();
    if agent.transcript == [] || agent.transcript[|agent.transcript| - 1].role == Assistant {
      return Threw, NO_LOOP;
    }
    assert agent.transcript + ([] + Messages([])) == agent.transcript;
    outcome, l := RunAgentLoop(agent, [], [], Steering, skipInitialSteeringPoll, turns);
  }

  /** A thrown run ends in the transcript as one failed assistant message. */
  method HandleRunFailure(agent: Agent)
    requires agent.Ledger([], Steering)
    requires StageOf(agent.history) != Broken
    modifies agent`nextPlace, agent`home, agent`calls, agent`discarded, agent`aborted,
             agent`suppressQueuedMessageDrain, agent.steering, agent.followUp, agent`events, agent`transcript,
             agent`origins, agent`history
    ensures agent.history == old(agent.history) + [Caught] && StageOf(agent.history) == Settled
    ensures agent.Ledger([], Steering)
    ensures |agent.transcript| == |old(agent.transcript)| + 1 && old(agent.transcript) <= agent.transcript
    ensures var last := agent.transcript[|agent.transcript| - 1];
      && last.role == Assistant && last.stopReason == (if old(agent.aborted) then Aborted else Error)
      && !last.refusal && last.toolCalls == [] && last.resolvedCalls == []
      && agent.events == old(agent.events) + [MessageStart(last), MessageEnd(last), TurnEnd(last, []), AgentEnd([last])]
    ensures !CanDrainQueuedMessagesAfterRun(agent)
    ensures old(agent.suppressQueuedMessageDrain) ==> agent.suppressQueuedMessageDrain
    ensures Extends(old(agent.Past()), agent.Past())
  {
    hide Agent.Ledger, Agent.Past, Extends, StageOf, NextPhase, PhaseOf, EndedMessages;
    ExtendsIsAnOrder();
    agent.Flags();
    agent.Note(Caught);
    var failure := Message(0, Assistant, if agent.aborted then Aborted else Error, false, [], [], 0);
    agent.Emit(MessageStart(failure), [], Steering);
    agent.EmitMessageEnd(failure, [], Steering);
    agent.Emit(TurnEnd(failure, []), [], Steering);
    agent.Emit(AgentEnd([failure]), [], Steering);
    agent.FlagsStay(old(agent.Past()));
  }

  /** Whether input still queued may start another run: not after a failed or aborted last message. */
  predicate CanDrainQueuedMessagesAfterRun(agent: Agent)
    reads agent`transcript
  {
    agent.transcript == []
    || (var last := agent.transcript[|agent.transcript| - 1];
        last.role != Assistant || (last.stopReason != Error && last.stopReason != Aborted))
  }

  predicate HasQueuedMessages(agent: Agent)
    reads agent.steering`messages, agent.followUp`messages
  {
    agent.steering.messages != [] || agent.followUp.messages != []
  }

  /**
   * One poll, of `queue`, came next and found something. It was committed with the port and a run started with it; or the
   * run threw before that and it is not lost.
   */
  ghost predicate Found(agent: Agent, history: seq<Mark>, transcript: seq<Message>, queue: QueueKind, outcome: Outcome)
    reads agent, agent.steering, agent.followUp
  {
    && history < agent.history
    && var poll := agent.history[|history|];
       && poll.Poll? && poll.queue == queue && poll.batch != []
       && ((agent.AllCommitted(poll.batch, queue)
            && RunStarted(agent.history, agent.transcript, |history| + 1, transcript + Messages(poll.batch))
            && PollsFirst(queue == Steering, history + [poll, Began], agent.history))
           || (outcome == Threw && |agent.history| == |history| + 1 && agent.NotLost(poll.batch, queue, [], Steering)))
  }

  /** Takes one queue's input, if it has any, and runs it; `ran` is false when there was nothing to take. */
  method RunQueue(agent: Agent, queue: QueueKind, world: RunWorld) returns (ran: bool, outcome: Outcome, l: Loop)
    requires agent.Ledger([], Steering) && !agent.sealed
    requires StageOf(agent.history) == Free
    modifies agent, agent.steering, agent.followUp
    ensures Accounted(agent, outcome, l) && Extends(old(agent.Past()), agent.Past())
    ensures ran ==> Found(agent, old(agent.history), old(agent.transcript), queue, outcome)
    ensures outcome == Threw ==> FaultyRun(world)
    ensures !ran ==> outcome == Finished(Natural) && !agent.sealed && agent.origins == old(agent.origins)
    ensures !ran ==> agent.transcript == old(agent.transcript)
    ensures !ran ==> StageOf(agent.history) == Free && agent.history == old(agent.history) + [Poll(queue, [])]
  {
    hide Agent.Ledger, Agent.Past, Extends, StageOf, Agent.AllCommitted, Agent.NotLost, Concluded, CommittedIn,
         RunStarted, Messages;
    ExtendsIsAnOrder();
    var threw, batch; ghost var claimed;
    threw, batch, claimed := agent.TakeQueuedMessages(queue, world.accepts);
    ghost var taken := agent.Past();
    if threw {
      return true, Threw, NO_LOOP;
    }
    if batch == [] {
      return false, Finished(Natural), NO_LOOP;
    }
    ran := true;
    CommitIsOnRecord(agent, batch, queue);
    outcome, l := RunAgentLoop(agent, [], batch, queue, queue == Steering, world.turns);
    StaysCommitted(agent, batch, queue, taken);
    assert [] + Messages(batch) == Messages(batch);
  }

  ghost predicate CommittedIn(past: Record, batch: seq<Entry>, queue: QueueKind, port: bool) {
    port ==> forall e :: e in batch ==> (queue, e.place) in past.committed
  }

  lemma CommitIsOnRecord(agent: Agent, batch: seq<Entry>, queue: QueueKind)
    requires agent.AllCommitted(batch, queue)
    ensures CommittedIn(agent.Past(), batch, queue, agent.hasPort) && agent.Past().history == agent.history
  {}

  /** A commit stays on record, and so does the poll before it. */
  lemma StaysCommitted(agent: Agent, batch: seq<Entry>, queue: QueueKind, taken: Record)
    requires Extends(taken, agent.Past()) && CommittedIn(taken, batch, queue, agent.hasPort)
    ensures agent.AllCommitted(batch, queue) && taken.history <= agent.history
  {}

  /** Steering first; follow-ups only when no steering was there, or it was gone when it was polled. */
  method RunQueuedMessagesAfterAgentEnd(agent: Agent, world: RunWorld)
    returns (outcome: Outcome, l: Loop, ghost took: Option<QueueKind>)
    requires agent.Ledger([], Steering) && !agent.sealed
    requires StageOf(agent.history) == Free
    modifies agent, agent.steering, agent.followUp
    ensures Accounted(agent, outcome, l) && Extends(old(agent.Past()), agent.Past())
    ensures took == Some(Steering) ==> Found(agent, old(agent.history), old(agent.transcript), Steering, outcome)
    ensures took == Some(FollowUp) ==>
      (old(agent.steering.messages) == [] && Found(agent, old(agent.history), old(agent.transcript), FollowUp, outcome))
      || Found(agent, old(agent.history) + [Poll(Steering, [])], old(agent.transcript), FollowUp, outcome)
    ensures outcome == Threw ==> FaultyRun(world)
    ensures took == None ==> outcome == Finished(Natural) && agent.origins == old(agent.origins)
    ensures old(HasQueuedMessages(agent)) ==>
      && |agent.history| > |old(agent.history)|
      && agent.history[|old(agent.history)|].Poll?
      && agent.history[|old(agent.history)|].queue == if old(agent.steering.messages) != [] then Steering else FollowUp
  {
    hide Agent.Ledger, Agent.Past, Extends, StageOf, Agent.AllCommitted, Agent.NotLost, RunStarted, Messages;
    ExtendsIsAnOrder();
    var ran := false;
    took := None;
    outcome, l := Finished(Natural), NO_LOOP;
    if agent.steering.messages != [] {
      ran, outcome, l := RunQueue(agent, Steering, world);
      if ran { took := Some(Steering); }
    }
    if !ran && agent.followUp.messages != [] {
      ran, outcome, l := RunQueue(agent, FollowUp, world);
      if ran { took := Some(FollowUp); }
    }
  }

  /** With nothing claimed, the last claim may be taken to be now. */
  ghost method ForgetClaims(agent: Agent)
    requires agent.Ledger([], Steering)
    modifies agent`claimedAt, agent`claimSince
    ensures agent.Ledger([], Steering) && agent.Past() == old(agent.Past()).(claim := |agent.calls|)
  {
    hide Agent.Placed, Counted, AllExplained;
    ClaimIsCounted(agent.calls, agent.steering.clearGeneration, agent.followUp.clearGeneration, agent.claimedAt,
                   agent.claimSince, agent.claimedFrom, agent.claimedFrom);
    agent.claimedAt, agent.claimSince := agent.Queue(agent.claimedFrom).clearGeneration, |agent.calls|;
  }

  /** The run's own flags start out unset; a clear before the run can win over no claim of its own. */
  method BeginRun(agent: Agent)
    requires agent.Ledger([], Steering)
    modifies agent`aborted, agent`suppressQueuedMessageDrain, agent`sealed, agent`events, agent`claimedAt,
             agent`claimSince, agent`history
    ensures agent.Ledger([], Steering) && !agent.sealed && agent.events == [] && agent.history == []
    ensures StageOf(agent.history) == Free
    ensures agent.Past() == Opened(old(agent.Past()))
  {
    hide Agent.Ledger, NextStage;
    ForgetClaims(agent);
    agent.aborted := false;
    agent.suppressQueuedMessageDrain := false;
    agent.sealed := false;
    agent.events := [];
    agent.history := [];
  }

  /** The record at the start of a run, which nothing aborts or suppresses yet. */
  ghost function Opened(past: Record): Record {
    past.(history := [], claim := |past.calls|, aborted := false, suppressed := false)
  }

  lemma CausesAreSince(agent: Agent, outcome: Outcome, l: Loop, past: Record)
    requires Settling(agent, outcome, l) && Extends(Opened(past), agent.Past())
    ensures CausedSince(past, agent.Past())
  {
    hide Agent.Placed, Counted, Explained, StageOf;
  }

  /** Whether another run is started for what is still queued. */
  ghost predicate MayDrain(agent: Agent)
    reads agent`aborted, agent`suppressQueuedMessageDrain, agent`transcript, agent.steering`messages,
          agent.followUp`messages
  {
    !agent.aborted && !agent.suppressQueuedMessageDrain && CanDrainQueuedMessagesAfterRun(agent)
    && HasQueuedMessages(agent)
  }

  ghost predicate FailedAtLast(transcript: seq<Message>) {
    && transcript != []
    && transcript[|transcript| - 1].role == Assistant && transcript[|transcript| - 1].stopReason in {Error, Aborted}
  }

  ghost function Consideration(agent: Agent): Mark
    reads agent`aborted, agent`suppressQueuedMessageDrain, agent`transcript, agent.steering`messages,
          agent.followUp`messages
  {
    Considered(agent.aborted, agent.suppressQueuedMessageDrain, FailedAtLast(agent.transcript),
               agent.steering.messages != [] || agent.followUp.messages != [])
  }

  /** The look at the flags, the last message and the queues that every run which did not throw ends with. */
  ghost method Consider(agent: Agent, outcome: Outcome, l: Loop)
    requires Accounted(agent, outcome, l)
    modifies agent`history
    ensures !outcome.Finished? ==> agent.history == old(agent.history)
    ensures Settling(agent, outcome, l)
    ensures Extends(old(agent.Past()), agent.Past())
  {
    hide Agent.Ledger, Agent.Past, Extends, StageOf;
    ExtendsIsAnOrder();
    if outcome.Finished? {
      agent.Note(Consideration(agent));
    }
  }

  ghost predicate Settling(agent: Agent, outcome: Outcome, l: Loop)
    reads agent, agent.steering, agent.followUp
  {
    && agent.Ledger(if outcome.Suspended? then l.pendingMessages else [],
                    if outcome.Suspended? then Claimed(l) else Steering)
    && (agent.sealed ==> agent.suppressQueuedMessageDrain)
    && StageOf(agent.history) != Broken
    && (outcome.Finished? ==>
          && agent.history != [] && agent.history[|agent.history| - 1] == Consideration(agent)
          && StageOf(agent.history) == if MayDrain(agent) then Free else Settled)
  }

  /**
   * How the requested run began: with its prompts; from the transcript as it is; or with what the first poll of its queue
   * found, unless the commit of that was rejected (then it threw) or there was nothing.
   */
  ghost predicate BeganWith(start: Start, base: seq<Message>, history: seq<Mark>, transcript: seq<Message>,
                            outcome: Outcome)
  {
    match start
    case Prompt(messages) => RunStarted(history, transcript, 0, base + messages)
    case Resume(_) =>
      (base != [] && base[|base| - 1].role != Assistant ==> RunStarted(history, transcript, 0, base))
    case FromQueue(queue) =>
      && history != [] && history[0].Poll? && history[0].queue == queue
      && (history[0].batch == [] || outcome == Threw
          || RunStarted(history, transcript, 1, base + Messages(history[0].batch)))
  }

  lemma BeganStays(start: Start, base: seq<Message>, before: Record, after: Record, first: Outcome, outcome: Outcome)
    requires Extends(before, after) && BeganWith(start, base, before.history, before.transcript, first)
    requires first == Threw ==> outcome == Threw
    ensures BeganWith(start, base, after.history, after.transcript, outcome)
  {
    hide Extends, RunStarted;
    ExtendsKeepsHistory(before, after);
    match start
    case Prompt(messages) => RunStartedStays(before, after, 0, base + messages);
    case Resume(_) =>
      if base != [] && base[|base| - 1].role != Assistant { RunStartedStays(before, after, 0, base); }
    case FromQueue(_) =>
      if before.history[0].batch != [] && first != Threw {
        RunStartedStays(before, after, 1, base + Messages(before.history[0].batch));
      }
  }

  lemma ExtendsKeepsHistory(before: Record, after: Record)
    requires Extends(before, after)
    ensures before.history <= after.history
  {}

  /** Whether the requested run polls steering first: a resumed one that defers does not, nor one started from steering. */
  ghost predicate PolledAs(start: Start, allowed: bool, history: seq<Mark>) {
    match start
    case Prompt(_) => PollsFirst(false, [Began], history)
    case Resume(deferQueuedMessages) => allowed ==> PollsFirst(deferQueuedMessages, [Began], history)
    case FromQueue(queue) =>
      |history| > 1 ==> PollsFirst(queue == Steering, [history[0], Began], history)
  }

  /** The run that was asked for. */
  method FirstRun(agent: Agent, start: Start, world: RunWorld) returns (outcome: Outcome, l: Loop)
    requires agent.Ledger([], Steering) && !agent.sealed && agent.events == [] && agent.history == []
    requires StageOf(agent.history) == Free
    modifies agent, agent.steering, agent.followUp
    ensures Accounted(agent, outcome, l) && Extends(old(agent.Past()), agent.Past())
    ensures BeganWith(start, old(agent.transcript), agent.history, agent.transcript, outcome)
    ensures PolledAs(start, old(CanContinue(agent)), agent.history)
    ensures outcome == Threw ==> FaultyRun(world) || (start.Resume? && !old(CanContinue(agent)))
    ensures start.Resume? && !old(CanContinue(agent)) ==>
      outcome == Threw && agent.history == [] && agent.transcript == old(agent.transcript)
  {
    hide Agent.Ledger, Agent.Past, Extends, StageOf, Concluded, RunStarted, Agent.NotLost, Messages;
    ExtendsIsAnOrder();
    match start {
      case Prompt(messages) =>
        NoMessages(messages);
        outcome, l := RunAgentLoop(agent, messages, [], Steering, false, world.turns);
      case Resume(deferred) =>
        outcome, l := RunAgentLoopContinue(agent, deferred, world.turns);
      case FromQueue(queue) =>
        var ran;
        ran, outcome, l := RunQueue(agent, queue, world);
    }
  }

  lemma NoMessages(messages: seq<Message>)
    ensures messages + Messages([]) == messages
  {}

  /** After a run that did not throw: runs for what is still queued, as long as nothing parks it. */
  method DrainQueues(agent: Agent, first: Outcome, firstLoop: Loop, worlds: seq<RunWorld>)
    returns (outcome: Outcome, l: Loop)
    requires Accounted(agent, first, firstLoop)
    modifies agent, agent.steering, agent.followUp
    ensures Settling(agent, outcome, l) && Extends(old(agent.Past()), agent.Past())
    ensures outcome.Finished? ==> StageOf(agent.history) == Settled
    ensures outcome.Finished? && (agent.steering.messages != [] || agent.followUp.messages != []) ==>
      agent.aborted || agent.suppressQueuedMessageDrain || FailedAtLast(agent.transcript)
    ensures outcome == Threw ==> first == Threw || exists k :: 0 <= k < |worlds| && FaultyRun(worlds[k])
    ensures !first.Finished? ==>
      outcome == first && agent.history == old(agent.history) && agent.transcript == old(agent.transcript)
  {
    hide Agent.Ledger, Agent.Past, Extends, StageOf, Concluded, Found;
    ExtendsIsAnOrder();
    outcome, l := first, firstLoop;
    Consider(agent, outcome, l);
    var run := 0;
    while outcome.Finished? && !agent.aborted && !agent.suppressQueuedMessageDrain
        && CanDrainQueuedMessagesAfterRun(agent) && HasQueuedMessages(agent)
      invariant 0 <= run <= |worlds|
      invariant Settling(agent, outcome, l) && Extends(old(agent.Past()), agent.Past())
      invariant outcome == Threw ==> first == Threw || exists k :: 0 <= k < |worlds| && FaultyRun(worlds[k])
      invariant !first.Finished? ==>
        outcome == first && agent.history == old(agent.history) && agent.transcript == old(agent.transcript)
      decreases |worlds| - run
    {
      if run == |worlds| {
        outcome, l := Suspended, NO_LOOP;
        break;
      }
      ghost var took;
      outcome, l, took := RunQueuedMessagesAfterAgentEnd(agent, worlds[run]);
      run := run + 1;
      Consider(agent, outcome, l);
    }
  }

  /**
   * `runWithLifecycle`: the requested run, then runs for what is still queued. When it settles nothing is claimed; and
   * unless it threw, queued input remains only behind an abort, a suppressed drain (an `end` decision suppresses it), or
   * a failed last message. `later` gives the worlds of those further runs; the run is suspended where they end.
   */
  method RunWithLifecycle(agent: Agent, start: Start, world: RunWorld, later: seq<RunWorld>)
    returns (outcome: Outcome, l: Loop)
    requires agent.Ledger([], Steering)
    modifies agent, agent.steering, agent.followUp
    ensures Settling(agent, outcome, l)
    ensures !outcome.Suspended? ==> StageOf(agent.history) == Settled && EveryContinueIsServed(agent.history)
    ensures WhatStopsIsFinal(agent.history)
    ensures BeganWith(start, old(agent.transcript), agent.history, agent.transcript, outcome)
    ensures var before := old(agent.transcript);
      start.Resume? && (before == [] || before[|before| - 1].role == Assistant) ==>
        outcome == Threw && agent.history == [Caught] && |agent.transcript| == |before| + 1
    ensures Extends(Opened(old(agent.Past())), agent.Past()) && CausedSince(old(agent.Past()), agent.Past())
    ensures outcome == Threw ==>
      FaultyRun(world) || (start.Resume? && !old(CanContinue(agent))) || exists k :: 0 <= k < |later| && FaultyRun(later[k])
    ensures outcome.Threw? ==>
      agent.transcript != [] && agent.transcript[|agent.transcript| - 1].role == Assistant
      && agent.transcript[|agent.transcript| - 1].stopReason in {Aborted, Error}
    ensures outcome.Finished? && (agent.steering.messages != [] || agent.followUp.messages != []) ==>
      agent.aborted || agent.suppressQueuedMessageDrain || FailedAtLast(agent.transcript)
  {
    hide Agent.Ledger, Agent.Past, Extends, StageOf, CausedSince, Found, Opened, Concluded, BeganWith,
         WhatStopsIsFinal, EveryContinueIsServed;
    ExtendsIsAnOrder();
    BeginRun(agent);
    outcome, l := FirstRun(agent, start, world);
    ghost var first, firstRun := agent.Past(), outcome;
    agent.Flags();
    outcome, l := DrainQueues(agent, outcome, l, later);
    if outcome.Threw? {
      HandleRunFailure(agent);
    }
    agent.Flags();
    ServedWhenSettled(agent.history);
    BeganStays(start, old(agent.transcript), first, agent.Past(), firstRun, outcome);
    CausesAreSince(agent, outcome, l, old(agent.Past()));
  }
}
