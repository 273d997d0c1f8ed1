/**
 * What drives a run, as it happens: polls of the queues, provider requests and their answers, decisions of the
 * `finishTurn` hook, looks at the abort flag, and the ways out (packages/agent/src/agent-loop.ts:218-478 and
 * packages/agent/src/agent.ts:865-937). `NextStage` says in which order these may come; the lemmas say what follows from
 * that order for whole histories.
 */
module AgentHistory {
  import opened AgentMessages
  import opened AgentQueues

  datatype Exit = Natural | HardStop | AbortExit | EndDecision

  datatype Decision = NoDecision | Continue | End

  datatype Mark =
    | Poll(queue: QueueKind, batch: seq<Entry>)
    | Began
    | Took(taken: seq<Entry>)
    /** What was sent, beside the transcript at that moment; `diverged` when a hook or a restarted stream interfered. */
    | Requested(context: seq<Message>, transcript: seq<Message>, diverged: bool)
    /** The answer, and the results the provider delivered with it. */
    | Answered(answer: Message, delivered: seq<Message>)
    | ToolsRan(results: seq<Message>, more: bool)
    /** What the hook was shown, and what it decided. */
    | Decided(about: Message, shown: seq<Message>, decision: Decision)
    | Looked(aborted: bool)
    | Left(exit: Exit)
    /** Whether queued input may start another run: the flags, a failed last message, and whether there is any. */
    | Considered(abort: bool, suppressed: bool, failed: bool, waiting: bool)
    | Caught

  /**
   * `due` says that something still asks for a provider request, `ran` that the answer's tool calls were run, `results` what
   * they and the provider gave. A queue is dry when its last poll since the turn ended found it empty.
   */
  datatype Stage =
    | Free
    | Ready(due: bool, steeringDry: bool, followUpDry: bool)
    | Asked
    | Replied(reply: Message, results: seq<Message>, ran: bool, due: bool)
    | Over(reply: Message, due: bool, said: Decision)
    | Between(due: bool, steeringDry: bool, followUpDry: bool)
    | Leaving(exit: Exit)
    | Done(exit: Exit)
    | Settled
    | Broken

  predicate MayPoll(stage: Stage) {
    stage == Free || stage.Ready? || stage.Between?
  }

  predicate MayAsk(stage: Stage) {
    stage.Ready? && stage.due
  }

  predicate SteeringDry(stage: Stage) {
    (stage.Ready? || stage.Between?) && stage.steeringDry
  }

  predicate BothDry(stage: Stage) {
    (stage.Ready? || stage.Between?) && stage.steeringDry && stage.followUpDry
  }

  /** Inside a run, follow-ups are polled only when steering was just found empty. */
  predicate MayPollNow(stage: Stage, queue: QueueKind) {
    MayPoll(stage) && (stage != Free && queue == FollowUp ==> stage.steeringDry)
  }

  function AfterPoll(stage: Stage, queue: QueueKind, batch: seq<Entry>): Stage {
    if stage.Ready? || stage.Between? then
      if queue == Steering then stage.(steeringDry := batch == []) else stage.(followUpDry := batch == [])
    else stage
  }

  /** A `continue` decision asks for a request, unless the answer it is about is terminal. */
  predicate AsksOn(about: Message, decision: Decision) {
    decision == Continue && !ShouldTerminateAssistantTurn(about)
  }

  /** One result for each call, in order. */
  predicate AnswersEach(results: seq<Message>, calls: seq<int>) {
    |results| == |calls| && forall i :: 0 <= i < |calls| ==> results[i].toolCallId == calls[i]
  }

  /** Tools run once for an answer that is not terminal and has calls; those of a truncated answer are all refused. */
  predicate MayRun(stage: Stage, results: seq<Message>, more: bool) {
    && stage.Replied? && !stage.ran && !ShouldTerminateAssistantTurn(stage.reply) && stage.reply.toolCalls != []
    && (stage.reply.stopReason == Length ==> more && AnswersEach(results, stage.reply.toolCalls))
  }

  function NextStage(stage: Stage, mark: Mark): Stage {
    if stage == Broken then Broken
    else
      match mark
      case Poll(queue, batch) => if MayPollNow(stage, queue) then AfterPoll(stage, queue, batch) else Broken
      case Began => if stage == Free then Ready(true, false, false) else Broken
      case Took(taken) => if stage.Ready? && taken != [] then Ready(true, false, false) else Broken
      case Requested(context, transcript, diverged) =>
        if MayAsk(stage) && (diverged || context == transcript) then Asked else Broken
      case Answered(answer, delivered) => if stage == Asked then Replied(answer, delivered, false, false) else Broken
      case ToolsRan(results, more) =>
        if MayRun(stage, results, more) then Replied(stage.reply, stage.results + results, true, more) else Broken
      case Decided(about, shown, decision) =>
        if stage.Replied? && about == stage.reply && shown == stage.results
          && (stage.ran || about.toolCalls == [] || ShouldTerminateAssistantTurn(about))
        then Over(about, stage.due || AsksOn(about, decision), decision)
        else Broken
      case Looked(aborted) =>
        if stage.Over? && !ShouldTerminateAssistantTurn(stage.reply) then
          if aborted then Leaving(AbortExit) else if stage.said == End then Leaving(EndDecision) else Between(stage.due, false, false)
        else if stage.Between? then
          if aborted then Leaving(AbortExit) else Ready(stage.due, stage.steeringDry, stage.followUpDry)
        else Broken
      case Left(exit) =>
        if (stage == Leaving(exit) && (exit == AbortExit || exit == EndDecision))
          || (exit == HardStop && stage.Over? && ShouldTerminateAssistantTurn(stage.reply))
          || (exit == Natural && BothDry(stage) && !stage.due)
        then Done(exit) else Broken
      case Considered(abort, suppressed, failed, waiting) =>
        if (stage == Done(AbortExit) && !abort) || (stage == Done(EndDecision) && !suppressed) then Broken
        else if stage == Free || stage.Done? then
          if !abort && !suppressed && !failed && waiting then Free else Settled
        else Broken
      case Caught => Settled
  }

  function StageOf(history: seq<Mark>): Stage {
    if history == [] then Free
    else NextStage(StageOf(history[..|history| - 1]), history[|history| - 1])
  }

  lemma HistoryGrows(history: seq<Mark>, mark: Mark)
    ensures StageOf(history + [mark]) == NextStage(StageOf(history), mark)
  {
    assert (history + [mark])[..|history|] == history;
  }

  // One lemma for each step of the loop.

  lemma Polls(stage: Stage, queue: QueueKind, batch: seq<Entry>)
    requires MayPollNow(stage, queue)
    ensures NextStage(stage, Poll(queue, batch)) == AfterPoll(stage, queue, batch)
  {}

  lemma Asking(stage: Stage, context: seq<Message>, transcript: seq<Message>, diverged: bool)
    requires MayAsk(stage) && (diverged || context == transcript)
    ensures NextStage(stage, Requested(context, transcript, diverged)) == Asked
  {}

  lemma Answers(answer: Message, delivered: seq<Message>)
    ensures NextStage(Asked, Answered(answer, delivered)) == Replied(answer, delivered, false, false)
  {}

  lemma TakesInput(stage: Stage, taken: seq<Entry>)
    requires stage.Ready? && taken != []
    ensures NextStage(stage, Took(taken)) == Ready(true, false, false)
  {}

  lemma RunsTools(stage: Stage, results: seq<Message>, more: bool)
    requires MayRun(stage, results, more)
    ensures NextStage(stage, ToolsRan(results, more)) == Replied(stage.reply, stage.results + results, true, more)
  {}

  lemma Decides(stage: Stage, decision: Decision)
    requires stage.Replied? && (stage.ran || stage.reply.toolCalls == [] || ShouldTerminateAssistantTurn(stage.reply))
    ensures NextStage(stage, Decided(stage.reply, stage.results, decision))
         == Over(stage.reply, stage.due || AsksOn(stage.reply, decision), decision)
  {}

  lemma LooksAfterTurn(stage: Stage, aborted: bool)
    requires stage.Over? && !ShouldTerminateAssistantTurn(stage.reply)
    ensures NextStage(stage, Looked(aborted)) ==
      if aborted then Leaving(AbortExit)
      else if stage.said == End then Leaving(EndDecision)
      else Between(stage.due, false, false)
  {}

  lemma LooksAgain(stage: Stage, aborted: bool)
    requires stage.Between?
    ensures NextStage(stage, Looked(aborted)) ==
      if aborted then Leaving(AbortExit) else Ready(stage.due, stage.steeringDry, stage.followUpDry)
  {}

  lemma Leaves(exit: Exit)
    requires exit == AbortExit || exit == EndDecision
    ensures NextStage(Leaving(exit), Left(exit)) == Done(exit)
  {}

  lemma LeavesNaturally(stage: Stage)
    requires BothDry(stage) && !stage.due
    ensures NextStage(stage, Left(Natural)) == Done(Natural)
  {}

  lemma StopsHard(stage: Stage)
    requires stage.Over? && ShouldTerminateAssistantTurn(stage.reply)
    ensures NextStage(stage, Left(HardStop)) == Done(HardStop)
  {}

  // ---------------------------------------------------------------- what a history in this order means

  /** What asks for a provider request: a run's own input, queued input, tool results, a `continue` decision. */
  predicate Asks(mark: Mark) {
    || mark.Began?
    || mark.Took?
    || (mark.ToolsRan? && mark.more)
    || (mark.Decided? && AsksOn(mark.about, mark.decision))
  }

  /** `i` asks for a request, and none was made since, up to `end`. */
  ghost predicate AskedSince(history: seq<Mark>, i: int, end: int)
    requires end <= |history|
  {
    0 <= i < end && Asks(history[i]) && forall k :: i < k < end ==> !history[k].Requested?
  }

  predicate IsDue(stage: Stage) {
    (stage.Ready? || stage.Replied? || stage.Over? || stage.Between?) && stage.due
  }

  lemma {:induction false} DueIsAskedFor(history: seq<Mark>)
    requires IsDue(StageOf(history))
    ensures exists i :: AskedSince(history, i, |history|)
  {
    var n := |history| - 1;
    var before := history[..n];
    if Asks(history[n]) {
      assert AskedSince(history, n, n + 1);
    } else {
      DueIsAskedFor(before);
      var i :| AskedSince(before, i, n);
      assert history[i] == before[i] && forall k :: i < k < n ==> history[k] == before[k];
      assert AskedSince(history, i, n + 1);
    }
  }

  /**
   * No provider request is made unasked, and nothing that asks serves two: since the request before, there was input, a
   * tool batch that goes on, or a `continue` decision.
   */
  lemma {:induction false} RequestsAreAskedFor(history: seq<Mark>, j: nat)
    requires StageOf(history) != Broken && j < |history| && history[j].Requested?
    ensures exists i :: AskedSince(history, i, j)
    decreases |history|
  {
    var n := |history| - 1;
    var before := history[..n];
    if j == n {
      DueIsAskedFor(before);
    } else {
      RequestsAreAskedFor(before, j);
    }
    var i :| AskedSince(before, i, j);
    assert AskedSince(history, i, j);
  }

  /** Of two requests the later one was asked for after the earlier one: a `continue` decision buys one turn, not two. */
  lemma EachRequestIsAskedForAnew(history: seq<Mark>, j: nat, k: nat)
    requires StageOf(history) != Broken && j < k < |history| && history[j].Requested? && history[k].Requested?
    ensures exists i :: j < i < k && Asks(history[i])
  {
    hide StageOf, NextStage;
    RequestsAreAskedFor(history, k);
    var i :| AskedSince(history, i, k);
    assert j < i < k;
  }

  /** A request made after position `i`. */
  ghost predicate RequestedAfter(history: seq<Mark>, i: int) {
    exists k :: i < k < |history| && 0 <= k && history[k].Requested?
  }

  /** After position `i` the run left for an abort, or a throw ended it. */
  ghost predicate CutShort(history: seq<Mark>, i: int) {
    exists k :: i < k < |history| && 0 <= k && (history[k] == Left(AbortExit) || history[k] == Caught)
  }

  /** The run is still going towards its next request, or leaving for an abort. */
  predicate OnItsWay(stage: Stage) {
    || ((stage.Ready? || stage.Between?) && stage.due)
    || (stage.Over? && stage.due && AsksOn(stage.reply, stage.said))
    || stage == Leaving(AbortExit)
  }

  lemma StaysOnItsWay(stage: Stage, mark: Mark)
    requires OnItsWay(stage) && NextStage(stage, mark) != Broken && !mark.Requested?
    ensures OnItsWay(NextStage(stage, mark))
         || (mark == Left(AbortExit) && NextStage(stage, mark) == Done(AbortExit))
         || (mark == Caught && NextStage(stage, mark) == Settled)
  {}

  /**
   * A `continue` decision about an answer that is not terminal is followed by another provider request, unless the run is
   * cut short by an abort or a throw; otherwise it has not ended.
   */
  lemma {:induction false} ContinueIsFollowed(history: seq<Mark>, i: nat)
    requires StageOf(history) != Broken && i < |history|
    requires history[i].Decided? && AsksOn(history[i].about, history[i].decision)
    ensures RequestedAfter(history, i) || CutShort(history, i) || OnItsWay(StageOf(history))
    ensures RequestedAfter(history, i) || OnItsWay(StageOf(history))
         || StageOf(history) == Done(AbortExit) || StageOf(history) == Settled
    decreases |history|
  {
    hide AsksOn;
    var n := |history| - 1;
    var before := history[..n];
    if i < n {
      hide NextStage;
      BrokenStaysBroken(before, history[n]);
      ContinueIsFollowed(before, i);
      LaterToo(history, i);
      if OnItsWay(StageOf(before)) && !history[n].Requested? {
        StaysOnItsWay(StageOf(before), history[n]);
      } else if !RequestedAfter(history, i) {
        AfterAborts(StageOf(before), history[n]);
      }
    }
  }

  /** Every `continue` decision about an answer that is not terminal was followed by another request. */
  ghost predicate EveryContinueIsFollowed(history: seq<Mark>) {
    forall i :: 0 <= i < |history| && history[i].Decided? && AsksOn(history[i].about, history[i].decision) ==>
      RequestedAfter(history, i)
  }

  /** So it is whenever a run ended, and not by an abort. */
  lemma {:induction false} DoneMeansFollowed(history: seq<Mark>, exit: Exit)
    requires StageOf(history) == Done(exit) && exit != AbortExit
    ensures EveryContinueIsFollowed(history)
  {
    forall i | 0 <= i < |history| && history[i].Decided? && AsksOn(history[i].about, history[i].decision)
      ensures RequestedAfter(history, i)
    {
      ContinueIsFollowed(history, i);
    }
  }

  lemma BrokenStaysBroken(before: seq<Mark>, mark: Mark)
    ensures StageOf(before) == Broken ==> NextStage(StageOf(before), mark) == Broken
  {}

  lemma AfterAborts(stage: Stage, mark: Mark)
    requires stage == Done(AbortExit) || stage == Settled
    ensures NextStage(stage, mark) == Settled || NextStage(stage, mark) == Broken
  {}

  lemma LaterToo(history: seq<Mark>, i: nat)
    requires i < |history| - 1
    ensures RequestedAfter(history[..|history| - 1], i) ==> RequestedAfter(history, i)
    ensures CutShort(history[..|history| - 1], i) ==> CutShort(history, i)
    ensures var last := history[|history| - 1];
      && (last.Requested? ==> RequestedAfter(history, i))
      && (last == Left(AbortExit) || last == Caught ==> CutShort(history, i))
  {
    var before := history[..|history| - 1];
    assert forall k :: 0 <= k < |before| ==> history[k] == before[k];
  }

  // ---------------------------------------------------------------- every answer is acted on

  /** Every mark of a history in order comes at a stage that allows it. */
  lemma {:induction false} EachMarkIsAllowed(history: seq<Mark>, n: nat)
    requires StageOf(history) != Broken && n < |history|
    ensures StageOf(history[..n]) != Broken && StageOf(history[..n + 1]) != Broken
    ensures StageOf(history[..n + 1]) == NextStage(StageOf(history[..n]), history[n])
    decreases |history|
  {
    hide NextStage;
    var last := |history| - 1;
    BrokenStaysBroken(history[..last], history[last]);
    assert history[..n + 1][..n] == history[..n];
    if n < last {
      EachMarkIsAllowed(history[..last], n);
      assert history[..last][..n] == history[..n] && history[..last][..n + 1] == history[..n + 1];
    } else {
      assert history[..n + 1] == history;
    }
  }

  /**
   * What comes right after an answer: the hook for a terminal one, the run of its tool calls for one that has any, and the
   * hook, without any tool run, for one that has none; unless the run threw.
   */
  lemma {:induction false} AnswersAreActedOn(history: seq<Mark>, i: nat)
    requires StageOf(history) != Broken && i + 1 < |history| && history[i].Answered?
    ensures var answer, next := history[i].answer, history[i + 1];
      var terminal := answer.stopReason == Error || answer.stopReason == Aborted
                      || (answer.stopReason == ToolUse && answer.refusal);
      || next == Caught
      || (if answer.toolCalls != [] && !terminal then next.ToolsRan? else next.Decided? && next.about == answer)
    ensures history[i].answer.stopReason == Length && history[i + 1].ToolsRan? ==>
      var calls, results := history[i].answer.toolCalls, history[i + 1].results;
      && history[i + 1].more && |results| == |calls|
      && forall c :: 0 <= c < |calls| ==> results[c].toolCallId == calls[c]
  {
    EachMarkIsAllowed(history, i);
    EachMarkIsAllowed(history, i + 1);
  }

  /**
   * The hook decides about the last answer, right after it when it has no calls or is terminal, else right after its one
   * run of tools; it is shown the results the provider delivered and then those of the tools.
   */
  lemma {:induction false} ToolsRunBeforeTheDecision(history: seq<Mark>, j: nat)
    requires StageOf(history) != Broken && j < |history| && history[j].Decided?
    ensures j >= 1
    ensures var about := history[j].about;
      if about.toolCalls != [] && !ShouldTerminateAssistantTurn(about)
      then j >= 2 && history[j - 1].ToolsRan? && history[j - 2].Answered? && history[j - 2].answer == about
      else history[j - 1].Answered? && history[j - 1].answer == about
    ensures var about, shown := history[j].about, history[j].shown;
      shown == if about.toolCalls != [] && !ShouldTerminateAssistantTurn(about)
               then history[j - 2].delivered + history[j - 1].results else history[j - 1].delivered
  {
    hide NextStage, StageOf;
    EachMarkIsAllowed(history, j);
    StartsFree(history, j);
    DecisionNeedsReply(StageOf(history[..j]), history[j]);
    EachMarkIsAllowed(history, j - 1);
    StartsFree(history, j - 1);
    ReplyComesFrom(StageOf(history[..j - 1]), history[j - 1]);
    if history[j - 1].ToolsRan? {
      EachMarkIsAllowed(history, j - 2);
      ReplyComesFrom(StageOf(history[..j - 2]), history[j - 2]);
    }
  }

  lemma DecisionNeedsReply(stage: Stage, mark: Mark)
    requires mark.Decided? && NextStage(stage, mark) != Broken
    ensures stage.Replied? && stage.reply == mark.about && stage.results == mark.shown
    ensures stage.ran || mark.about.toolCalls == [] || ShouldTerminateAssistantTurn(mark.about)
  {}

  lemma ReplyComesFrom(stage: Stage, mark: Mark)
    requires NextStage(stage, mark).Replied?
    ensures var reply := NextStage(stage, mark).reply;
      || (mark.Answered? && mark.answer == reply && stage == Asked && !NextStage(stage, mark).ran
          && NextStage(stage, mark).results == mark.delivered)
      || (mark.ToolsRan? && stage.Replied? && stage.reply == reply && !stage.ran && NextStage(stage, mark).ran
          && reply.toolCalls != [] && !ShouldTerminateAssistantTurn(reply)
          && NextStage(stage, mark).results == stage.results + mark.results)
  {}

  lemma StartsFree(history: seq<Mark>, n: nat)
    requires n <= |history|
    ensures n == 0 ==> StageOf(history[..n]) == Free
  {}

  /** A throw, or a run found parked, ends the history but for further throws. */
  lemma {:induction false} ThrownIsSettled(history: seq<Mark>, i: nat)
    requires StageOf(history) != Broken && i < |history| && history[i] == Caught
    ensures StageOf(history) == Settled
    decreases |history|
  {
    var n := |history| - 1;
    if i < n { ThrownIsSettled(history[..n], i); }
  }

  ghost predicate EveryCallIsRun(history: seq<Mark>) {
    forall i :: 0 <= i < |history| && history[i].Answered? && history[i].answer.toolCalls != []
                && !ShouldTerminateAssistantTurn(history[i].answer) ==>
      i + 1 < |history| && history[i + 1].ToolsRan?
  }

  /** In the history of a run that ended, every call of every answer that is not terminal was run. */
  lemma {:induction false} DoneMeansRun(history: seq<Mark>)
    requires StageOf(history).Done?
    ensures EveryCallIsRun(history)
  {
    assert history[..|history|] == history;
    forall i | 0 <= i < |history| && history[i].Answered? && history[i].answer.toolCalls != []
               && !ShouldTerminateAssistantTurn(history[i].answer)
      ensures i + 1 < |history| && history[i + 1].ToolsRan?
    {
      EachMarkIsAllowed(history, i);
      if i + 1 < |history| {
        AnswersAreActedOn(history, i);
        if history[i + 1] == Caught { ThrownIsSettled(history, i + 1); }
      }
    }
  }

  // ---------------------------------------------------------------- every ask is answered

  /** After position `i` the run left on an `end` decision. */
  ghost predicate EndedAfter(history: seq<Mark>, i: int) {
    exists k :: i < k < |history| && 0 <= k && history[k] == Left(EndDecision)
  }

  predicate StillDue(stage: Stage) {
    IsDue(stage) || stage == Leaving(AbortExit) || stage == Leaving(EndDecision)
  }

  predicate StaysOpen(stage: Stage) {
    && StillDue(stage)
    && (stage.Replied? ==> stage.ran && !ShouldTerminateAssistantTurn(stage.reply))
    && (stage.Over? ==> !ShouldTerminateAssistantTurn(stage.reply))
  }

  lemma AskOpens(stage: Stage, mark: Mark)
    requires Asks(mark) && NextStage(stage, mark) != Broken
    ensures StaysOpen(NextStage(stage, mark))
  {}

  lemma StaysDue(stage: Stage, mark: Mark)
    requires StaysOpen(stage) && NextStage(stage, mark) != Broken && !mark.Requested?
    ensures StaysOpen(NextStage(stage, mark)) || mark == Left(AbortExit) || mark == Left(EndDecision) || mark == Caught
  {}

  /**
   * Whatever asks for a request (the run's input, admitted queue input, results of tools, a `continue` decision) is
   * followed by one, unless the run is left for an abort or an `end` decision, or a throw, or is still on its way.
   */
  lemma {:induction false} AskIsFollowed(history: seq<Mark>, i: nat)
    requires StageOf(history) != Broken && i < |history| && Asks(history[i])
    ensures RequestedAfter(history, i) || CutShort(history, i) || EndedAfter(history, i) || StaysOpen(StageOf(history))
    decreases |history|
  {
    hide NextStage, Asks, StaysOpen;
    var n := |history| - 1;
    var before := history[..n];
    BrokenStaysBroken(before, history[n]);
    if i == n {
      AskOpens(StageOf(before), history[n]);
    } else {
      AskIsFollowed(before, i);
      LaterToo(history, i);
      EndedToo(history, i);
      if StaysOpen(StageOf(before)) && !history[n].Requested? {
        StaysDue(StageOf(before), history[n]);
      }
    }
  }

  ghost predicate EveryAskIsFollowed(history: seq<Mark>) {
    forall i :: 0 <= i < |history| && Asks(history[i]) ==> RequestedAfter(history, i)
  }

  /** When a run ended naturally or by a hard stop, no input, tool result or `continue` is without a request after it. */
  lemma {:induction false} NothingIsLeftUnasked(history: seq<Mark>)
    requires StageOf(history) == Done(Natural) || StageOf(history) == Done(HardStop)
    ensures EveryAskIsFollowed(history)
  {
    forall i | 0 <= i < |history| && Asks(history[i])
      ensures RequestedAfter(history, i)
    {
      AskIsFollowed(history, i);
      hide NextStage, StageOf, Asks;
      if CutShort(history, i) {
        var k :| i < k < |history| && (history[k] == Left(AbortExit) || history[k] == Caught);
        StoppedStaysStopped(history, k);
      }
      if EndedAfter(history, i) {
        var k :| i < k < |history| && history[k] == Left(EndDecision);
        StoppedStaysStopped(history, k);
      }
    }
  }

  lemma EndedToo(history: seq<Mark>, i: nat)
    requires i < |history| - 1
    ensures EndedAfter(history[..|history| - 1], i) ==> EndedAfter(history, i)
    ensures history[|history| - 1] == Left(EndDecision) ==> EndedAfter(history, i)
  {
    var before := history[..|history| - 1];
    assert forall k :: 0 <= k < |before| ==> history[k] == before[k];
  }

  /** The marks of a loop at work. */
  predicate AtWork(mark: Mark) {
    mark.Poll? || mark.Began? || mark.Took? || mark.Requested? || mark.Answered? || mark.ToolsRan? || mark.Decided?
  }

  /** Nothing of a run happens after position `i`. */
  ghost predicate NothingAfter(history: seq<Mark>, i: int) {
    forall k :: i < k < |history| && 0 <= k ==> !AtWork(history[k])
  }

  predicate Finishing(stage: Stage) {
    stage == Leaving(AbortExit) || stage == Leaving(EndDecision) || stage == Done(AbortExit) || stage == Done(EndDecision)
    || stage == Settled
  }

  /** What ends all work: an abort seen, an `end` decision heeded, and input that stays parked after a run. */
  predicate Stops(mark: Mark) {
    || mark == Looked(true)
    || mark == Left(AbortExit) || mark == Left(EndDecision)
    || (mark.Considered? && (mark.abort || mark.suppressed || mark.failed || !mark.waiting))
    || mark == Caught
  }

  lemma StopStops(stage: Stage, mark: Mark)
    requires NextStage(stage, mark) != Broken
    ensures Stops(mark) ==> Finishing(NextStage(stage, mark))
    ensures Finishing(stage) ==> Finishing(NextStage(stage, mark)) && !AtWork(mark)
  {}

  /**
   * After an abort was seen, or a run left by abort or by an `end` decision, no queue is polled, no request made and no run
   * begun; nor after input was found parked behind an abort, a suppressed drain or a failed last message.
   */
  lemma {:induction false} StoppedStaysStopped(history: seq<Mark>, i: nat)
    requires StageOf(history) != Broken && i < |history| && Stops(history[i])
    ensures NothingAfter(history, i) && Finishing(StageOf(history))
    decreases |history|
  {
    hide NextStage, Stops, Finishing, AtWork;
    var n := |history| - 1;
    BrokenStaysBroken(history[..n], history[n]);
    StopStops(StageOf(history[..n]), history[n]);
    var before := history[..n];
    if i < n {
      StoppedStaysStopped(before, i);
      assert forall k :: i < k < n ==> history[k] == before[k];
    }
  }

  /** The last answer before `end`. */
  ghost predicate LastAnswer(history: seq<Mark>, i: int, end: int)
    requires end <= |history|
  {
    0 <= i < end && history[i].Answered? && forall k :: i < k < end ==> !history[k].Answered?
  }

  lemma RepliesStay(stage: Stage, mark: Mark)
    requires NextStage(stage, mark).Replied? || NextStage(stage, mark).Over?
    ensures if mark.Answered? then NextStage(stage, mark).reply == mark.answer
            else (stage.Replied? || stage.Over?) && stage.reply == NextStage(stage, mark).reply
  {}

  lemma {:induction false} ReplyIsLastAnswer(history: seq<Mark>)
    requires StageOf(history).Replied? || StageOf(history).Over?
    ensures exists i :: LastAnswer(history, i, |history|) && history[i].answer == StageOf(history).reply
  {
    hide NextStage;
    var n := |history| - 1;
    RepliesStay(StageOf(history[..n]), history[n]);
    var before := history[..n];
    if history[n].Answered? {
      assert LastAnswer(history, n, n + 1);
    } else {
      ReplyIsLastAnswer(before);
      var i :| LastAnswer(before, i, n) && before[i].answer == StageOf(before).reply;
      assert history[i] == before[i] && forall k :: i < k < n ==> history[k] == before[k];
      assert LastAnswer(history, i, n + 1);
    }
  }

  lemma HardStopNeeds(stage: Stage)
    requires NextStage(stage, Left(HardStop)) != Broken
    ensures stage.Over? && ShouldTerminateAssistantTurn(stage.reply)
  {}

  /** A run leaves by a hard stop only for a terminal answer, the last one it got. */
  lemma {:induction false} HardStopsAreForTerminalAnswers(history: seq<Mark>, j: nat)
    requires StageOf(history) != Broken && j < |history| && history[j] == Left(HardStop)
    ensures exists i :: LastAnswer(history, i, j) && ShouldTerminateAssistantTurn(history[i].answer)
    decreases |history|
  {
    hide NextStage;
    var n := |history| - 1;
    BrokenStaysBroken(history[..n], history[n]);
    var before := history[..n];
    if j == n {
      HardStopNeeds(StageOf(before));
      ReplyIsLastAnswer(before);
    } else {
      HardStopsAreForTerminalAnswers(before, j);
    }
    var i :| LastAnswer(before, i, j) && ShouldTerminateAssistantTurn(before[i].answer);
    assert LastAnswer(history, i, j);
  }

  /** Between the answer at `i` and `end` the run did nothing but ask the hook, once or not at all. */
  ghost predicate OnlyAsksTheHook(history: seq<Mark>, i: int, end: int)
    requires 0 <= i <= end <= |history|
  {
    forall k :: i < k < end ==> history[k].Decided?
  }

  /**
   * After a terminal answer the run does no more than ask the hook: no tools, no poll, no other request. The next thing is
   * the hard stop, or the throw that ended it.
   */
  lemma {:induction false} TerminalAnswersStop(history: seq<Mark>, i: nat) returns (j: nat)
    requires StageOf(history) != Broken && i < |history|
    requires history[i].Answered? && ShouldTerminateAssistantTurn(history[i].answer)
    ensures i < j <= |history| && OnlyAsksTheHook(history, i, j)
    ensures j < |history| ==> history[j] == Left(HardStop) || history[j] == Caught
    ensures j == |history| ==>
      (StageOf(history).Replied? || StageOf(history).Over?) && StageOf(history).reply == history[i].answer
    decreases |history|
  {
    var n := |history| - 1;
    var before := history[..n];
    j := n + 1;
    if i < n {
      j := TerminalAnswersStop(before, i);
      assert forall k :: i < k < j ==> history[k] == before[k];
      if j == n && history[n].Decided? { j := n + 1; }
    }
  }

  // ---------------------------------------------------------------- when a queue counts as empty

  /** Since `i` that queue was not polled again, no input taken and no request made. */
  ghost predicate LastPoll(history: seq<Mark>, queue: QueueKind, i: int, end: int)
    requires end <= |history|
  {
    && 0 <= i < end && history[i].Poll? && history[i].queue == queue
    && forall k :: i < k < end ==>
         !(history[k].Poll? && history[k].queue == queue) && !history[k].Took? && !history[k].Requested?
  }

  ghost predicate FoundEmpty(history: seq<Mark>, queue: QueueKind, end: int)
    requires end <= |history|
  {
    exists i :: LastPoll(history, queue, i, end) && history[i].batch == []
  }

  lemma {:induction false} DryMeansFoundEmpty(history: seq<Mark>, queue: QueueKind)
    requires StageOf(history).Ready? || StageOf(history).Between?
    requires if queue == Steering then StageOf(history).steeringDry else StageOf(history).followUpDry
    ensures FoundEmpty(history, queue, |history|)
    decreases |history|
  {
    var n := |history| - 1;
    var before := history[..n];
    if history[n].Poll? && history[n].queue == queue {
      assert LastPoll(history, queue, n, n + 1);
    } else {
      DryMeansFoundEmpty(before, queue);
      var i :| LastPoll(before, queue, i, n) && before[i].batch == [];
      assert forall k :: 0 <= k < n ==> history[k] == before[k];
      assert LastPoll(history, queue, i, n + 1);
    }
  }

  lemma FoundEmptyEarlier(history: seq<Mark>, queue: QueueKind, j: nat)
    requires j <= |history| && FoundEmpty(history[..j], queue, j)
    ensures FoundEmpty(history, queue, j)
  {
    var i :| LastPoll(history[..j], queue, i, j) && history[..j][i].batch == [];
    assert LastPoll(history, queue, i, j);
  }

  /**
   * Inside a run the follow-ups are polled only when steering was polled last and found empty; and a run ends naturally
   * only when the last poll of each queue, with no input taken and no request made since, found it empty.
   */
  lemma {:induction false} SteeringComesFirst(history: seq<Mark>, j: nat)
    requires StageOf(history) != Broken && j < |history|
    ensures history[j].Poll? && history[j].queue == FollowUp && StageOf(history[..j]) != Free ==>
      FoundEmpty(history, Steering, j)
    ensures history[j] == Left(Natural) ==> FoundEmpty(history, Steering, j) && FoundEmpty(history, FollowUp, j)
  {
    hide StageOf;
    EachMarkIsAllowed(history, j);
    var stage := StageOf(history[..j]);
    if history[j] == Left(Natural) || (history[j].Poll? && history[j].queue == FollowUp && stage != Free) {
      DryMeansFoundEmpty(history[..j], Steering);
      FoundEmptyEarlier(history, Steering, j);
    }
    if history[j] == Left(Natural) {
      DryMeansFoundEmpty(history[..j], FollowUp);
      FoundEmptyEarlier(history, FollowUp, j);
    }
  }

  /** A run that ended naturally found both queues empty. */
  lemma {:induction false} NaturalEndsFoundEmpty(history: seq<Mark>)
    requires StageOf(history) == Done(Natural)
    ensures var n := |history| - 1;
      n >= 0 && FoundEmpty(history, Steering, n) && FoundEmpty(history, FollowUp, n)
  {
    hide FoundEmpty;
    SteeringComesFirst(history, |history| - 1);
  }

  // ---------------------------------------------------------------- whole histories

  ghost predicate EveryContinueIsServed(history: seq<Mark>) {
    forall i :: 0 <= i < |history| && history[i].Decided? && AsksOn(history[i].about, history[i].decision) ==>
      RequestedAfter(history, i) || CutShort(history, i)
  }

  ghost predicate WhatStopsIsFinal(history: seq<Mark>) {
    forall i :: 0 <= i < |history| && Stops(history[i]) ==> NothingAfter(history, i)
  }

  lemma {:induction false} ServedWhenSettled(history: seq<Mark>)
    requires StageOf(history) != Broken
    ensures StageOf(history) == Settled ==> EveryContinueIsServed(history)
    ensures WhatStopsIsFinal(history)
  {
    hide StageOf, RequestedAfter, CutShort, NothingAfter, Stops, AsksOn;
    forall i | 0 <= i < |history|
      ensures Stops(history[i]) ==> NothingAfter(history, i)
      ensures StageOf(history) == Settled && history[i].Decided? && AsksOn(history[i].about, history[i].decision) ==>
        RequestedAfter(history, i) || CutShort(history, i)
    {
      if Stops(history[i]) { StoppedStaysStopped(history, i); }
      if history[i].Decided? && AsksOn(history[i].about, history[i].decision) { ContinueIsFollowed(history, i); }
    }
  }
}
