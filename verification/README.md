# Verification model

A Dafny model of the concurrent and stateful cores of this repository, with proofs. `dafny verify dfyconfig.toml` checks
all of it.

| part | modules | what is proved |
|---|---|---|
| agent run and message queues | `AgentMessages`, `AgentAnswers`, `AgentQueues`, `AgentHistory`, `AgentAccounts`, `AgentOwner`, `AgentLoop`, `AgentLifecycle` | where every queued message is at every `await`, why one was discarded, commit before admission, what the event log and the context are, when a run may end, what an answer is and what follows from it, a `continue` decision and an abort |
| stream deadlines | `StreamKeepAlive`, `StreamDeadlines` | the lazily extended silence timer is the eager one, the keep-alive cap, the shared start budget |
| presence locks | `PresenceKernel`, `PresenceRules`, `Presence`, `PresenceWorld`, `PresenceSafety`, `PresenceRuns`, `PresenceChecks`, `PresenceCancel` | who owns which lock over any run of several processes, fencing, receipts, what a check and every other call decides, waits, the race of cancel and pending I/O |
| empty-answer recovery | `EmptyRecovery` | the recovering stream looks like one attempt |
| PTY input and cursor query | `PtyInput`, `PtySession`, `CursorQuery` | the shared backlog counter, order and loss of bytes, chunked search |
| versions and catalogs | `PiVersions`, `ModelCatalog` | version precedence as an order, the written form, selection |
| ustar archives | `UstarHeader`, `UstarArchive` | path splitting, fields, checksum, reading an archive back |
| proxy stream | `Text`, `Sequences`, `ProxyEvents`, `ProxyStream` | independence of network chunking, what the partial message is, the terminal event |
| file walk | `WalkOrder`, `WalkDisplay` | independence of visit order, relative paths |
| shared | `Options`, `Numbers` | small definitions used by several parts |

How the parts are modelled:

- Code that updates state is imperative: classes with the source's fields (`PendingMessageQueue`, `Agent`,
  `PresenceRegistry`, `CancelToken`, `TransportLiveness`, `AssistantEventReader`, `OuterStream`, `PtyInputQueue`,
  `CursorQueryResponder`, `ResponseReader`), methods with the source's loops, the header block as an array. Their
  contracts tie them to functions about which the lemmas speak.
- In the agent run every `await` is a call of `Agent.Await`, which lets the rest of the program make any number of queue
  calls. What the provider, the tool host, the port and the hooks answer turn by turn is given (`AgentLoop.TurnWorld`), and the
  properties hold for all such answers. Queued messages carry a place, the number of the
  enqueue call that accepted them, so that objects queued twice stay apart. Ghost fields record what the properties speak
  about: the `calls` other code made, the `home` queue of each place, what was `discarded` and on account of which call,
  `origins` of transcript messages, `committed` batches, `sealed` (an `end` decision was made), `contextDiverged` (a hook
  replaced the context, or a stream started its message twice), and the `history` of what drove the runs: polls, requests,
  answers, decisions of the hook, looks at the abort flag, ways out. `AgentHistory.NextStage` is the order in which these
  may come, every step of the run keeps to it, and the lemmas about it speak of all histories. `Agent.Past` is the record
  of all this; every method of the run promises that it only grows (`AgentAccounts.Extends`), so that
  a run can discard nothing of its own accord.
- Threads and processes are step machines: every atomic action is a step, and the theorems hold of every sequence of
  steps (`PresenceRuns.Run`, `PresenceCancel.Run`, `PtyInput.Run`). The presence kernel follows the repository's own test
  kernel, with locks keyed by the opened object; opens, locks and identity queries may fail at any call, and a process's
  death and the release of its locks are separate steps.
- Time is whole milliseconds of one monotone clock with exact timers. A byte is noticed before a timer due at its
  instant; a record due at that instant comes before or after the timer, as its `first` says.
- Other code does not assign the agent's transcript during a run (the `messages` setter,
  `packages/agent/src/agent.ts:123-125`). The agent's listeners do not throw, `claim` returns what `drain` gave it,
  `release` calls `restore`, and the tool host emits its results in the order it returns them. A stream's `result()` that
  rejects counts as a failed step. `localeCompare` is a total order and the runtime represents safe integers exactly
  (`PiVersions.Sound`).

What the proofs show about the code, where a reader might expect otherwise:

- `packages/agent/src/agent-loop.ts:275-282`, the refresh at the start of a turn, is never reached: the drain of a
  terminating batch is always refreshed or given back before the turn starts (`AgentLoop.AtTop`).
- The start bound can be exceeded by more than a millisecond, without limit, when progress records win at the very instant
  their read is due (`StreamDeadlines.FloorIsNotABound`). It is kept, to the millisecond, exactly when the silence before
  the last read of the start phase is within the bound, or one more and that read takes no time
  (`StreamDeadlines.StartBudgetIsShared`).
- An answer that ends without a terminal event is not checked for emptiness, and what it held back is dropped
  (`EmptyRecovery.ResultIsEmptyOnlyWithoutTerminal`). After a retry the diagnostic of a recovered answer is always that of
  an empty response, also when the first attempt was an empty tool use: `empty-assistant-recovery.ts:150` asks again
  whether the recovered message is an empty tool use, which it is not by then.
- The closed-channel answer of `session_input.rs:102-105` cannot occur while the session is open and its writer does not
  panic (`PtyInput.BacklogIsCounted`).
- Numerals with leading zeros make version comparison tie in a way that is not transitive
  (`PiVersions.LeadingZerosBreakTies`); the exact ties are `PiVersions.UnequalVersionsTieExactlyOnNumerals`. Selection never
  returns an entry that a compatible one surpasses, even then.
- A size of 8^11 bytes or more spoils its header (`UstarHeader.SizeReadsBackIffItFits`).
- An arguments delta after the end of its call is appended to the word `undefined` (`ProxyEvents.DeltaAfterEnd`), since the
  end deletes the raw arguments; what they are for every sequence of events is `ProxyEvents.LastMarkDecides`.
- Paths with parent components can be shown ambiguously (`WalkDisplay.ParentsAreShownAlike`), and what is shown misleads
  from a working directory that goes up after the common part (`WalkDisplay.WorkingDirectoryGoesUp`), which the walk
  accepts: it asks only for an absolute one. Files of different canonical paths shown alike come out in visit order, and
  only they (`WalkOrder.ResultIsUniqueIffNoTies`).

## Model

| member | source | states |
|---|---|---|
| `AgentOwner.EveryMessageIsInOnePlace` | packages/agent/src/agent.ts:220-286 | At every await of every run, each message ever enqueued is in exactly one place: the transcript, the batch the loop has claimed, one of the two queues, or discarded; and a discarded one was removed or cleared by a call on record, or a clear of its own queue is on record after its claim. |
| `AgentOwner.Agent.StillThere` | packages/agent/src/agent.ts:729-741 | Seen from any later moment at which nothing more was admitted, each claimed message is claimed, back in its own queue, or discarded for such a reason. |
| `AgentAccounts.QuietTimesDiscardNothing` | packages/agent/src/agent.ts:729-741 | Between two moments of the record with causes since the first (as a whole run has), nothing is discarded unless a remove or a clear was called in between. |
| `AgentAccounts.ClearSince` | packages/agent/src/agent.ts:732-735 | A clear generation that differs from the one of a claim was advanced by a clear of that queue called after the claim. |
| `AgentOwner.QueuesAreFirstInFirstOut` | packages/agent/src/agent.ts:710-741 | Per queue, transcript order is enqueue order, and what is admitted precedes what is claimed, which precedes what is still queued; with a port every admitted message was committed against its own queue first. |
| `AgentOwner.OriginsAreAdmitted` | packages/agent/src/agent.ts:978-991 | The messages of one queue in the transcript are exactly those its line counts as admitted, in the same order. |
| `AgentQueues.BatchIsOneTurn` | packages/agent/src/agent.ts:241-254 | A drain is empty only for an empty queue; one at a time it is one LLM message or the longest run of background notices at the front. |
| `AgentQueues.NoticeRunIsMaximal` | packages/agent/src/agent.ts:251-253 | The run of notices stops exactly at the first message that is none. |
| `AgentQueues.PendingMessageQueue.Peek` | packages/agent/src/agent.ts:246-254 | The loop over the queue finds exactly the batch of one turn and takes nothing. |
| `AgentQueues.PendingMessageQueue.Drain` | packages/agent/src/agent.ts:256-260 | Drains exactly that batch; drained and remaining messages together are the old queue. |
| `AgentQueues.PendingMessageQueue.Enqueue` | packages/agent/src/agent.ts:229-231 | Appends at the end. |
| `AgentQueues.PendingMessageQueue.Prepend` | packages/agent/src/agent.ts:262-264 | Puts a given-back batch in front, in its order. |
| `AgentQueues.PendingMessageQueue.Remove` | packages/agent/src/agent.ts:266-272 | Removes the first entry of this message object and nothing else, and says whether there was one. |
| `AgentQueues.PendingMessageQueue.Replace` | packages/agent/src/agent.ts:274-280 | Swaps the message of the first such entry and leaves every place where it is. |
| `AgentQueues.PendingMessageQueue.Clear` | packages/agent/src/agent.ts:282-285 | Empties the queue and makes every earlier claim unrestorable by advancing the generation. |
| `AgentQueues.EnqueueKeepsBooks` | packages/agent/src/agent.ts:229-231 | An enqueue gives out a fresh place at the end of one line and keeps the books of both queues. |
| `AgentQueues.CutKeepsBooks` | packages/agent/src/agent.ts:266-285 | Whatever leaves a line anywhere is balanced by discarding exactly its places; the rest keeps its order. |
| `AgentQueues.ReplaceKeepsBooks` | packages/agent/src/agent.ts:274-280 | A replacement changes no place in the books. |
| `AgentOwner.Agent.Steer` | packages/agent/src/agent.ts:454-457 | Queues one message at the end of the steering queue, at any await, and keeps the books. |
| `AgentOwner.Agent.AddFollowUp` | packages/agent/src/agent.ts:459-462 | The same for the follow-up queue. |
| `AgentOwner.Agent.RemoveFrom` | packages/agent/src/agent.ts:266-272 | Removing a queued message discards exactly that entry, on account of that call; a message already claimed is out of reach. |
| `AgentOwner.Agent.RemoveQueuedMessage` | packages/agent/src/agent.ts:464-467 | Removes the first entry of the object from the steering queue; only if steering has none, from the follow-ups, which are otherwise untouched; the answer is whether either queue had it. |
| `AgentOwner.Agent.ReplaceIn` | packages/agent/src/agent.ts:274-280 | Replaces the first entry of the object in one queue and keeps its place in line. |
| `AgentOwner.Agent.ReplaceQueuedMessage` | packages/agent/src/agent.ts:469-472 | Replaces the first entry of the object in the steering queue, at its place; only if steering has none, in the follow-ups, which are otherwise untouched; the answer is whether either queue had it. |
| `AgentOwner.Agent.ClearQueue` | packages/agent/src/agent.ts:474-482 | Discards exactly what is queued, never what is claimed, on account of that call, and advances the clear generation. |
| `AgentOwner.Agent.Await` | packages/agent/src/agent-loop.ts:260-474 | A suspension point of the run: any number of steer, followUp, remove, replace, clear, mode, abort and suppress calls may happen; the books survive all of them, nothing on record is lost, and whatever they discard has one of them as its cause. |
| `AgentOwner.Agent.DrainNow` | packages/agent/src/agent.ts:837-854 | One atomic drain moves a batch from its queue to the claimed messages; nothing is lost or reordered, and no drain happens after an end decision. |
| `AgentOwner.Agent.GetSteeringMessages` | packages/agent/src/agent.ts:837-847 | Skips exactly the first poll when asked to, and then polls nothing; otherwise it drains the steering queue once and the claimed batch carries the generation of its own drain. |
| `AgentOwner.Agent.GetFollowUpMessages` | packages/agent/src/agent.ts:848-854 | Drains the follow-up queue once; the claimed batch carries the generation of its own drain. |
| `AgentOwner.Agent.GiveBack` | packages/agent/src/agent.ts:729-741 | Restores the whole batch to the front exactly when the queue was not cleared since the claim; otherwise the whole batch is discarded, on account of a clear of that queue called after the claim. |
| `AgentOwner.Agent.Release` | packages/agent/src/agent.ts:855-862 | After a release nothing is claimed and every message of the batch is in its queue or discarded, which takes a clear after the claim or a call made meanwhile. |
| `AgentOwner.Agent.RestorePendingMessages` | packages/agent/src/agent.ts:858-861 | The same for the loop, against the queue the batch was drained from and with the generation of that drain. |
| `AgentOwner.Agent.CommitConsumption` | packages/agent/src/agent.ts:855-857 | A port that accepts records the whole batch; one that refuses records nothing. |
| `AgentOwner.Agent.TakeQueuedMessages` | packages/agent/src/agent.ts:706-727 | Polls that queue once. What it returns is what the poll claimed and, with a port, committed; it throws exactly when the port refuses a non-empty batch, and then nothing is committed and every message of the batch is in its queue or was discarded for a cause on record. |
| `AgentOwner.Agent.EmitMessageEnd` | packages/agent/src/agent.ts:988-991 | message_end appends exactly that message to the transcript. |
| `AgentOwner.Agent.EmitQueuedMessageEnd` | packages/agent/src/agent.ts:988-991 | A claimed message may reach the transcript only after its whole batch was committed, and leaves the batch as it does. |
| `AgentOwner.Agent.Emit` | packages/agent/src/agent.ts:978-1028 | Every other event changes no message of the transcript. |
| `AgentMessages.OpenLogsAreWellFormed` | packages/agent/src/agent-loop.ts:262-475 | Invariant of the event log of a run in progress: one agent_start, first; turn marks alternate; every ended message is the one started last, or both are the one streamed assistant message. |
| `AgentMessages.EndedLogsAreWellFormed` | packages/agent/src/agent-loop.ts:386-477 | A log that reached its end opens with its only agent_start and closes with its only agent_end; turn_start and turn_end alternate, so at most the last turn is left open; every ended message is the one started last, or both are the one streamed assistant message. |
| `AgentLoop.StreamAssistantResponse` | packages/agent/src/agent-loop.ts:619-911 | Exactly one assistant message is ended on every path (done, error, end of stream, failed step): the answer of the stream that was read, with the abort flag as it was. Partial messages are emitted for the records before the terminal one and no others; the context sent is the transcript unless a hook or an earlier restart interfered, and it gains exactly the answer if and only if the stream started it at most once. |
| `AgentLoop.ReadRecords` | packages/agent/src/agent-loop.ts:735-838 | Reading takes the records up to the first terminal one and no further: context, partial message, events and the terminal record are exactly those of that prefix. |
| `AgentLoop.FinalMessage` | packages/agent/src/agent-loop.ts:804-906 | The ended message is the answer of the stream: from the terminal record if one was read, else from the stream result, else for the failed step. |
| `AgentAnswers.TerminalRecordIsTheAnswer` | packages/agent/src/agent-loop.ts:804-837 | When a terminal record is read the answer is its result, same message and same tool calls, whatever follows in the stream and whether or not the run is aborted; an error event gives its reason, and otherwise the stop reason is only made to agree with the tool-call blocks. |
| `AgentAnswers.EndOfStreamIsTheResult` | packages/agent/src/agent-loop.ts:839-849 | Without a terminal record the end of the stream gives the result of the stream, settled in the same way. |
| `AgentAnswers.FailedStepIsTerminal` | packages/agent/src/agent-loop.ts:850-906 | A failed step gives a terminal answer, aborted exactly under an abort, with the tool calls seen so far; the exception is exactly an idle timeout of a partial message with tool calls whose results were delivered or which the provider all resolved. |
| `AgentAnswers.SettledStopReasons` | packages/agent/src/assistant-terminal-state.ts:46-65 | Settling changes only the stop reason, and only between stop and tool use: tool use exactly when the message has tool-call blocks. |
| `AgentAnswers.PartialIsInContext` | packages/agent/src/agent-loop.ts:743-803 | The records put one message per start into the context, the last being the partial message as it stands; updates before the first start count nothing. |
| `AgentLoop.OnRecord` | packages/agent/src/agent-loop.ts:740-806 | Updates before the first start are ignored; a start appends, an update replaces the last message of the context. |
| `AgentLoop.FinishResponse` | packages/agent/src/agent-loop.ts:840-906 | The final message takes the place of the partial one, or is started first when there is none. |
| `AgentLoop.AdmitQueued` | packages/agent/src/agent-loop.ts:295-307 | The claimed batch goes to the transcript, the context and newMessages in order, and only after its commit. |
| `AgentLoop.AdmitLocal` | packages/agent/src/agent-loop.ts:295-307 | The same for prompts, prepared messages and results, while a claimed batch stays untouched. |
| `AgentLoop.CommitPending` | packages/agent/src/agent-loop.ts:284-293 | The batch is committed against the queue it was drained from. It throws exactly when there is a batch and the port refuses it; then nothing is recorded as committed and every message of it is in its queue or was discarded for a cause on record. |
| `AgentLoop.BeginTurn` | packages/agent/src/agent-loop.ts:267-307 | A turn opens at most once; it fails before anything is admitted, the claimed batch being back in its queue or discarded for a cause on record, or admits prepared messages and then the whole claimed batch. The refresh at lines 275-282 is never reached. |
| `AgentLoop.RequestTurn` | packages/agent/src/agent-loop.ts:309-351 | A provider request is sent only when input, tool results or a continue decision ask for one, beside the transcript of that moment; its answer is that of the stream, followed in newMessages by the results the provider delivered. |
| `AgentLoop.PrepareRequest` | packages/agent/src/agent-loop.ts:309-320 | The hook throws or its context, if it gives one, replaces the context; otherwise the context is still the transcript. |
| `AgentLoop.ToolTurn` | packages/agent/src/agent-loop.ts:361-384 | Tools run exactly for an answer with tool calls; their results join newMessages and the context in order, and ask for another request unless the host ends the batch; calls of a truncated message are all answered, one result each, and never end it. |
| `AgentLoop.ExecuteToolBatch` | packages/agent/src/agent-loop.ts:1171-1194 | The results of the host are emitted once each, in the order it returns them; a truncated message gets one result for each of its calls, in their order. |
| `AgentLoop.FinishTurn` | packages/agent/src/agent.ts:815-823 | The hook is shown the answer with all results of the turn; its decision about them goes on record; an end decision, and only that, seals the queues and suppresses the drain after the run. |
| `AgentLoop.HardStopTurn` | packages/agent/src/agent-loop.ts:353-359 | A terminal response, the last assistant message of the run, ends it after turn_end, with nothing claimed, whatever the hook decides. |
| `AgentLoop.Conclude` | packages/agent/src/agent-loop.ts:386-403 | After the hook and turn_end the run leaves by abort exactly when the abort flag is set, else by the end decision exactly when that was the decision; it goes on only without either, with its continuation flag set exactly for a continue decision and a request due exactly for that or for tool results. |
| `AgentLoop.AfterTurn` | packages/agent/src/agent-loop.ts:386-403 | The abort flag comes first, then the end decision; what is noted is the continue decision and nothing else. |
| `AgentLoop.RefreshAfterPrepare` | packages/agent/src/agent-loop.ts:442-449 | The run ends here exactly when the refreshed drain is empty and no continue decision stands; no message of the earlier drain is lost. |
| `AgentLoop.PollBoth` | packages/agent/src/agent-loop.ts:404-410 | Steering is polled first, and the follow-ups just when that poll found nothing; the drained queue is on record exactly while its batch is held. |
| `AgentLoop.RefreshTerminatingDrain` | packages/agent/src/agent-loop.ts:249-258 | The drained batch is given back before the queues are polled again, steering first: each of its messages is claimed again, queued, or discarded for a cause on record; pendingSource is right again. |
| `AgentLoop.TerminatingDrain` | packages/agent/src/agent-loop.ts:404-421 | After a terminating batch both queues are polled, steering first, and the run ends only when both were empty and no continue decision stands. |
| `AgentLoop.PrepareNextTurn` | packages/agent/src/agent-loop.ts:423-435 | The context and the prepared messages are those of the hook, where it gives any; a failing hook gives a recorded drain back before the error surfaces: every message of it is in its queue or was discarded for a cause on record. |
| `AgentLoop.Prepare` | packages/agent/src/agent-loop.ts:423-449 | The abort flag is looked at once, after the hook: if set, the run leaves at once, polling no queue; otherwise it does not leave by abort. On failure and abort nothing stays claimed and no message of the drain is lost; after a refresh each is claimed again, queued or discarded for a cause; the run ends here otherwise only when the refreshed drain is empty and no continue decision stands. |
| `AgentLoop.NextTurn` | packages/agent/src/agent-loop.ts:404-455 | The state from which the next turn starts: the messages the hook prepared, and another request due exactly when tools, queued input or a continue decision ask for it. Unless the batch terminated, the last thing done is to poll steering. |
| `AgentLoop.PollFollowUps` | packages/agent/src/agent-loop.ts:458-474 | One poll of the follow-ups. The loop stops exactly when it found nothing and no continue decision stood, with no request due; a decision that stood is used up. |
| `AgentLoop.Turn` | packages/agent/src/agent-loop.ts:267-456 | One pass admits prepared and claimed input, makes one request and ends its answer, which is that of the stream; newMessages gains exactly these, the results the provider delivered and the results of the tool calls, which are run and on record exactly when the answer has any and is not terminal. An error, aborted or refused answer ends the run by the hard stop or a throw, and only such an answer ends it by the hard stop. It throws only if the commit, a hook, the step, the tool host failed, and always when the commit, prepareRequest, the step or finishTurn did; what it got is the stream and the results of the host it was given. |
| `AgentLoop.GoOnWithTurn` | packages/agent/src/agent-loop.ts:361-455 | After an answer that is not terminal its tool calls are run, if it has any, before the hook decides; their results follow in newMessages. |
| `AgentLoop.RunLoop` | packages/agent/src/agent-loop.ts:218-478 | For any number of turns: the run ends with agent_end last, newMessages equal to its ended messages and the transcript equal to the old one plus newMessages, nothing claimed. A natural end needs no request still due, and the last poll of each queue, with nothing taken and nothing requested since, to have found it empty; the run begins with a poll of steering exactly when it is not to skip it, and throws only if something in one of its turns failed; a hard stop needs a terminal last assistant message; and unless it ended by abort or threw, every continue decision about an answer that is not terminal was followed by another provider request. Every run that ended ran the tool calls of every answer that was not terminal; when it ended naturally or by a hard stop no input, tool result or continue decision is without a request after it. Whatever it discards is caused by a call of other code on record; a run still going has an open log that ends exactly its newMessages. |
| `AgentHistory.ContinueIsFollowed` | packages/agent/src/agent-loop.ts:386-403 | In every history of a run: after a continue decision about an answer that is not terminal there is another provider request, or the run was cut short by an abort or a throw, or it is still on its way to the request. |
| `AgentHistory.RequestsAreAskedFor` | packages/agent/src/agent-loop.ts:267-351 | In every history: a provider request has a cause since the request before it, namely the input of the run, admitted queue input, a tool batch that goes on, or a continue decision. |
| `AgentHistory.EachRequestIsAskedForAnew` | packages/agent/src/agent-loop.ts:458-474 | Of two requests the later one has a cause of its own, so that a continue decision without natural work buys one context-only turn and not two. |
| `AgentHistory.TerminalAnswersStop` | packages/agent/src/agent-loop.ts:353-359 | After a terminal answer the run does no more than ask the hook, then stops hard unless it throws: no tools, no poll, no other request. |
| `AgentHistory.HardStopsAreForTerminalAnswers` | packages/agent/src/agent-loop.ts:353-359 | A run stops hard only when the last answer it got is terminal. |
| `AgentHistory.StoppedStaysStopped` | packages/agent/src/agent.ts:865-900 | After an abort was seen, after a run left by abort or by an end decision, and after queued input was found parked behind an abort, a suppressed drain or a failed last message, no queue is polled, no request made and no run begun. |
| `AgentHistory.DoneMeansFollowed` | packages/agent/src/agent-loop.ts:386-477 | When a run has ended other than by abort, every continue decision about an answer that is not terminal was followed by another request. |
| `AgentHistory.AnswersAreActedOn` | packages/agent/src/agent-loop.ts:332-386 | In every history, what comes right after an answer: the hook for an error, aborted or refused answer, the run of its tools for one with tool calls, and the hook without any tool run for one without; unless the run threw. A truncated answer has one result for each call and goes on. |
| `AgentHistory.ToolsRunBeforeTheDecision` | packages/agent/src/agent-loop.ts:361-386 | In every history the hook decides about the last answer: right after it, or right after its one run of tools, which there is exactly when it has tool calls and is not terminal. |
| `AgentHistory.DoneMeansRun` | packages/agent/src/agent-loop.ts:361-384 | When a run has ended, the calls of every answer that was not terminal were run. |
| `AgentHistory.AskIsFollowed` | packages/agent/src/agent-loop.ts:267-478 | In every history: input of the run, admitted queue input, tool results that go on and continue decisions are each followed by a request, unless the run leaves for an abort or an end decision, or throws, or is still on its way. |
| `AgentHistory.NothingIsLeftUnasked` | packages/agent/src/agent-loop.ts:267-478 | When a run has ended naturally or by a hard stop, each of these was followed by a request. |
| `AgentHistory.SteeringComesFirst` | packages/agent/src/agent-loop.ts:404-474 | In every history: inside a run the follow-ups are polled only when the last poll of steering, with nothing taken or requested since, found it empty. |
| `AgentHistory.NaturalEndsFoundEmpty` | packages/agent/src/agent-loop.ts:404-478 | When a run has ended naturally, the last poll of each queue, with nothing taken or requested since, found it empty. |
| `AgentLifecycle.OpenRun` | packages/agent/src/agent-loop.ts:146-158 | A run starts its own log and admits its prompts, or a batch already committed, before the first request; they are the first of newMessages and end the transcript at that point. |
| `AgentLifecycle.RunAgentLoopContinue` | packages/agent/src/agent-loop.ts:164-187 | Refused before any event, poll or request exactly when the transcript is empty or ends with an assistant message; otherwise the run begins from the transcript as it is. |
| `AgentLifecycle.RunAgentLoop` | packages/agent/src/agent-loop.ts:138-162 | The whole run concludes as RunLoop does, with every message accounted for; however it ends, the transcript begins with what it was and the prompts or the batch, ahead of every request of the run, and newMessages begins with them unless it threw. Its first step polls steering unless that poll is to be skipped. |
| `AgentLifecycle.RunQueue` | packages/agent/src/agent.ts:678-704 | One poll of that queue comes next. A run starts only with the non-empty batch it claimed, committed with the port and in the transcript ahead of every request; a rejected commit throws and loses none of it; otherwise the poll was empty and nothing ran. A run started from steering skips its first poll of it, one started from follow-ups does not. |
| `AgentLifecycle.RunQueuedMessagesAfterAgentEnd` | packages/agent/src/agent.ts:910-937 | With steering queued, steering is polled first; follow-ups are taken only if no steering was queued or its poll found none; nothing stays claimed. |
| `AgentLifecycle.HandleRunFailure` | packages/agent/src/agent.ts:939-961 | A thrown run adds exactly one assistant message to the transcript, aborted or failed by the abort flag, which parks queued input. |
| `AgentLifecycle.RunWithLifecycle` | packages/agent/src/agent.ts:865-900 | The requested run begins with its prompts, with the transcript as it is, or with what the first poll of its queue found (unless the commit of that was rejected), in the transcript ahead of every request. When it settles nothing is claimed; the last thing it did, unless it threw, was to find an abort, a suppressed drain, a failed last message or empty queues, and input stays queued only behind one of the first three. Over all its runs: behind an abort, an end decision, a suppressed drain or a failed last message no queue is polled, no request made and no run begun; every continue decision about an answer that is not terminal is followed by a request unless an abort or a throw cut the run short; every discard was caused by a remove or clear called since the start. It throws only if something in the world of one of its runs failed, or a resumed run was refused. |
| `AgentLifecycle.DrainQueues` | packages/agent/src/agent.ts:880-889 | Further runs start exactly as long as none threw, no abort, suppressed drain or failed last message stands, and input is queued; a run that threw starts none. |
| `StreamKeepAlive.TransportLiveness.OnSilenceDeadline` | packages/agent/src/stream-keepalive.ts:42-52 | Expire exactly when no byte came within the window, exhausted exactly when bytes came but the keep-alive budget is used up, and otherwise an extension of at least 1 ms that ends at the very instant the bound is next overdue. |
| `StreamKeepAlive.TransportLiveness.NoteActivity` | packages/agent/src/stream-keepalive.ts:36-38 | The last activity is always that of the last byte heard. |
| `StreamKeepAlive.EagerIsFirstQuiet` | packages/agent/src/stream-keepalive.ts:1-10 | A timer restarted by every byte fires at the first instant, at or after its initial deadline, with no byte in the last window. |
| `StreamKeepAlive.LazyRefinesEager` | packages/agent/src/stream-keepalive.ts:42-52 | The first overdue instant is the eager deadline cut short by the cap, if and only if; so it is never later than the initial deadline or the cap, whichever is later. |
| `StreamDeadlines.ReadNext` | packages/agent/src/agent-loop.ts:1089-1155 | The lazily extended timer: a read times out exactly at the first overdue instant after its last re-arming for local work and before the record, with the matching error; a record in time is never beaten. |
| `StreamDeadlines.ReadRefinesEagerTimer` | packages/agent/src/agent-loop.ts:1116-1140 | Without local work a read times out if and only if the record does not come before the eager, capped deadline, and then exactly at it, never later than the initial deadline or the last content plus the cap. |
| `StreamDeadlines.QuietRead` | packages/agent/src/agent-loop.ts:1116-1140 | Without bytes and local work a read gets exactly its budget. |
| `StreamDeadlines.AssistantEventReader.Next` | packages/agent/src/agent-loop.ts:1050-1084 | Progress records leave the bound running and are charged to the next read; only a public event or the end of the stream resets it, and only a public event counts as content for the cap. |
| `StreamDeadlines.PreStreamBound.RunStep` | packages/agent/src/agent-loop.ts:968-1006 | No step before the stream outlives the start bound that all of them share. |
| `StreamDeadlines.StepsStayInBudget` | packages/agent/src/agent-loop.ts:952-1010 | Any sequence of steps ends within the bound, and exactly at it when it times out. |
| `StreamDeadlines.ReadsStayInBudget` | packages/agent/src/agent-loop.ts:1050-1083 | As long as no read starts with its bound spent, any number of progress records stays within it; a wait that times out takes exactly the bound if and only if no read started so. |
| `StreamDeadlines.StartBudgetIsShared` | packages/agent/src/agent-loop.ts:947-1010 | Steps and first reads together end within the start timeout plus 1 ms if and only if the steps already timed out, or the silence before the last read began is within the bound, or exactly one more and that read took no time. |
| `StreamDeadlines.FloorIsNotABound` | packages/agent/src/agent-loop.ts:1065-1067 | From the start of a start phase: records arriving exactly when their read is due keep it waiting for the bound, 1 ms and any further time. |
| `StreamDeadlines.ReadUntilFirstEvent` | packages/agent/src/agent-loop.ts:735-743 | The reads of the start phase, run one by one, take what the specification of the bounds says. |
| `StreamDeadlines.WaitForFirstEvent` | packages/agent/src/agent-loop.ts:671-743 | The whole start phase as it runs takes exactly the time of its steps plus that of its reads, timing out when one of them does. |
| `PresenceRuns.StepKeepsInv` | crates/senpi-socket-secret/src/presence_binding.rs:179-360 | Every step of any process, wait task, death, kernel release or file change keeps the invariant: open handles and locks are exactly those accounted for, and the wait table matches the running waits. |
| `PresenceRuns.LocksAreExactlyThoseAccountedFor` | crates/senpi-socket-secret/src/presence.rs:222-380 | After any run of several processes over one kernel, the handles a process has open and the locks it owns are exactly those of its guards and of its granted waits not yet moved in. |
| `PresenceRuns.NoObjectHasTwoGuards` | crates/senpi-socket-secret/src/presence.rs:222-380 | No object is guarded twice, in one process or in two. |
| `PresenceRuns.FenceIsPermanent` | crates/senpi-socket-secret/src/presence.rs:382-394 | Over any further run a fenced registry keeps its reason and gains no guard, not even that of a wait completing after the fence. |
| `PresenceRuns.GuardsLeaveOnlyByReceipt` | crates/senpi-socket-secret/src/presence.rs:431-436 | A guard leaves its registry only by a release with a valid receipt state or, if a wait retained it, by a retained probe; over any run without such a step it stays as it is. |
| `PresenceRuns.DeadHoldersBlock` | crates/senpi-socket-secret/src/presence.rs:444-546 | A dead process keeps its locks and nobody else gets a guard of those objects, over any run up to the kernel release. |
| `PresenceRuns.KernelReleaseUnblocks` | crates/senpi-socket-secret/src/presence.rs:444-546 | After the kernel release another process gets the lock of such an object by a plain acquire. |
| `PresenceRuns.OneWaitPerPresenceId` | crates/senpi-socket-secret/src/presence_binding.rs:179-188 | At most one pending wait per presence ID, every table entry belongs to a running wait, and acquire is refused meanwhile. |
| `PresenceRuns.StartKeepsInv` | crates/senpi-socket-secret/src/presence_binding.rs:321-353 | A wait is registered only when its wait ID and presence ID are both free in the table. |
| `PresenceRuns.RetainKeepsInv` | crates/senpi-socket-secret/src/presence.rs:293-309 | Moving a completed wait in either hands its guard to the registry, same handle and lock, or closes it. |
| `PresenceRuns.LeaveKeepsInv` | crates/senpi-socket-secret/src/presence_binding.rs:274-301 | A registered wait is removed from the table when it ends, on every path. |
| `PresenceRuns.OneStep` | crates/senpi-socket-secret/src/presence.rs:220-437 | What one step of anybody may do to a registry: nothing when dead, no new guard and no new reason when fenced, no guard lost without receipt or retained probe. |
| `PresenceChecks.CheckPassesIff` | crates/senpi-socket-secret/src/presence.rs:382-429 | In every sound world the check lets an action go ahead exactly when the registry was not fenced, the guard is held, the store is local, both queries are answered, and the path still names the object that the handle of the guard holds open and locked. |
| `PresenceChecks.CheckGivesTheReason` | crates/senpi-socket-secret/src/presence.rs:412-429 | The reason is the first of: not held, not local, handle query failed, path query failed or no file, another object at the path; a fenced registry keeps its reason. |
| `PresenceChecks.ReplacedFilesFence` | crates/senpi-socket-secret/src/presence.rs:382-429 | After the file of a guard was removed or replaced, over any further run that leaves it and the guard alone, the next check fences whatever it is told. |
| `PresenceChecks.AttemptAnswers` | crates/senpi-socket-secret/src/presence.rs:222-256 | Acquired, inadmissible and occupied are answered exactly for an available object that is admitted, one that is not, and one held by another handle or reported so. |
| `PresenceChecks.AcquireTakesAvailableObjects` | crates/senpi-socket-secret/src/presence.rs:311-348 | Acquire makes a guard of that object exactly when the registry is not fenced, the ID is free and not waited for, and the object is available; a held ID keeps its guard, acquired again only for its own path. |
| `PresenceChecks.ProbeTakesAdmissibleObjects` | crates/senpi-socket-secret/src/presence.rs:220-256 | A probe does so exactly for an admissible object under a free ID, and answers occupied whatever the admissibility. |
| `PresenceChecks.ReleaseFreesTheObject` | crates/senpi-socket-secret/src/presence.rs:431-436 | A release with one of the four receipt states drops exactly that guard and frees its object; with any other nothing changes. |
| `PresenceChecks.RetainedProbeKeepsAdmissibleGuards` | crates/senpi-socket-secret/src/presence.rs:258-291 | A guard retained by a wait for that path stays exactly when its handle answers and it is admissible, and otherwise goes and frees its object; every other guard stays. |
| `PresenceChecks.WaitsBeginByTheRegistry` | crates/senpi-socket-secret/src/presence_binding.rs:269-301 | A wait goes on to the lock exactly when it is registered, the registry is not fenced and the ID is free. |
| `PresenceChecks.GrantsAreOfFreeObjects` | crates/senpi-socket-secret/src/presence.rs:350-380 | A waiting handle is granted the lock exactly when nobody holds its object. |
| `PresenceChecks.GrantedWaitsAreIdentified` | crates/senpi-socket-secret/src/presence.rs:350-380 | A granted wait completes with a guard of its path and of the object its handle is open on, or frees the object when the identity query fails. |
| `PresenceChecks.AbortedWaitsLeaveNothing` | crates/senpi-socket-secret/src/presence.rs:350-380 | A wait ends as cancelled exactly when its table entry was cancelled and no error came first, and its handle is closed. |
| `PresenceChecks.CompletedWaitsAreRetained` | crates/senpi-socket-secret/src/presence.rs:293-309 | A completed wait becomes a retained guard exactly when the registry is not fenced and the ID is free; otherwise its object is freed. |
| `PresenceSafety.FreshGuardIsAllOrNothing` | crates/senpi-socket-secret/src/presence.rs:222-256 | A fresh acquisition yields a new, locked, named handle or leaves no handle and no lock behind, and never succeeds on a locked object. |
| `PresenceSafety.OneSlotChanges` | crates/senpi-socket-secret/src/presence.rs:188-201 | If one guard or wait changes its handle in step with the kernel, every other handle and lock stays accounted for. |
| `PresenceSafety.GuardMoved` | crates/senpi-socket-secret/src/presence.rs:293-309 | A guard moving from a completed wait to the registry keeps every account. |
| `Presence.PresenceRegistry.Acquire` | crates/senpi-socket-secret/src/presence.rs:311-348 | The method on the live registry and kernel does what the rule says: same attempt, same guards, handle closed on anything but success. |
| `Presence.PresenceRegistry.Probe` | crates/senpi-socket-secret/src/presence.rs:220-256 | The same for a probe, with the admissibility verdict after the lock. |
| `Presence.PresenceRegistry.ProbeRetained` | crates/senpi-socket-secret/src/presence.rs:258-291 | The same for a retained probe: only a wait-retained guard of that path is touched, and released when inadmissible or without identity. |
| `Presence.PresenceRegistry.RetainWait` | crates/senpi-socket-secret/src/presence.rs:293-309 | The same for moving a completed wait in; a fenced or occupied registry drops it. |
| `Presence.PresenceRegistry.PreActionCheck` | crates/senpi-socket-secret/src/presence.rs:382-394 | The method does what the rule says (whose meaning is PresenceChecks.CheckPassesIff): the first failure fences for good and is reported. |
| `Presence.PresenceRegistry.Check` | crates/senpi-socket-secret/src/presence.rs:412-429 | The method gives the verdict of the rule, of which PresenceChecks.CheckGivesTheReason says what it decides. |
| `Presence.PresenceRegistry.ReleaseAfterQuiescence` | crates/senpi-socket-secret/src/presence.rs:431-436 | Removes and closes exactly the named guard, and says whether there was one. |
| `PresenceCancel.NoCancelIsLost` | crates/senpi-socket-secret/src/presence.rs:97-148 | Over every interleaving, a cancel before the pending request completes leads to exactly one cancel of that request by the time the wait returns, and a cancel before the wait looks leads to the early answer without any request. |
| `PresenceCancel.CancelReachesThePendingRequest` | crates/senpi-socket-secret/src/presence_windows.rs:163-177 | The waiter never sleeps on a request a cancel has missed, and from any cancelled state with a pending request the waiter and canceller cancel it by their own next steps. |
| `PresenceCancel.CancellerRunsAtMostOnce` | crates/senpi-socket-secret/src/presence.rs:103-111 | The request is cancelled at most once, only while the waiter still owns it, and never after clear returned. |
| `PresenceCancel.OutcomesAreTrue` | crates/senpi-socket-secret/src/presence_windows.rs:159-188 | Acquired is answered exactly when the lock was taken, Cancelled only after a cancel. |
| `PresenceCancel.RunKeepsInv` | crates/senpi-socket-secret/src/presence_windows.rs:145-189 | The invariant of the race over every run. |
| `PresenceCancel.CancelIsItsSteps` | crates/senpi-socket-secret/src/presence.rs:103-111 | The three steps of a canceller, uninterrupted, are one call of cancel. |
| `PresenceCancel.CancelToken.Cancel` | crates/senpi-socket-secret/src/presence.rs:103-111 | Marks the token, runs a registered canceller once, and does nothing more when called again. |
| `PresenceCancel.CancelToken.Register` | crates/senpi-socket-secret/src/presence.rs:120-129 | Registers exactly when the token is not cancelled, and says so. |
| `PresenceCancel.CancelToken.Clear` | crates/senpi-socket-secret/src/presence.rs:141-147 | Afterwards no canceller is registered. |
| `EmptyRecovery.CreateRetryingStream` | packages/agent/src/empty-assistant-recovery.ts:106-191 | The whole transformer outputs what the reference says of the last attempt, and opens one more stream exactly when the first attempt ended empty and showed nothing. |
| `EmptyRecovery.ReadAttempt` | packages/agent/src/empty-assistant-recovery.ts:123-181 | One attempt: retried with nothing let through, or complete in the outer stream. |
| `EmptyRecovery.TakeRecord` | packages/agent/src/empty-assistant-recovery.ts:168-176 | Records are held back until one shows content, then all of them go out in order. |
| `EmptyRecovery.FinishAttempt` | packages/agent/src/empty-assistant-recovery.ts:133-167 | A terminal event: forwarded after what was held back, turned into an error, or the reason for a retry. |
| `EmptyRecovery.DiscardedAttemptLeavesNoTrace` | packages/agent/src/empty-assistant-recovery.ts:119-188 | What comes out does not depend on anything in a discarded attempt. |
| `EmptyRecovery.LooksLikeOneAttempt` | packages/agent/src/empty-assistant-recovery.ts:119-188 | The output is some of one attempt in its order, then at most one terminal event, last and carrying the result; all its records come out if and only if it showed content or ended with a terminal event that is not an empty answer. |
| `EmptyRecovery.NoEmptyDone` | packages/agent/src/empty-assistant-recovery.ts:28-34 | A done that comes out with a plain stop has visible text or a tool call in it, and one that stopped for tools has a tool call. |
| `EmptyRecovery.CommitsExactlyOnContent` | packages/agent/src/empty-assistant-recovery.ts:48-64 | An attempt is committed exactly by a tool call begun, visible text, or visible reasoning where reasoning is native. |
| `EmptyRecovery.ResultIsEmptyOnlyWithoutTerminal` | packages/agent/src/empty-assistant-recovery.ts:178-181 | The result can be an empty answer only when the last attempt ends without a terminal event, exactly if its own result is empty; no retry happens then. |
| `EmptyRecovery.EmptyAnswersBecomeErrors` | packages/agent/src/empty-assistant-recovery.ts:134-148 | A second empty answer becomes one error and nothing else; an empty answer already shown becomes an error that keeps its content. |
| `EmptyRecovery.RetriedExactlyWhenEmptyAndUnseen` | packages/agent/src/empty-assistant-recovery.ts:28-34 | The one retry is for a first answer that stopped with neither a tool call nor visible text, or for tools without a tool call, after an attempt that let nothing through. |
| `EmptyRecovery.EmptyAnswerAsError` | packages/agent/src/empty-assistant-recovery.ts:83-104 | An empty answer becomes an error whose text and diagnostic say whether it was a tool use and whether something was shown; what was shown stays the content, otherwise the text is. |
| `EmptyRecovery.OtherEndsComeThrough` | packages/agent/src/empty-assistant-recovery.ts:149-167 | An error, or an answer that is not empty, comes out after all records of its attempt, unchanged but for the diagnostic of a retry on an answer. |
| `EmptyRecovery.UnendedAttemptEndsTheSame` | packages/agent/src/empty-assistant-recovery.ts:178-187 | Without a terminal event the stream ends with the result of the last attempt, marked if it is a retry, or with its exception. |
| `PtyInput.RunKeepsInv` | crates/senpi-pty/src/session_input.rs:46-127 | The invariant over every interleaving of senders, writer thread and close. |
| `PtyInput.BacklogIsCounted` | crates/senpi-pty/src/session_input.rs:16-18 | Outside a send the counter is the number of bytes queued or being written, and exceeds 16 MiB only while one chunk accounts for all of it; a send never finds the channel closed. |
| `PtyInput.WrittenIsAcceptedInOrder` | crates/senpi-pty/src/session_input.rs:112-127 | The bytes written are a prefix of the bytes accepted, and without a failure nothing in between is missing. |
| `PtyInput.FailureIsSticky` | crates/senpi-pty/src/session_input.rs:85-93 | After a write failure the message stays, nothing more is written, and no later send is accepted. |
| `PtyInput.PendingDrains` | crates/senpi-pty/src/session_input.rs:118-126 | After a failure too, the writer thread takes a bounded number of steps and can always take one while anything is outstanding, so it ends with nothing pending. |
| `PtyInput.PendingNeverWraps` | crates/senpi-pty/src/session_input.rs:94-97 | The 64-bit counter never wraps as long as no chunk is longer than an allocation can be. |
| `PtySession.SendIsAtomic` | crates/senpi-pty/src/session_input.rs:46-60 | An uninterrupted send is accepted or leaves everything as it was, except that it may start the writer thread. |
| `PtySession.PtyInputQueue.Send` | crates/senpi-pty/src/session_input.rs:46-106 | Accepted exactly when open, without failure, and into an empty backlog or within the limit; a refusal changes nothing. |
| `PtySession.PtyInputQueue.DeliverOne` | crates/senpi-pty/src/session_input.rs:118-126 | One turn of the writer loop is a run of its steps; after a failure the chunk is only taken off the counter. |
| `PtySession.PtyInputQueue.Deliver` | crates/senpi-pty/src/session_input.rs:112-127 | The loop ends with an empty queue and a counter at zero whatever the writes did, and with everything written if none failed. |
| `CursorQuery.WindowSeesChunk` | crates/senpi-pty/src/session.rs:380-392 | Searching the kept bytes and the chunk finds exactly the queries of the whole stream that end inside the chunk, and the kept bytes stay the last three of the stream. |
| `CursorQuery.CursorQueryResponder.Answer` | crates/senpi-pty/src/session.rs:370-399 | One chunk is flagged exactly when a query of the whole stream ends inside it; the first flagged chunk is always answered, later ones only before the consumer wrote. |
| `CursorQuery.CursorQueryResponder.Search` | crates/senpi-pty/src/session.rs:384-386 | The window search finds a query if and only if there is one. |
| `CursorQuery.Feed` | crates/senpi-pty/src/session.rs:370-399 | For every split of the output into chunks, chunk k is flagged exactly when a query of the concatenated stream ends inside it. |
| `CursorQuery.FirstQueryIsAnswered` | crates/senpi-pty/src/session.rs:366-369 | There is a reply exactly when the stream contains a query, however it is cut. |
| `CursorQuery.EndsInOneChunk` | crates/senpi-pty/src/session.rs:380-382 | A query split between chunks is flagged in one of them only. |
| `PiVersions.ComparePiVersions` | scripts/model-catalog-protocol.ts:221-260 | Negative exactly when the left version precedes the right one, positive exactly when the right precedes the left. |
| `PiVersions.CompareParts` | scripts/model-catalog-protocol.ts:250-257 | Two different identifiers: numbers by value, numbers before words, words by locale. |
| `PiVersions.PrecedenceIsTransitive` | scripts/model-catalog-protocol.ts:221-260 | Precedence is a strict partial order on all versions. |
| `PiVersions.PrecedenceIsTotal` | scripts/model-catalog-protocol.ts:221-260 | With canonical numeric identifiers exactly one of before, equal and after holds. |
| `PiVersions.FirstDifferenceDecides` | scripts/model-catalog-protocol.ts:240-258 | With equal numbers the first identifiers that differ decide: numerals by value, a numeral before a word, words by locale, whatever follows them (section 11.4 of SemVer 2.0.0). |
| `PiVersions.LongerAndReleaseComeAfter` | scripts/model-catalog-protocol.ts:229-245 | A longer list of identifiers comes after its beginning, and a release after all its prereleases. |
| `PiVersions.UnequalVersionsTieExactlyOnNumerals` | scripts/model-catalog-protocol.ts:250-254 | Two different versions compare as equal exactly when the first identifiers in which their prereleases differ are two numerals for one number. |
| `PiVersions.LeadingZerosBreakTies` | scripts/model-catalog-protocol.ts:250-254 | Such ties are not transitive: 1.0.0-01.a and 1.0.0-01.b both tie with 1.0.0-1, and one precedes the other. |
| `PiVersions.DecimalIsInjective` | scripts/model-catalog-protocol.ts:250-253 | Without leading zeros a number is written in one way only. |
| `ModelCatalog.ScanIsThePattern` | scripts/model-catalog-protocol.ts:33 | Text scans to its parts if and only if it is those parts, well formed, written out. |
| `ModelCatalog.ParsedInOrder` | scripts/model-catalog-protocol.ts:209-219 | A text is a version exactly when its three numbers, in this order major, minor and patch, are safe integers; its prerelease is the first tag. |
| `ModelCatalog.SelectModelCatalog` | scripts/model-catalog-protocol.ts:127-158 | Fails exactly when a minimum is no version; finds nothing exactly when no entry is compatible; otherwise a compatible entry that no compatible one surpasses, the first with its minimum. |
| `ModelCatalog.FindDefault` | scripts/model-catalog-protocol.ts:136-138 | The first entry of the default revision, or nothing exactly when there is none. |
| `ModelCatalog.BestIsGreatest` | scripts/model-catalog-protocol.ts:127-131 | With canonical identifiers the selected minimum is the greatest that does not exceed the request. |
| `ModelCatalog.SelectionIsMonotone` | scripts/model-catalog-protocol.ts:127-158 | A later request finds an entry when an earlier one does, and one with no smaller minimum. |
| `UstarHeader.SplitPath` | packages/agent/scripts/deterministic-tar-gz.ts:8-15 | Finds a split exactly when one exists, and its halves fit their fields and make up the path again; a path that fits the name field is not split, any other at the last slash that will do. |
| `UstarHeader.FitsInTwoFields` | packages/agent/scripts/deterministic-tar-gz.ts:8-15 | A path fits exactly when it is printable and either not longer than the name field or cut by a slash into a non-empty part for the prefix field and one for the name field. |
| `UstarHeader.OctalFieldRoundTrip` | packages/agent/scripts/deterministic-tar-gz.ts:20-21 | A value of at most that many octal digits reads back from its padded field as itself. |
| `UstarHeader.ChecksumFits` | packages/agent/scripts/deterministic-tar-gz.ts:34-35 | The checksum of any block fits six octal digits and reads back. |
| `UstarHeader.Header` | packages/agent/scripts/deterministic-tar-gz.ts:17-37 | The block filled in place is the specified header, and there is one exactly when the path fits. |
| `UstarHeader.HeaderRoundTrip` | packages/agent/scripts/deterministic-tar-gz.ts:17-37 | A header reads back, checksum verified, as the path and the size it was written for. |
| `UstarHeader.OtherFieldsAreStandard` | packages/agent/scripts/deterministic-tar-gz.ts:17-37 | Mode 0644, owner, group and time 0, a regular file, magic and version of ustar, no link name, owner names or device. |
| `UstarHeader.SizeReadsBackIffItFits` | packages/agent/scripts/deterministic-tar-gz.ts:27 | The size field of a header reads back as the size if and only if the size is below 8^11. |
| `UstarArchive.DeterministicTar` | packages/agent/scripts/deterministic-tar-gz.ts:44-51 | The archive exists exactly when every path fits, consists of whole blocks, and reads back as exactly the files in sorted path order. |
| `UstarArchive.EntriesAreRead` | packages/agent/scripts/deterministic-tar-gz.ts:46-50 | Reading any number of entries gives back every file in the order written. |
| `UstarArchive.EntriesAreAligned` | packages/agent/scripts/deterministic-tar-gz.ts:49 | Every entry begins and ends on a block boundary. |
| `UstarArchive.FirstDifferenceDecides` | packages/agent/scripts/deterministic-tar-gz.ts:46 | Paths are ordered by code units: a proper prefix first, otherwise the smaller character where two first differ. |
| `UstarArchive.SortedKeysAreUnique` | packages/agent/scripts/deterministic-tar-gz.ts:39-46 | There is only one sorted list of the paths, so the archive depends only on the files. |
| `ProxyStream.ResponseReader.Read` | packages/agent/src/proxy.ts:217-258 | The outcome of reading depends only on the text and on how it ends, for every way of cutting the text into pieces. |
| `ProxyStream.SplittingTheRest` | packages/agent/src/proxy.ts:225-231 | Splitting the rest together with new text completes exactly the lines that the whole text completes. |
| `ProxyStream.ExceptionIsFinal` | packages/agent/src/proxy.ts:259-269 | An exception while processing a line decides the outcome, whatever text follows. |
| `ProxyStream.ResponseReader.TakeChunk` | packages/agent/src/proxy.ts:225-231 | One piece of text: the completed lines are processed in order and the rest is kept. |
| `ProxyStream.ResponseReader.ProcessLine` | packages/agent/src/proxy.ts:205-215 | One line: ignored without its prefix, blank, malformed, or an event that is reduced and pushed. |
| `ProxyStream.PartialIsTheReduction` | packages/agent/src/proxy.ts:205-215 | Without an exception the partial message is the reduction of the events in the order of their lines. |
| `ProxyStream.PushedAreTheEvents` | packages/agent/src/proxy.ts:205-215 | What is pushed while reading are the events of the lines that are passed on, in order, up to the first terminal one. |
| `ProxyStream.AlwaysOneTerminalEvent` | packages/agent/src/proxy.ts:234-269 | However reading ends, exactly one terminal event has been pushed, as the last one. |
| `ProxyStream.EndIsReported` | packages/agent/src/proxy.ts:221-268 | A terminal event of the server stands whatever happens after it; without one an error is pushed for the first exception of a line, the one of the reader (an abort if the caller aborted) or the dropped connection, with that message, and the partial message says the same. |
| `ProxyStream.DataLinesCarryEvents` | packages/agent/src/proxy.ts:204-209 | A line carries an event exactly when it is the data prefix followed by text that parses as one. |
| `ProxyEvents.BlocksAreTheirEvents` | packages/agent/src/proxy-event-reducer.ts:18-137 | After any events that do not throw, a block is exactly what the events since its last opening say: its text the concatenation of its deltas with the signature of its last end, its raw arguments, arguments, ID and name those its deltas, resets and ends make, also after an end. |
| `ProxyEvents.EndedCallIsKept` | packages/agent/src/proxy-event-reducer.ts:100-137 | A call that was opened, filled and ended is in the message as the call its end carried, or else as it stood: its ID, its name, and the raw text just before the end; only the raw text is dropped. |
| `ProxyEvents.EndsKeepTheArguments` | packages/agent/src/proxy-event-reducer.ts:123-137 | After the last end of a call its arguments are those of the call it carried, or else what they were before, for any number of ends. |
| `ProxyEvents.NamesAreTheLastCarried` | packages/agent/src/proxy-event-reducer.ts:123-137 | ID and name are those of the last end that carried a call. |
| `ProxyEvents.NamesStayThoseOfTheOpening` | packages/agent/src/proxy-event-reducer.ts:90-137 | Where no end carried a call they are those of the opening, whatever deltas, resets and ends came. |
| `ProxyEvents.SignatureIsTheLastEnds` | packages/agent/src/proxy-event-reducer.ts:44-88 | The signature of a text or thinking block is that of its last end. |
| `ProxyEvents.StopReasonIsTheLast` | packages/agent/src/proxy-event-reducer.ts:139-154 | The stop reason is that of the last done or error event. |
| `ProxyEvents.ReducesIffWellFormed` | packages/agent/src/proxy-event-reducer.ts:30-121 | A sequence throws exactly when a delta, an end or a reset speaks of a block that is missing or was last opened as another kind. |
| `ProxyEvents.PushedIffPassedOn` | packages/agent/src/proxy-event-reducer.ts:18-162 | Every event is passed on but resets, unknown events, and the end of a call where no call is. |
| `ProxyEvents.LastMarkDecides` | packages/agent/src/proxy-event-reducer.ts:100-137 | The last reset or end of a call since its opening decides what its raw arguments start from: the prefix of the reset, or nothing but the word undefined after an end; the deltas after it are appended. |
| `ProxyEvents.UnmarkedAreDeltas` | packages/agent/src/proxy-event-reducer.ts:100-113 | Without a reset or an end raw arguments are the concatenation of the deltas. |
| `ProxyEvents.DeltaAfterEnd` | packages/agent/src/proxy-event-reducer.ts:100-137 | A concrete sequence in which a delta after the end of its call is appended to the word undefined. |
| `ProxyEvents.BlocksAreOpened` | packages/agent/src/proxy-event-reducer.ts:26-98 | A block exists exactly where one was opened. |
| `ProxyEvents.EffectOnBlock` | packages/agent/src/proxy-event-reducer.ts:30-137 | What any event that does not open a block does to every part of it. |
| `WalkOrder.FirstDifferenceDecides` | crates/senpi-grep/src/walk.rs:105 | Displays are ordered by their bytes: a prefix first, otherwise the smaller byte where two first differ. |
| `WalkOrder.OrderCandidates` | crates/senpi-grep/src/walk.rs:104-110 | The filter with its set of seen paths keeps the first candidate of each path of the stably sorted list. |
| `WalkOrder.OrderedIsSmallestPerPath` | crates/senpi-grep/src/walk.rs:104-110 | The result is sorted by display, has one entry per canonical path, namely its smallest display, and misses no path. |
| `WalkOrder.VisitOrderDoesNotMatter` | crates/senpi-grep/src/walk.rs:104-110 | Whatever order the candidates are visited in, the result is the same, unless two different files would be shown alike. |
| `WalkOrder.ResultIsUniqueIffNoTies` | crates/senpi-grep/src/walk.rs:104-110 | All visit orders of the same candidates give one result if and only if no two different files would be shown alike. |
| `WalkOrder.DisplayDeterminesPath` | crates/senpi-grep/src/walk.rs:105-107 | When a display determines its canonical path, no two files are shown alike. |
| `WalkOrder.TiesDependOnVisitOrder` | crates/senpi-grep/src/walk.rs:104-110 | Two different files shown alike and visited first come out in the order in which they were visited. |
| `WalkOrder.StableSortIsStable` | crates/senpi-grep/src/walk.rs:105 | Candidates shown alike keep their order. |
| `WalkDisplay.ShowPath` | crates/senpi-grep/src/walk.rs:83-102 | The loops compute the components of the relative path. |
| `WalkDisplay.ShownResolvesBack` | crates/senpi-grep/src/walk.rs:83-102 | Resolving what is shown from the working directory gives the path back if and only if the path has no parent component, and the working directory has none after the common part or shares no more than the root with the path. |
| `WalkDisplay.ShownNamesThePlace` | crates/senpi-grep/src/walk.rs:83-102 | What is shown names the place of the path if and only if the two share nothing, or the working directory has no parent component after the common part, or the path climbs from there to the root anyway. |
| `WalkDisplay.WorkingDirectoryGoesUp` | crates/senpi-grep/src/walk.rs:118-120 | The exception is real: /x/y seen from /x/.. is shown as ../y, which resolves to /y. |
| `WalkDisplay.ShownIsInjective` | crates/senpi-grep/src/walk.rs:83-102 | No two paths without parent components are shown alike, from any working directory. |
| `WalkDisplay.ParentsAreShownAlike` | crates/senpi-grep/src/walk.rs:95-100 | With parent components two paths can be shown alike: /a/../c and /c, seen from /a. |

## Left out

- AgentLoop.RunLoop: is observed for any number of turns; a run that has not ended within them is `Suspended`, with its invariant. Termination of a run is not a property of the code.
- AgentLifecycle.RunWithLifecycle: likewise observed for any number of drains; the refusal of a second active run and the streaming state flags are not part of the model.
- AgentLifecycle.RunQueue: without a port the source drains before it registers the run; the two are adjacent and no other code runs in between.
- AgentLoop.ExecuteToolBatch: that a tool host returns one result for each call is the host's matter.
- AgentOwner.Agent.CommitConsumption: a port that commits part of a batch, or whose `claim` and `release` do not call back, is outside the assumptions above.
- StreamDeadlines.WaitForFirstEvent: no bytes and no local work, as the promise of the start budget is stated; with them `StreamDeadlines.ReadNext` bounds each read.
- PresenceCancel.RunKeepsInv: one wait per token, as the binding creates them; that a pending request ever completes is the system's matter.
- PtySession.PtyInputQueue.Deliver: the loop without senders in between; with them it is `PtyInput` that speaks.
- ProxyEvents.EffectOnBlock: the reducer is modelled on values, so that earlier pushed events share the one partial object, and change with it, is not captured.
- WalkDisplay.ShownResolvesBack: resolution of components as they are written; symbolic links are not followed.
- `declareToolChanges`, tool execution hosts, `EventStream` delivery, response timing, telemetry and error redaction: helpers outside these cores, or data plumbing.
- `Agent.reset`, `continueWithQueuedMessages` and the choice among the entry points of a run: callers of what is modelled.
- Listeners that throw, and a panic of the writer thread or a poisoned mutex in the Rust crates.
- Which text is visible (`hasVisibleText`), JSON parsing of lines and arguments, and UTF-8 decoding: parameters.
- Message fields that no decision reads: usage, capture data, timestamps, provider levels.
- The Windows calls behind the presence backend, locality classification and admissibility verdicts: arbitrary answers.
- `classify.rs`, `answers.rs`, `process_identity.rs`, `publish.rs`, `volume.rs` of the presence crate: finite tables and foreign calls.
- `String.prototype.trim` before a version is matched, URL and User-Agent parsing, and the validation of a stored index.
- Prerelease numerals beyond the range of doubles, whose difference is not a number.
- gzip and its header bytes, and the sort itself of an archive's paths: any sorted list of the keys is accepted, and there is only one.
- Globs, ignore files, type filters and the directory walk of senpi-grep; rendering of path components as text.
- The rest of the repository: terminal UI, providers, server, command line, evaluation and build scripts.
