/**
 * Recovery from empty answers: a stream transformer that holds an attempt back until it shows content, and replaces one
 * empty attempt by a retry (packages/agent/src/empty-assistant-recovery.ts:25-191).
 */
module EmptyRecovery {
  import opened Options
  import AgentMessages

  datatype Block = TextBlock(text: string) | ThinkingBlock(text: string) | ToolCallBlock(id: int)

  const EMPTY_RESPONSE_ERROR := "Model returned an empty response twice"
  const EMPTY_TOOL_USE_ERROR := "Model returned tool_use without a tool call twice"
  const FORWARDED_EMPTY_RESPONSE_ERROR := "Model returned an empty response after streaming thinking"
  const FORWARDED_EMPTY_TOOL_USE_ERROR := "Model returned tool_use without a tool call after streaming thinking"

  datatype Diagnostic = Diagnostic(kind: string, retries: int, forwarded: bool)

  datatype Message = Message(
    stopReason: AgentMessages.StopReason,
    content: seq<Block>,
    errorMessage: Option<string>,
    diagnostics: seq<Diagnostic>)

  datatype Event =
    | Start
    | TextStart
    | TextDelta(text: string)
    | TextEnd(text: string)
    | ThinkingStart
    | ThinkingDelta(text: string)
    | ThinkingEnd(text: string)
    | ToolCallStart
    | ToolCallDelta
    | ToolCallEnd
    | Done(message: Message)
    | Failed(message: Message)

  /** `hasVisibleText` is the text test: false for white space and invisible format characters alone. */
  datatype Policy = Policy(thinkingCommits: bool, hasVisibleText: string -> bool)

  /** What a provider stream yields: public events, and progress records beside them. */
  datatype Record = Public(event: Event) | Progress(id: int)

  /** How a stream that sends no terminal event ends. */
  datatype Tail = Eof(result: Message) | Throws(error: int)

  datatype Attempt = Attempt(records: seq<Record>, tail: Tail)

  // ---------------------------------------------------------------- which answers are empty

  predicate HasVisibleContent(m: Message, policy: Policy) {
    exists b :: b in m.content && (b.ToolCallBlock? || (b.TextBlock? && policy.hasVisibleText(b.text)))
  }

  predicate IsEmptyStop(m: Message, policy: Policy) {
    m.stopReason == AgentMessages.Stop && !HasVisibleContent(m, policy)
  }

  predicate IsEmptyToolUse(m: Message) {
    m.stopReason == AgentMessages.ToolUse && !exists b :: b in m.content && b.ToolCallBlock?
  }

  predicate IsEmpty(m: Message, policy: Policy) {
    IsEmptyStop(m, policy) || IsEmptyToolUse(m)
  }

  predicate IsMeaningful(event: Event, policy: Policy) {
    match event
    case ToolCallStart => true
    case TextDelta(text) => policy.hasVisibleText(text)
    case TextEnd(text) => policy.hasVisibleText(text)
    case ThinkingDelta(text) => policy.thinkingCommits && policy.hasVisibleText(text)
    case ThinkingEnd(text) => policy.thinkingCommits && policy.hasVisibleText(text)
    case _ => false
  }

  function AppendRetryDiagnostic(m: Message, kind: string, retries: int, forwarded: bool): Message {
    m.(diagnostics := m.diagnostics + [Diagnostic(kind, retries, forwarded)])
  }

  function RecoveryKind(toolUse: bool): string {
    if toolUse then "empty_tool_use_response_recovery" else "empty_assistant_response_recovery"
  }

  function EmptyResponseFailure(m: Message, toolUse: bool): Message {
    var text := if toolUse then EMPTY_TOOL_USE_ERROR else EMPTY_RESPONSE_ERROR;
    AppendRetryDiagnostic(m, RecoveryKind(toolUse), 1, false)
    .(content := [TextBlock(text)], stopReason := AgentMessages.Error, errorMessage := Some(text))
  }

  function ForwardedEmptyFailure(m: Message, toolUse: bool): Message {
    AppendRetryDiagnostic(m, RecoveryKind(toolUse), 0, true)
    .(stopReason := AgentMessages.Error,
      errorMessage := Some(if toolUse then FORWARDED_EMPTY_TOOL_USE_ERROR else FORWARDED_EMPTY_RESPONSE_ERROR))
  }

  // ---------------------------------------------------------------- the outer stream

  datatype Ending = Unfinished | Ended(result: Message) | Broken(error: int)

  /** What a reader of the outer stream gets: the records in order, then how it ends. */
  datatype Output = Output(records: seq<Record>, ending: Ending)

  predicate IsTerminal(r: Record) {
    r.Public? && (r.event.Done? || r.event.Failed?)
  }

  class OuterStream {
    var records: seq<Record>
    var ending: Ending

    constructor ()
      ensures View() == Output([], Unfinished)
    {
      records, ending := [], Unfinished;
    }

    function View(): Output
      reads this
    {
      Output(records, ending)
    }

    method Push(record: Record)
      modifies this
      ensures View() ==
        if old(ending) != Unfinished then old(View())
        else Output(old(records) + [record], if IsTerminal(record) then Ended(record.event.message) else Unfinished)
    {
      if ending != Unfinished {
        return;
      }
      if IsTerminal(record) {
        ending := Ended(record.event.message);
      }
      records := records + [record];
    }

    method PushAll(pending: seq<Record>)
      requires ending == Unfinished && forall r :: r in pending ==> !IsTerminal(r)
      modifies this
      ensures View() == Output(old(records) + pending, Unfinished)
    {
      for i := 0 to |pending|
        invariant View() == Output(old(records) + pending[..i], Unfinished)
      {
        Push(pending[i]);
        assert old(records) + pending[..i] + [pending[i]] == old(records) + pending[..i + 1];
      }
    }

    method End(result: Message)
      modifies this`ending
      ensures ending == if old(ending) == Unfinished then Ended(result) else old(ending)
    {
      if ending == Unfinished {
        ending := Ended(result);
      }
    }

    method Fail(error: int)
      modifies this`ending
      ensures ending == if old(ending) == Unfinished then Broken(error) else old(ending)
    {
      if ending == Unfinished {
        ending := Broken(error);
      }
    }
  }

  // ---------------------------------------------------------------- what should come out

  /** The records before the first terminal event. */
  function Body(records: seq<Record>): (body: seq<Record>)
    ensures body <= records && (forall r :: r in body ==> !IsTerminal(r))
    ensures |body| < |records| ==> IsTerminal(records[|body|])
    decreases |records|
  {
    if records == [] || IsTerminal(records[0]) then [] else [records[0]] + Body(records[1..])
  }

  predicate Commits(body: seq<Record>, policy: Policy) {
    exists r :: r in body && r.Public? && IsMeaningful(r.event, policy)
  }

  /** What commits an attempt is a tool call begun, visible text, or, where reasoning is native, visible reasoning. */
  lemma {:induction false} CommitsExactlyOnContent(body: seq<Record>, policy: Policy)
    ensures Commits(body, policy) <==>
      exists r :: r in body && r.Public?
        && (r.event == ToolCallStart
            || ((r.event.TextDelta? || r.event.TextEnd?) && policy.hasVisibleText(r.event.text))
            || ((r.event.ThinkingDelta? || r.event.ThinkingEnd?) && policy.thinkingCommits
                && policy.hasVisibleText(r.event.text)))
  {
    forall r | r in body
      ensures r.Public? && IsMeaningful(r.event, policy) <==>
        r.Public?
        && (r.event == ToolCallStart
            || ((r.event.TextDelta? || r.event.TextEnd?) && policy.hasVisibleText(r.event.text))
            || ((r.event.ThinkingDelta? || r.event.ThinkingEnd?) && policy.thinkingCommits
                && policy.hasVisibleText(r.event.text)))
    {}
  }

  function Terminal(a: Attempt): (event: Option<Event>)
    ensures event.Some? ==> event.value.Done? || event.value.Failed?
  {
    var n := |Body(a.records)|;
    if n < |a.records| then Some(a.records[n].event) else None
  }

  /** The attempt ended as an empty answer. */
  predicate EndsEmpty(a: Attempt, policy: Policy) {
    Terminal(a).Some? && Terminal(a).value.Done? && IsEmpty(Terminal(a).value.message, policy)
  }

  predicate NeedsRetry(a: Attempt, policy: Policy) {
    EndsEmpty(a, policy) && !Commits(Body(a.records), policy)
  }

  /** What has been let through once `read` has been read. */
  function Shown(read: seq<Record>, policy: Policy): seq<Record> {
    if Commits(read, policy) then read else []
  }

  /** What the last attempt becomes when a terminal event ends it. */
  function AtTerminal(body: seq<Record>, event: Event, retried: bool, policy: Policy): Output
    requires event.Done? || event.Failed?
  {
    if event.Failed? then Output(body + [Public(event)], Ended(event.message))
    else if !IsEmpty(event.message, policy) then
      var m := if retried then AppendRetryDiagnostic(event.message, RecoveryKind(false), 1, false) else event.message;
      Output(body + [Public(Done(m))], Ended(m))
    else
      var m := event.message;
      var error := if Commits(body, policy) then ForwardedEmptyFailure(m, IsEmptyToolUse(m))
                   else EmptyResponseFailure(m, IsEmptyToolUse(m));
      Output(Shown(body, policy) + [Public(Failed(error))], Ended(error))
  }

  /** What the last attempt becomes. */
  function LastAttempt(a: Attempt, retried: bool, policy: Policy): Output {
    var body := Body(a.records);
    match Terminal(a)
    case Some(event) => AtTerminal(body, event, retried, policy)
    case None =>
      Output(Shown(body, policy),
             match a.tail
             case Eof(r) => Ended(if retried then AppendRetryDiagnostic(r, RecoveryKind(false), 1, false) else r)
             case Throws(error) => Broken(error))
  }

  /** Opening the second stream may itself fail. */
  datatype Second = Opens(attempt: Attempt) | OpenFails(error: int)

  function Recovered(first: Attempt, second: Second, policy: Policy): Output {
    if !NeedsRetry(first, policy) then LastAttempt(first, false, policy)
    else if second.OpenFails? then Output([], Broken(second.error))
    else LastAttempt(second.attempt, true, policy)
  }

  // ---------------------------------------------------------------- the transformer

  lemma BodyStops(records: seq<Record>, n: nat)
    requires n <= |records| && forall i :: 0 <= i < n ==> !IsTerminal(records[i])
    requires n < |records| ==> IsTerminal(records[n])
    ensures Body(records) == records[..n]
    decreases n
  {
    if n > 0 {
      BodyStops(records[1..], n - 1);
      assert records[..n] == [records[0]] + records[1..][..n - 1];
    }
  }

  /** A terminal event has come: the attempt is to be retried, or it completes the outer stream. */
  method FinishAttempt(outer: OuterStream, ghost body: seq<Record>, buffered: seq<Record>, forwarding: bool, event: Event,
                       retrying: bool, policy: Policy) returns (retry: bool)
    requires event.Done? || event.Failed?
    requires forwarding == Commits(body, policy) && (!forwarding ==> buffered == body)
    requires forall r :: r in body ==> !IsTerminal(r)
    requires outer.View() == Output(Shown(body, policy), Unfinished)
    modifies outer
    ensures retry == (event.Done? && IsEmpty(event.message, policy) && !forwarding && !retrying)
    ensures outer.View() == if retry then Output([], Unfinished) else AtTerminal(body, event, retrying, policy)
  {
    retry := false;
    if event.Done? && IsEmpty(event.message, policy) {
      var toolUse := IsEmptyToolUse(event.message);
      if forwarding {
        outer.Push(Public(Failed(ForwardedEmptyFailure(event.message, toolUse))));
      } else if !retrying {
        retry := true;
      } else {
        outer.Push(Public(Failed(EmptyResponseFailure(event.message, toolUse))));
      }
      return;
    }
    if !forwarding {
      outer.PushAll(buffered);
    }
    if event.Done? && retrying {
      var kind := RecoveryKind(IsEmptyToolUse(event.message));
      outer.Push(Public(Done(AppendRetryDiagnostic(event.message, kind, 1, false))));
    } else {
      outer.Push(Public(event));
    }
  }

  /** One more record of the attempt: held back, or let through with all that was held back. */
  method TakeRecord(outer: OuterStream, ghost read: seq<Record>, buffered: seq<Record>, forwarding: bool, record: Record,
                    policy: Policy) returns (buffered': seq<Record>, forwarding': bool)
    requires !IsTerminal(record) && forall r :: r in read ==> !IsTerminal(r)
    requires forwarding == Commits(read, policy) && (!forwarding ==> buffered == read)
    requires outer.View() == Output(Shown(read, policy), Unfinished)
    modifies outer
    ensures forwarding' == Commits(read + [record], policy) && (!forwarding' ==> buffered' == read + [record])
    ensures outer.View() == Output(Shown(read + [record], policy), Unfinished)
  {
    assert Commits(read + [record], policy) <==>
        Commits(read, policy) || (record.Public? && IsMeaningful(record.event, policy))
      by { assert record in read + [record]; }
    buffered', forwarding' := buffered, forwarding;
    if forwarding {
      outer.Push(record);
    } else {
      buffered' := buffered + [record];
      if record.Public? && IsMeaningful(record.event, policy) {
        outer.PushAll(buffered');
        forwarding' := true;
      }
    }
  }

  /** Reads one attempt: either it is to be retried and nothing of it was let through, or the outer stream is complete. */
  method ReadAttempt(outer: OuterStream, a: Attempt, retrying: bool, policy: Policy) returns (retry: bool)
    requires outer.View() == Output([], Unfinished)
    modifies outer
    ensures retry == (NeedsRetry(a, policy) && !retrying)
    ensures outer.View() == if retry then Output([], Unfinished) else LastAttempt(a, retrying, policy)
  {
    assert !Commits([], policy);
    hide Commits, AtTerminal, IsEmpty, IsMeaningful;
    var buffered: seq<Record> := [];
    var forwarding := false;
    var i := 0;
    while i < |a.records|
      invariant 0 <= i <= |a.records| && forall k :: 0 <= k < i ==> !IsTerminal(a.records[k])
      invariant forwarding == Commits(a.records[..i], policy) && (!forwarding ==> buffered == a.records[..i])
      invariant outer.View() == Output(Shown(a.records[..i], policy), Unfinished)
    {
      if IsTerminal(a.records[i]) {
        BodyStops(a.records, i);
        retry := FinishAttempt(outer, a.records[..i], buffered, forwarding, a.records[i].event, retrying, policy);
        return;
      }
      assert a.records[..i + 1] == a.records[..i] + [a.records[i]];
      buffered, forwarding := TakeRecord(outer, a.records[..i], buffered, forwarding, a.records[i], policy);
      i := i + 1;
    }
    BodyStops(a.records, |a.records|);
    if a.tail.Throws? {
      outer.Fail(a.tail.error);
    } else {
      outer.End(if retrying then AppendRetryDiagnostic(a.tail.result, RecoveryKind(false), 1, false) else a.tail.result);
    }
    retry := false;
  }

  /** The whole transformer; `created` counts the streams it opened beyond the first. */
  method CreateRetryingStream(first: Attempt, second: Second, policy: Policy)
    returns (outer: OuterStream, created: nat)
    ensures fresh(outer) && outer.View() == Recovered(first, second, policy)
    ensures created == if NeedsRetry(first, policy) then 1 else 0
  {
    outer := new OuterStream();
    created := 0;
    var attempt, retrying := first, false;
    while true
      invariant fresh(outer) && outer.View() == Output([], Unfinished)
      invariant created == if retrying then 1 else 0
      invariant retrying ==> NeedsRetry(first, policy) && second == Opens(attempt)
      invariant !retrying ==> attempt == first
      decreases !retrying
    {
      var retry := ReadAttempt(outer, attempt, retrying, policy);
      if !retry {
        return;
      }
      retrying := true;
      created := created + 1;
      if second.OpenFails? {
        outer.Fail(second.error);
        return;
      }
      attempt := second.attempt;
    }
  }

  // ---------------------------------------------------------------- it looks like one attempt

  /** A discarded attempt leaves no trace: what comes out does not depend on anything in it. */
  lemma DiscardedAttemptLeavesNoTrace(a: Attempt, a': Attempt, second: Second, policy: Policy)
    requires NeedsRetry(a, policy) && NeedsRetry(a', policy)
    ensures Recovered(a, second, policy) == Recovered(a', second, policy)
  {}

  /** The attempt whose records are let through: the first, or the second when the first is discarded. */
  function Last(first: Attempt, second: Second, policy: Policy): Option<Attempt> {
    if !NeedsRetry(first, policy) then Some(first)
    else if second.Opens? then Some(second.attempt)
    else None
  }

  /**
   * The output is what one attempt could have sent: some of it, in its order, then at most one terminal event, which is
   * last and whose message is the result. Everything the attempt sent before its end comes out, except when it showed no
   * content and either ended without a terminal event or was empty twice; then none of it does.
   */
  lemma {:induction false} LooksLikeOneAttempt(first: Attempt, second: Second, policy: Policy)
    ensures var out := Recovered(first, second, policy);
      var sent := Body(out.records);
      && |out.records| <= |sent| + 1
      && (|out.records| == |sent| + 1 ==> out.ending == Ended(out.records[|sent|].event.message))
      && out.ending != Unfinished
      && match Last(first, second, policy)
         case None => out.records == []
         case Some(last) =>
           var body := Body(last.records);
           && (sent == body || sent == [])
           && (sent == body <==>
                 body == [] || Commits(body, policy) || (Terminal(last).Some? && !EndsEmpty(last, policy)))
           && (|out.records| == |sent| + 1 <==> Terminal(last).Some?)
  {
    hide IsEmpty, NeedsRetry, Commits;
    match Last(first, second, policy)
    case None =>
    case Some(last) => BodyOfLastAttempt(last, NeedsRetry(first, policy), policy);
  }

  lemma BodyOfLastAttempt(a: Attempt, retried: bool, policy: Policy)
    ensures var out := LastAttempt(a, retried, policy);
      var shown := Terminal(a).Some? && !EndsEmpty(a, policy);
      && Body(out.records) == (if shown then Body(a.records) else Shown(Body(a.records), policy))
      && |out.records| == |Body(out.records)| + (if Terminal(a).Some? then 1 else 0)
  {
    hide IsEmpty, Commits;
    var out := LastAttempt(a, retried, policy).records;
    BodyStops(out, if Terminal(a).Some? then |out| - 1 else |out|);
  }

  lemma DoneIsNotEmpty(a: Attempt, retried: bool, policy: Policy, i: nat)
    requires var out := LastAttempt(a, retried, policy).records; i < |out| && out[i].Public? && out[i].event.Done?
    ensures var m := LastAttempt(a, retried, policy).records[i].event.message;
      !IsEmptyStop(m, policy) && !IsEmptyToolUse(m)
  {
    hide Commits, Terminal;
    var body := Body(a.records);
    assert forall k :: 0 <= k < |body| ==> body[k] in body;
    assert forall k :: 0 <= k < |body| ==> !IsTerminal(body[k]);
  }

  /** No `done` that comes out is an empty stop or a tool use without a tool call. */
  lemma {:induction false} NoEmptyDone(first: Attempt, second: Second, policy: Policy, i: nat)
    requires var out := Recovered(first, second, policy).records;
      i < |out| && out[i].Public? && out[i].event.Done?
    ensures var m := Recovered(first, second, policy).records[i].event.message;
      && (m.stopReason == AgentMessages.Stop ==>
            exists b :: b in m.content && (b.ToolCallBlock? || (b.TextBlock? && policy.hasVisibleText(b.text))))
      && (m.stopReason == AgentMessages.ToolUse ==> exists b :: b in m.content && b.ToolCallBlock?)
  {
    hide NeedsRetry, LastAttempt;
    if !NeedsRetry(first, policy) {
      DoneIsNotEmpty(first, false, policy, i);
    } else {
      DoneIsNotEmpty(second.attempt, true, policy, i);
    }
  }

  /**
   * The result of the stream can still be an empty answer, in one case only: the last attempt ends without a terminal
   * event and its own result is empty. No retry happens then.
   */
  lemma {:induction false} ResultIsEmptyOnlyWithoutTerminal(first: Attempt, second: Second, policy: Policy)
    ensures var out := Recovered(first, second, policy);
      var last := Last(first, second, policy);
      && (last == None ==> out.ending.Broken?)
      && (last.Some? && Terminal(last.value) == None ==>
            (out.ending.Ended? <==> last.value.tail.Eof?)
            && (out.ending.Ended? ==> (IsEmpty(out.ending.result, policy) <==> IsEmpty(last.value.tail.result, policy))))
      && (last.Some? && Terminal(last.value).Some? && !Terminal(last.value).value.Failed? ==>
            out.ending.Ended? && !IsEmpty(out.ending.result, policy))
  {}

  /** A second empty answer becomes one error and nothing else; an empty answer already shown keeps what was shown. */
  lemma {:induction false} EmptyAnswersBecomeErrors(first: Attempt, second: Attempt, policy: Policy)
    ensures NeedsRetry(first, policy) && NeedsRetry(second, policy) ==>
      var out := Recovered(first, Opens(second), policy);
      var m := Terminal(second).value.message;
      && out.records == [Public(Failed(EmptyResponseFailure(m, IsEmptyToolUse(m))))]
      && out.ending == Ended(EmptyResponseFailure(m, IsEmptyToolUse(m)))
    ensures EndsEmpty(first, policy) && !NeedsRetry(first, policy) ==>
      var out := Recovered(first, Opens(second), policy);
      && Body(first.records) <= out.records && |out.records| == |Body(first.records)| + 1
      && out.ending.Ended? && out.ending.result.stopReason == AgentMessages.Error
      && out.ending.result.content == Terminal(first).value.message.content
  {}

  /** The retry is for a first answer that is empty, after an attempt that showed nothing. */
  lemma {:induction false} RetriedExactlyWhenEmptyAndUnseen(a: Attempt, policy: Policy)
    ensures NeedsRetry(a, policy) <==>
      && !Commits(Body(a.records), policy)
      && match Terminal(a)
         case Some(Done(m)) =>
           || (m.stopReason == AgentMessages.Stop && forall b :: b in m.content ==>
                 !b.ToolCallBlock? && (b.TextBlock? ==> !policy.hasVisibleText(b.text)))
           || (m.stopReason == AgentMessages.ToolUse && forall b :: b in m.content ==> !b.ToolCallBlock?)
         case _ => false
  {
    assert forall e: Event :: e.Done? || e.Failed? ==> e == Done(e.message) || e == Failed(e.message);
  }

  /** What becomes of an empty answer: content that was already let through stays, otherwise the error is the content. */
  lemma {:induction false} EmptyAnswerAsError(body: seq<Record>, m: Message, retried: bool, policy: Policy)
    requires IsEmpty(m, policy)
    ensures var out := AtTerminal(body, Done(m), retried, policy);
      var error := out.ending.result;
      var toolUse := m.stopReason == AgentMessages.ToolUse;
      && out.records == Shown(body, policy) + [Public(Failed(error))] && error.stopReason == AgentMessages.Error
      && error.diagnostics == m.diagnostics
           + [Diagnostic(if toolUse then "empty_tool_use_response_recovery" else "empty_assistant_response_recovery",
                         if Commits(body, policy) then 0 else 1, Commits(body, policy))]
      && error.errorMessage ==
           (if Commits(body, policy) then
              Some(if toolUse then "Model returned tool_use without a tool call after streaming thinking"
                   else "Model returned an empty response after streaming thinking")
            else
              Some(if toolUse then "Model returned tool_use without a tool call twice"
                   else "Model returned an empty response twice"))
      && error.content == if Commits(body, policy) then m.content else [TextBlock(error.errorMessage.value)]
  {
    hide Commits;
  }

  /** Errors and answers that are not empty come through as they are, except that an answer after a retry says so. */
  lemma {:induction false} OtherEndsComeThrough(first: Attempt, second: Second, policy: Policy, last: Attempt)
    requires Last(first, second, policy) == Some(last) && Terminal(last).Some? && !EndsEmpty(last, policy)
    ensures var out := Recovered(first, second, policy);
      var m := Terminal(last).value.message;
      var retried := if NeedsRetry(first, policy) then [Diagnostic("empty_assistant_response_recovery", 1, false)] else [];
      out.records == Body(last.records)
        + [Public(if Terminal(last).value.Failed? then Failed(m) else Done(m.(diagnostics := m.diagnostics + retried)))]
  {
    hide Commits, Body, IsEmpty;
    var m := Terminal(last).value.message;
    assert m.diagnostics + [] == m.diagnostics;
  }

  /** Without a terminal event the stream ends as the last attempt did, its result marked as a retry's if it is one. */
  lemma {:induction false} UnendedAttemptEndsTheSame(first: Attempt, second: Second, policy: Policy, last: Attempt)
    requires Last(first, second, policy) == Some(last) && Terminal(last) == None
    ensures Recovered(first, second, policy).ending == match last.tail
              case Throws(error) => Broken(error)
              case Eof(m) =>
                Ended(m.(diagnostics := m.diagnostics
                  + if NeedsRetry(first, policy) then [Diagnostic("empty_assistant_response_recovery", 1, false)] else []))
  {
    hide Commits, Body, IsEmpty;
    match last.tail
    case Throws(_) =>
    case Eof(m) => assert m.diagnostics + [] == m.diagnostics;
  }
}
