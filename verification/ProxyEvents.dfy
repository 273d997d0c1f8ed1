/** The proxy's events and the partial message they build up (packages/agent/src/proxy-event-reducer.ts:9-162). */
module ProxyEvents {
  import opened Options

  /**
   * `arguments` is the text the parsed arguments come from; `partialJson` is present while the call is open.
   */
  datatype Block =
    | TextBlock(text: string, signature: Option<string>)
    | ThinkingBlock(text: string, signature: Option<string>)
    | ToolCallBlock(id: string, name: string, partialJson: Option<string>, arguments: string)

  /** `content` is a JavaScript array that events may fill in any order, so it may have holes. */
  datatype Message = Message(content: map<nat, Block>, stopReason: string, errorMessage: Option<string>)

  datatype Event =
    | Start
    | TextStart(index: nat)
    | TextDelta(index: nat, delta: string)
    | TextEnd(index: nat, signature: Option<string>)
    | ThinkingStart(index: nat)
    | ThinkingDelta(index: nat, delta: string)
    | ThinkingEnd(index: nat, signature: Option<string>)
    | ToolCallStart(index: nat, id: string, name: string)
    | ToolCallDelta(index: nat, delta: string)
    | ArgumentsReset(index: nat, prefix: string)
    | ToolCallEnd(index: nat, toolCall: Option<Block>)
    | Done(reason: string)
    | Failed(reason: string, errorMessage: string)
    | Unknown

  /** What an event does: a new message and whether anything is pushed, or an exception. */
  datatype Effect = Updated(message: Message, pushed: bool) | Thrown(error: string)

  function SetBlock(m: Message, index: nat, block: Block): Message {
    m.(content := m.content[index := block])
  }

  /** A call that is no longer open has no `partialJson`; JavaScript then appends to the word for the missing value. */
  function RawSoFar(block: Block): string
    requires block.ToolCallBlock?
  {
    if block.partialJson.Some? then block.partialJson.value else "undefined"
  }

  function SetRawArguments(m: Message, index: nat, raw: string): Message
    requires index in m.content && m.content[index].ToolCallBlock?
  {
    SetBlock(m, index, m.content[index].(partialJson := Some(raw), arguments := raw))
  }

  function ProcessProxyEvent(e: Event, m: Message): Effect {
    match e
    case Start => Updated(m, true)
    case TextStart(i) => Updated(SetBlock(m, i, TextBlock("", None)), true)
    case TextDelta(i, delta) =>
      if i in m.content && m.content[i].TextBlock? then
        Updated(SetBlock(m, i, TextBlock(m.content[i].text + delta, m.content[i].signature)), true)
      else Thrown("Received text_delta for non-text content")
    case TextEnd(i, signature) =>
      if i in m.content && m.content[i].TextBlock? then
        Updated(SetBlock(m, i, TextBlock(m.content[i].text, signature)), true)
      else Thrown("Received text_end for non-text content")
    case ThinkingStart(i) => Updated(SetBlock(m, i, ThinkingBlock("", None)), true)
    case ThinkingDelta(i, delta) =>
      if i in m.content && m.content[i].ThinkingBlock? then
        Updated(SetBlock(m, i, ThinkingBlock(m.content[i].text + delta, m.content[i].signature)), true)
      else Thrown("Received thinking_delta for non-thinking content")
    case ThinkingEnd(i, signature) =>
      if i in m.content && m.content[i].ThinkingBlock? then
        Updated(SetBlock(m, i, ThinkingBlock(m.content[i].text, signature)), true)
      else Thrown("Received thinking_end for non-thinking content")
    case ToolCallStart(i, id, name) => Updated(SetBlock(m, i, ToolCallBlock(id, name, Some(""), "")), true)
    case ToolCallDelta(i, delta) =>
      if i in m.content && m.content[i].ToolCallBlock? then
        Updated(SetRawArguments(m, i, RawSoFar(m.content[i]) + delta), true)
      else Thrown("Received toolcall_delta for non-toolCall content")
    case ArgumentsReset(i, prefix) =>
      if i in m.content && m.content[i].ToolCallBlock? then Updated(SetRawArguments(m, i, prefix), false)
      else Thrown("Received message_tool_arguments_reset for non-toolCall content")
    case ToolCallEnd(i, toolCall) =>
      if i in m.content && m.content[i].ToolCallBlock? then
        var block := if toolCall.Some? && toolCall.value.ToolCallBlock? then toolCall.value else m.content[i];
        Updated(SetBlock(m, i, block.(partialJson := None)), true)
      else Updated(m, false)
    case Done(reason) => Updated(m.(stopReason := reason), true)
    case Failed(reason, errorMessage) => Updated(m.(stopReason := reason, errorMessage := Some(errorMessage)), true)
    case Unknown => Updated(m, false)
  }

  // ---------------------------------------------------------------- what the blocks are

  /** The message after a sequence of events, unless one of them throws. */
  function ReduceAll(events: seq<Event>, m: Message): Effect {
    if events == [] then Updated(m, false)
    else
      var n := |events| - 1;
      match ReduceAll(events[..n], m)
      case Thrown(error) => Thrown(error)
      case Updated(before, _) => ProcessProxyEvent(events[n], before)
  }

  lemma OneMoreReduced(events: seq<Event>, e: Event, m: Message)
    requires ReduceAll(events, m).Updated?
    ensures ReduceAll(events + [e], m) == ProcessProxyEvent(e, ReduceAll(events, m).message)
  {
    assert (events + [e])[..|events|] == events;
  }

  predicate Opens(e: Event, i: nat) {
    (e.TextStart? || e.ThinkingStart? || e.ToolCallStart?) && e.index == i
  }

  predicate Resets(e: Event, i: nat) {
    e.ArgumentsReset? && e.index == i
  }

  predicate Ends(e: Event, i: nat) {
    e.ToolCallEnd? && e.index == i
  }

  /** Position `k` holds the last event for which `f` holds. */
  ghost predicate IsLast(events: seq<Event>, f: (Event, nat) -> bool, i: nat, k: nat) {
    k < |events| && f(events[k], i) && forall j :: k < j < |events| ==> !f(events[j], i)
  }

  predicate Extends(e: Event, i: nat) {
    (e.TextDelta? || e.ThinkingDelta? || e.ToolCallDelta?) && e.index == i
  }

  /** The text an event adds to block `i`. */
  function Added(e: Event, i: nat): string {
    if Extends(e, i) then e.delta else ""
  }

  /** The text added to block `i`, in order. */
  function Deltas(events: seq<Event>, i: nat): string {
    if events == [] then ""
    else Deltas(events[..|events| - 1], i) + Added(events[|events| - 1], i)
  }

  /** Ends the text or the thinking of block `i`, with its signature. */
  predicate Signs(e: Event, i: nat) {
    (e.TextEnd? || e.ThinkingEnd?) && e.index == i
  }

  /** The signature of a block: that of its last end, none without one. */
  function Signature(since: seq<Event>, i: nat): Option<string> {
    if since == [] then None
    else if Signs(since[|since| - 1], i) then since[|since| - 1].signature
    else Signature(since[..|since| - 1], i)
  }

  /** An end of call `i` that carries the call itself. */
  predicate Carries(e: Event, i: nat) {
    Ends(e, i) && e.toolCall.Some? && e.toolCall.value.ToolCallBlock?
  }

  /** The ID and name of a call: those of the last end that carried a call, else those it was opened with. */
  function NamedBy(id: string, name: string, since: seq<Event>, i: nat): (string, string) {
    if since == [] then (id, name)
    else
      var last := since[|since| - 1];
      if Carries(last, i) then (last.toolCall.value.id, last.toolCall.value.name)
      else NamedBy(id, name, since[..|since| - 1], i)
  }

  /** What a call's arguments are parsed from. */
  function Arguments(since: seq<Event>, i: nat): string {
    if since == [] then ""
    else
      var before, last := since[..|since| - 1], since[|since| - 1];
      if Carries(last, i) then last.toolCall.value.arguments
      else if Resets(last, i) || Extends(last, i) then NextRaw(RawArguments(before, i), last, i).value
      else Arguments(before, i)
  }

  /** Block `i` is exactly what its opening and the events since then made of it. */
  ghost predicate BlockIs(opening: Event, since: seq<Event>, i: nat, block: Block) {
    match opening
    case TextStart(_) => block == TextBlock(Deltas(since, i), Signature(since, i))
    case ThinkingStart(_) => block == ThinkingBlock(Deltas(since, i), Signature(since, i))
    case ToolCallStart(_, id, name) =>
      && block.ToolCallBlock? && block.partialJson == RawArguments(since, i)
      && block.arguments == Arguments(since, i) && (block.id, block.name) == NamedBy(id, name, since, i)
    case _ => true
  }

  /** How one event changes the raw arguments: a delta is appended, a reset puts its prefix in place of all, an end forgets. */
  function NextRaw(raw: Option<string>, e: Event, i: nat): Option<string> {
    if Resets(e, i) then Some(e.prefix)
    else if Ends(e, i) then None
    else if Extends(e, i) then Some((if raw.Some? then raw.value else "undefined") + e.delta)
    else raw
  }

  function RawFrom(raw: Option<string>, events: seq<Event>, i: nat): Option<string> {
    if events == [] then raw
    else NextRaw(RawFrom(raw, events[..|events| - 1], i), events[|events| - 1], i)
  }

  /** The raw arguments of a call after the events since its opening; `None` after an end. */
  function RawArguments(since: seq<Event>, i: nat): Option<string> {
    RawFrom(Some(""), since, i)
  }

  /** Resets and ends: what came before them no longer counts. */
  predicate Marks(e: Event, i: nat) {
    Resets(e, i) || Ends(e, i)
  }

  ghost predicate Unmarked(events: seq<Event>, i: nat) {
    forall j :: 0 <= j < |events| ==> !Marks(events[j], i)
  }

  predicate AnyDelta(events: seq<Event>, i: nat) {
    events != [] && (Extends(events[|events| - 1], i) || AnyDelta(events[..|events| - 1], i))
  }

  /** Between marks, deltas are appended; where there was nothing they begin with the word for the missing value. */
  lemma {:induction false} UnmarkedOnlyAppends(raw: Option<string>, events: seq<Event>, i: nat)
    requires Unmarked(events, i)
    ensures RawFrom(raw, events, i) ==
      if raw.Some? then Some(raw.value + Deltas(events, i))
      else if AnyDelta(events, i) then Some("undefined" + Deltas(events, i))
      else None
    ensures !AnyDelta(events, i) ==> Deltas(events, i) == ""
    decreases |events|
  {
    if events == [] {
      assert raw.Some? ==> raw.value + "" == raw.value;
    } else {
      var front, e := events[..|events| - 1], events[|events| - 1];
      assert !Marks(e, i);
      UnmarkedOnlyAppends(raw, front, i);
      hide RawFrom, AnyDelta, Deltas;
      Steps(raw, events, i);
      if raw.Some? { Associative(raw.value, Deltas(front, i), Added(e, i)); }
      Associative("undefined", Deltas(front, i), Added(e, i));
      assert Deltas(front, i) + "" == Deltas(front, i) && "" + Added(e, i) == Added(e, i);
    }
  }

  lemma Steps(raw: Option<string>, events: seq<Event>, i: nat)
    requires events != []
    ensures var front, e := events[..|events| - 1], events[|events| - 1];
      && RawFrom(raw, events, i) == NextRaw(RawFrom(raw, front, i), e, i)
      && Deltas(events, i) == Deltas(front, i) + Added(e, i)
      && (AnyDelta(events, i) <==> Extends(e, i) || AnyDelta(front, i))
  {}

  lemma {:induction false} RawFromConcat(raw: Option<string>, a: seq<Event>, b: seq<Event>, i: nat)
    ensures RawFrom(raw, a + b, i) == RawFrom(RawFrom(raw, a, i), b, i)
    decreases |b|
  {
    if b == [] {
      assert a + b == a;
    } else {
      assert (a + b)[..|a + b| - 1] == a + b[..|b| - 1];
      RawFromConcat(raw, a, b[..|b| - 1], i);
    }
  }

  /** Without a reset or an end, raw arguments are the concatenation of the deltas. */
  lemma {:induction false} UnmarkedAreDeltas(since: seq<Event>, i: nat)
    requires Unmarked(since, i)
    ensures RawArguments(since, i) == Some(Deltas(since, i))
  {
    UnmarkedOnlyAppends(Some(""), since, i);
    assert "" + Deltas(since, i) == Deltas(since, i);
  }

  /**
   * Otherwise the last reset or end decides, in every sequence: after a reset they are its prefix and the later deltas;
   * after an end there are none, until a delta begins again with the word for the missing value.
   */
  lemma {:induction false} LastMarkDecides(events: seq<Event>, i: nat, r: nat)
    requires IsLast(events, Marks, i, r)
    ensures var later := events[r + 1..];
      RawArguments(events, i) ==
        if Resets(events[r], i) then Some(events[r].prefix + Deltas(later, i))
        else if AnyDelta(later, i) then Some("undefined" + Deltas(later, i))
        else None
  {
    var later := events[r + 1..];
    assert forall j :: 0 <= j < |later| ==> later[j] == events[r + 1 + j];
    assert events == events[..r] + [events[r]] + later;
    assert ([events[r]])[..0] == [];
    RawFromConcat(Some(""), events[..r] + [events[r]], later, i);
    RawFromConcat(Some(""), events[..r], [events[r]], i);
    UnmarkedOnlyAppends(NextRaw(RawFrom(Some(""), events[..r], i), events[r], i), later, i);
  }

  /** Such a delta is not refused: the arguments of the call become `undefined` and the delta. */
  lemma DeltaAfterEnd(id: string, name: string, delta: string)
    ensures var effect := ReduceAll([ToolCallStart(0, id, name), ToolCallEnd(0, None), ToolCallDelta(0, delta)],
                                    Message(map[], "pending", None));
      && effect.Updated? && 0 in effect.message.content && effect.message.content[0].ToolCallBlock?
      && effect.message.content[0].arguments == "undefined" + delta
  {
    var start := Message(map[], "pending", None);
    var events := [ToolCallStart(0, id, name), ToolCallEnd(0, None), ToolCallDelta(0, delta)];
    assert events[..2] == [ToolCallStart(0, id, name), ToolCallEnd(0, None)];
    assert events[..2][..1] == [ToolCallStart(0, id, name)] && events[..2][..1][..0] == [];
    assert ReduceAll(events[..2][..1], start) == ProcessProxyEvent(events[0], start);
    assert ReduceAll(events[..2], start) == ProcessProxyEvent(events[1], ReduceAll(events[..2][..1], start).message);
  }

  lemma Associative(a: string, b: string, c: string)
    ensures a + (b + c) == a + b + c
  {}

  /** Signatures: the last end's. */
  lemma {:induction false} SignatureIsTheLastEnds(since: seq<Event>, i: nat, r: nat)
    requires IsLast(since, Signs, i, r)
    ensures Signature(since, i) == since[r].signature
    decreases |since|
  {
    if r < |since| - 1 { SignatureIsTheLastEnds(since[..|since| - 1], i, r); }
  }

  /** A call is named by the last end that carried a call. */
  lemma {:induction false} NamesAreTheLastCarried(id: string, name: string, since: seq<Event>, i: nat, r: nat)
    requires IsLast(since, Carries, i, r)
    ensures NamedBy(id, name, since, i) == (since[r].toolCall.value.id, since[r].toolCall.value.name)
    decreases |since|
  {
    if r < |since| - 1 { NamesAreTheLastCarried(id, name, since[..|since| - 1], i, r); }
  }

  /** Where no end carried a call, it keeps the ID and the name it was opened with. */
  lemma {:induction false} NamesStayThoseOfTheOpening(id: string, name: string, since: seq<Event>, i: nat)
    requires forall j :: 0 <= j < |since| ==> !Carries(since[j], i)
    ensures NamedBy(id, name, since, i) == (id, name)
    decreases |since|
  {
    if since != [] { NamesStayThoseOfTheOpening(id, name, since[..|since| - 1], i); }
  }

  /** What changes a call's arguments or ends it. */
  predicate Touches(e: Event, i: nat) {
    Extends(e, i) || Resets(e, i) || Ends(e, i)
  }

  /** While there is raw text, the arguments of a call are those of that text. */
  lemma {:induction false} OpenArgumentsAreRaw(since: seq<Event>, i: nat)
    requires RawArguments(since, i).Some?
    ensures Arguments(since, i) == RawArguments(since, i).value
    decreases |since|
  {
    if since != [] {
      var n := |since| - 1;
      assert since == since[..n] + [since[n]];
      Appended(since[..n], since[n], i);
      hide RawArguments, Arguments;
      if !Touches(since[n], i) { OpenArgumentsAreRaw(since[..n], i); }
    }
  }

  /**
   * Once an end was the last event for a call, its arguments are those of the call it carried; if it carried none, they are
   * those of the raw text just before it, or, where there was none left, what they were before.
   */
  lemma {:induction false} EndsKeepTheArguments(since: seq<Event>, i: nat, e: nat)
    requires IsLast(since, Touches, i, e) && Ends(since[e], i)
    ensures Arguments(since, i) ==
      if since[e].toolCall.Some? && since[e].toolCall.value.ToolCallBlock? then since[e].toolCall.value.arguments
      else if RawArguments(since[..e], i).Some? then RawArguments(since[..e], i).value
      else Arguments(since[..e], i)
    decreases |since|
  {
    var n := |since| - 1;
    assert since == since[..n] + [since[n]];
    Appended(since[..n], since[n], i);
    hide RawArguments, Arguments;
    if e < n {
      assert since[..n][..e] == since[..e];
      EndsKeepTheArguments(since[..n], i, e);
    } else if RawArguments(since[..e], i).Some? {
      OpenArgumentsAreRaw(since[..e], i);
    }
  }

  /**
   * So a call that was opened, filled and ended once is, in the message, the call its end carried, or else the call as it
   * stood: its ID, its name, and the raw text it had just before the end. Nothing but its end closes it.
   */
  lemma {:induction false} EndedCallIsKept(events: seq<Event>, stopReason: string, i: nat, k: nat, e: nat)
    requires IsLast(events, Opens, i, k) && events[k].ToolCallStart? && k < e
    requires IsLast(events, Touches, i, e) && Ends(events[e], i)
    requires forall j :: k < j < e ==> !Ends(events[j], i)
    requires ReduceAll(events, Message(map[], stopReason, None)).Updated?
    ensures var m := ReduceAll(events, Message(map[], stopReason, None)).message;
      var raw := RawArguments(events[k + 1..e], i);
      i in m.content && raw.Some?
      && m.content[i] ==
           if events[e].toolCall.Some? && events[e].toolCall.value.ToolCallBlock?
           then events[e].toolCall.value.(partialJson := None)
           else ToolCallBlock(events[k].id, events[k].name, None, raw.value)
  {
    BlocksAreTheirEvents(events, stopReason, i, k);
    var since, at := events[k + 1..], e - k - 1;
    assert forall j :: 0 <= j < |since| ==> since[j] == events[k + 1 + j];
    assert since[..at] == events[k + 1..e];
    OpenCallsHaveRaw(since[..at], i);
    assert IsLast(since, Touches, i, at);
    EndsKeepTheArguments(since, i, at);
    EndForgetsRaw(since, i, at);
    hide ReduceAll, RawArguments, Arguments, NamedBy;
    if Carries(since[at], i) {
      assert IsLast(since, Carries, i, at);
      NamesAreTheLastCarried(events[k].id, events[k].name, since, i, at);
    } else {
      NamesStayThoseOfTheOpening(events[k].id, events[k].name, since, i);
    }
  }

  lemma {:induction false} OpenCallsHaveRaw(since: seq<Event>, i: nat)
    requires forall j :: 0 <= j < |since| ==> !Ends(since[j], i)
    ensures RawArguments(since, i).Some?
    decreases |since|
  {
    if since != [] { OpenCallsHaveRaw(since[..|since| - 1], i); }
  }

  lemma {:induction false} EndForgetsRaw(since: seq<Event>, i: nat, e: nat)
    requires IsLast(since, Touches, i, e) && Ends(since[e], i)
    ensures RawArguments(since, i) == None
    decreases |since|
  {
    if e < |since| - 1 { EndForgetsRaw(since[..|since| - 1], i, e); }
  }

  predicate Concludes(e: Event, i: nat) {
    e.Done? || e.Failed?
  }

  lemma ReasonAfter(e: Event, m: Message)
    requires ProcessProxyEvent(e, m).Updated?
    ensures ProcessProxyEvent(e, m).message.stopReason == if Concludes(e, 0) then e.reason else m.stopReason
    ensures ProcessProxyEvent(e, m).message.errorMessage == if e.Failed? then Some(e.errorMessage) else m.errorMessage
  {}

  /** The message ends with the reason of the last `done` or `error` event. */
  lemma {:induction false} StopReasonIsTheLast(events: seq<Event>, stopReason: string, r: nat)
    requires ReduceAll(events, Message(map[], stopReason, None)).Updated? && IsLast(events, Concludes, 0, r)
    ensures ReduceAll(events, Message(map[], stopReason, None)).message.stopReason == events[r].reason
    decreases |events|
  {
    hide ProcessProxyEvent;
    var n := |events| - 1;
    ReasonAfter(events[n], ReduceAll(events[..n], Message(map[], stopReason, None)).message);
    if r < n { StopReasonIsTheLast(events[..n], stopReason, r); }
  }

  /** A block exists exactly where one was opened. */
  lemma {:induction false} BlocksAreOpened(events: seq<Event>, stopReason: string, i: nat)
    ensures var effect := ReduceAll(events, Message(map[], stopReason, None));
      effect.Updated? ==> (i in effect.message.content <==> exists k :: 0 <= k < |events| && Opens(events[k], i))
    decreases |events|
  {
    hide ProcessProxyEvent, Opens;
    if events != [] && ReduceAll(events, Message(map[], stopReason, None)).Updated? {
      var before := events[..|events| - 1];
      BlocksAreOpened(before, stopReason, i);
      KeysStay(events[|events| - 1], ReduceAll(before, Message(map[], stopReason, None)).message, i);
      assert forall k :: 0 <= k < |before| ==> before[k] == events[k];
    }
  }

  /**
   * After any sequence of events that does not throw, a block is what the events since its last opening say: its text is
   * the concatenation of its deltas, and its raw arguments are those of the events, ends and resets included.
   */
  lemma {:induction false} BlocksAreTheirEvents(events: seq<Event>, stopReason: string, i: nat, k: nat)
    requires IsLast(events, Opens, i, k) && ReduceAll(events, Message(map[], stopReason, None)).Updated?
    ensures var m := ReduceAll(events, Message(map[], stopReason, None)).message;
      i in m.content && BlockIs(events[k], events[k + 1..], i, m.content[i])
    decreases |events|
  {
    hide BlockIs, ProcessProxyEvent;
    var n := |events| - 1;
    var before, e := events[..n], events[n];
    var m := ReduceAll(before, Message(map[], stopReason, None)).message;
    if k == n {
      assert events[n + 1..] == [];
      OpenedBlock(e, i, m);
    } else {
      assert before[k] == events[k] && IsLast(before, Opens, i, k);
      BlocksAreTheirEvents(before, stopReason, i, k);
      assert events[k + 1..] == before[k + 1..] + [e];
      OneMoreEvent(events[k], before[k + 1..], e, i, m);
    }
  }

  // ---------------------------------------------------------------- which sequences are well formed

  /** The block an event speaks of was opened before it, and last as its own kind. */
  ghost predicate Fits(events: seq<Event>, e: Event) {
    match e
    case TextDelta(i, _) => exists k: nat :: IsLast(events, Opens, i, k) && events[k].TextStart?
    case TextEnd(i, _) => exists k: nat :: IsLast(events, Opens, i, k) && events[k].TextStart?
    case ThinkingDelta(i, _) => exists k: nat :: IsLast(events, Opens, i, k) && events[k].ThinkingStart?
    case ThinkingEnd(i, _) => exists k: nat :: IsLast(events, Opens, i, k) && events[k].ThinkingStart?
    case ToolCallDelta(i, _) => exists k: nat :: IsLast(events, Opens, i, k) && events[k].ToolCallStart?
    case ArgumentsReset(i, _) => exists k: nat :: IsLast(events, Opens, i, k) && events[k].ToolCallStart?
    case _ => true
  }

  ghost predicate WellFormed(events: seq<Event>) {
    forall n :: 0 <= n < |events| ==> Fits(events[..n], events[n])
  }

  /** A block is of the kind it was last opened as. */
  lemma {:induction false} KindIsTheLastOpening(events: seq<Event>, stopReason: string, i: nat)
    requires ReduceAll(events, Message(map[], stopReason, None)).Updated?
    ensures var m := ReduceAll(events, Message(map[], stopReason, None)).message;
      && ((exists k: nat :: IsLast(events, Opens, i, k) && events[k].TextStart?) <==>
            i in m.content && m.content[i].TextBlock?)
      && ((exists k: nat :: IsLast(events, Opens, i, k) && events[k].ThinkingStart?) <==>
            i in m.content && m.content[i].ThinkingBlock?)
      && ((exists k: nat :: IsLast(events, Opens, i, k) && events[k].ToolCallStart?) <==>
            i in m.content && m.content[i].ToolCallBlock?)
  {
    hide ReduceAll, Deltas, RawArguments, Arguments, NamedBy, Signature;
    var m := ReduceAll(events, Message(map[], stopReason, None)).message;
    BlocksAreOpened(events, stopReason, i);
    if i in m.content {
      var k := LastOpening(events, i);
      BlocksAreTheirEvents(events, stopReason, i, k);
      assert IsLast(events, Opens, i, k);
    }
    forall k: nat | IsLast(events, Opens, i, k)
      ensures i in m.content && BlockIs(events[k], events[k + 1..], i, m.content[i])
    {
      BlocksAreTheirEvents(events, stopReason, i, k);
    }
  }

  lemma {:induction false} LastOpening(events: seq<Event>, i: nat) returns (k: nat)
    requires exists j :: 0 <= j < |events| && Opens(events[j], i)
    ensures IsLast(events, Opens, i, k)
    decreases |events|
  {
    var n := |events| - 1;
    if Opens(events[n], i) {
      k := n;
    } else {
      var j :| 0 <= j < |events| && Opens(events[j], i);
      assert events[..n][j] == events[j];
      k := LastOpening(events[..n], i);
      assert events[..n][k] == events[k];
    }
  }

  lemma OneMoreFits(events: seq<Event>)
    requires events != []
    ensures var n := |events| - 1; WellFormed(events) <==> WellFormed(events[..n]) && Fits(events[..n], events[n])
  {
    hide Fits;
    var n := |events| - 1;
    assert forall j :: 0 <= j < n ==> events[..n][j] == events[j] && events[..n][..j] == events[..j];
  }

  /** A delta, an end or a reset for a block that is missing or of another kind throws, and nothing else does. */
  lemma {:induction false} ReducesIffWellFormed(events: seq<Event>, stopReason: string)
    ensures ReduceAll(events, Message(map[], stopReason, None)).Updated? <==> WellFormed(events)
    decreases |events|
  {
    hide ProcessProxyEvent, Fits;
    if events != [] {
      hide WellFormed;
      var n := |events| - 1;
      ReducesIffWellFormed(events[..n], stopReason);
      OneMoreFits(events);
      if ReduceAll(events[..n], Message(map[], stopReason, None)).Updated? {
        FitsIffUpdated(events[..n], events[n], stopReason);
      }
    }
  }

  lemma FitsIffUpdated(events: seq<Event>, e: Event, stopReason: string)
    requires ReduceAll(events, Message(map[], stopReason, None)).Updated?
    ensures ProcessProxyEvent(e, ReduceAll(events, Message(map[], stopReason, None)).message).Updated? <==> Fits(events, e)
  {
    hide ReduceAll, IsLast;
    match e
    case TextDelta(i, _) => KindIsTheLastOpening(events, stopReason, i);
    case TextEnd(i, _) => KindIsTheLastOpening(events, stopReason, i);
    case ThinkingDelta(i, _) => KindIsTheLastOpening(events, stopReason, i);
    case ThinkingEnd(i, _) => KindIsTheLastOpening(events, stopReason, i);
    case ToolCallDelta(i, _) => KindIsTheLastOpening(events, stopReason, i);
    case ArgumentsReset(i, _) => KindIsTheLastOpening(events, stopReason, i);
    case _ =>
  }

  // ---------------------------------------------------------------- what is pushed

  /** Everything is passed on but resets, unknown events, and the end of a call where no call is. */
  ghost predicate PassedOn(events: seq<Event>, e: Event) {
    && !e.ArgumentsReset? && !e.Unknown?
    && (e.ToolCallEnd? ==> exists k: nat :: IsLast(events, Opens, e.index, k) && events[k].ToolCallStart?)
  }

  lemma {:induction false} PushedIffPassedOn(events: seq<Event>, e: Event, stopReason: string)
    requires ReduceAll(events, Message(map[], stopReason, None)).Updated? && Fits(events, e)
    ensures var effect := ProcessProxyEvent(e, ReduceAll(events, Message(map[], stopReason, None)).message);
      effect.Updated? && (effect.pushed <==> PassedOn(events, e))
  {
    hide ReduceAll, IsLast;
    FitsIffUpdated(events, e, stopReason);
    if e.ToolCallEnd? { KindIsTheLastOpening(events, stopReason, e.index); }
  }

  lemma KeysStay(e: Event, m: Message, i: nat)
    requires ProcessProxyEvent(e, m).Updated?
    ensures i in ProcessProxyEvent(e, m).message.content <==> i in m.content || Opens(e, i)
  {}

  lemma OpenedBlock(e: Event, i: nat, m: Message)
    requires Opens(e, i) && ProcessProxyEvent(e, m).Updated?
    ensures var m' := ProcessProxyEvent(e, m).message; i in m'.content && BlockIs(e, [], i, m'.content[i])
  {}

  lemma Appended(since: seq<Event>, e: Event, i: nat)
    ensures Deltas(since + [e], i) == Deltas(since, i) + Added(e, i)
    ensures RawArguments(since + [e], i) == NextRaw(RawArguments(since, i), e, i)
    ensures Signature(since + [e], i) == (if Signs(e, i) then e.signature else Signature(since, i))
    ensures forall id, name ::
      NamedBy(id, name, since + [e], i) == (if Carries(e, i) then (e.toolCall.value.id, e.toolCall.value.name) else NamedBy(id, name, since, i))
    ensures Arguments(since + [e], i)
      == (if Carries(e, i) then e.toolCall.value.arguments
          else if Resets(e, i) || Extends(e, i) then NextRaw(RawArguments(since, i), e, i).value
          else Arguments(since, i))
  {
    assert (since + [e])[..|since|] == since;
  }

  /** What an event that does not open block `i` does to it. */
  lemma EffectOnBlock(e: Event, i: nat, m: Message)
    requires i in m.content && !Opens(e, i) && ProcessProxyEvent(e, m).Updated?
    ensures var m' := ProcessProxyEvent(e, m).message;
      && i in m'.content
      && var b, b' := m.content[i], m'.content[i];
      && (b.TextBlock? ==> b' == TextBlock(b.text + Added(e, i), if Signs(e, i) then e.signature else b.signature))
      && (b.ThinkingBlock? ==>
            b' == ThinkingBlock(b.text + Added(e, i), if Signs(e, i) then e.signature else b.signature))
      && (b.ToolCallBlock? ==>
            && b'.ToolCallBlock? && b'.partialJson == NextRaw(b.partialJson, e, i)
            && (if Carries(e, i) then b'.id == e.toolCall.value.id && b'.name == e.toolCall.value.name
                else b'.id == b.id && b'.name == b.name)
            && b'.arguments == if Carries(e, i) then e.toolCall.value.arguments
                               else if Resets(e, i) || Extends(e, i) then b'.partialJson.value
                               else b.arguments)
  {
    if Added(e, i) == "" {
      var b := m.content[i];
      if !b.ToolCallBlock? { assert b.text + "" == b.text; }
    }
  }

  lemma OneMoreEvent(opening: Event, since: seq<Event>, e: Event, i: nat, m: Message)
    requires Opens(opening, i) && !Opens(e, i) && i in m.content && BlockIs(opening, since, i, m.content[i])
    requires ProcessProxyEvent(e, m).Updated?
    ensures var m' := ProcessProxyEvent(e, m).message;
      i in m'.content && BlockIs(opening, since + [e], i, m'.content[i])
  {
    Appended(since, e, i);
    EffectOnBlock(e, i, m);
    hide Deltas, RawArguments, ProcessProxyEvent, Added, Arguments, NamedBy, Signature;
  }
}
