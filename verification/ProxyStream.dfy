/** Reading the proxy's response, line by line, from text that arrives in pieces (packages/agent/src/proxy.ts:200-274). */
module ProxyStream {
  import opened Options
  import opened Sequences
  import opened Text
  import opened ProxyEvents

  /** The text after `data: `, trimmed and parsed as JSON. */
  datatype Payload = Blank | Malformed(error: string) | Parsed(event: Event)

  /**
   * How reading ends: the end of the body with what the text decoder still held, or an exception of the reader. A caller
   * that aborts is seen after a read, whose data is then not looked at, so it is an exception too.
   */
  datatype Ending = EndOfBody(flushed: string) | ReadFails(error: string, aborted: bool)

  /** `pushed` is what the event stream took; it takes nothing after a terminal event. */
  datatype Decoding = Decoding(partial: Message, pushed: seq<Event>, sawTerminal: bool, error: Option<string>)

  const START := Decoding(Message(map[], "pending", None), [], false, None)

  predicate IsTerminal(e: Event) {
    e.Done? || e.Failed?
  }

  function Push(d: Decoding, e: Event): Decoding {
    if d.sawTerminal then d else d.(pushed := d.pushed + [e], sawTerminal := IsTerminal(e))
  }

  predicate IsData(line: string) {
    |line| >= 6 && line[..6] == "data: "
  }

  /** One line; after an exception nothing more is processed. */
  function TakeLine(d: Decoding, line: string, parse: string -> Payload): Decoding {
    if d.error.Some? || !IsData(line) then d
    else
      match parse(line[6..])
      case Blank => d
      case Malformed(error) => d.(error := Some(error))
      case Parsed(e) =>
        match ProcessProxyEvent(e, d.partial)
        case Thrown(error) => d.(error := Some(error))
        case Updated(m, pushed) => if pushed then Push(d.(partial := m), e) else d.(partial := m)
  }

  function TakeLines(d: Decoding, lines: seq<string>, parse: string -> Payload): Decoding {
    if lines == [] then d
    else TakeLine(TakeLines(d, lines[..|lines| - 1], parse), lines[|lines| - 1], parse)
  }

  function Fail(d: Decoding, reason: string, error: string): Decoding {
    Push(d.(partial := d.partial.(stopReason := reason, errorMessage := Some(error))), Failed(reason, error))
  }

  const DROPPED := "Connection closed by proxy server before the response completed"

  /**
   * The terminal event that is still missing, if any. The reason for an exception from a line is never an abort: the abort
   * flag was looked at after the last read, and from there to the handler nothing is awaited
   * (packages/agent/src/proxy.ts:221-262).
   */
  function Close(d: Decoding): Decoding {
    if d.error.Some? then Fail(d, "error", d.error.value)
    else if !d.sawTerminal then Fail(d, "error", DROPPED)
    else d
  }

  /** The lines complete so far, and the text after the last line break. */
  function Complete(text: string): seq<string> {
    var lines := Split(text, '\n'); lines[..|lines| - 1]
  }

  function Rest(text: string): string {
    var lines := Split(text, '\n'); lines[|lines| - 1]
  }

  /** What reading a whole text at once gives. */
  function Whole(text: string, ending: Ending, parse: string -> Payload): Decoding {
    var d := TakeLines(START, Complete(text), parse);
    match ending
    case EndOfBody(flushed) => Close(TakeLine(d, Rest(text) + flushed, parse))
    case ReadFails(error, aborted) =>
      if d.error.Some? then Close(d) else Fail(d, if aborted then "aborted" else "error", error)
  }

  // ---------------------------------------------------------------- the read loop

  lemma {:induction false} TakeMoreLines(d: Decoding, a: seq<string>, b: seq<string>, parse: string -> Payload)
    ensures TakeLines(d, a + b, parse) == TakeLines(TakeLines(d, a, parse), b, parse)
    decreases |b|
  {
    if b == [] {
      assert a + b == a;
    } else {
      assert (a + b)[..|a + b| - 1] == a + b[..|b| - 1];
      TakeMoreLines(d, a, b[..|b| - 1], parse);
    }
  }

  lemma {:induction false} NothingAfterException(d: Decoding, lines: seq<string>, parse: string -> Payload)
    requires d.error.Some?
    ensures TakeLines(d, lines, parse) == d
    decreases |lines|
  {
    if lines != [] { NothingAfterException(d, lines[..|lines| - 1], parse); }
  }

  /** Splitting the rest together with the new text completes exactly the lines that the whole text completes. */
  lemma {:induction false} SplittingTheRest(text: string, chunk: string)
    ensures Complete(text + chunk) == Complete(text) + Complete(Rest(text) + chunk)
    ensures Rest(text + chunk) == Rest(Rest(text) + chunk)
  {
    hide Split;
    var rest := Rest(text);
    PiecesHaveNoSeparator(text, '\n');
    SplitAtFirstSeparator(rest, "", '\n');
    SplitOfConcat(text, chunk, '\n');
    SplitOfConcat(rest, chunk, '\n');
    GlueToTheRest(Split(text, '\n'), Split(chunk, '\n'));
  }

  lemma GlueToTheRest(p: Pieces, q: Pieces)
    ensures var rest := p[|p| - 1];
      var whole, part := Glue(p, q), Glue([rest], q);
      && whole[..|whole| - 1] == p[..|p| - 1] + part[..|part| - 1]
      && whole[|whole| - 1] == part[|part| - 1]
  {
    var part := Glue([p[|p| - 1]], q);
    assert part == [p[|p| - 1] + q[0]] + q[1..];
    assert Glue(p, q) == p[..|p| - 1] + part;
  }

  class ResponseReader {
    var buffer: string
    var decoding: Decoding

    constructor ()
      ensures buffer == "" && decoding == START
    {
      buffer, decoding := "", START;
    }

    method ProcessLine(line: string, parse: string -> Payload)
      modifies this`decoding
      ensures decoding == TakeLine(old(decoding), line, parse)
    {
      if decoding.error.Some? || !IsData(line) {
        return;
      }
      match parse(line[6..])
      case Blank =>
      case Malformed(error) =>
        decoding := decoding.(error := Some(error));
      case Parsed(e) =>
        match ProcessProxyEvent(e, decoding.partial)
        case Thrown(error) =>
          decoding := decoding.(error := Some(error));
        case Updated(m, pushed) =>
          decoding := decoding.(partial := m);
          if pushed {
            decoding := Push(decoding, e);
          }
    }

    /** Appends a piece of text and processes the lines it completes. */
    method TakeChunk(chunk: string, parse: string -> Payload)
      modifies this
      ensures buffer == Rest(old(buffer) + chunk)
      ensures decoding == TakeLines(old(decoding), Complete(old(buffer) + chunk), parse)
    {
      var pieces := Split(buffer + chunk, '\n');
      buffer := pieces[|pieces| - 1];
      var lines := pieces[..|pieces| - 1];
      for i := 0 to |lines|
        invariant buffer == pieces[|pieces| - 1]
        invariant decoding == TakeLines(old(decoding), lines[..i], parse)
      {
        ProcessLine(lines[i], parse);
        assert lines[..i + 1][..i] == lines[..i];
      }
      assert lines[..|lines|] == lines;
    }

    /** Reads the whole response. The result depends only on the text, not on how it was cut into pieces. */
    method Read(chunks: seq<string>, ending: Ending, parse: string -> Payload)
      requires buffer == "" && decoding == START
      modifies this
      ensures decoding == Whole(Concat(chunks), ending, parse)
    {
      hide TakeLine, Close, Fail, Split;
      var i := 0;
      EmptyText();
      while i < |chunks| && decoding.error == None
        invariant 0 <= i <= |chunks|
        invariant buffer == Rest(Concat(chunks[..i]))
        invariant decoding == TakeLines(START, Complete(Concat(chunks[..i])), parse)
      {
        var before := Concat(chunks[..i]);
        assert chunks[..i + 1][..i] == chunks[..i];
        SplittingTheRest(before, chunks[i]);
        TakeMoreLines(START, Complete(before), Complete(buffer + chunks[i]), parse);
        TakeChunk(chunks[i], parse);
        i := i + 1;
      }
      if decoding.error.Some? {
        ExceptionIsFinal(chunks, i, ending, parse);
        decoding := Close(decoding);
        return;
      }
      assert chunks[..i] == chunks;
      if ending.ReadFails? {
        decoding := Fail(decoding, if ending.aborted then "aborted" else "error", ending.error);
        return;
      }
      ProcessLine(buffer + ending.flushed, parse);
      decoding := Close(decoding);
    }
  }

  lemma EmptyText()
    ensures Complete("") == [] && Rest("") == ""
  {}

  /** An exception while processing a line decides the outcome, whatever text follows. */
  lemma {:induction false} ExceptionIsFinal(chunks: seq<string>, i: nat, ending: Ending, parse: string -> Payload)
    requires i <= |chunks| && TakeLines(START, Complete(Concat(chunks[..i])), parse).error.Some?
    ensures Whole(Concat(chunks), ending, parse) == Close(TakeLines(START, Complete(Concat(chunks[..i])), parse))
    decreases |chunks| - i
  {
    var d := TakeLines(START, Complete(Concat(chunks[..i])), parse);
    if i == |chunks| {
      assert chunks[..i] == chunks;
    } else {
      var before := Concat(chunks[..i]);
      assert chunks[..i + 1][..i] == chunks[..i];
      SplittingTheRest(before, chunks[i]);
      TakeMoreLines(START, Complete(before), Complete(Rest(before) + chunks[i]), parse);
      NothingAfterException(d, Complete(Rest(before) + chunks[i]), parse);
      ExceptionIsFinal(chunks, i + 1, ending, parse);
    }
  }

  // ---------------------------------------------------------------- what was decoded

  /** The events the lines carry. */
  function EventsOf(lines: seq<string>, parse: string -> Payload): seq<Event> {
    if lines == [] then []
    else
      var line := lines[|lines| - 1];
      EventsOf(lines[..|lines| - 1], parse)
      + (if IsData(line) && parse(line[6..]).Parsed? then [parse(line[6..]).event] else [])
  }

  lemma Nothing(m: Message)
    ensures ReduceAll([], m) == Updated(m, false)
  {}

  /** What one line does, if it throws nothing: its event is reduced and pushed, or there is none. */
  lemma LineCarries(d: Decoding, line: string, parse: string -> Payload)
    requires TakeLine(d, line, parse).error == None
    ensures d.error == None
    ensures if IsData(line) && parse(line[6..]).Parsed?
            then var e := parse(line[6..]).event;
                 var effect := ProcessProxyEvent(e, d.partial);
                 && effect.Updated?
                 && TakeLine(d, line, parse)
                    == (if effect.pushed then Push(d.(partial := effect.message), e) else d.(partial := effect.message))
                 && TakeLine(d, line, parse).partial == effect.message
            else TakeLine(d, line, parse) == d
  {
    hide ProcessProxyEvent;
  }

  /** Without an exception the partial message is the reduction of the events in the order of their lines. */
  lemma {:induction false} PartialIsTheReduction(lines: seq<string>, parse: string -> Payload)
    requires TakeLines(START, lines, parse).error == None
    ensures var effect := ReduceAll(EventsOf(lines, parse), START.partial);
      effect.Updated? && effect.message == TakeLines(START, lines, parse).partial
    decreases |lines|
  {
    hide TakeLine, ProcessProxyEvent, ReduceAll;
    Nothing(START.partial);
    if lines != [] {
      var before, line := lines[..|lines| - 1], lines[|lines| - 1];
      LineCarries(TakeLines(START, before, parse), line, parse);
      PartialIsTheReduction(before, parse);
      var events := EventsOf(before, parse);
      if IsData(line) && parse(line[6..]).Parsed? {
        OneMoreReduced(events, parse(line[6..]).event, START.partial);
      } else {
        assert events + [] == events;
      }
    }
  }

  /** The events that are passed on, in order. */
  ghost function Passed(events: seq<Event>): seq<Event> {
    if events == [] then []
    else
      var before, last := events[..|events| - 1], events[|events| - 1];
      Passed(before) + (if PassedOn(before, last) then [last] else [])
  }

  /** Up to the first terminal event, that one included. */
  function UpToTerminal(events: seq<Event>): seq<Event> {
    if events == [] then []
    else
      var before, last := events[..|events| - 1], events[|events| - 1];
      var kept := UpToTerminal(before);
      if kept != [] && IsTerminal(kept[|kept| - 1]) then kept else kept + [last]
  }

  lemma {:induction false} NoTerminalIsLost(events: seq<Event>)
    ensures var kept := UpToTerminal(events);
      && kept <= events
      && (forall j :: 0 <= j < |kept| - 1 ==> !IsTerminal(kept[j]))
      && (kept != events ==> kept != [] && IsTerminal(kept[|kept| - 1]))
    decreases |events|
  {
    if events != [] {
      NoTerminalIsLost(events[..|events| - 1]);
      var kept := UpToTerminal(events[..|events| - 1]);
      assert kept == events[..|events| - 1] ==> kept + [events[|events| - 1]] == events;
    }
  }

  /** What is pushed while reading is what the lines carry and passes on, in order, up to the first terminal event. */
  lemma {:induction false} PushedAreTheEvents(lines: seq<string>, parse: string -> Payload)
    requires TakeLines(START, lines, parse).error == None
    ensures var d := TakeLines(START, lines, parse);
      && d.pushed == UpToTerminal(Passed(EventsOf(lines, parse)))
      && (d.sawTerminal <==> d.pushed != [] && IsTerminal(d.pushed[|d.pushed| - 1]))
    decreases |lines|
  {
    hide TakeLine, ProcessProxyEvent, ReduceAll, UpToTerminal, IsTerminal, Push, Passed;
    if lines == [] {
      NothingIsPushed();
    } else {
      var before, line := lines[..|lines| - 1], lines[|lines| - 1];
      var d, events := TakeLines(START, before, parse), EventsOf(before, parse);
      LineCarries(d, line, parse);
      PushedAreTheEvents(before, parse);
      PartialIsTheReduction(before, parse);
      if IsData(line) && parse(line[6..]).Parsed? {
        PushedOne(events, parse(line[6..]).event, d);
      } else {
        assert events + [] == events;
      }
    }
  }

  lemma NothingIsPushed()
    ensures UpToTerminal(Passed([])) == [] && START.pushed == [] && !START.sawTerminal
  {}

  lemma PushedOne(events: seq<Event>, e: Event, d: Decoding)
    requires ReduceAll(events, START.partial).Updated? && ReduceAll(events, START.partial).message == d.partial
    requires ProcessProxyEvent(e, d.partial).Updated?
    requires d.pushed == UpToTerminal(Passed(events))
    requires d.sawTerminal <==> d.pushed != [] && IsTerminal(d.pushed[|d.pushed| - 1])
    ensures var effect := ProcessProxyEvent(e, d.partial);
      var d' := if effect.pushed then Push(d.(partial := effect.message), e) else d.(partial := effect.message);
      && d'.pushed == UpToTerminal(Passed(events + [e]))
      && (d'.sawTerminal <==> d'.pushed != [] && IsTerminal(d'.pushed[|d'.pushed| - 1]))
  {
    hide ReduceAll, ProcessProxyEvent, Fits, PassedOn;
    FitsIffUpdated(events, e, START.partial.stopReason);
    PushedIffPassedOn(events, e, START.partial.stopReason);
    assert (events + [e])[..|events|] == events;
    var passed := Passed(events);
    if PassedOn(events, e) {
      assert (passed + [e])[..|passed|] == passed;
    } else {
      assert passed + [] == passed;
    }
  }

  // ---------------------------------------------------------------- how it ends

  /** At most one terminal event, and it is last. */
  ghost predicate TerminalIsLast(d: Decoding) {
    && (forall i :: 0 <= i < |d.pushed| - 1 ==> !IsTerminal(d.pushed[i]))
    && (d.sawTerminal <==> d.pushed != [] && IsTerminal(d.pushed[|d.pushed| - 1]))
  }

  lemma {:induction false} LinesKeepTerminalLast(d: Decoding, lines: seq<string>, parse: string -> Payload)
    requires TerminalIsLast(d)
    ensures TerminalIsLast(TakeLines(d, lines, parse))
    decreases |lines|
  {
    if lines != [] { LinesKeepTerminalLast(d, lines[..|lines| - 1], parse); }
  }

  /**
   * However reading ends, exactly one terminal event has been pushed, as the last one: the server's own if one came, or
   * an error for the exception, the abort or the dropped connection.
   */
  lemma {:induction false} AlwaysOneTerminalEvent(text: string, ending: Ending, parse: string -> Payload)
    ensures var d := Whole(text, ending, parse);
      && d.pushed != [] && IsTerminal(d.pushed[|d.pushed| - 1])
      && (forall i :: 0 <= i < |d.pushed| - 1 ==> !IsTerminal(d.pushed[i]))
  {
    hide Split, TakeLine, ProcessProxyEvent;
    LinesKeepTerminalLast(START, Complete(text), parse);
    var d := TakeLines(START, Complete(text), parse);
    if ending.EndOfBody? {
      var last := Rest(text) + ending.flushed;
      LinesKeepTerminalLast(d, [last], parse);
      assert [last][..0] == [] && TakeLines(d, [], parse) == d;
    }
  }

  /** The lines that are processed: at the end of the body that includes the text after the last line break. */
  function AllLines(text: string, ending: Ending): seq<string> {
    if ending.EndOfBody? then Complete(text) + [Rest(text) + ending.flushed] else Complete(text)
  }

  /**
   * The terminal event says how it ended. The server's own stands whatever happens after it; without one, it is an error
   * for the first exception of a line, or for the reader's, or for a connection that was dropped.
   */
  lemma {:induction false} EndIsReported(text: string, ending: Ending, parse: string -> Payload)
    ensures var d := TakeLines(START, AllLines(text, ending), parse);
      var whole := Whole(text, ending, parse);
      var reason := if d.error == None && ending.ReadFails? && ending.aborted then "aborted" else "error";
      var message := if d.error.Some? then d.error.value
                     else if ending.ReadFails? then ending.error
                     else "Connection closed by proxy server before the response completed";
      && whole.pushed == (if d.sawTerminal then d.pushed else d.pushed + [Failed(reason, message)])
      && whole.partial ==
           if d.error == None && ending.EndOfBody? && d.sawTerminal then d.partial
           else d.partial.(stopReason := reason, errorMessage := Some(message))
  {
    hide Split, TakeLine, ProcessProxyEvent;
    if ending.EndOfBody? {
      var last := Rest(text) + ending.flushed;
      TakeMoreLines(START, Complete(text), [last], parse);
      var d := TakeLines(START, Complete(text), parse);
      assert [last][..0] == [] && TakeLines(d, [], parse) == d;
    }
  }

  /** A line carries an event exactly when it is `data: ` followed by what parses as one. */
  lemma {:induction false} DataLinesCarryEvents(line: string, parse: string -> Payload)
    ensures forall data :: line == "data: " + data ==>
      EventsOf([line], parse) == if parse(data).Parsed? then [parse(data).event] else []
    ensures (forall data: string :: line != "data: " + data) ==> EventsOf([line], parse) == []
  {
    assert [line][..0] == [] && EventsOf([], parse) == [];
    if IsData(line) { assert line == "data: " + line[6..]; }
    forall data | line == "data: " + data
      ensures line[6..] == data && IsData(line)
    {}
  }
}
