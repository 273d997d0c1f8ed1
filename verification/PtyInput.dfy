/**
 * The input backlog of a PTY session (crates/senpi-pty/src/session_input.rs:16-131): senders, one at a time under the
 * state mutex, against the writer thread. Each atomic action of either is one step.
 */
module PtyInput {
  import opened Options

  type Bytes = seq<bv8>

  const MAX_PENDING_INPUT_BYTES: nat := 16 * 1024 * 1024

  datatype Input = Idle | Running | Closed

  /** Where a `send` in progress stands; it holds the state mutex from its first step to its answer. */
  datatype SenderPc =
    | NoSend
    | Entered(chunk: Bytes)
    | Checked(chunk: Bytes)
    | Reserved(chunk: Bytes, backlog: int)
    | Sending(chunk: Bytes, backlog: int)
    | Refusing(chunk: Bytes)

  /** Where the writer thread stands; `done` bytes of its chunk have reached the child. */
  datatype WriterPc =
    | NotStarted
    | Receiving
    | Checking(chunk: Bytes)
    | Writing(chunk: Bytes, done: nat)
    | Finishing(chunk: Bytes)
    | Exited

  /** `accepted` and `written` record every byte a `send` accepted and every byte that reached the child. */
  datatype State = State(
    input: Input,
    sender: SenderPc,
    writer: WriterPc,
    pending: int,
    failure: Option<string>,
    queue: seq<Bytes>,
    accepted: Bytes,
    written: Bytes)

  datatype Step =
    | BeginSend(bytes: Bytes, spawns: bool)
    | CheckFailure
    | Reserve
    | Decide
    | Enqueue
    | GiveUp
    | Close
    | Receive
    | LookAtFailure
    | WriteSome(n: nat)
    | Flushed
    | WriteFails(error: string)
    | Finish
    | Exit

  const START := State(Idle, NoSend, NotStarted, 0, None, [], [], [])

  function Next(s: State, step: Step): State {
    match step
    case BeginSend(bytes, spawns) =>
      if s.sender != NoSend || s.input == Closed then s
      else if s.input == Running then s.(sender := Entered(bytes))
      else if spawns then s.(input := Running, writer := Receiving, sender := Entered(bytes))
      else s.(input := Closed)
    case CheckFailure =>
      if !s.sender.Entered? then s
      else s.(sender := if s.failure.Some? then NoSend else Checked(s.sender.chunk))
    case Reserve =>
      if !s.sender.Checked? then s
      else s.(sender := Reserved(s.sender.chunk, s.pending), pending := s.pending + |s.sender.chunk|)
    case Decide =>
      if !s.sender.Reserved? then s
      else
        var backlog, length := s.sender.backlog, |s.sender.chunk|;
        s.(sender := if backlog > 0 && backlog + length > MAX_PENDING_INPUT_BYTES then Refusing(s.sender.chunk)
                     else Sending(s.sender.chunk, backlog))
    case Enqueue =>
      if !s.sender.Sending? then s
      else if s.writer.Exited? then s.(sender := Refusing(s.sender.chunk))
      else s.(sender := NoSend, queue := s.queue + [s.sender.chunk], accepted := s.accepted + s.sender.chunk)
    case GiveUp =>
      if !s.sender.Refusing? then s
      else s.(sender := NoSend, pending := s.pending - |s.sender.chunk|)
    case Close =>
      if s.sender != NoSend then s else s.(input := Closed)
    case Receive =>
      if !s.writer.Receiving? || s.queue == [] then s
      else s.(writer := Checking(s.queue[0]), queue := s.queue[1..])
    case LookAtFailure =>
      if !s.writer.Checking? then s
      else s.(writer := if s.failure.Some? then Finishing(s.writer.chunk) else Writing(s.writer.chunk, 0))
    case WriteSome(n) =>
      if !s.writer.Writing? || n == 0 || s.writer.done + n > |s.writer.chunk| then s
      else
        var done := s.writer.done;
        s.(writer := Writing(s.writer.chunk, done + n), written := s.written + s.writer.chunk[done..done + n])
    case Flushed =>
      if !s.writer.Writing? || s.writer.done != |s.writer.chunk| then s
      else s.(writer := Finishing(s.writer.chunk))
    case WriteFails(error) =>
      if !s.writer.Writing? then s
      else s.(writer := Finishing(s.writer.chunk), failure := Some(error))
    case Finish =>
      if !s.writer.Finishing? then s
      else s.(writer := Receiving, pending := s.pending - |s.writer.chunk|)
    case Exit =>
      if !s.writer.Receiving? || s.queue != [] || s.input != Closed then s else s.(writer := Exited)
  }

  function Run(s: State, steps: seq<Step>): State
    decreases |steps|
  {
    if steps == [] then s else Run(Next(s, steps[0]), steps[1..])
  }

  // ---------------------------------------------------------------- what is outstanding

  /** The chunks accepted and not yet finished with, oldest first. */
  function Outstanding(s: State): seq<Bytes> {
    (if s.writer.Checking? || s.writer.Writing? || s.writer.Finishing? then [s.writer.chunk] else []) + s.queue
  }

  function Total(chunks: seq<Bytes>): nat {
    if chunks == [] then 0 else |chunks[0]| + Total(chunks[1..])
  }

  function Flat(chunks: seq<Bytes>): Bytes {
    if chunks == [] then [] else chunks[0] + Flat(chunks[1..])
  }

  /** What a `send` in progress has added to the counter for bytes that are not queued. */
  function Claim(s: State): nat {
    if s.sender.Reserved? || s.sender.Sending? || s.sender.Refusing? then |s.sender.chunk| else 0
  }

  /** The accepted bytes that have not reached the child yet. */
  function Unwritten(s: State): Bytes {
    (if s.writer.Checking? then s.writer.chunk
     else if s.writer.Writing? && s.writer.done <= |s.writer.chunk| then s.writer.chunk[s.writer.done..]
     else []) + Flat(s.queue)
  }

  /** More than the limit is outstanding only as one chunk. */
  ghost predicate Bulk(chunks: seq<Bytes>) {
    Total(chunks) > MAX_PENDING_INPUT_BYTES ==> exists i :: 0 <= i < |chunks| && |chunks[i]| == Total(chunks)
  }

  lemma {:induction false} TotalOfAppended(chunks: seq<Bytes>, chunk: Bytes)
    ensures Total(chunks + [chunk]) == Total(chunks) + |chunk|
    decreases |chunks|
  {
    if chunks == [] {
      assert [] + [chunk] == [chunk] && [chunk][1..] == [];
    } else {
      assert (chunks + [chunk])[1..] == chunks[1..] + [chunk];
      TotalOfAppended(chunks[1..], chunk);
    }
  }

  lemma {:induction false} FlatOfAppended(chunks: seq<Bytes>, chunk: Bytes)
    ensures Flat(chunks + [chunk]) == Flat(chunks) + chunk
    decreases |chunks|
  {
    if chunks == [] {
      assert [] + [chunk] == [chunk] && [chunk][1..] == [];
    } else {
      assert (chunks + [chunk])[1..] == chunks[1..] + [chunk];
      FlatOfAppended(chunks[1..], chunk);
      assert chunks[0] + (Flat(chunks[1..]) + chunk) == chunks[0] + Flat(chunks[1..]) + chunk;
    }
  }

  lemma {:induction false} TotalBoundsEach(chunks: seq<Bytes>, i: nat)
    requires i < |chunks|
    ensures |chunks[i]| <= Total(chunks)
    decreases |chunks|
  {
    if i > 0 { TotalBoundsEach(chunks[1..], i - 1); }
  }

  lemma BulkAppended(chunks: seq<Bytes>, chunk: Bytes)
    requires Bulk(chunks)
    requires Total(chunks) == 0 || Total(chunks) + |chunk| <= MAX_PENDING_INPUT_BYTES
    ensures Bulk(chunks + [chunk])
  {
    TotalOfAppended(chunks, chunk);
    assert (chunks + [chunk])[|chunks|] == chunk;
  }

  lemma BulkShortened(chunks: seq<Bytes>)
    requires Bulk(chunks) && chunks != []
    ensures Bulk(chunks[1..])
  {
    if Total(chunks[1..]) > MAX_PENDING_INPUT_BYTES {
      var i :| 0 <= i < |chunks| && |chunks[i]| == Total(chunks);
      if i > 0 {
        TotalBoundsEach(chunks[1..], i - 1);
        assert |chunks[1..][i - 1]| == Total(chunks[1..]);
      }
    }
  }

  // ---------------------------------------------------------------- the invariant

  predicate Controlled(s: State) {
    && (s.input == Idle ==> s.writer.NotStarted?)
    && (s.writer.NotStarted? ==> s.input != Running && s.queue == [] && s.accepted == [] && s.failure == None)
    && (s.sender != NoSend ==> s.input == Running)
    && (s.writer.Exited? ==> s.input == Closed && s.queue == [])
    && (s.writer.Writing? ==> s.failure == None && s.writer.done <= |s.writer.chunk|)
  }

  /** The counter is what is outstanding and what a `send` in progress claims, and only one chunk may exceed the limit. */
  ghost predicate Counted(s: State) {
    && s.pending == Total(Outstanding(s)) + Claim(s)
    && Bulk(Outstanding(s))
    && (s.sender.Reserved? || s.sender.Sending? ==> Total(Outstanding(s)) <= s.sender.backlog)
    && (s.sender.Sending? ==>
          s.sender.backlog == 0 || s.sender.backlog + |s.sender.chunk| <= MAX_PENDING_INPUT_BYTES)
  }

  /** What reached the child is a prefix of what was accepted, and until a failure nothing in between is missing. */
  ghost predicate InOrder(s: State) {
    s.written <= s.accepted && (s.failure == None ==> s.accepted == s.written + Unwritten(s))
  }

  ghost predicate Inv(s: State) {
    Controlled(s) && Counted(s) && InOrder(s)
  }

  predicate IsWriterStep(step: Step) {
    step.Receive? || step.LookAtFailure? || step.WriteSome? || step.Flushed? || step.WriteFails? || step.Finish?
    || step.Exit?
  }

  lemma StepKeepsControlled(s: State, step: Step)
    requires Controlled(s)
    ensures Controlled(Next(s, step))
  {}

  lemma SenderStepKeepsCounted(s: State, step: Step)
    requires Controlled(s) && Counted(s) && !IsWriterStep(step)
    ensures Counted(Next(s, step))
  {
    hide Bulk, Total;
    var s' := Next(s, step);
    if step.Enqueue? && s.sender.Sending? && !s.writer.Exited? {
      var chunk := s.sender.chunk;
      TotalOfAppended(Outstanding(s), chunk);
      BulkAppended(Outstanding(s), chunk);
      assert Outstanding(s') == Outstanding(s) + [chunk];
    } else {
      assert Outstanding(s') == Outstanding(s);
    }
  }

  lemma FinishKeepsCounted(s: State)
    requires Counted(s) && s.writer.Finishing?
    ensures Counted(Next(s, Finish))
  {
    hide Bulk, Total;
    var chunks := Outstanding(s);
    assert chunks[1..] == Outstanding(Next(s, Finish)) && chunks[0] == s.writer.chunk;
    FirstAndRest(chunks);
    BulkShortened(chunks);
  }

  lemma WriterStepKeepsCounted(s: State, step: Step)
    requires Counted(s) && IsWriterStep(step)
    ensures Counted(Next(s, step))
  {
    hide Bulk, Total;
    if step.Finish? && s.writer.Finishing? {
      FinishKeepsCounted(s);
    } else if step.Receive? && s.writer.Receiving? && s.queue != [] {
      assert [s.queue[0]] + s.queue[1..] == s.queue;
      assert Outstanding(Next(s, step)) == Outstanding(s);
    } else {
      assert Outstanding(Next(s, step)) == Outstanding(s);
    }
  }

  lemma FirstAndRest(chunks: seq<Bytes>)
    requires chunks != []
    ensures Total(chunks) == |chunks[0]| + Total(chunks[1..])
  {}

  lemma EnqueueKeepsInOrder(s: State)
    requires InOrder(s) && s.sender.Sending? && !s.writer.Exited?
    ensures InOrder(Next(s, Enqueue))
  {
    var s', chunk := Next(s, Enqueue), s.sender.chunk;
    FlatOfAppended(s.queue, chunk);
    hide Flat;
    assert s'.accepted == s.accepted + chunk && s'.written == s.written;
    assert Unwritten(s') == Unwritten(s) + chunk;
    assert s.written + Unwritten(s') == s.written + Unwritten(s) + chunk;
  }

  lemma WriteKeepsInOrder(s: State, n: nat)
    requires Controlled(s) && InOrder(s) && s.writer.Writing? && n > 0 && s.writer.done + n <= |s.writer.chunk|
    ensures InOrder(Next(s, WriteSome(n)))
  {
    var s', done, chunk := Next(s, WriteSome(n)), s.writer.done, s.writer.chunk;
    assert chunk[done..] == chunk[done..done + n] + chunk[done + n..];
    hide Flat;
    assert Unwritten(s) == chunk[done..done + n] + Unwritten(s');
    assert s.accepted == s'.written + Unwritten(s');
  }

  lemma OtherStepsKeepInOrder(s: State, step: Step)
    requires Controlled(s) && InOrder(s)
    requires !(step.Enqueue? && s.sender.Sending? && !s.writer.Exited?)
    requires !(step.WriteSome? && Next(s, step) != s)
    requires !(step.Receive? && s.writer.Receiving? && s.queue != [])
    ensures InOrder(Next(s, step))
  {
    hide Flat;
    assert Next(s, step).failure == None ==> Unwritten(Next(s, step)) == Unwritten(s);
  }

  lemma StepKeepsInOrder(s: State, step: Step)
    requires Controlled(s) && InOrder(s)
    ensures InOrder(Next(s, step))
  {
    if step.Enqueue? && s.sender.Sending? && !s.writer.Exited? {
      EnqueueKeepsInOrder(s);
    } else if step.WriteSome? && Next(s, step) != s {
      WriteKeepsInOrder(s, step.n);
    } else if step.Receive? && s.writer.Receiving? && s.queue != [] {
      assert Unwritten(Next(s, step)) == Unwritten(s);
    } else {
      OtherStepsKeepInOrder(s, step);
    }
  }

  lemma {:induction false} RunKeepsInv(s: State, steps: seq<Step>)
    requires Inv(s)
    ensures Inv(Run(s, steps))
    decreases |steps|
  {
    if steps != [] {
      hide Controlled, Counted, InOrder, Next;
      StepKeepsControlled(s, steps[0]);
      if IsWriterStep(steps[0]) { WriterStepKeepsCounted(s, steps[0]); } else { SenderStepKeepsCounted(s, steps[0]); }
      StepKeepsInOrder(s, steps[0]);
      RunKeepsInv(Next(s, steps[0]), steps[1..]);
    }
  }

  // ---------------------------------------------------------------- what holds in every run

  /**
   * The counter is exact and bounded: outside a `send` it is the number of bytes queued or being written, and beyond the
   * limit only while one chunk accounts for all of it. A `send` that reaches the channel finds the writer thread alive.
   */
  lemma {:induction false} BacklogIsCounted(steps: seq<Step>)
    ensures var s := Run(START, steps);
      && (s.sender == NoSend ==> s.pending == Total(Outstanding(s)))
      && (s.sender == NoSend && s.pending > MAX_PENDING_INPUT_BYTES ==>
            exists i :: 0 <= i < |Outstanding(s)| && |Outstanding(s)[i]| == s.pending)
      && (s.sender.Sending? ==> !s.writer.Exited?)
  {
    RunKeepsInv(START, steps);
  }

  /** The child gets a prefix of what was accepted, in order, and without a failure nothing is lost on the way. */
  lemma {:induction false} WrittenIsAcceptedInOrder(steps: seq<Step>)
    ensures var s := Run(START, steps);
      && s.written <= s.accepted
      && (s.failure == None ==> s.accepted == s.written + Unwritten(s))
      && (s.failure == None && s.sender == NoSend && s.pending == 0 ==> s.written == s.accepted)
  {
    RunKeepsInv(START, steps);
    var s := Run(START, steps);
    if s.sender == NoSend && s.pending == 0 { NothingPendingNothingUnwritten(s); }
  }

  lemma NothingPendingNothingUnwritten(s: State)
    requires Controlled(s) && Total(Outstanding(s)) == 0
    ensures Unwritten(s) == []
  {
    hide Flat, Total;
    NothingOutstanding(s.queue);
    if Outstanding(s) != s.queue {
      assert Outstanding(s)[0] == s.writer.chunk && Outstanding(s)[1..] == s.queue;
      FirstAndRest(Outstanding(s));
    }
  }

  lemma {:induction false} NothingOutstanding(chunks: seq<Bytes>)
    ensures Total(chunks) == 0 ==> Flat(chunks) == []
    decreases |chunks|
  {
    if chunks != [] { NothingOutstanding(chunks[1..]); }
  }

  /** A write failure is final: the message stays, no byte is written after it, and no later `send` is accepted. */
  lemma {:induction false} FailureIsSticky(s: State, steps: seq<Step>)
    requires Inv(s) && s.failure.Some?
    ensures var s' := Run(s, steps);
      && s'.failure == s.failure && s'.written == s.written
      && (s.sender == NoSend || s.sender.Entered? ==> s'.accepted == s.accepted)
    decreases |steps|
  {
    if steps != [] {
      RunKeepsInv(s, [steps[0]]);
      assert Run(s, [steps[0]]) == Run(Next(s, steps[0]), []);
      FailureStays(s, steps[0]);
      hide Inv, Next;
      FailureIsSticky(Next(s, steps[0]), steps[1..]);
    }
  }

  lemma FailureStays(s: State, step: Step)
    requires Controlled(s) && s.failure.Some?
    ensures var s' := Next(s, step);
      && s'.failure == s.failure && s'.written == s.written
      && (s.sender == NoSend || s.sender.Entered? ==>
            s'.accepted == s.accepted && (s'.sender == NoSend || s'.sender.Entered?))
  {}

  /** The step by which the writer thread goes on when its writes succeed. */
  function WriterMove(s: State): Step {
    match s.writer
    case Checking(_) => LookAtFailure
    case Writing(chunk, done) => if done < |chunk| then WriteSome(|chunk| - done) else Flushed
    case Finishing(_) => Finish
    case _ => Receive
  }

  function Work(queue: seq<Bytes>): nat {
    if queue == [] then 0 else |queue[0]| + 5 + Work(queue[1..])
  }

  /** An upper bound on the steps the writer thread can still take by itself. */
  function Rank(s: State): int {
    Work(s.queue) +
    match s.writer
    case Receiving => 1
    case Checking(chunk) => |chunk| + 5
    case Writing(chunk, done) => |chunk| - done + 4
    case Finishing(_) => 3
    case _ => 0
  }

  predicate WriterRun(s: State, steps: seq<Step>)
    decreases |steps|
  {
    steps == [] || (IsWriterStep(steps[0]) && Next(s, steps[0]) != s && WriterRun(Next(s, steps[0]), steps[1..]))
  }

  /**
   * The backlog drains, after a failure too: whatever the outcome of its writes, the writer thread can only take a bounded
   * number of steps by itself, and it can always take one while anything is outstanding. So it ends with nothing pending.
   */
  lemma {:induction false} PendingDrains(s: State, steps: seq<Step>)
    requires Inv(s) && s.sender == NoSend && WriterRun(s, steps)
    ensures var s' := Run(s, steps);
      && 0 <= Rank(s') && |steps| <= Rank(s) - Rank(s')
      && (s'.pending > 0 ==> IsWriterStep(WriterMove(s')) && Next(s', WriterMove(s')) != s')
      && (Rank(s') == 0 ==> s'.pending == 0)
    decreases |steps|
  {
    if steps == [] {
      assert s.writer.NotStarted? || s.writer.Exited? ==> Outstanding(s) == [];
      assert s.writer.Receiving? && s.queue == [] ==> Outstanding(s) == [];
    } else {
      RunKeepsInv(s, [steps[0]]);
      assert Run(s, [steps[0]]) == Run(Next(s, steps[0]), []);
      RankFalls(s, steps[0]);
      hide Inv;
      PendingDrains(Next(s, steps[0]), steps[1..]);
    }
  }

  lemma RankFalls(s: State, step: Step)
    requires Controlled(s) && IsWriterStep(step) && Next(s, step) != s
    ensures Rank(Next(s, step)) < Rank(s) && Next(s, step).sender == s.sender
  {}

  /** The counter is a 64-bit word: as long as no chunk is longer than an allocation can be, it never wraps around. */
  lemma {:induction false} PendingNeverWraps(steps: seq<Step>)
    ensures var s := Run(START, steps);
      (forall chunk :: chunk in Outstanding(s) ==> |chunk| < 0x8000_0000_0000_0000)
      && Claim(s) < 0x8000_0000_0000_0000 ==>
        0 <= s.pending < 0x1_0000_0000_0000_0000
  {
    RunKeepsInv(START, steps);
    var s := Run(START, steps);
    if Total(Outstanding(s)) > MAX_PENDING_INPUT_BYTES {
      var i :| 0 <= i < |Outstanding(s)| && |Outstanding(s)[i]| == Total(Outstanding(s));
      assert Outstanding(s)[i] in Outstanding(s);
    }
  }
}
