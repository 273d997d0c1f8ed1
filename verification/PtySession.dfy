/**
 * The input object of a PTY session as its callers and its writer thread run it, each without interruption: every method
 * is a run of the steps of `PtyInput` (crates/senpi-pty/src/session_input.rs:39-127).
 */
module PtySession {
  import opened Options
  import opened PtyInput

  datatype SendResult = Accepted | SpawnFailed | ClosedSession | WriterFailed(message: string) | BacklogFull(backlog: int)

  /** How one write to the child ends: all of it, or an error after `done` bytes. */
  datatype WriteOutcome = Written | Breaks(done: nat, message: string)

  function SendSteps(bytes: Bytes, spawns: bool): seq<Step> {
    [BeginSend(bytes, spawns), CheckFailure, Reserve, Decide, Enqueue, GiveUp]
  }

  lemma {:induction false} RunConcat(s: State, a: seq<Step>, b: seq<Step>)
    ensures Run(s, a + b) == Run(Run(s, a), b)
    decreases |a|
  {
    if a == [] {
      assert a + b == b;
    } else {
      assert (a + b)[0] == a[0] && (a + b)[1..] == a[1..] + b;
      RunConcat(Next(s, a[0]), a[1..], b);
    }
  }

  lemma FiveSteps(s: State, a: Step, b: Step, c: Step, d: Step, e: Step)
    ensures Run(s, [a, b, c, d, e]) == Next(Next(Next(Next(Next(s, a), b), c), d), e)
  {
    hide Next;
    var s1 := Next(s, a);
    var s2 := Next(s1, b);
    var s3 := Next(s2, c);
    var s4 := Next(s3, d);
    assert Run(s, [a, b, c, d, e]) == Run(s1, [b, c, d, e]) == Run(s2, [c, d, e]) == Run(s3, [d, e]) == Run(s4, [e])
        == Run(Next(s4, e), []);
  }

  /** A `send` nobody interrupts: what it answers, and what it leaves. */
  lemma SendIsAtomic(s: State, bytes: Bytes, spawns: bool)
    requires Controlled(s) && s.sender == NoSend
    ensures var s' := Run(s, SendSteps(bytes, spawns));
      var started := s.(input := if spawns then Running else Closed, writer := if spawns then Receiving else s.writer);
      var ready := if s.input == Idle then started else s;
      s' == if ready.input == Closed || ready.failure.Some?
               || (ready.pending > 0 && ready.pending + |bytes| > MAX_PENDING_INPUT_BYTES) then ready
            else ready.(pending := ready.pending + |bytes|, queue := ready.queue + [bytes],
                        accepted := ready.accepted + bytes)
  {
    hide Run;
    RunConcat(s, [BeginSend(bytes, spawns)], [CheckFailure, Reserve, Decide, Enqueue, GiveUp]);
    RunOne(s, BeginSend(bytes, spawns));
    FiveSteps(Next(s, BeginSend(bytes, spawns)), CheckFailure, Reserve, Decide, Enqueue, GiveUp);
    assert SendSteps(bytes, spawns) == [BeginSend(bytes, spawns)] + [CheckFailure, Reserve, Decide, Enqueue, GiveUp];
  }

  lemma RunOne(s: State, step: Step)
    ensures Run(s, [step]) == Next(s, step)
  {
    hide Next;
    assert Run(s, [step]) == Run(Next(s, step), []);
  }

  lemma NothingPendingAtFirst(s: State)
    requires Inv(s)
    ensures s.pending >= 0 && (s.input == Idle ==> s.pending == 0)
  {}

  class PtyInputQueue {
    var input: Input
    var started: bool
    var pending: int
    var failure: Option<string>
    var queue: seq<Bytes>
    var accepted: Bytes
    var written: Bytes

    constructor ()
      ensures View() == START
    {
      input, started, pending, failure := Idle, false, 0, None;
      queue, accepted, written := [], [], [];
    }

    function View(): State
      reads this
    {
      State(input, NoSend, if started then Receiving else NotStarted, pending, failure, queue, accepted, written)
    }

    /**
     * Refused after a failure, after `Close`, or when the backlog is not empty and would grow beyond the limit; a write
     * into an empty backlog is accepted whatever its size.
     */
    method Send(bytes: Bytes, spawns: bool) returns (r: SendResult)
      requires Inv(View())
      modifies this
      ensures View() == Run(old(View()), SendSteps(bytes, spawns)) && Inv(View())
      ensures r == Accepted <==>
        (old(input) == Running || (old(input) == Idle && spawns)) && old(failure) == None
        && (old(pending) == 0 || old(pending) + |bytes| <= MAX_PENDING_INPUT_BYTES)
      ensures accepted == if r == Accepted then old(accepted) + bytes else old(accepted)
      ensures r.BacklogFull? ==> r.backlog == old(pending) > 0 && View() == old(View())
    {
      hide Counted, InOrder, Run, Next;
      NothingPendingAtFirst(View());
      SendIsAtomic(View(), bytes, spawns);
      RunKeepsInv(View(), SendSteps(bytes, spawns));
      if input == Idle {
        input := Closed;
        if !spawns {
          return SpawnFailed;
        }
        input, started := Running, true;
      }
      if input == Closed {
        return ClosedSession;
      }
      if failure.Some? {
        return WriterFailed(failure.value);
      }
      var backlog := pending;
      pending := pending + |bytes|;
      if backlog > 0 && backlog + |bytes| > MAX_PENDING_INPUT_BYTES {
        pending := pending - |bytes|;
        return BacklogFull(backlog);
      }
      queue := queue + [bytes];
      accepted := accepted + bytes;
      r := Accepted;
    }

    method CloseInput()
      modifies this`input
      ensures View() == Run(old(View()), [Close])
    {
      assert Run(View(), [Close]) == Run(Next(View(), Close), []);
      input := Closed;
    }

    /** The steps that deliver one chunk. */
    static function ChunkSteps(chunk: Bytes, outcome: WriteOutcome): seq<Step> {
      match outcome
      case Written => [Receive, LookAtFailure, WriteSome(|chunk|), Flushed, Finish]
      case Breaks(done, message) => [Receive, LookAtFailure, WriteSome(done), WriteFails(message), Finish]
    }

    /** One turn of the writer thread's loop. */
    method DeliverOne(outcome: WriteOutcome)
      requires started && queue != [] && Inv(View())
      requires outcome.Breaks? ==> outcome.done <= |queue[0]|
      modifies this`queue, this`written, this`failure, this`pending
      ensures View() == Run(old(View()), ChunkSteps(old(queue)[0], outcome)) && Inv(View())
      ensures queue == old(queue)[1..] && pending == old(pending) - |old(queue)[0]|
      ensures old(failure).Some? ==> failure == old(failure) && written == old(written)
      ensures old(failure) == None && outcome.Written? ==> failure == None && written == old(written) + old(queue)[0]
    {
      var chunk := queue[0];
      RunKeepsInv(View(), ChunkSteps(chunk, outcome));
      DeliverySteps(View(), outcome);
      queue := queue[1..];
      if failure == None {
        match outcome
        case Written =>
          written := written + chunk;
        case Breaks(done, message) =>
          written := written + chunk[..done];
          failure := Some(message);
      }
      pending := pending - |chunk|;
    }

    /** The writer thread's loop, until the queue is empty: the counter ends at zero whatever the writes did. */
    method Deliver(outcomes: seq<WriteOutcome>) returns (ghost steps: seq<Step>)
      requires started && Inv(View()) && |outcomes| == |queue|
      requires forall i :: 0 <= i < |outcomes| && outcomes[i].Breaks? ==> outcomes[i].done <= |queue[i]|
      modifies this`queue, this`written, this`failure, this`pending
      ensures View() == Run(old(View()), steps) && Inv(View())
      ensures queue == [] && pending == 0 && written <= accepted
      ensures failure == None ==> written == accepted
    {
      var i := 0;
      steps := [];
      while queue != []
        invariant 0 <= i <= |outcomes| && queue == old(queue)[i..] && |queue| == |outcomes| - i && Inv(View())
        invariant View() == Run(old(View()), steps)
      {
        RunConcat(old(View()), steps, ChunkSteps(queue[0], outcomes[i]));
        steps := steps + ChunkSteps(queue[0], outcomes[i]);
        DeliverOne(outcomes[i]);
        i := i + 1;
      }
    }
  }

  lemma DeliverySteps(s: State, outcome: WriteOutcome)
    requires s.sender == NoSend && s.writer.Receiving? && s.queue != []
    requires outcome.Breaks? ==> outcome.done <= |s.queue[0]|
    ensures var chunk := s.queue[0];
      var rest := s.(queue := s.queue[1..], pending := s.pending - |chunk|);
      Run(s, PtyInputQueue.ChunkSteps(chunk, outcome)) ==
        if s.failure.Some? then rest
        else match outcome
             case Written => rest.(written := s.written + chunk)
             case Breaks(done, message) => rest.(written := s.written + chunk[..done], failure := Some(message))
  {
    hide Run;
    var steps := PtyInputQueue.ChunkSteps(s.queue[0], outcome);
    FiveSteps(s, steps[0], steps[1], steps[2], steps[3], steps[4]);
  }
}
