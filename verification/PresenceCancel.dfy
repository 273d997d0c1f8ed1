/**
 * Cancelling a blocking presence wait: the token shared by the waiter and its cancellers
 * (crates/senpi-socket-secret/src/presence.rs:91-148) and the wait itself, which issues a lock request that may stay
 * pending, registers a canceller for it, blocks, and clears the canceller
 * (crates/senpi-socket-secret/src/presence_windows.rs:145-189).
 */
module PresenceCancel {
  import opened Options
  import opened PresenceKernel
  import opened PresenceRules

  // ---------------------------------------------------------------- the token

  type IoRequest = nat

  /** `canceller` is the closure that cancels one request; `cancelCalls` lists the requests such closures cancelled. */
  class CancelToken {
    var cancelled: bool
    var canceller: Option<IoRequest>
    var cancelCalls: seq<IoRequest>

    ghost predicate Valid()
      reads this
    {
      canceller.Some? ==> !cancelled
    }

    constructor ()
      ensures Valid() && !cancelled && canceller == None && cancelCalls == []
    {
      cancelled, canceller, cancelCalls := false, None, [];
    }

    method Cancel()
      requires Valid()
      modifies this
      ensures Valid() && cancelled && canceller == None
      ensures cancelCalls == old(cancelCalls) + (if old(canceller).Some? then [old(canceller).value] else [])
      ensures old(cancelled) ==> cancelCalls == old(cancelCalls)
    {
      cancelled := true;
      if canceller.Some? {
        var request := canceller.value;
        canceller := None;
        cancelCalls := cancelCalls + [request];
      }
    }

    method IsCancelled() returns (r: bool)
      ensures r == cancelled
    {
      r := cancelled;
    }

    /** Either the request will be cancelled by the next `Cancel`, or the caller learns that it must do so itself. */
    method Register(request: IoRequest) returns (registered: bool)
      requires Valid()
      modifies this`canceller
      ensures Valid() && registered == !cancelled
      ensures canceller == if registered then Some(request) else old(canceller)
    {
      if cancelled {
        return false;
      }
      canceller := Some(request);
      registered := true;
    }

    method HasPendingWait() returns (r: bool)
      ensures r == canceller.Some?
    {
      r := canceller.Some?;
    }

    method Clear()
      requires Valid()
      modifies this`canceller
      ensures Valid() && canceller == None
    {
      canceller := None;
    }
  }

  // ---------------------------------------------------------------- the race, step by step

  /** The answers of a lock request that was pending. The system aborts a request only after a cancel asked for it. */
  datatype IoResult = Granted | Aborted | Failed(code: nat)

  /** `afterCancel` records whether the token was cancelled before the request completed. */
  datatype Io =
    | NotPending
    | Pending(cancelRequested: bool)
    | Done(afterCancel: bool, result: IoResult)

  /** Where the waiter stands. */
  datatype Pc =
    | Checking
    | CreatingEvent
    | Issuing
    | Registering
    | CancellingItself
    | Blocked
    | Clearing(outcome: WaitOutcome)
    | Returned(outcome: WaitOutcome)

  /** A canceller inside `cancel` holds the token's mutex; `running` says it has taken the closure and not yet run it. */
  datatype Mutex = Unlocked | Locked(running: bool)

  datatype Race = Race(
    cancelled: bool,
    canceller: bool,
    mutex: Mutex,
    io: Io,
    pc: Pc,
    lockTaken: bool,
    cancelCalls: nat)

  datatype Answer = AtOnce | Later | Refused(code: nat)

  datatype Step =
    | Check
    | CreateEvent(error: Option<nat>)
    | Issue(answer: Answer)
    | Register
    | CancelSelf
    | Wake
    | Clear
    | Complete(result: IoResult)
    | EnterCancel
    | RunCanceller
    | LeaveCancel

  const START := Race(false, false, Unlocked, NotPending, Checking, false, 0)

  function CancelIo(s: Race): Race {
    s.(io := if s.io.Pending? then Pending(true) else s.io, cancelCalls := s.cancelCalls + 1)
  }

  function OutcomeOf(result: IoResult): WaitOutcome {
    match result
    case Granted => WaitAcquired
    case Aborted => WaitCancelled
    case Failed(code) => WaitUnknown(code)
  }

  /** A step that is not enabled changes nothing. Token operations wait for the mutex. */
  function Next(s: Race, step: Step): Race {
    match step
    case Check =>
      if !s.pc.Checking? || s.mutex.Locked? then s
      else s.(pc := if s.cancelled then Returned(WaitCancelled) else CreatingEvent)
    case CreateEvent(error) =>
      if !s.pc.CreatingEvent? then s
      else s.(pc := if error.Some? then Returned(WaitUnknown(error.value)) else Issuing)
    case Issue(answer) =>
      if !s.pc.Issuing? then s
      else (
        match answer
        case AtOnce => s.(pc := Clearing(WaitAcquired), lockTaken := true)
        case Later => s.(pc := Registering, io := Pending(false))
        case Refused(code) => s.(pc := Clearing(WaitUnknown(code))))
    case Register =>
      if !s.pc.Registering? || s.mutex.Locked? then s
      else if s.cancelled then s.(pc := CancellingItself)
      else s.(pc := Blocked, canceller := true)
    case CancelSelf =>
      if !s.pc.CancellingItself? then s else CancelIo(s).(pc := Blocked)
    case Wake =>
      if !s.pc.Blocked? || !s.io.Done? then s else s.(pc := Clearing(OutcomeOf(s.io.result)))
    case Clear =>
      if !s.pc.Clearing? || s.mutex.Locked? then s else s.(pc := Returned(s.pc.outcome), canceller := false)
    case Complete(result) =>
      if !s.io.Pending? || (result.Aborted? && !s.io.cancelRequested) then s
      else s.(io := Done(s.cancelled, result), lockTaken := result.Granted?)
    case EnterCancel =>
      if s.mutex.Locked? then s else s.(cancelled := true, canceller := false, mutex := Locked(s.canceller))
    case RunCanceller =>
      if s.mutex != Locked(true) then s else CancelIo(s).(mutex := Locked(false))
    case LeaveCancel =>
      if s.mutex != Locked(false) then s else s.(mutex := Unlocked)
  }

  function Run(s: Race, steps: seq<Step>): Race
    decreases |steps|
  {
    if steps == [] then s else Run(Next(s, steps[0]), steps[1..])
  }

  lemma {:induction false} RunConcat(s: Race, a: seq<Step>, b: seq<Step>)
    ensures Run(s, a + b) == Run(Run(s, a), b)
    decreases |a|
  {
    if a == [] {
      assert a + b == b;
    } else {
      assert (a + b)[0] == a[0] && (a + b)[1..] == a[1..] + b;
      RunConcat(Next(s, a[0]), a[1..], b);
    }
  }

  // ---------------------------------------------------------------- the invariant

  predicate BeforeIo(pc: Pc) {
    pc.Checking? || pc.CreatingEvent? || pc.Issuing?
  }

  /** How often the canceller or the waiter has cancelled, will cancel next, or stands ready to. */
  function Cancels(s: Race): nat {
    s.cancelCalls + (if s.canceller then 1 else 0) + (if s.mutex == Locked(true) then 1 else 0)
  }

  ghost predicate Inv(s: Race) {
    && (s.canceller ==> !s.cancelled)
    && (s.mutex.Locked? || s.cancelCalls > 0 ==> s.cancelled)
    && (BeforeIo(s.pc) ==> s.io.NotPending? && !s.lockTaken)
    && (s.pc.Registering? || s.pc.CancellingItself? || s.pc.Blocked? ==> !s.io.NotPending?)
    && (s.io.NotPending? || s.pc.Registering? || s.pc.CancellingItself? ==> Cancels(s) == 0)
    && (s.pc.CancellingItself? ==> s.cancelled)
    && (s.pc.Blocked? || (s.pc.Clearing? && !s.io.NotPending?) ==> Cancels(s) == 1)
    && (s.pc.Returned? ==> !s.canceller && s.mutex != Locked(true))
    && (s.pc.Returned? && s.io.Done? ==> s.cancelCalls <= 1 && (s.io.afterCancel ==> s.cancelCalls == 1))
    && (s.io.Pending? ==> (s.io.cancelRequested <==> s.cancelCalls > 0) && !s.lockTaken)
    && (s.io.Done? ==> (s.io.afterCancel ==> s.cancelled) && (s.lockTaken <==> s.io.result.Granted?))
    && (s.io.Done? && s.io.result.Aborted? ==> s.cancelCalls > 0)
    && (s.pc.Clearing? || s.pc.Returned? ==>
          !s.io.Pending? && (s.io.Done? ==> s.pc.outcome == OutcomeOf(s.io.result)))
    && ((s.pc.Clearing? || s.pc.Returned?) && s.io.NotPending? ==>
          (s.lockTaken <==> s.pc.outcome == WaitAcquired) && (s.pc.outcome == WaitCancelled ==> s.cancelled))
  }

  lemma StepKeepsInv(s: Race, step: Step)
    requires Inv(s)
    ensures Inv(Next(s, step))
    ensures s.cancelled ==> Next(s, step).cancelled
    ensures s.pc.Returned? ==> Next(s, step).pc == s.pc && Next(s, step).cancelCalls == s.cancelCalls
  {
    match step
    case _ =>
  }

  lemma {:induction false} RunKeepsInv(s: Race, steps: seq<Step>)
    requires Inv(s)
    ensures Inv(Run(s, steps))
    ensures s.cancelled ==> Run(s, steps).cancelled
    ensures s.pc.Returned? ==> Run(s, steps).pc == s.pc && Run(s, steps).cancelCalls == s.cancelCalls
    decreases |steps|
  {
    if steps != [] {
      StepKeepsInv(s, steps[0]);
      RunKeepsInv(Next(s, steps[0]), steps[1..]);
    }
  }

  // ---------------------------------------------------------------- no cancel is lost

  lemma {:induction false} DoneIsFinal(s: Race, steps: seq<Step>)
    requires Inv(s) && s.io.Done?
    ensures Run(s, steps).io == s.io
    decreases |steps|
  {
    if steps != [] {
      StepKeepsInv(s, steps[0]);
      DoneIsFinal(Next(s, steps[0]), steps[1..]);
    }
  }

  /** A request still to complete when the token is cancelled is marked so when it completes. */
  lemma {:induction false} CompletionAfterCancelIsMarked(s: Race, steps: seq<Step>)
    requires Inv(s) && s.cancelled && !s.io.Done?
    ensures Run(s, steps).io.Done? ==> Run(s, steps).io.afterCancel
    decreases |steps|
  {
    if steps != [] {
      var s1 := Next(s, steps[0]);
      StepKeepsInv(s, steps[0]);
      if s1.io.Done? {
        DoneIsFinal(s1, steps[1..]);
      } else {
        CompletionAfterCancelIsMarked(s1, steps[1..]);
      }
    }
  }

  /**
   * No cancel is lost, whatever the interleaving. If the token is cancelled before the pending request completes, then by
   * the time the wait returns that request has been cancelled, exactly once; if it is cancelled before the wait looks at
   * it, the wait answers `Cancelled` without ever having asked for the lock.
   */
  lemma {:induction false} NoCancelIsLost(before: seq<Step>, after: seq<Step>)
    ensures var s, s' := Run(START, before), Run(START, before + after);
      && (s.cancelled && !s.io.Done? && s'.pc.Returned? && s'.io.Done? ==> s'.cancelCalls == 1)
      && (s.cancelled && s.pc.Checking? && s'.pc.Returned? ==>
            s'.pc.outcome == WaitCancelled && s'.io.NotPending? && !s'.lockTaken && s'.cancelCalls == 0)
  {
    RunConcat(START, before, after);
    RunKeepsInv(START, before);
    var s := Run(START, before);
    RunKeepsInv(s, after);
    if s.cancelled && !s.io.Done? { CompletionAfterCancelIsMarked(s, after); }
    if s.cancelled && s.pc.Checking? { CheckAnswers(s, after); }
  }

  lemma {:induction false} CheckAnswers(s: Race, steps: seq<Step>)
    requires Inv(s) && s.cancelled
    requires s.pc.Checking? || (s.pc == Returned(WaitCancelled) && s.io.NotPending? && !s.lockTaken && s.cancelCalls == 0)
    ensures var s' := Run(s, steps);
      s'.pc.Returned? ==> s'.pc.outcome == WaitCancelled && s'.io.NotPending? && !s'.lockTaken && s'.cancelCalls == 0
    decreases |steps|
  {
    if steps != [] {
      StepKeepsInv(s, steps[0]);
      CheckAnswers(Next(s, steps[0]), steps[1..]);
    }
  }

  /**
   * The waiter never sleeps on a request that a cancel has missed: when it blocks on a pending request with the token
   * cancelled, either that request has been cancelled or a canceller inside `cancel` is about to. And from any moment at
   * which the token is cancelled and the request pending, the waiter's and the canceller's own next steps cancel it,
   * with no help from the system.
   */
  lemma {:induction false} CancelReachesThePendingRequest(before: seq<Step>)
    ensures var s := Run(START, before);
      && (s.cancelled && s.io.Pending? && s.pc.Blocked? ==> s.io.cancelRequested || s.mutex == Locked(true))
      && (s.cancelled && s.io.Pending? ==>
            Run(s, [RunCanceller, LeaveCancel, Register, CancelSelf]).io == Pending(true))
  {
    RunKeepsInv(START, before);
    var s := Run(START, before);
    if s.cancelled && s.io.Pending? { OwnStepsCancel(s); }
  }

  lemma RunOfFour(s: Race, a: Step, b: Step, c: Step, d: Step)
    ensures Run(s, [a, b, c, d]) == Next(Next(Next(Next(s, a), b), c), d)
  {
    hide Next;
    var s1 := Next(s, a);
    var s2 := Next(s1, b);
    var s3 := Next(s2, c);
    assert Run(s, [a, b, c, d]) == Run(s1, [b, c, d]) == Run(s2, [c, d]) == Run(s3, [d]) == Run(Next(s3, d), []);
  }

  lemma OwnStepsCancel(s: Race)
    requires Inv(s) && s.cancelled && s.io.Pending?
    ensures Run(s, [RunCanceller, LeaveCancel, Register, CancelSelf]).io == Pending(true)
  {
    RunOfFour(s, RunCanceller, LeaveCancel, Register, CancelSelf);
  }

  /**
   * The request is cancelled at most once over any run, only while the waiter still owns it (it has been issued and
   * `clear` has not returned), and never after the wait returned.
   */
  lemma {:induction false} CancellerRunsAtMostOnce(before: seq<Step>, step: Step, after: seq<Step>)
    ensures var s := Run(START, before);
      && s.cancelCalls <= 1
      && (Next(s, step).cancelCalls > s.cancelCalls ==>
            !s.io.NotPending? && (s.pc.CancellingItself? || s.pc.Blocked? || s.pc.Clearing?))
      && (s.pc.Returned? ==> Run(s, after).cancelCalls == s.cancelCalls && Run(s, after).pc == s.pc)
  {
    RunKeepsInv(START, before);
    RunKeepsInv(Run(START, before), after);
  }

  /** What the wait answers is true: `Acquired` exactly when the lock was taken, and `Cancelled` only after a cancel. */
  lemma {:induction false} OutcomesAreTrue(steps: seq<Step>)
    ensures var s := Run(START, steps);
      s.pc.Returned? ==>
        && (s.pc.outcome == WaitAcquired <==> s.lockTaken)
        && (s.pc.outcome == WaitCancelled ==> s.cancelled)
  {
    RunKeepsInv(START, steps);
  }

  /** The three steps of a canceller, uninterrupted, are the token's `Cancel`. */
  lemma CancelIsItsSteps(s: Race)
    requires Inv(s) && s.mutex.Unlocked?
    ensures var s' := Run(s, [EnterCancel, RunCanceller, LeaveCancel]);
      && s'.cancelled && !s'.canceller && s'.mutex.Unlocked? && s'.pc == s.pc
      && s'.cancelCalls == s.cancelCalls + (if s.canceller then 1 else 0)
  {
    var s1 := Next(s, EnterCancel);
    var s2 := Next(s1, RunCanceller);
    assert Run(s, [EnterCancel, RunCanceller, LeaveCancel]) == Run(s1, [RunCanceller, LeaveCancel])
        == Run(s2, [LeaveCancel]) == Run(Next(s2, LeaveCancel), []);
  }
}
