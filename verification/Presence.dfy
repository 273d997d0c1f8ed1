/** The presence-lock registry of one process (crates/senpi-socket-secret/src/presence.rs:197-437). */
module Presence {
  import opened Options
  import opened PresenceKernel
  import opened PresenceRules
  import Rules = PresenceRules

  /** `kernel` is the backend's view of the system; the faults it reports are arguments of each call. */
  class PresenceRegistry {
    var kernel: Kernel
    const process: ProcessId
    var guards: map<string, Guard>
    var fenced: Option<FenceReason>

    constructor (kernel: Kernel, process: ProcessId)
      ensures this.kernel == kernel && this.process == process && State() == Registry(map[], None)
    {
      this.kernel := kernel;
      this.process := process;
      guards := map[];
      fenced := None;
    }

    function State(): Registry
      reads this
    {
      Registry(guards, fenced)
    }

    /** Every guard's handle is open. */
    ghost predicate HandlesOpen()
      reads this
    {
      forall id :: id in guards ==> guards[id].handle in kernel.handles
    }

    method OpenFile(path: string, faults: Faults) returns (handed: Result<Handle>)
      modifies this`kernel
      ensures (kernel, handed) == Open(old(kernel), path, process, faults)
      ensures handed.Ok? ==> handed.value in kernel.handles
    {
      var (kernel', result) := Open(kernel, path, process, faults);
      kernel, handed := kernel', result;
    }

    method LockNow(handle: Handle, faults: Faults) returns (attempt: LockAttempt)
      requires handle in kernel.handles
      modifies this`kernel
      ensures kernel == TryLock(old(kernel), handle, faults).0
      ensures attempt == ClassifyLockResult(TryLock(old(kernel), handle, faults).1)
      ensures kernel.handles == old(kernel).handles
    {
      var (kernel', locked) := TryLock(kernel, handle, faults);
      kernel, attempt := kernel', ClassifyLockResult(locked);
    }

    method Acquire(id: string, path: string, faults: Faults) returns (attempt: LockAttempt)
      modifies this
      ensures (kernel, State(), attempt) == Rules.Acquire(old(kernel), old(State()), process, id, path, faults)
    {
      if fenced.Some? {
        return Fenced;
      }
      if id in guards {
        return if guards[id].path == path then Acquired else Inadmissible;
      }
      var handed := OpenFile(path, faults);
      if handed.Err? {
        return Unknown(handed.code);
      }
      var handle := handed.value;
      attempt := LockNow(handle, faults);
      if attempt != Acquired {
        kernel := Close(kernel, handle);
        return;
      }
      var identity := HandleIdentity(kernel, handle, faults);
      if identity.Err? {
        kernel := Close(kernel, handle);
        return Unknown(identity.code);
      }
      guards := guards[id := Guard(path, identity.value, handle, false)];
    }

    method Probe(id: string, path: string, admissible: bool, faults: Faults) returns (attempt: LockAttempt)
      modifies this
      ensures (kernel, State(), attempt)
           == Rules.Probe(old(kernel), old(State()), process, id, path, admissible, faults)
    {
      if fenced.Some? {
        return Fenced;
      }
      var handed := OpenFile(path, faults);
      if handed.Err? {
        return Unknown(handed.code);
      }
      var handle := handed.value;
      attempt := LockNow(handle, faults);
      if attempt != Acquired {
        kernel := Close(kernel, handle);
        return;
      }
      var identity := HandleIdentity(kernel, handle, faults);
      if identity.Err? {
        kernel := Close(kernel, handle);
        return Unknown(identity.code);
      }
      if id in guards || !admissible {
        kernel := Close(kernel, handle);
        return Inadmissible;
      }
      guards := guards[id := Guard(path, identity.value, handle, false)];
    }

    method ProbeRetained(id: string, path: string, admissible: bool, faults: Faults) returns (attempt: LockAttempt)
      requires HandlesOpen()
      modifies this
      ensures (kernel, State(), attempt)
           == Rules.ProbeRetained(old(kernel), old(State()), id, path, admissible, faults)
    {
      if fenced.Some? {
        return Fenced;
      }
      if id !in guards {
        return NotHeld;
      }
      var guard := guards[id];
      if guard.path != path || !guard.waitRetained {
        return NotHeld;
      }
      var identity := HandleIdentity(kernel, guard.handle, faults);
      if identity.Err? {
        guards := guards - {id};
        kernel := Close(kernel, guard.handle);
        return Unknown(identity.code);
      }
      if !admissible {
        guards := guards - {id};
        kernel := Close(kernel, guard.handle);
        return Inadmissible;
      }
      attempt := Acquired;
    }

    method RetainWait(id: string, completed: Guard) returns (outcome: WaitOutcome)
      modifies this
      ensures (kernel, State(), outcome) == Rules.RetainWait(old(kernel), old(State()), id, completed)
    {
      if fenced.Some? {
        kernel := Close(kernel, completed.handle);
        return WaitFenced;
      }
      if id in guards {
        kernel := Close(kernel, completed.handle);
        return WaitInadmissible;
      }
      guards := guards[id := completed];
      outcome := WaitAcquired;
    }

    method PreActionCheck(id: string, storeIsLocal: bool, faults: Faults) returns (failure: Option<FenceReason>)
      requires HandlesOpen()
      modifies this`fenced
      ensures (State(), failure) == Rules.PreActionCheck(kernel, old(State()), id, storeIsLocal, faults)
    {
      if fenced.Some? {
        return fenced;
      }
      failure := Check(id, storeIsLocal, faults);
      if failure.Some? {
        fenced := failure;
      }
    }

    method Check(id: string, storeIsLocal: bool, faults: Faults) returns (failure: Option<FenceReason>)
      requires HandlesOpen()
      ensures failure == Verdict(kernel, State(), id, storeIsLocal, faults)
    {
      if id !in guards {
        return Some(GuardNotHeld);
      }
      if !storeIsLocal {
        return Some(NotLocal);
      }
      var held := HandleIdentity(kernel, guards[id].handle, faults);
      if held.Err? {
        return Some(HandleLost(held.code));
      }
      var named := PathIdentity(kernel, guards[id].path, faults);
      if named.Err? {
        return Some(PathUnreadable(named.code));
      }
      if held.value != guards[id].identity || named.value != guards[id].identity {
        return Some(IdentityChanged);
      }
      failure := None;
    }

    method ReleaseAfterQuiescence(id: string) returns (released: bool)
      modifies this
      ensures (kernel, State(), released) == Rules.ReleaseAfterQuiescence(old(kernel), old(State()), id)
    {
      released := id in guards;
      if released {
        kernel := Close(kernel, guards[id].handle);
        guards := guards - {id};
      }
    }
  }
}
