/**
 * What the calls on a presence-lock registry do, as functions of the kernel and the registry
 * (crates/senpi-socket-secret/src/presence.rs:25-437).
 */
module PresenceRules {
  import opened Options
  import opened PresenceKernel

  datatype LockAttempt = Acquired | Occupied | Inadmissible | NotHeld | Unknown(code: nat) | Fenced

  datatype WaitOutcome = WaitAcquired | WaitCancelled | WaitInadmissible | WaitUnknown(code: nat) | WaitFenced

  datatype FenceReason = GuardNotHeld | HandleLost(code: nat) | IdentityChanged | PathUnreadable(code: nat) | NotLocal

  datatype Guard = Guard(path: string, identity: FileIdentity, handle: Handle, waitRetained: bool)

  datatype Registry = Registry(guards: map<string, Guard>, fenced: Option<FenceReason>)

  function ClassifyLockResult(result: Result<()>): LockAttempt {
    match result
    case Ok(_) => Acquired
    case Err(code) => if code == ERROR_LOCK_VIOLATION then Occupied else Unknown(code)
  }

  /** The receipt states that release a guard. */
  predicate IsReleaseReason(state: string) {
    state in {"released", "recovery_abandoned", "discharged", "retired"}
  }

  // ---------------------------------------------------------------- specification on values

  /**
   * A fresh, nonblocking acquisition: open, one lock attempt, identity, then the caller's verdict. Anything short of an
   * admitted guard closes the handle again.
   */
  function FreshGuard(k: Kernel, process: ProcessId, path: string, admitted: bool, faults: Faults)
    : (r: (Kernel, LockAttempt, Option<Guard>))
    ensures r.2.Some? <==> r.1 == Acquired
  {
    var (k1, handed) := Open(k, path, process, faults);
    if handed.Err? then (k1, Unknown(handed.code), None)
    else
      var h := handed.value;
      var (k2, locked) := TryLock(k1, h, faults);
      if ClassifyLockResult(locked) != Acquired then (Close(k2, h), ClassifyLockResult(locked), None)
      else
        var identity := HandleIdentity(k2, h, faults);
        if identity.Err? then (Close(k2, h), Unknown(identity.code), None)
        else if !admitted then (Close(k2, h), Inadmissible, None)
        else (k2, Acquired, Some(Guard(path, identity.value, h, false)))
  }

  function Insert(r: Registry, id: string, guard: Option<Guard>): Registry {
    if guard.Some? then r.(guards := r.guards[id := guard.value]) else r
  }

  function Remove(r: Registry, id: string): Registry {
    r.(guards := r.guards - {id})
  }

  function Acquire(k: Kernel, r: Registry, process: ProcessId, id: string, path: string, faults: Faults)
    : (Kernel, Registry, LockAttempt)
  {
    if r.fenced.Some? then (k, r, Fenced)
    else if id in r.guards then (k, r, if r.guards[id].path == path then Acquired else Inadmissible)
    else
      var (k', attempt, guard) := FreshGuard(k, process, path, true, faults);
      (k', Insert(r, id, guard), attempt)
  }

  function Probe(k: Kernel, r: Registry, process: ProcessId, id: string, path: string, admissible: bool, faults: Faults)
    : (Kernel, Registry, LockAttempt)
  {
    if r.fenced.Some? then (k, r, Fenced)
    else
      var (k', attempt, guard) := FreshGuard(k, process, path, id !in r.guards && admissible, faults);
      (k', Insert(r, id, guard), attempt)
  }

  function ProbeRetained(k: Kernel, r: Registry, id: string, path: string, admissible: bool, faults: Faults)
    : (Kernel, Registry, LockAttempt)
    requires id in r.guards ==> r.guards[id].handle in k.handles
  {
    if r.fenced.Some? then (k, r, Fenced)
    else if id !in r.guards || r.guards[id].path != path || !r.guards[id].waitRetained then (k, r, NotHeld)
    else
      var h := r.guards[id].handle;
      var identity := HandleIdentity(k, h, faults);
      if identity.Err? then (Close(k, h), Remove(r, id), Unknown(identity.code))
      else if !admissible then (Close(k, h), Remove(r, id), Inadmissible)
      else (k, r, Acquired)
  }

  /** Moves the guard of a completed wait into the registry, or drops it. */
  function RetainWait(k: Kernel, r: Registry, id: string, completed: Guard): (Kernel, Registry, WaitOutcome) {
    if r.fenced.Some? then (Close(k, completed.handle), r, WaitFenced)
    else if id in r.guards then (Close(k, completed.handle), r, WaitInadmissible)
    else (k, Insert(r, id, Some(completed)), WaitAcquired)
  }

  function Verdict(k: Kernel, r: Registry, id: string, storeIsLocal: bool, faults: Faults): Option<FenceReason>
    requires id in r.guards ==> r.guards[id].handle in k.handles
  {
    if id !in r.guards then Some(GuardNotHeld)
    else if !storeIsLocal then Some(NotLocal)
    else
      var guard := r.guards[id];
      var held, named := HandleIdentity(k, guard.handle, faults), PathIdentity(k, guard.path, faults);
      if held.Err? then Some(HandleLost(held.code))
      else if named.Err? then Some(PathUnreadable(named.code))
      else if held.value != guard.identity || named.value != guard.identity then Some(IdentityChanged)
      else None
  }

  /** The check before an authorized action: `None` means it may go ahead. A failure fences the registry for good. */
  function PreActionCheck(k: Kernel, r: Registry, id: string, storeIsLocal: bool, faults: Faults)
    : (Registry, Option<FenceReason>)
    requires id in r.guards ==> r.guards[id].handle in k.handles
  {
    if r.fenced.Some? then (r, r.fenced)
    else
      var verdict := Verdict(k, r, id, storeIsLocal, faults);
      (r.(fenced := verdict), verdict)
  }

  function ReleaseAfterQuiescence(k: Kernel, r: Registry, id: string): (Kernel, Registry, bool) {
    if id in r.guards then (Close(k, r.guards[id].handle), Remove(r, id), true) else (k, r, false)
  }
}
