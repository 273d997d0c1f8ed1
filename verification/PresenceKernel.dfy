/**
 * The kernel behind the presence locks: files, open handles and the one holder of each object's lock
 * (the test kernel of crates/senpi-socket-secret/src/presence.rs:444-546, with locks keyed by the opened object, as a
 * byte-range lock is, and released when its handle is closed).
 */
module PresenceKernel {
  import opened Options

  datatype Result<+T> = Ok(value: T) | Err(code: nat)

  datatype FileIdentity = FileIdentity(volumeSerial: nat, fileId: nat)

  type ProcessId = nat

  type Handle = nat

  datatype OpenFile = OpenFile(path: string, identity: FileIdentity, process: ProcessId)

  datatype Kernel = Kernel(
    files: map<string, FileIdentity>,
    handles: map<Handle, OpenFile>,
    holders: map<FileIdentity, Handle>,
    nextHandle: Handle)

  const ERROR_FILE_NOT_FOUND: nat := 2

  /** The only "occupied" answer. */
  const ERROR_LOCK_VIOLATION: nat := 33

  /** Errors the system may report instead of doing the call: an open, a lock, an identity query, a path query. */
  datatype Faults = Faults(open: Option<nat>, lock: Option<nat>, handleIdentity: Option<nat>, pathIdentity: Option<nat>)

  predicate Locks(k: Kernel, h: Handle) {
    h in k.handles && k.handles[h].identity in k.holders && k.holders[k.handles[h].identity] == h
  }

  ghost predicate Consistent(k: Kernel) {
    && (forall h :: h in k.handles ==> h < k.nextHandle)
    && (forall o :: o in k.holders ==> k.holders[o] in k.handles && k.handles[k.holders[o]].identity == o)
  }

  function Open(k: Kernel, path: string, process: ProcessId, faults: Faults): (Kernel, Result<Handle>) {
    if faults.open.Some? then (k, Err(faults.open.value))
    else if path !in k.files then (k, Err(ERROR_FILE_NOT_FOUND))
    else
      var h := k.nextHandle;
      (k.(handles := k.handles[h := OpenFile(path, k.files[path], process)], nextHandle := h + 1), Ok(h))
  }

  predicate Free(k: Kernel, h: Handle)
    requires h in k.handles
  {
    k.handles[h].identity !in k.holders || k.holders[k.handles[h].identity] == h
  }

  function TryLock(k: Kernel, h: Handle, faults: Faults): (Kernel, Result<()>)
    requires h in k.handles
  {
    if faults.lock.Some? then (k, Err(faults.lock.value))
    else if !Free(k, h) then (k, Err(ERROR_LOCK_VIOLATION))
    else (k.(holders := k.holders[k.handles[h].identity := h]), Ok(()))
  }

  function HandleIdentity(k: Kernel, h: Handle, faults: Faults): Result<FileIdentity>
    requires h in k.handles
  {
    if faults.handleIdentity.Some? then Err(faults.handleIdentity.value) else Ok(k.handles[h].identity)
  }

  function PathIdentity(k: Kernel, path: string, faults: Faults): Result<FileIdentity> {
    if faults.pathIdentity.Some? then Err(faults.pathIdentity.value)
    else if path in k.files then Ok(k.files[path])
    else Err(ERROR_FILE_NOT_FOUND)
  }

  /** Dropping a handle closes it, and its lock goes with it. */
  function Close(k: Kernel, h: Handle): Kernel {
    k.(handles := k.handles - {h},
       holders := map o | o in k.holders && k.holders[o] != h :: k.holders[o])
  }

  /** The kernel finally drops everything a process left open. */
  function ReleaseProcess(k: Kernel, process: ProcessId): Kernel {
    k.(handles := map h | h in k.handles && k.handles[h].process != process :: k.handles[h],
       holders := map o | o in k.holders && !(k.holders[o] in k.handles && k.handles[k.holders[o]].process == process)
                    :: k.holders[o])
  }

  // ---------------------------------------------------------------- what each call leaves alone

  /** Every handle of every other process is open as before and locks what it locked before. */
  ghost predicate TouchesOnly(k: Kernel, k': Kernel, process: ProcessId) {
    && (forall h :: h in k.handles && k.handles[h].process != process ==>
          h in k'.handles && k'.handles[h] == k.handles[h] && (Locks(k', h) <==> Locks(k, h)))
    && (forall h :: h in k'.handles && k'.handles[h].process != process ==>
          h in k.handles && k.handles[h] == k'.handles[h])
  }

  lemma OpenThenClose(k: Kernel, path: string, process: ProcessId, faults: Faults)
    requires Consistent(k) && Open(k, path, process, faults).1.Ok?
    ensures var (k1, r) := Open(k, path, process, faults);
      Consistent(k1) && !Locks(k1, r.value) && Close(k1, r.value) == k.(nextHandle := k1.nextHandle)
  {
    var (k1, r) := Open(k, path, process, faults);
    assert Close(k1, r.value).handles == k.handles;
    assert Close(k1, r.value).holders == k.holders;
  }

  /** A lock taken on a fresh handle disappears without a trace when the handle is closed. */
  lemma LockThenClose(k: Kernel, h: Handle, faults: Faults)
    requires Consistent(k) && h in k.handles && !Locks(k, h)
    ensures var k1 := TryLock(k, h, faults).0;
      Consistent(k1) && Close(k1, h) == Close(k, h) && (Locks(k1, h) <==> TryLock(k, h, faults).1.Ok?)
    ensures forall h' :: h' in k.handles && h' != h ==> (Locks(TryLock(k, h, faults).0, h') <==> Locks(k, h'))
  {
    var k1 := TryLock(k, h, faults).0;
    assert Close(k1, h).holders == Close(k, h).holders;
  }

  lemma CloseKeepsOthers(k: Kernel, h: Handle)
    requires Consistent(k)
    ensures Consistent(Close(k, h))
    ensures forall h' :: h' in k.handles && h' != h ==>
      h' in Close(k, h).handles && (Locks(Close(k, h), h') <==> Locks(k, h'))
  {}
}
