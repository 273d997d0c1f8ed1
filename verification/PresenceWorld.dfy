/**
 * Several processes over one kernel, each with its registry, its pending-wait table and its wait tasks
 * (crates/senpi-socket-secret/src/presence_binding.rs:54-63 and 179-360). A blocking wait runs outside the registry
 * mutex: its stages are separate steps, and every other step may come between them. A process's death and the kernel's
 * release of its locks are separate steps too.
 */
module PresenceWorld {
  import opened Options
  import opened PresenceKernel
  import opened PresenceRules

  /** Where a wait task stands; `Granted` holds the lock but has not asked for the identity yet. */
  datatype Stage =
    | Queued
    | Opening
    | Waiting(handle: Handle)
    | Granted(handle: Handle)
    | Completed(guard: Guard)
    | Leaving(outcome: WaitOutcome)

  datatype PendingWait = PendingWait(presenceId: string, cancelled: bool)

  datatype Task = Task(waitId: string, presenceId: string, path: string, registered: bool, stage: Stage)

  datatype Process = Process(registry: Registry, waits: map<string, PendingWait>, tasks: map<nat, Task>, alive: bool)

  datatype World = World(kernel: Kernel, processes: map<ProcessId, Process>)

  datatype Step =
    | Spawn(process: ProcessId)
    | CallAcquire(process: ProcessId, id: string, path: string, faults: Faults)
    | CallProbe(process: ProcessId, id: string, path: string, admissible: bool, faults: Faults)
    | CallProbeRetained(process: ProcessId, id: string, path: string, admissible: bool, faults: Faults)
    | CallCheck(process: ProcessId, id: string, storeIsLocal: bool, faults: Faults)
    | CallRelease(process: ProcessId, id: string, state: string)
    | StartWait(process: ProcessId, task: nat, waitId: string, id: string, path: string)
    | CancelWait(process: ProcessId, waitId: string)
    | BeginWait(process: ProcessId, task: nat)
    | OpenWait(process: ProcessId, task: nat, faults: Faults)
    | GrantWait(process: ProcessId, task: nat)
    | AbortWait(process: ProcessId, task: nat, error: Option<nat>)
    | IdentifyWait(process: ProcessId, task: nat, faults: Faults)
    | RetainCompleted(process: ProcessId, task: nat)
    | LeaveWait(process: ProcessId, task: nat)
    | Die(process: ProcessId)
    | KernelReleases(process: ProcessId)
    | SetFile(path: string, identity: Option<FileIdentity>)

  // ---------------------------------------------------------------- who accounts for which handle

  /** What may account for an open handle: a guard of the registry, or a wait task. */
  datatype Slot = OfGuard(id: string) | OfTask(task: nat)

  predicate HasHandle(stage: Stage) {
    stage.Waiting? || stage.Granted? || stage.Completed?
  }

  predicate HasSlot(p: Process, s: Slot) {
    match s
    case OfGuard(id) => id in p.registry.guards
    case OfTask(t) => t in p.tasks && HasHandle(p.tasks[t].stage)
  }

  function SlotHandle(p: Process, s: Slot): Handle
    requires HasSlot(p, s)
  {
    match s
    case OfGuard(id) => p.registry.guards[id].handle
    case OfTask(t) => if p.tasks[t].stage.Completed? then p.tasks[t].stage.guard.handle else p.tasks[t].stage.handle
  }

  /** Guards and waits whose lock was granted hold their lock; a wait still waiting does not. */
  predicate SlotLocked(p: Process, s: Slot)
    requires HasSlot(p, s)
  {
    s.OfGuard? || !p.tasks[s.task].stage.Waiting?
  }

  ghost predicate SlotBacked(k: Kernel, pid: ProcessId, p: Process, s: Slot)
    requires HasSlot(p, s)
  {
    var h := SlotHandle(p, s);
    h in k.handles && k.handles[h].process == pid && (Locks(k, h) <==> SlotLocked(p, s))
  }

  ghost predicate Held(p: Process, h: Handle) {
    exists s :: HasSlot(p, s) && SlotHandle(p, s) == h
  }

  /**
   * A process's open handles are exactly those of its guards and wait tasks, one each, and it locks exactly what its
   * guards and granted waits account for.
   */
  ghost predicate HandlesAccounted(k: Kernel, pid: ProcessId, p: Process) {
    && (forall s :: HasSlot(p, s) ==> SlotBacked(k, pid, p, s))
    && (forall s, s' :: HasSlot(p, s) && HasSlot(p, s') && SlotHandle(p, s) == SlotHandle(p, s') ==> s == s')
    && (forall h :: h in k.handles && k.handles[h].process == pid ==> Held(p, h))
  }

  ghost predicate GuardNames(k: Kernel, guard: Guard) {
    guard.handle in k.handles && k.handles[guard.handle].identity == guard.identity
    && k.handles[guard.handle].path == guard.path
  }

  /** A guard records the path and the identity its handle was opened with. */
  ghost predicate GuardsNamed(k: Kernel, p: Process) {
    && (forall id :: id in p.registry.guards ==> GuardNames(k, p.registry.guards[id]))
    && (forall t :: t in p.tasks && p.tasks[t].stage.Completed? ==>
          GuardNames(k, p.tasks[t].stage.guard) && p.tasks[t].stage.guard.waitRetained)
    && (forall t :: t in p.tasks && (p.tasks[t].stage.Waiting? || p.tasks[t].stage.Granted?) ==>
          p.tasks[t].stage.handle in k.handles && k.handles[p.tasks[t].stage.handle].path == p.tasks[t].path)
  }

  /** The registered waits: which entry of the table each one has, and for which presence ID. */
  ghost function Registrations(tasks: map<nat, Task>): map<nat, (string, string)> {
    map t | t in tasks && tasks[t].registered :: (tasks[t].waitId, tasks[t].presenceId)
  }

  ghost predicate WaitedFor(registered: map<nat, (string, string)>, waitId: string) {
    exists t :: t in registered && registered[t].0 == waitId
  }

  /** The table has one entry per registered, unfinished wait, and no two entries name one presence ID. */
  ghost predicate Tabled(waits: map<string, PendingWait>, registered: map<nat, (string, string)>) {
    && (forall t :: t in registered ==>
          registered[t].0 in waits && waits[registered[t].0].presenceId == registered[t].1)
    && (forall t, t' :: t in registered && t' in registered && registered[t].0 == registered[t'].0 ==> t == t')
    && (forall w :: w in waits ==> WaitedFor(registered, w))
    && (forall w, w' :: w in waits && w' in waits && waits[w].presenceId == waits[w'].presenceId ==> w == w')
  }

  /** A wait refused at the table never gets as far as a handle. */
  ghost predicate OnlyRegisteredWaitsRun(tasks: map<nat, Task>) {
    forall t :: t in tasks && !tasks[t].registered ==> tasks[t].stage.Queued? || tasks[t].stage.Leaving?
  }

  ghost predicate ProcessOk(k: Kernel, pid: ProcessId, p: Process) {
    HandlesAccounted(k, pid, p) && GuardsNamed(k, p)
    && Tabled(p.waits, Registrations(p.tasks)) && OnlyRegisteredWaitsRun(p.tasks)
  }

  ghost predicate Inv(w: World) {
    && Consistent(w.kernel)
    && (forall pid :: pid in w.processes ==> ProcessOk(w.kernel, pid, w.processes[pid]))
    && (forall h :: h in w.kernel.handles ==> w.kernel.handles[h].process in w.processes)
  }

  // ---------------------------------------------------------------- steps

  predicate Live(w: World, pid: ProcessId) {
    pid in w.processes && w.processes[pid].alive
  }

  predicate TaskAt(w: World, pid: ProcessId, t: nat) {
    Live(w, pid) && t in w.processes[pid].tasks
  }

  function Put(w: World, k: Kernel, pid: ProcessId, p: Process): World {
    World(k, w.processes[pid := p])
  }

  function SetRegistry(w: World, k: Kernel, pid: ProcessId, r: Registry): World
    requires pid in w.processes
  {
    Put(w, k, pid, w.processes[pid].(registry := r))
  }

  function SetStage(p: Process, t: nat, stage: Stage): Process
    requires t in p.tasks
  {
    p.(tasks := p.tasks[t := p.tasks[t].(stage := stage)])
  }

  function Advance(w: World, k: Kernel, pid: ProcessId, t: nat, stage: Stage): World
    requires pid in w.processes && t in w.processes[pid].tasks
  {
    Put(w, k, pid, SetStage(w.processes[pid], t, stage))
  }

  function WaitPending(p: Process, id: string): bool {
    exists wid :: wid in p.waits && p.waits[wid].presenceId == id
  }

  ghost function Next(w: World, step: Step): World
    requires Inv(w)
  {
    match step
    case Spawn(pid) =>
      if pid in w.processes then w
      else Put(w, w.kernel, pid, Process(Registry(map[], None), map[], map[], true))
    case CallAcquire(pid, id, path, faults) =>
      if !Live(w, pid) || WaitPending(w.processes[pid], id) then w
      else
        var (k, r, _) := Acquire(w.kernel, w.processes[pid].registry, pid, id, path, faults);
        SetRegistry(w, k, pid, r)
    case CallProbe(pid, id, path, admissible, faults) =>
      if !Live(w, pid) then w
      else
        var (k, r, _) := Probe(w.kernel, w.processes[pid].registry, pid, id, path, admissible, faults);
        SetRegistry(w, k, pid, r)
    case CallProbeRetained(pid, id, path, admissible, faults) =>
      if !Live(w, pid) then w
      else
        HandleOfGuard(w, pid, id);
        var (k, r, _) := ProbeRetained(w.kernel, w.processes[pid].registry, id, path, admissible, faults);
        SetRegistry(w, k, pid, r)
    case CallCheck(pid, id, storeIsLocal, faults) =>
      if !Live(w, pid) then w
      else
        HandleOfGuard(w, pid, id);
        SetRegistry(w, w.kernel, pid,
                    PreActionCheck(w.kernel, w.processes[pid].registry, id, storeIsLocal, faults).0)
    case CallRelease(pid, id, state) =>
      if !Live(w, pid) || !IsReleaseReason(state) then w
      else
        var (k, r, _) := ReleaseAfterQuiescence(w.kernel, w.processes[pid].registry, id);
        SetRegistry(w, k, pid, r)
    case StartWait(pid, t, waitId, id, path) =>
      if !Live(w, pid) || t in w.processes[pid].tasks then w
      else
        var p := w.processes[pid];
        var registered := waitId !in p.waits && !WaitPending(p, id);
        Put(w, w.kernel, pid, p.(
          waits := if registered then p.waits[waitId := PendingWait(id, false)] else p.waits,
          tasks := p.tasks[t := Task(waitId, id, path, registered, Queued)]))
    case CancelWait(pid, waitId) =>
      if !Live(w, pid) || waitId !in w.processes[pid].waits then w
      else
        var p := w.processes[pid];
        Put(w, w.kernel, pid, p.(waits := p.waits[waitId := p.waits[waitId].(cancelled := true)]))
    case BeginWait(pid, t) =>
      if !TaskAt(w, pid, t) || w.processes[pid].tasks[t].stage != Queued then w
      else
        var p, task := w.processes[pid], w.processes[pid].tasks[t];
        Advance(w, w.kernel, pid, t,
                if !task.registered then Leaving(WaitUnknown(0))
                else if p.registry.fenced.Some? then Leaving(WaitFenced)
                else if task.presenceId !in p.registry.guards then Opening
                else if p.registry.guards[task.presenceId].path == task.path then Leaving(WaitAcquired)
                else Leaving(WaitInadmissible))
    case OpenWait(pid, t, faults) =>
      if !TaskAt(w, pid, t) || w.processes[pid].tasks[t].stage != Opening then w
      else
        var (k, handed) := Open(w.kernel, w.processes[pid].tasks[t].path, pid, faults);
        Advance(w, k, pid, t, if handed.Ok? then Waiting(handed.value) else Leaving(WaitUnknown(handed.code)))
    case GrantWait(pid, t) =>
      if !TaskAt(w, pid, t) || !w.processes[pid].tasks[t].stage.Waiting? then w
      else
        var h := w.processes[pid].tasks[t].stage.handle;
        if h !in w.kernel.handles || !Free(w.kernel, h) then w
        else Advance(w, TryLock(w.kernel, h, NO_FAULTS).0, pid, t, Granted(h))
    case AbortWait(pid, t, error) =>
      if !TaskAt(w, pid, t) || !w.processes[pid].tasks[t].stage.Waiting? then w
      else
        var p, task := w.processes[pid], w.processes[pid].tasks[t];
        if error == None && (task.waitId !in p.waits || !p.waits[task.waitId].cancelled) then w
        else
          Advance(w, Close(w.kernel, task.stage.handle), pid, t,
                  Leaving(if error.Some? then WaitUnknown(error.value) else WaitCancelled))
    case IdentifyWait(pid, t, faults) =>
      if !TaskAt(w, pid, t) || !w.processes[pid].tasks[t].stage.Granted? then w
      else
        var h := w.processes[pid].tasks[t].stage.handle;
        if h !in w.kernel.handles then w
        else
          var identity := HandleIdentity(w.kernel, h, faults);
          if identity.Ok? then
            Advance(w, w.kernel, pid, t,
                    Completed(Guard(w.processes[pid].tasks[t].path, identity.value, h, true)))
          else Advance(w, Close(w.kernel, h), pid, t, Leaving(WaitUnknown(identity.code)))
    case RetainCompleted(pid, t) =>
      if !TaskAt(w, pid, t) || !w.processes[pid].tasks[t].stage.Completed? then w
      else
        var task := w.processes[pid].tasks[t];
        var (k, r, outcome) := RetainWait(w.kernel, w.processes[pid].registry, task.presenceId, task.stage.guard);
        Advance(SetRegistry(w, k, pid, r), k, pid, t, Leaving(outcome))
    case LeaveWait(pid, t) =>
      if !TaskAt(w, pid, t) || !w.processes[pid].tasks[t].stage.Leaving? then w
      else
        var p, task := w.processes[pid], w.processes[pid].tasks[t];
        Put(w, w.kernel, pid, p.(tasks := p.tasks - {t},
                                 waits := if task.registered then p.waits - {task.waitId} else p.waits))
    case Die(pid) =>
      if pid !in w.processes then w else Put(w, w.kernel, pid, w.processes[pid].(alive := false))
    case KernelReleases(pid) =>
      if pid !in w.processes || w.processes[pid].alive then w
      else World(ReleaseProcess(w.kernel, pid), w.processes - {pid})
    case SetFile(path, identity) =>
      w.(kernel := w.kernel.(files := if identity.Some? then w.kernel.files[path := identity.value]
                                      else w.kernel.files - {path}))
  }

  const NO_FAULTS := Faults(None, None, None, None)

  lemma HandleOfGuard(w: World, pid: ProcessId, id: string)
    requires Inv(w) && pid in w.processes
    ensures id in w.processes[pid].registry.guards ==> w.processes[pid].registry.guards[id].handle in w.kernel.handles
  {
    if id in w.processes[pid].registry.guards {
      assert HasSlot(w.processes[pid], OfGuard(id));
    }
  }
}
