/** What each call on a presence registry achieves, in terms of files, open handles and locks. */
module PresenceChecks {
  import opened Options
  import opened PresenceKernel
  import opened PresenceRules
  import opened PresenceWorld
  import opened PresenceSafety
  import opened PresenceRuns

  /** The registry of a process after a step. */
  ghost function RegistryAfter(w: World, step: Step, pid: ProcessId): Registry
    requires Inv(w) && Live(w, pid) && step != KernelReleases(pid)
  {
    OneStep(w, step, pid);
    Next(w, step).processes[pid].registry
  }

  /** Where a wait stands after a step. */
  ghost function StageAfter(w: World, step: Step, pid: ProcessId, t: nat): Option<Stage>
    requires Inv(w)
  {
    var w' := Next(w, step);
    if pid in w'.processes && t in w'.processes[pid].tasks then Some(w'.processes[pid].tasks[t].stage) else None
  }

  /** A guard of a sound world holds its object: its handle is open on the object it recorded, and locked. */
  lemma GuardHoldsItsObject(w: World, pid: ProcessId, id: string)
    requires Inv(w) && pid in w.processes && id in w.processes[pid].registry.guards
    ensures var guard := w.processes[pid].registry.guards[id];
      && guard.handle in w.kernel.handles && Locks(w.kernel, guard.handle)
      && w.kernel.handles[guard.handle].identity == guard.identity
      && w.kernel.handles[guard.handle].path == guard.path
      && w.kernel.handles[guard.handle].process == pid
  {
    var p := w.processes[pid];
    assert HasSlot(p, OfGuard(id)) && SlotBacked(w.kernel, pid, p, OfGuard(id));
    assert GuardNames(w.kernel, p.registry.guards[id]);
  }

  // ---------------------------------------------------------------- the check before an authorized action

  /**
   * The check lets an action go ahead (leaves the registry unfenced) if and only if it was not fenced before, the guard is
   * held, its store is local, both queries are answered, and the path still names the object that the guard's handle holds
   * open and locked.
   */
  lemma {:induction false} CheckPassesIff(w: World, pid: ProcessId, id: string, local: bool, faults: Faults)
    requires Inv(w) && Live(w, pid)
    ensures var r, r' := w.processes[pid].registry, RegistryAfter(w, CallCheck(pid, id, local, faults), pid);
      r'.fenced == None <==>
        && r.fenced == None
        && id in r.guards
        && local
        && faults.handleIdentity == None && faults.pathIdentity == None
        && r.guards[id].handle in w.kernel.handles && Locks(w.kernel, r.guards[id].handle)
        && r.guards[id].path in w.kernel.files
        && w.kernel.files[r.guards[id].path] == w.kernel.handles[r.guards[id].handle].identity
  {
    hide HandlesAccounted, GuardsNamed, Tabled, Consistent;
    if id in w.processes[pid].registry.guards { GuardHoldsItsObject(w, pid, id); }
  }

  /** Why it fences: the first thing that is wrong, in this order. A registry fenced before keeps its reason. */
  lemma {:induction false} CheckGivesTheReason(w: World, pid: ProcessId, id: string, local: bool, faults: Faults)
    requires Inv(w) && Live(w, pid)
    ensures var r, r' := w.processes[pid].registry, RegistryAfter(w, CallCheck(pid, id, local, faults), pid);
      && r'.guards == r.guards
      && (r.fenced.Some? ==> r'.fenced == r.fenced)
      && (r.fenced == None && id !in r.guards ==> r'.fenced == Some(GuardNotHeld))
      && (r.fenced == None && id in r.guards ==>
            var guard, file := r.guards[id], w.kernel.files;
            && (!local ==> r'.fenced == Some(NotLocal))
            && (local && faults.handleIdentity.Some? ==> r'.fenced == Some(HandleLost(faults.handleIdentity.value)))
            && (local && faults.handleIdentity == None ==>
                  && (faults.pathIdentity.Some? ==> r'.fenced == Some(PathUnreadable(faults.pathIdentity.value)))
                  && (faults.pathIdentity == None && guard.path !in file ==>
                        r'.fenced == Some(PathUnreadable(ERROR_FILE_NOT_FOUND)))
                  && (faults.pathIdentity == None && guard.path in file && guard.handle in w.kernel.handles
                      && file[guard.path] != w.kernel.handles[guard.handle].identity ==>
                        r'.fenced == Some(IdentityChanged))))
  {
    hide HandlesAccounted, GuardsNamed, Tabled, Consistent;
    if id in w.processes[pid].registry.guards { GuardHoldsItsObject(w, pid, id); }
  }

  /** Steps that leave the file at this path alone. */
  predicate LeavesFile(step: Step, path: string) {
    step.SetFile? ==> step.path != path
  }

  lemma FileStays(w: World, step: Step, path: string)
    requires Inv(w) && LeavesFile(step, path)
    ensures var w' := Next(w, step);
      && (path in w'.kernel.files <==> path in w.kernel.files)
      && (path in w.kernel.files ==> w'.kernel.files[path] == w.kernel.files[path])
  {
    hide Inv, HandlesAccounted, GuardsNamed, Tabled, Consistent;
  }

  lemma {:induction false} FileStaysOverRuns(w: World, steps: seq<Step>, path: string)
    requires Inv(w) && forall step :: step in steps ==> LeavesFile(step, path)
    ensures var w' := Run(w, steps);
      && (path in w'.kernel.files <==> path in w.kernel.files)
      && (path in w.kernel.files ==> w'.kernel.files[path] == w.kernel.files[path])
    decreases |steps|
  {
    if steps != [] {
      assert steps[0] in steps;
      StepKeepsInv(w, steps[0]);
      FileStays(w, steps[0], path);
      FileStaysOverRuns(Next(w, steps[0]), steps[1..], path);
    }
  }

  /**
   * Once the file of a guard is removed or replaced by another object, then over any further run that does not touch the
   * file and leaves the guard held, the next check fences, whatever it is told and whatever the queries report.
   */
  lemma {:induction false} ReplacedFilesFence(w: World, pid: ProcessId, id: string, file: Option<FileIdentity>,
                                              steps: seq<Step>, local: bool, faults: Faults)
    requires Inv(w) && Live(w, pid) && id in w.processes[pid].registry.guards
    requires file != Some(w.processes[pid].registry.guards[id].identity)
    requires forall step :: step in steps ==> LeavesFile(step, w.processes[pid].registry.guards[id].path)
    requires forall step :: step in steps ==> !MayRemove(step, pid, id, w.processes[pid].registry.guards[id])
    requires KernelReleases(pid) !in steps
    ensures var change := SetFile(w.processes[pid].registry.guards[id].path, file);
      var w' := Run(w, [change] + steps);
      pid in w'.processes
      && (Live(w', pid) ==> RegistryAfter(w', CallCheck(pid, id, local, faults), pid).fenced.Some?)
  {
    hide HandlesAccounted, GuardsNamed, Tabled, Consistent, Next;
    var guard := w.processes[pid].registry.guards[id];
    var change := SetFile(guard.path, file);
    StepKeepsInv(w, change);
    var w1 := Next(w, change);
    FileIsSet(w, guard.path, file);
    assert ([change] + steps)[1..] == steps && Run(w, [change] + steps) == Run(w1, steps);
    var w' := Run(w1, steps);
    FileStaysOverRuns(w1, steps, guard.path);
    GuardsLeaveOnlyByReceipt(w1, steps, pid, id);
    if Live(w', pid) {
      GuardHoldsItsObject(w', pid, id);
      CheckPassesIff(w', pid, id, local, faults);
    }
  }

  lemma FileIsSet(w: World, path: string, file: Option<FileIdentity>)
    requires Inv(w)
    ensures var w' := Next(w, SetFile(path, file));
      && w'.processes == w.processes
      && (path in w'.kernel.files <==> file.Some?)
      && (file.Some? ==> w'.kernel.files[path] == file.value)
  {
    hide Inv;
  }

  // ---------------------------------------------------------------- acquiring

  /** Nothing stands in the way of a fresh lock: no fault, a file at the path, and nobody holding its object. */
  predicate Available(k: Kernel, path: string, faults: Faults) {
    && faults.open == None && faults.lock == None && faults.handleIdentity == None
    && path in k.files && k.files[path] !in k.holders
  }

  /**
   * The answers of one attempt. Acquired: the object was available and the caller admits it. Occupied: the object could be
   * opened, and another handle holds it (or the system says so). Inadmissible: available, but the caller refuses it.
   */
  lemma {:induction false} AttemptAnswers(k: Kernel, pid: ProcessId, path: string, admitted: bool, faults: Faults)
    requires Consistent(k)
    ensures var (k', attempt, guard) := FreshGuard(k, pid, path, admitted, faults);
      && (attempt == Acquired <==> Available(k, path, faults) && admitted)
      && (attempt == Inadmissible <==> Available(k, path, faults) && !admitted)
      && (attempt == Occupied <==>
            (faults.open == None && path in k.files
             && (faults.lock == Some(33) || (faults.lock == None && k.files[path] in k.holders))))
      && attempt != NotHeld && attempt != Fenced
      && (guard.Some? ==> guard.value.path == path && guard.value.identity == k.files[path] && Locks(k', guard.value.handle))
      && (guard == None ==> k'.files == k.files && k'.handles == k.handles && k'.holders == k.holders)
  {
    FreshGuardIsAllOrNothing(k, pid, path, admitted, faults);
  }

  /**
   * `acquire` makes a guard of this object exactly when the registry is not fenced, the ID is free and not waited for, and
   * the object is available; a held ID keeps its guard, and then the answer says whether it is for this path.
   */
  lemma {:induction false} AcquireTakesAvailableObjects(w: World, pid: ProcessId, id: string, path: string, faults: Faults)
    requires Inv(w) && Live(w, pid)
    ensures var r, r' := w.processes[pid].registry, RegistryAfter(w, CallAcquire(pid, id, path, faults), pid);
      && r'.fenced == r.fenced
      && (id !in r.guards ==>
            (id in r'.guards <==> r.fenced == None && !WaitPending(w.processes[pid], id) && Available(w.kernel, path, faults))
            && (id in r'.guards ==> r'.guards[id].path == path && r'.guards[id].identity == w.kernel.files[path]
                                    && !r'.guards[id].waitRetained))
      && (id in r.guards ==> r' == r)
    ensures var r := w.processes[pid].registry;
      var attempt := Acquire(w.kernel, r, pid, id, path, faults).2;
      && (r.fenced.Some? ==> attempt == Fenced)
      && (r.fenced == None && id in r.guards ==> attempt == if r.guards[id].path == path then Acquired else Inadmissible)
      && (r.fenced == None && id !in r.guards ==> (attempt == Acquired <==> Available(w.kernel, path, faults)))
  {
    hide HandlesAccounted, GuardsNamed, Tabled, FreshGuard;
    InvIsConsistent(w);
    AttemptAnswers(w.kernel, pid, path, true, faults);
    FreshGuardIsAllOrNothing(w.kernel, pid, path, true, faults);
  }

  /** A probe does the same for an admissible object under a free ID; whatever else it finds, it leaves nothing behind. */
  lemma {:induction false} ProbeTakesAdmissibleObjects(w: World, pid: ProcessId, id: string, path: string,
                                                       admissible: bool, faults: Faults)
    requires Inv(w) && Live(w, pid)
    ensures var r, r' := w.processes[pid].registry, RegistryAfter(w, CallProbe(pid, id, path, admissible, faults), pid);
      && r'.fenced == r.fenced
      && (id !in r.guards ==>
            (id in r'.guards <==> r.fenced == None && admissible && Available(w.kernel, path, faults))
            && (id in r'.guards ==> r'.guards[id].path == path && r'.guards[id].identity == w.kernel.files[path]
                                    && !r'.guards[id].waitRetained))
      && (id in r.guards ==> r' == r)
    ensures var r := w.processes[pid].registry;
      var attempt := Probe(w.kernel, r, pid, id, path, admissible, faults).2;
      && (r.fenced.Some? ==> attempt == Fenced)
      && (r.fenced == None && Available(w.kernel, path, faults) ==>
            attempt == if admissible && id !in r.guards then Acquired else Inadmissible)
      && (attempt == Occupied <==>
            (r.fenced == None && faults.open == None && path in w.kernel.files
             && (faults.lock == Some(33) || (faults.lock == None && w.kernel.files[path] in w.kernel.holders))))
  {
    hide HandlesAccounted, GuardsNamed, Tabled, FreshGuard;
    InvIsConsistent(w);
    var admitted := id !in w.processes[pid].registry.guards && admissible;
    AttemptAnswers(w.kernel, pid, path, admitted, faults);
    FreshGuardIsAllOrNothing(w.kernel, pid, path, admitted, faults);
  }

  // ---------------------------------------------------------------- giving up

  /** The object of this guard is held by nobody. */
  ghost predicate Freed(k: Kernel, guard: Guard) {
    guard.handle !in k.handles && guard.identity !in k.holders
  }

  lemma ClosingFrees(w: World, pid: ProcessId, id: string)
    requires Inv(w) && pid in w.processes && id in w.processes[pid].registry.guards
    ensures Freed(Close(w.kernel, w.processes[pid].registry.guards[id].handle), w.processes[pid].registry.guards[id])
  {
    GuardHoldsItsObject(w, pid, id);
  }

  /** A release with one of the four receipt states drops exactly this guard and frees its object; any other drops none. */
  lemma {:induction false} ReleaseFreesTheObject(w: World, pid: ProcessId, id: string, state: string)
    requires Inv(w) && Live(w, pid)
    ensures var step := CallRelease(pid, id, state);
      var r, r' := w.processes[pid].registry, RegistryAfter(w, step, pid);
      && (ReleaseAfterQuiescence(w.kernel, r, id).2 <==> id in r.guards)
      && if state in {"released", "recovery_abandoned", "discharged", "retired"} && id in r.guards
      then r' == Registry(r.guards - {id}, r.fenced) && Freed(Next(w, step).kernel, r.guards[id])
      else r' == r && Next(w, step).kernel == w.kernel
  {
    hide HandlesAccounted, GuardsNamed, Tabled;
    if id in w.processes[pid].registry.guards { ClosingFrees(w, pid, id); }
  }

  /**
   * A retained probe speaks of a guard that a wait retained for this path, in a registry not fenced: it stays exactly when
   * its handle still answers and it is admissible, and otherwise goes, freeing its object. Any other guard stays.
   */
  lemma {:induction false} RetainedProbeKeepsAdmissibleGuards(w: World, pid: ProcessId, id: string, path: string,
                                                              admissible: bool, faults: Faults)
    requires Inv(w) && Live(w, pid)
    ensures var step := CallProbeRetained(pid, id, path, admissible, faults);
      var r, r' := w.processes[pid].registry, RegistryAfter(w, step, pid);
      if r.fenced == None && id in r.guards && r.guards[id].path == path && r.guards[id].waitRetained
         && !(admissible && faults.handleIdentity == None)
      then r' == Registry(r.guards - {id}, r.fenced) && Freed(Next(w, step).kernel, r.guards[id])
      else r' == r && Next(w, step).kernel == w.kernel
  {
    hide HandlesAccounted, GuardsNamed, Tabled;
    if id in w.processes[pid].registry.guards {
      GuardHoldsItsObject(w, pid, id);
      ClosingFrees(w, pid, id);
    }
  }

  // ---------------------------------------------------------------- waiting

  /** How a wait begins: refused at the table, fenced, already held (for this path or not), or on to the lock. */
  lemma {:induction false} WaitsBeginByTheRegistry(w: World, pid: ProcessId, t: nat)
    requires Inv(w) && TaskAt(w, pid, t) && w.processes[pid].tasks[t].stage == Queued
    ensures var p, task := w.processes[pid], w.processes[pid].tasks[t];
      var stage := StageAfter(w, BeginWait(pid, t), pid, t);
      && (stage == Some(Opening) <==> task.registered && p.registry.fenced == None && task.presenceId !in p.registry.guards)
      && (stage == Some(Leaving(WaitFenced)) <==> task.registered && p.registry.fenced.Some?)
      && (stage == Some(Leaving(WaitAcquired)) <==>
            task.registered && p.registry.fenced == None && task.presenceId in p.registry.guards
            && p.registry.guards[task.presenceId].path == task.path)
  {
    hide HandlesAccounted, GuardsNamed, Tabled, Consistent;
  }

  /**
   * A wait that was granted its lock and told the identity ends with a guard of that object in the registry, marked as
   * retained by a wait, exactly when the registry is not fenced and the ID is still free; otherwise its object is freed.
   */
  lemma {:induction false} CompletedWaitsAreRetained(w: World, pid: ProcessId, t: nat)
    requires Inv(w) && TaskAt(w, pid, t) && w.processes[pid].tasks[t].stage.Completed?
    ensures var step, task := RetainCompleted(pid, t), w.processes[pid].tasks[t];
      var r, r' := w.processes[pid].registry, RegistryAfter(w, step, pid);
      var id, guard := task.presenceId, task.stage.guard;
      && r'.fenced == r.fenced
      && (if r.fenced == None && id !in r.guards
          then r'.guards == r.guards[id := guard] && guard.waitRetained && Locks(Next(w, step).kernel, guard.handle)
          else r' == r && Freed(Next(w, step).kernel, guard))
  {
    hide GuardsNamed, Tabled;
    var p := w.processes[pid];
    assert HasSlot(p, OfTask(t)) && SlotBacked(w.kernel, pid, p, OfTask(t));
    CompletedIsNamed(w, pid, t);
  }

  lemma CompletedIsNamed(w: World, pid: ProcessId, t: nat)
    requires Inv(w) && TaskAt(w, pid, t) && w.processes[pid].tasks[t].stage.Completed?
    ensures var guard := w.processes[pid].tasks[t].stage.guard; GuardNames(w.kernel, guard) && guard.waitRetained
  {}

  /** A lock is granted to a wait exactly when nobody holds its object, and then it holds it. */
  lemma {:induction false} GrantsAreOfFreeObjects(w: World, pid: ProcessId, t: nat)
    requires Inv(w) && TaskAt(w, pid, t) && w.processes[pid].tasks[t].stage.Waiting?
    ensures var step, h := GrantWait(pid, t), w.processes[pid].tasks[t].stage.handle;
      var stage := StageAfter(w, step, pid, t);
      && h in w.kernel.handles
      && (stage == Some(Granted(h)) <==> w.kernel.handles[h].identity !in w.kernel.holders)
      && (stage == Some(Granted(h)) ==> Locks(Next(w, step).kernel, h))
  {
    hide GuardsNamed, Tabled;
    var p := w.processes[pid];
    assert HasSlot(p, OfTask(t)) && SlotBacked(w.kernel, pid, p, OfTask(t));
  }

  /**
   * A granted wait completes with a guard of its path and of the object its handle is open on, unless the identity query
   * fails; then its object is freed.
   */
  lemma {:induction false} GrantedWaitsAreIdentified(w: World, pid: ProcessId, t: nat, faults: Faults)
    requires Inv(w) && TaskAt(w, pid, t) && w.processes[pid].tasks[t].stage.Granted?
    ensures var step, task := IdentifyWait(pid, t, faults), w.processes[pid].tasks[t];
      var h, w' := task.stage.handle, Next(w, step);
      && h in w.kernel.handles
      && StageAfter(w, step, pid, t) == Some(
           match faults.handleIdentity
           case None => Completed(Guard(task.path, w.kernel.handles[h].identity, h, true))
           case Some(code) => Leaving(WaitUnknown(code)))
      && (faults.handleIdentity.Some? ==> h !in w'.kernel.handles && w.kernel.handles[h].identity !in w'.kernel.holders)
  {
    hide GuardsNamed, Tabled;
    var p := w.processes[pid];
    assert HasSlot(p, OfTask(t)) && SlotBacked(w.kernel, pid, p, OfTask(t));
  }

  /** A pending wait ends as cancelled only when its entry in the table was cancelled, and leaves no handle behind. */
  lemma {:induction false} AbortedWaitsLeaveNothing(w: World, pid: ProcessId, t: nat, error: Option<nat>)
    requires Inv(w) && TaskAt(w, pid, t) && w.processes[pid].tasks[t].stage.Waiting?
    ensures var step, p, task := AbortWait(pid, t, error), w.processes[pid], w.processes[pid].tasks[t];
      var w' := Next(w, step);
      var stage := StageAfter(w, step, pid, t);
      && (stage == Some(Leaving(WaitCancelled)) <==>
            error == None && task.waitId in p.waits && p.waits[task.waitId].cancelled)
      && (stage.Some? && stage.value.Leaving? ==> task.stage.handle !in w'.kernel.handles)
      && (stage.Some? && !stage.value.Leaving? ==> w' == w)
      && stage.Some?
  {
    hide GuardsNamed, Tabled;
  }
}
