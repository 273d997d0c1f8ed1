/** Every run of the presence world: ownership of locks, fencing, authority and blocking waits. */
module PresenceRuns {
  import opened Options
  import opened PresenceKernel
  import opened PresenceRules
  import opened PresenceWorld
  import opened PresenceSafety

  // ---------------------------------------------------------------- every step keeps the invariant

  lemma CallsKeepInv(w: World, step: Step)
    requires Inv(w)
    requires step.CallAcquire? || step.CallProbe? || step.CallProbeRetained? || step.CallCheck? || step.CallRelease?
    ensures Inv(Next(w, step))
  {
    hide HandlesAccounted, GuardsNamed, Tabled, Registrations, OnlyRegisteredWaitsRun, FreshGuard;
    var pid := step.process;
    if Live(w, pid) {
      var p, k := w.processes[pid], w.kernel;
      HandleOfGuard(w, pid, step.id);
      match step
      case CallAcquire(_, id, path, faults) =>
        if id !in p.registry.guards { FreshGuardKeepsInv(w, pid, id, path, true, faults); }
        SameRegistry(w, pid);
      case CallProbe(_, id, path, admissible, faults) =>
        FreshGuardKeepsInv(w, pid, id, path, id !in p.registry.guards && admissible, faults);
        SameRegistry(w, pid);
      case CallProbeRetained(_, id, path, _, _) =>
        if id in p.registry.guards { DropKeepsInv(w, pid, id); }
        SameRegistry(w, pid);
      case CallCheck(_, id, _, _) =>
        FenceKeepsInv(w, pid, PreActionCheck(k, p.registry, id, step.storeIsLocal, step.faults).0);
      case CallRelease(_, id, _) =>
        if id in p.registry.guards { DropKeepsInv(w, pid, id); }
        SameRegistry(w, pid);
    }
  }

  lemma SameRegistry(w: World, pid: ProcessId)
    requires pid in w.processes
    ensures SetRegistry(w, w.kernel, pid, w.processes[pid].registry) == w
  {
    assert w.processes[pid := w.processes[pid]] == w.processes;
  }

  lemma FenceKeepsInv(w: World, pid: ProcessId, r: Registry)
    requires Inv(w) && pid in w.processes && r.guards == w.processes[pid].registry.guards
    ensures Inv(SetRegistry(w, w.kernel, pid, r))
  {
    var p := w.processes[pid];
    NothingMoves(w.kernel, w.kernel, pid, p, p.(registry := r));
    hide ProcessOk;
    OneProcessChanges(w, w.kernel, pid, p.(registry := r));
  }

  lemma FreshGuardKeepsInv(w: World, pid: ProcessId, id: string, path: string, admitted: bool, faults: Faults)
    requires Inv(w) && pid in w.processes && (id in w.processes[pid].registry.guards ==> !admitted)
    ensures var (k', _, guard) := FreshGuard(w.kernel, pid, path, admitted, faults);
      Inv(SetRegistry(w, k', pid, Insert(w.processes[pid].registry, id, guard)))
  {
    hide FreshGuard;
    var p := w.processes[pid];
    var (k', attempt, guard) := FreshGuard(w.kernel, pid, path, admitted, faults);
    FreshGuardIsAllOrNothing(w.kernel, pid, path, admitted, faults);
    if guard.Some? {
      GuardInserted(w.kernel, k', pid, p, id, guard.value);
    } else {
      NothingMoves(w.kernel, k', pid, p, p);
    }
    hide ProcessOk;
    OneProcessChanges(w, k', pid, p.(registry := Insert(p.registry, id, guard)));
  }

  lemma DropKeepsInv(w: World, pid: ProcessId, id: string)
    requires Inv(w) && pid in w.processes && id in w.processes[pid].registry.guards
    ensures var p := w.processes[pid];
      Inv(SetRegistry(w, Close(w.kernel, p.registry.guards[id].handle), pid, Remove(p.registry, id)))
  {
    var p := w.processes[pid];
    GuardDropped(w.kernel, pid, p, id);
    hide ProcessOk;
    ClosedHandle(w.kernel, p.registry.guards[id].handle, pid);
    OneProcessChanges(w, Close(w.kernel, p.registry.guards[id].handle), pid,
                      p.(registry := Remove(p.registry, id)));
  }

  lemma AdvanceKeepsInv(w: World, k': Kernel, pid: ProcessId, t: nat, stage: Stage)
    requires Inv(w) && Consistent(k') && TouchesOnly(w.kernel, k', pid)
    requires pid in w.processes && t in w.processes[pid].tasks
    requires ProcessOk(k', pid, SetStage(w.processes[pid], t, stage))
    ensures Inv(Advance(w, k', pid, t, stage))
  {
    OneProcessChanges(w, k', pid, SetStage(w.processes[pid], t, stage));
  }

  lemma BeginKeepsInv(w: World, pid: ProcessId, t: nat)
    requires Inv(w)
    ensures Inv(Next(w, BeginWait(pid, t)))
  {
    hide HandlesAccounted, GuardsNamed, Tabled, Consistent;
    if TaskAt(w, pid, t) && w.processes[pid].tasks[t].stage == Queued {
      var w' := Next(w, BeginWait(pid, t));
      var stage := w'.processes[pid].tasks[t].stage;
      StageMoves(w.kernel, w.kernel, pid, w.processes[pid], t, stage);
      AdvanceKeepsInv(w, w.kernel, pid, t, stage);
    }
  }

  lemma OpenKeepsInv(w: World, pid: ProcessId, t: nat, faults: Faults)
    requires Inv(w)
    ensures Inv(Next(w, OpenWait(pid, t, faults)))
  {
    if TaskAt(w, pid, t) && w.processes[pid].tasks[t].stage == Opening {
      var p := w.processes[pid];
      var (k, handed) := Open(w.kernel, p.tasks[t].path, pid, faults);
      FreshHandle(w.kernel, p.tasks[t].path, pid, faults);
      var stage := if handed.Ok? then Waiting(handed.value) else Leaving(WaitUnknown(handed.code));
      StageMoves(w.kernel, k, pid, p, t, stage);
      AdvanceKeepsInv(w, k, pid, t, stage);
    }
  }

  lemma GrantKeepsInv(w: World, pid: ProcessId, t: nat)
    requires Inv(w)
    ensures Inv(Next(w, GrantWait(pid, t)))
  {
    if TaskAt(w, pid, t) && w.processes[pid].tasks[t].stage.Waiting? {
      var p := w.processes[pid];
      var h := p.tasks[t].stage.handle;
      assert HasSlot(p, OfTask(t)) && SlotBacked(w.kernel, pid, p, OfTask(t));
      if Free(w.kernel, h) {
        var k := TryLock(w.kernel, h, NO_FAULTS).0;
        GrantedHandle(w.kernel, h, pid);
        StageMoves(w.kernel, k, pid, p, t, Granted(h));
        AdvanceKeepsInv(w, k, pid, t, Granted(h));
      }
    }
  }

  lemma AbortKeepsInv(w: World, pid: ProcessId, t: nat, error: Option<nat>)
    requires Inv(w)
    ensures Inv(Next(w, AbortWait(pid, t, error)))
  {
    if TaskAt(w, pid, t) && w.processes[pid].tasks[t].stage.Waiting? {
      var p := w.processes[pid];
      var h := p.tasks[t].stage.handle;
      var outcome := if error.Some? then WaitUnknown(error.value) else WaitCancelled;
      WaitDropped(w.kernel, pid, p, t, outcome);
      ClosedHandle(w.kernel, h, pid);
      AdvanceKeepsInv(w, Close(w.kernel, h), pid, t, Leaving(outcome));
    }
  }

  lemma IdentifyKeepsInv(w: World, pid: ProcessId, t: nat, faults: Faults)
    requires Inv(w)
    ensures Inv(Next(w, IdentifyWait(pid, t, faults)))
  {
    if TaskAt(w, pid, t) && w.processes[pid].tasks[t].stage.Granted? {
      var p := w.processes[pid];
      var h := p.tasks[t].stage.handle;
      assert HasSlot(p, OfTask(t)) && SlotBacked(w.kernel, pid, p, OfTask(t));
      var identity := HandleIdentity(w.kernel, h, faults);
      if identity.Ok? {
        var stage := Completed(Guard(p.tasks[t].path, identity.value, h, true));
        StageMoves(w.kernel, w.kernel, pid, p, t, stage);
        AdvanceKeepsInv(w, w.kernel, pid, t, stage);
      } else {
        WaitDropped(w.kernel, pid, p, t, WaitUnknown(identity.code));
        ClosedHandle(w.kernel, h, pid);
        AdvanceKeepsInv(w, Close(w.kernel, h), pid, t, Leaving(WaitUnknown(identity.code)));
      }
    }
  }

  lemma RetainKeepsInv(w: World, pid: ProcessId, t: nat)
    requires Inv(w)
    ensures Inv(Next(w, RetainCompleted(pid, t)))
  {
    hide HandlesAccounted, GuardsNamed, Tabled, Consistent;
    if TaskAt(w, pid, t) && w.processes[pid].tasks[t].stage.Completed? {
      var p, task := w.processes[pid], w.processes[pid].tasks[t];
      var (k, r, outcome) := RetainWait(w.kernel, p.registry, task.presenceId, task.stage.guard);
      var p' := SetStage(p.(registry := r), t, Leaving(outcome));
      assert Next(w, RetainCompleted(pid, t)) == Put(w, k, pid, p');
      if outcome == WaitAcquired {
        GuardMoved(w.kernel, pid, p, t, task.presenceId, outcome);
      } else {
        assert HasSlot(p, OfTask(t));
        WaitDropped(w.kernel, pid, p, t, outcome);
        ClosedHandle(w.kernel, task.stage.guard.handle, pid);
        assert p' == SetStage(p, t, Leaving(outcome));
      }
      OneProcessChanges(w, k, pid, p');
    }
  }

  lemma StartKeepsInv(w: World, pid: ProcessId, t: nat, waitId: string, id: string, path: string)
    requires Inv(w)
    ensures Inv(Next(w, StartWait(pid, t, waitId, id, path)))
  {
    hide HandlesAccounted, GuardsNamed, Tabled, Consistent;
    if Live(w, pid) && t !in w.processes[pid].tasks {
      var p := w.processes[pid];
      var p' := Next(w, StartWait(pid, t, waitId, id, path)).processes[pid];
      NothingMoves(w.kernel, w.kernel, pid, p, p');
      if waitId !in p.waits && !WaitPending(p, id) {
        assert Registrations(p'.tasks) == Registrations(p.tasks)[t := (waitId, id)];
        TableGrows(p.waits, Registrations(p.tasks), t, waitId, id);
      } else {
        assert Registrations(p'.tasks) == Registrations(p.tasks);
      }
      OneProcessChanges(w, w.kernel, pid, p');
    }
  }

  lemma TableGrows(waits: map<string, PendingWait>, registered: map<nat, (string, string)>, t: nat, waitId: string,
                   id: string)
    requires Tabled(waits, registered) && t !in registered && waitId !in waits
    requires forall w :: w in waits ==> waits[w].presenceId != id
    ensures Tabled(waits[waitId := PendingWait(id, false)], registered[t := (waitId, id)])
  {
    var after := registered[t := (waitId, id)];
    forall w | w in waits[waitId := PendingWait(id, false)]
      ensures WaitedFor(after, w)
    {
      if w == waitId {
        assert t in after && after[t].0 == w;
      } else {
        assert WaitedFor(registered, w);
        var u :| u in registered && registered[u].0 == w;
        assert u in after && after[u].0 == w;
      }
    }
  }

  lemma LeaveKeepsInv(w: World, pid: ProcessId, t: nat)
    requires Inv(w)
    ensures Inv(Next(w, LeaveWait(pid, t)))
  {
    hide HandlesAccounted, GuardsNamed, Tabled, Consistent;
    if TaskAt(w, pid, t) && w.processes[pid].tasks[t].stage.Leaving? {
      var p := w.processes[pid];
      var p' := Next(w, LeaveWait(pid, t)).processes[pid];
      NothingMoves(w.kernel, w.kernel, pid, p, p');
      assert Registrations(p'.tasks) == Registrations(p.tasks) - {t};
      if p.tasks[t].registered {
        TableShrinks(p.waits, Registrations(p.tasks), t);
      } else {
        assert Registrations(p'.tasks) == Registrations(p.tasks);
      }
      OneProcessChanges(w, w.kernel, pid, p');
    }
  }

  lemma TableShrinks(waits: map<string, PendingWait>, registered: map<nat, (string, string)>, t: nat)
    requires Tabled(waits, registered) && t in registered
    ensures Tabled(waits - {registered[t].0}, registered - {t})
  {
    var after := registered - {t};
    forall w | w in waits - {registered[t].0}
      ensures WaitedFor(after, w)
    {
      assert WaitedFor(registered, w);
      var u :| u in registered && registered[u].0 == w;
      assert u in after && after[u].0 == w;
    }
  }

  lemma CancelKeepsInv(w: World, pid: ProcessId, waitId: string)
    requires Inv(w)
    ensures Inv(Next(w, CancelWait(pid, waitId)))
  {
    hide HandlesAccounted, GuardsNamed, Consistent;
    if Live(w, pid) && waitId in w.processes[pid].waits {
      var p := w.processes[pid];
      var p' := Next(w, CancelWait(pid, waitId)).processes[pid];
      NothingMoves(w.kernel, w.kernel, pid, p, p');
      assert forall v :: v in p'.waits ==> v in p.waits && p'.waits[v].presenceId == p.waits[v].presenceId;
      assert forall v :: v in p.waits ==> v in p'.waits;
      OneProcessChanges(w, w.kernel, pid, p');
    }
  }

  lemma SpawnKeepsInv(w: World, pid: ProcessId)
    requires Inv(w)
    ensures Inv(Next(w, Spawn(pid)))
  {
    if pid !in w.processes {
      OneProcessChanges(w, w.kernel, pid, Process(Registry(map[], None), map[], map[], true));
    }
  }

  lemma DieKeepsInv(w: World, pid: ProcessId)
    requires Inv(w)
    ensures Inv(Next(w, Die(pid)))
  {
    if pid in w.processes {
      var p := w.processes[pid];
      NothingMoves(w.kernel, w.kernel, pid, p, p.(alive := false));
      OneProcessChanges(w, w.kernel, pid, p.(alive := false));
    }
  }

  lemma ReleaseTouchesOne(k: Kernel, pid: ProcessId)
    requires Consistent(k)
    ensures var k' := ReleaseProcess(k, pid);
      Consistent(k') && TouchesOnly(k, k', pid) && forall h :: h in k'.handles ==> k'.handles[h].process != pid
  {}

  lemma ReleaseKeepsInv(w: World, pid: ProcessId)
    requires Inv(w)
    ensures Inv(Next(w, KernelReleases(pid)))
  {
    if pid in w.processes && !w.processes[pid].alive {
      hide ProcessOk;
      var k' := ReleaseProcess(w.kernel, pid);
      ReleaseTouchesOne(w.kernel, pid);
      forall q | q in w.processes && q != pid
        ensures ProcessOk(k', q, w.processes[q])
      {
        OtherProcessStays(w.kernel, k', pid, q, w.processes[q]);
      }
    }
  }

  lemma SetFileKeepsInv(w: World, path: string, identity: Option<FileIdentity>)
    requires Inv(w)
    ensures Inv(Next(w, SetFile(path, identity)))
  {
    var w' := Next(w, SetFile(path, identity));
    forall pid | pid in w'.processes
      ensures ProcessOk(w'.kernel, pid, w'.processes[pid])
    {
      NothingMoves(w.kernel, w'.kernel, pid, w.processes[pid], w.processes[pid]);
    }
  }

  lemma StepKeepsInv(w: World, step: Step)
    requires Inv(w)
    ensures Inv(Next(w, step))
  {
    hide Inv, Next;
    match step
    case Spawn(pid) => SpawnKeepsInv(w, pid);
    case StartWait(pid, t, waitId, id, path) => StartKeepsInv(w, pid, t, waitId, id, path);
    case CancelWait(pid, waitId) => CancelKeepsInv(w, pid, waitId);
    case BeginWait(pid, t) => BeginKeepsInv(w, pid, t);
    case OpenWait(pid, t, faults) => OpenKeepsInv(w, pid, t, faults);
    case GrantWait(pid, t) => GrantKeepsInv(w, pid, t);
    case AbortWait(pid, t, error) => AbortKeepsInv(w, pid, t, error);
    case IdentifyWait(pid, t, faults) => IdentifyKeepsInv(w, pid, t, faults);
    case RetainCompleted(pid, t) => RetainKeepsInv(w, pid, t);
    case LeaveWait(pid, t) => LeaveKeepsInv(w, pid, t);
    case Die(pid) => DieKeepsInv(w, pid);
    case KernelReleases(pid) => ReleaseKeepsInv(w, pid);
    case SetFile(path, identity) => SetFileKeepsInv(w, path, identity);
    case _ => CallsKeepInv(w, step);
  }

  // ---------------------------------------------------------------- runs

  ghost function Run(w: World, steps: seq<Step>): (w': World)
    requires Inv(w)
    ensures Inv(w')
    decreases |steps|
  {
    if steps == [] then w
    else
      StepKeepsInv(w, steps[0]);
      Run(Next(w, steps[0]), steps[1..])
  }

  /** No process, no open handle, any files. */
  ghost function Init(files: map<string, FileIdentity>): (w: World)
    ensures Inv(w)
  {
    World(Kernel(files, map[], map[], 0), map[])
  }

  ghost predicate HeldLocked(p: Process, h: Handle) {
    exists s :: HasSlot(p, s) && SlotHandle(p, s) == h && SlotLocked(p, s)
  }

  /**
   * After any run: the handles a process has open are those of its guards and waits, and the locks it owns are exactly
   * those of its guards and of its granted waits not yet moved in. So nothing an attempt opened or locked and did not
   * keep is left behind.
   */
  lemma {:induction false} LocksAreExactlyThoseAccountedFor(files: map<string, FileIdentity>, steps: seq<Step>,
                                                           pid: ProcessId, h: Handle)
    requires pid in Run(Init(files), steps).processes
    ensures var w := Run(Init(files), steps); var p := w.processes[pid];
      && (h in w.kernel.handles && w.kernel.handles[h].process == pid <==> Held(p, h))
      && (Locks(w.kernel, h) && w.kernel.handles[h].process == pid <==> HeldLocked(p, h))
  {
    var w := Run(Init(files), steps);
    var p := w.processes[pid];
    if h in w.kernel.handles && w.kernel.handles[h].process == pid {
      assert Held(p, h);
      var s :| HasSlot(p, s) && SlotHandle(p, s) == h;
      assert SlotBacked(w.kernel, pid, p, s);
    }
    if Held(p, h) {
      var s :| HasSlot(p, s) && SlotHandle(p, s) == h;
      assert SlotBacked(w.kernel, pid, p, s);
    }
    if HeldLocked(p, h) {
      var s :| HasSlot(p, s) && SlotHandle(p, s) == h && SlotLocked(p, s);
      assert SlotBacked(w.kernel, pid, p, s);
    }
  }

  /** No object is guarded twice, in one process or in two. */
  lemma {:induction false} NoObjectHasTwoGuards(w: World, pid: ProcessId, id: string, pid': ProcessId, id': string)
    requires Inv(w) && pid in w.processes && pid' in w.processes
    requires id in w.processes[pid].registry.guards && id' in w.processes[pid'].registry.guards
    requires w.processes[pid].registry.guards[id].identity == w.processes[pid'].registry.guards[id'].identity
    ensures pid == pid' && id == id'
  {
    var p, p' := w.processes[pid], w.processes[pid'];
    assert HasSlot(p, OfGuard(id)) && SlotBacked(w.kernel, pid, p, OfGuard(id));
    assert HasSlot(p', OfGuard(id')) && SlotBacked(w.kernel, pid', p', OfGuard(id'));
    assert GuardNames(w.kernel, p.registry.guards[id]) && GuardNames(w.kernel, p'.registry.guards[id']);
    assert SlotHandle(p, OfGuard(id)) == SlotHandle(p', OfGuard(id'));
  }

  /** Steps that may take this guard out of its registry. */
  predicate MayRemove(step: Step, pid: ProcessId, id: string, guard: Guard) {
    || (step.CallRelease? && step.process == pid && step.id == id && IsReleaseReason(step.state))
    || (guard.waitRetained && step.CallProbeRetained? && step.process == pid && step.id == id)
  }

  lemma OneStep(w: World, step: Step, pid: ProcessId)
    requires Inv(w) && pid in w.processes && step != KernelReleases(pid)
    ensures var w' := Next(w, step);
      && pid in w'.processes
      && var p, p' := w.processes[pid], w'.processes[pid];
      && (!p.alive ==> p' == p)
      && (p.registry.fenced.Some? ==>
            p'.registry.fenced == p.registry.fenced
            && forall id :: id in p'.registry.guards ==>
                 id in p.registry.guards && p'.registry.guards[id] == p.registry.guards[id])
      && (forall id :: id in p.registry.guards && !MayRemove(step, pid, id, p.registry.guards[id]) ==>
            id in p'.registry.guards && p'.registry.guards[id] == p.registry.guards[id])
  {
    hide Inv, HandlesAccounted, GuardsNamed, Tabled, Consistent;
    if step.CallProbe? && Live(w, step.process) {
      FreshGuardIsAllOrNothing(w.kernel, step.process, step.path,
                               step.id !in w.processes[step.process].registry.guards && step.admissible, step.faults)
        by { InvIsConsistent(w); }
    }
  }

  lemma InvIsConsistent(w: World)
    requires Inv(w)
    ensures Consistent(w.kernel)
  {}

  /**
   * Fencing is for good: over any further run the reason stays and no guard appears, not even that of a wait that
   * completes after the fence.
   */
  lemma {:induction false} FenceIsPermanent(w: World, steps: seq<Step>, pid: ProcessId)
    requires Inv(w) && pid in w.processes && w.processes[pid].registry.fenced.Some?
    requires KernelReleases(pid) !in steps
    ensures var w' := Run(w, steps);
      && pid in w'.processes
      && w'.processes[pid].registry.fenced == w.processes[pid].registry.fenced
      && forall id :: id in w'.processes[pid].registry.guards ==>
           id in w.processes[pid].registry.guards
           && w'.processes[pid].registry.guards[id] == w.processes[pid].registry.guards[id]
    decreases |steps|
  {
    if steps != [] {
      StepKeepsInv(w, steps[0]);
      OneStep(w, steps[0], pid);
      FenceIsPermanent(Next(w, steps[0]), steps[1..], pid);
    }
  }

  /**
   * A guard leaves its registry only by a release with a receipt, or, for one a wait retained, by a retained probe; over
   * any run without such a step for it, it stays exactly as it is.
   */
  lemma {:induction false} GuardsLeaveOnlyByReceipt(w: World, steps: seq<Step>, pid: ProcessId, id: string)
    requires Inv(w) && pid in w.processes && id in w.processes[pid].registry.guards
    requires KernelReleases(pid) !in steps
    requires forall step :: step in steps ==> !MayRemove(step, pid, id, w.processes[pid].registry.guards[id])
    ensures var w' := Run(w, steps);
      && pid in w'.processes && id in w'.processes[pid].registry.guards
      && w'.processes[pid].registry.guards[id] == w.processes[pid].registry.guards[id]
    decreases |steps|
  {
    if steps != [] {
      assert steps[0] in steps;
      StepKeepsInv(w, steps[0]);
      OneStep(w, steps[0], pid);
      GuardsLeaveOnlyByReceipt(Next(w, steps[0]), steps[1..], pid, id);
    }
  }

  /** A dead process keeps every lock it owned, so nobody else gets one of those objects, until the kernel releases it. */
  lemma {:induction false} DeadHoldersBlock(w: World, steps: seq<Step>, pid: ProcessId, h: Handle)
    requires Inv(w) && pid in w.processes && !w.processes[pid].alive
    requires Locks(w.kernel, h) && w.kernel.handles[h].process == pid
    requires KernelReleases(pid) !in steps
    ensures var w' := Run(w, steps);
      && Locks(w'.kernel, h) && w'.kernel.handles[h].process == pid
      && forall q, id :: q in w'.processes && q != pid && id in w'.processes[q].registry.guards ==>
           w'.kernel.handles[h].identity != w'.processes[q].registry.guards[id].identity
    decreases |steps|
  {
    if steps == [] {
      forall q, id | q in w.processes && q != pid && id in w.processes[q].registry.guards
        ensures w.kernel.handles[h].identity != w.processes[q].registry.guards[id].identity
      {
        var p := w.processes[q];
        assert HasSlot(p, OfGuard(id)) && SlotBacked(w.kernel, q, p, OfGuard(id));
        assert GuardNames(w.kernel, p.registry.guards[id]);
      }
    } else {
      StepKeepsInv(w, steps[0]);
      OneStep(w, steps[0], pid);
      var p, w1 := w.processes[pid], Next(w, steps[0]);
      assert Held(p, h);
      var s :| HasSlot(p, s) && SlotHandle(p, s) == h;
      assert SlotBacked(w.kernel, pid, p, s) && SlotBacked(w1.kernel, pid, w1.processes[pid], s);
      DeadHoldersBlock(w1, steps[1..], pid, h);
    }
  }

  /** At most one pending wait per presence ID; every entry belongs to a running wait, and `acquire` is refused then. */
  lemma {:induction false} OneWaitPerPresenceId(w: World, pid: ProcessId, id: string, path: string, faults: Faults)
    requires Inv(w) && pid in w.processes
    ensures var p := w.processes[pid];
      && (forall a, b :: a in p.waits && b in p.waits && p.waits[a].presenceId == id == p.waits[b].presenceId ==> a == b)
      && (forall a :: a in p.waits ==> exists t :: t in p.tasks && p.tasks[t].registered && p.tasks[t].waitId == a)
      && (WaitPending(p, id) ==> Next(w, CallAcquire(pid, id, path, faults)) == w)
  {
    var p := w.processes[pid];
    forall a | a in p.waits
      ensures exists t :: t in p.tasks && p.tasks[t].registered && p.tasks[t].waitId == a
    {
      assert WaitedFor(Registrations(p.tasks), a);
    }
  }

  /** Once the kernel releases a dead process, its objects are free: another process's plain `acquire` gets the lock. */
  lemma {:induction false} KernelReleaseUnblocks(w: World, pid: ProcessId, h: Handle, q: ProcessId, id: string)
    requires Inv(w) && pid in w.processes && !w.processes[pid].alive && q != pid && Live(w, q)
    requires Locks(w.kernel, h) && w.kernel.handles[h].process == pid
    requires w.kernel.handles[h].path in w.kernel.files
    requires w.kernel.files[w.kernel.handles[h].path] == w.kernel.handles[h].identity
    requires w.processes[q].registry.fenced == None && id !in w.processes[q].registry.guards
    requires !WaitPending(w.processes[q], id)
    ensures var w' := Run(w, [KernelReleases(pid), CallAcquire(q, id, w.kernel.handles[h].path, NO_FAULTS)]);
      && q in w'.processes && id in w'.processes[q].registry.guards
      && w'.processes[q].registry.guards[id].identity == w.kernel.handles[h].identity
  {
    hide HandlesAccounted, GuardsNamed, Tabled, FreshGuard;
    ReleaseKeepsInv(w, pid);
    var w1, acquire := Next(w, KernelReleases(pid)), CallAcquire(q, id, w.kernel.handles[h].path, NO_FAULTS);
    StepKeepsInv(w1, acquire);
    assert Run(w, [KernelReleases(pid), acquire]) == Run(w1, [acquire]) == Run(Next(w1, acquire), []);
    var k, path := ReleaseProcess(w.kernel, pid), w.kernel.handles[h].path;
    assert w.kernel.handles[h].identity !in k.holders;
    FreeObjectIsTaken(k, q, path);
  }

  lemma FreeObjectIsTaken(k: Kernel, pid: ProcessId, path: string)
    requires Consistent(k) && path in k.files && k.files[path] !in k.holders
    ensures var guard := FreshGuard(k, pid, path, true, NO_FAULTS).2;
      guard.Some? && guard.value.identity == k.files[path]
  {}
}
