/** Every step of the presence world keeps its invariant, and what that means for any run. */
module PresenceSafety {
  import opened Options
  import opened PresenceKernel
  import opened PresenceRules
  import opened PresenceWorld

  // ---------------------------------------------------------------- one slot changes

  ghost predicate SameElsewhere(p: Process, p': Process, s0: Slot) {
    forall s :: s != s0 ==>
      (HasSlot(p', s) <==> HasSlot(p, s))
      && (HasSlot(p, s) ==> SlotHandle(p', s) == SlotHandle(p, s) && (SlotLocked(p', s) <==> SlotLocked(p, s)))
  }

  /** The handle a slot accounts for, if any. */
  ghost function HandleAt(p: Process, s: Slot): Option<Handle> {
    if HasSlot(p, s) then Some(SlotHandle(p, s)) else None
  }

  ghost predicate UntouchedHandle(k: Kernel, k': Kernel, h: Handle) {
    h in k.handles && h in k'.handles && k'.handles[h] == k.handles[h] && (Locks(k', h) <==> Locks(k, h))
  }

  /**
   * One slot gains, changes or loses its handle: the other handles stay, a handle the slot gives up is closed, and a
   * handle it takes is new.
   */
  lemma OneSlotChanges(k: Kernel, k': Kernel, pid: ProcessId, p: Process, p': Process, s0: Slot)
    requires HandlesAccounted(k, pid, p) && SameElsewhere(p, p', s0)
    requires forall h :: h in k.handles && HandleAt(p, s0) != Some(h) ==> UntouchedHandle(k, k', h)
    requires forall h :: h in k'.handles && h !in k.handles ==> HandleAt(p', s0) == Some(h)
    requires HasSlot(p, s0) && HandleAt(p', s0) != HandleAt(p, s0) ==> SlotHandle(p, s0) !in k'.handles
    requires HasSlot(p', s0) ==> SlotBacked(k', pid, p', s0)
    requires HasSlot(p', s0) && HandleAt(p', s0) != HandleAt(p, s0) ==> SlotHandle(p', s0) !in k.handles
    ensures HandlesAccounted(k', pid, p')
  {
    forall s | HasSlot(p', s)
      ensures SlotBacked(k', pid, p', s)
    {
      if s != s0 {
        assert HasSlot(p, s) && SlotBacked(k, pid, p, s);
        assert HandleAt(p, s0) != Some(SlotHandle(p, s));
      }
    }
    forall s, s' | HasSlot(p', s) && HasSlot(p', s') && SlotHandle(p', s) == SlotHandle(p', s')
      ensures s == s'
    {
      if s != s0 { assert HasSlot(p, s) && SlotBacked(k, pid, p, s); }
      if s' != s0 { assert HasSlot(p, s') && SlotBacked(k, pid, p, s'); }
    }
    forall h | h in k'.handles && k'.handles[h].process == pid
      ensures Held(p', h)
    {
      if HandleAt(p', s0) == Some(h) {
        assert HasSlot(p', s0) && SlotHandle(p', s0) == h;
      } else {
        assert h in k.handles;
        assert HandleAt(p, s0) != Some(h);
        assert UntouchedHandle(k, k', h);
        assert Held(p, h);
        var s :| HasSlot(p, s) && SlotHandle(p, s) == h;
        assert HasSlot(p', s) && SlotHandle(p', s) == h;
      }
    }
  }

  /** Only this process's handles and record changed, so every other process is as accounted for as before. */
  lemma OneProcessChanges(w: World, k': Kernel, pid: ProcessId, p': Process)
    requires Inv(w) && Consistent(k') && TouchesOnly(w.kernel, k', pid)
    requires ProcessOk(k', pid, p')
    ensures Inv(Put(w, k', pid, p'))
  {
    hide ProcessOk;
    var w' := Put(w, k', pid, p');
    forall q | q in w'.processes
      ensures ProcessOk(k', q, w'.processes[q])
    {
      if q != pid {
        OtherProcessStays(w.kernel, k', pid, q, w.processes[q]);
      }
    }
    forall h | h in k'.handles
      ensures k'.handles[h].process in w'.processes
    {
      if k'.handles[h].process != pid { assert h in w.kernel.handles; }
    }
  }

  lemma OtherProcessStays(k: Kernel, k': Kernel, pid: ProcessId, q: ProcessId, p: Process)
    requires ProcessOk(k, q, p) && q != pid && TouchesOnly(k, k', pid)
    ensures ProcessOk(k', q, p)
  {
    forall s | HasSlot(p, s)
      ensures SlotBacked(k', q, p, s) && UntouchedHandle(k, k', SlotHandle(p, s))
    {
      assert SlotBacked(k, q, p, s);
    }
    forall h | h in k'.handles && k'.handles[h].process == q
      ensures Held(p, h)
    {
      assert h in k.handles;
    }
    forall id | id in p.registry.guards
      ensures GuardNames(k', p.registry.guards[id])
    {
      assert HasSlot(p, OfGuard(id));
    }
    forall t | t in p.tasks && HasHandle(p.tasks[t].stage)
      ensures UntouchedHandle(k, k', SlotHandle(p, OfTask(t)))
    {
      assert HasSlot(p, OfTask(t));
    }
  }

  // ---------------------------------------------------------------- the kernel calls touch one process

  lemma FreshHandle(k: Kernel, path: string, pid: ProcessId, faults: Faults)
    requires Consistent(k)
    ensures var (k1, r) := Open(k, path, pid, faults);
      && Consistent(k1) && TouchesOnly(k, k1, pid) && (r.Err? ==> k1 == k)
      && (forall h :: h in k.handles ==> UntouchedHandle(k, k1, h))
      && (r.Ok? ==> r.value !in k.handles && k1.handles.Keys == k.handles.Keys + {r.value} && !Locks(k1, r.value)
                    && k1.handles[r.value].process == pid && k1.handles[r.value].path == path)
  {}

  lemma GrantedHandle(k: Kernel, h: Handle, pid: ProcessId)
    requires Consistent(k) && h in k.handles && k.handles[h].process == pid && Free(k, h)
    ensures var k1 := TryLock(k, h, NO_FAULTS).0;
      && Consistent(k1) && TouchesOnly(k, k1, pid) && Locks(k1, h) && k1.handles == k.handles
      && (forall h' :: h' in k.handles && h' != h ==> UntouchedHandle(k, k1, h'))
  {
    var k1 := TryLock(k, h, NO_FAULTS).0;
    forall h' | h' in k.handles && h' != h
      ensures Locks(k1, h') <==> Locks(k, h')
    {}
  }

  lemma ClosedHandle(k: Kernel, h: Handle, pid: ProcessId)
    requires Consistent(k) && h in k.handles && k.handles[h].process == pid
    ensures var k1 := Close(k, h);
      && Consistent(k1) && TouchesOnly(k, k1, pid) && h !in k1.handles
      && (forall h' :: h' in k.handles && h' != h ==> UntouchedHandle(k, k1, h'))
      && (forall h' :: h' in k1.handles ==> h' in k.handles)
  {
    CloseKeepsOthers(k, h);
  }

  /**
   * A fresh acquisition either yields a guard whose handle is new, locked and named, or leaves the kernel as it was but
   * for the next handle number: no failed, occupied or inadmissible attempt leaves a handle or a lock behind.
   */
  lemma FreshGuardIsAllOrNothing(k: Kernel, pid: ProcessId, path: string, admitted: bool, faults: Faults)
    requires Consistent(k)
    ensures var (k', attempt, guard) := FreshGuard(k, pid, path, admitted, faults);
      && Consistent(k') && TouchesOnly(k, k', pid)
      && (guard == None ==> k' == k.(nextHandle := k'.nextHandle))
      && (guard.Some? ==>
            && guard.value.handle !in k.handles && k'.handles.Keys == k.handles.Keys + {guard.value.handle}
            && k'.handles[guard.value.handle].process == pid && Locks(k', guard.value.handle)
            && GuardNames(k', guard.value) && !guard.value.waitRetained && guard.value.path == path && admitted
            && (forall h :: h in k.handles ==> UntouchedHandle(k, k', h)))
      && (path in k.files && k.files[path] in k.holders ==> guard == None)
  {
    FreshHandle(k, path, pid, faults);
    var (k1, handed) := Open(k, path, pid, faults);
    if handed.Ok? {
      OpenThenClose(k, path, pid, faults);
      LockThenClose(k1, handed.value, faults);
    }
  }

  // ---------------------------------------------------------------- what one process may do

  lemma GuardsStayNamed(k: Kernel, k': Kernel, pid: ProcessId, p: Process, s0: Slot)
    requires HandlesAccounted(k, pid, p) && GuardsNamed(k, p)
    requires forall h :: h in k.handles && HandleAt(p, s0) != Some(h) ==> UntouchedHandle(k, k', h)
    ensures forall id :: id in p.registry.guards && OfGuard(id) != s0 ==> GuardNames(k', p.registry.guards[id])
    ensures forall t :: t in p.tasks && OfTask(t) != s0 && p.tasks[t].stage.Completed? ==>
      GuardNames(k', p.tasks[t].stage.guard)
    ensures forall t :: t in p.tasks && OfTask(t) != s0 && (p.tasks[t].stage.Waiting? || p.tasks[t].stage.Granted?) ==>
      p.tasks[t].stage.handle in k'.handles && k'.handles[p.tasks[t].stage.handle].path == p.tasks[t].path
  {
    forall s | HasSlot(p, s) && s != s0
      ensures UntouchedHandle(k, k', SlotHandle(p, s))
    {
      assert SlotBacked(k, pid, p, s);
      assert HandleAt(p, s0) != Some(SlotHandle(p, s));
    }
    forall id | id in p.registry.guards && OfGuard(id) != s0
      ensures GuardNames(k', p.registry.guards[id])
    {
      assert HasSlot(p, OfGuard(id));
    }
    forall t | t in p.tasks && OfTask(t) != s0 && HasHandle(p.tasks[t].stage)
      ensures UntouchedHandle(k, k', SlotHandle(p, OfTask(t)))
    {
      assert HasSlot(p, OfTask(t));
    }
  }

  ghost predicate SameHandleTasks(p: Process, p': Process) {
    && (forall t :: t in p'.tasks && HasHandle(p'.tasks[t].stage) ==> t in p.tasks && p.tasks[t] == p'.tasks[t])
    && (forall t :: t in p.tasks && HasHandle(p.tasks[t].stage) ==> t in p'.tasks && p.tasks[t] == p'.tasks[t])
  }

  /** Same open files and locks, same slots: only the fence, the flags or the next handle number changed. */
  lemma NothingMoves(k: Kernel, k': Kernel, pid: ProcessId, p: Process, p': Process)
    requires HandlesAccounted(k, pid, p) && GuardsNamed(k, p)
    requires k'.handles == k.handles && k'.holders == k.holders
    requires p'.registry.guards == p.registry.guards && SameHandleTasks(p, p')
    ensures HandlesAccounted(k', pid, p') && GuardsNamed(k', p')
  {
    SlotsStay(k, k', pid, p, p');
    forall t | t in p'.tasks && HasHandle(p'.tasks[t].stage)
      ensures p.tasks[t] == p'.tasks[t]
    {}
  }

  lemma SlotsStay(k: Kernel, k': Kernel, pid: ProcessId, p: Process, p': Process)
    requires HandlesAccounted(k, pid, p)
    requires k'.handles == k.handles && k'.holders == k.holders
    requires p'.registry.guards == p.registry.guards && SameHandleTasks(p, p')
    ensures HandlesAccounted(k', pid, p')
  {
    forall s
      ensures HasSlot(p', s) <==> HasSlot(p, s)
      ensures HasSlot(p, s) ==> SlotHandle(p', s) == SlotHandle(p, s) && (SlotLocked(p', s) <==> SlotLocked(p, s))
    {}
    hide SameHandleTasks, HasSlot, SlotHandle, SlotLocked;
    forall s | HasSlot(p', s)
      ensures SlotBacked(k', pid, p', s)
    {
      assert SlotBacked(k, pid, p, s);
    }
    forall h | h in k'.handles && k'.handles[h].process == pid
      ensures Held(p', h)
    {
      assert Held(p, h);
      var s :| HasSlot(p, s) && SlotHandle(p, s) == h;
      assert HasSlot(p', s) && SlotHandle(p', s) == h;
    }
  }

  lemma GuardInserted(k: Kernel, k': Kernel, pid: ProcessId, p: Process, id: string, guard: Guard)
    requires ProcessOk(k, pid, p) && id !in p.registry.guards
    requires guard.handle !in k.handles && k'.handles.Keys == k.handles.Keys + {guard.handle}
    requires k'.handles[guard.handle].process == pid && Locks(k', guard.handle) && GuardNames(k', guard)
    requires forall h :: h in k.handles ==> UntouchedHandle(k, k', h)
    ensures ProcessOk(k', pid, p.(registry := Insert(p.registry, id, Some(guard))))
  {
    var p' := p.(registry := Insert(p.registry, id, Some(guard)));
    OneSlotChanges(k, k', pid, p, p', OfGuard(id));
    GuardsStayNamed(k, k', pid, p, OfGuard(id));
  }

  lemma GuardDropped(k: Kernel, pid: ProcessId, p: Process, id: string)
    requires Consistent(k) && ProcessOk(k, pid, p) && id in p.registry.guards
    ensures var h := p.registry.guards[id].handle;
      && h in k.handles && k.handles[h].process == pid
      && ProcessOk(Close(k, h), pid, p.(registry := Remove(p.registry, id)))
  {
    hide Tabled, Registrations, OnlyRegisteredWaitsRun;
    var h, s0 := p.registry.guards[id].handle, OfGuard(id);
    assert HasSlot(p, s0) && SlotBacked(k, pid, p, s0);
    ClosedHandle(k, h, pid);
    var p' := p.(registry := Remove(p.registry, id));
    OneSlotChanges(k, Close(k, h), pid, p, p', s0);
    GuardsStayNamed(k, Close(k, h), pid, p, s0);
  }

  lemma StageKeepsTable(p: Process, t: nat, stage: Stage)
    requires t in p.tasks
    ensures Registrations(SetStage(p, t, stage).tasks) == Registrations(p.tasks)
  {}

  /** A wait task moves on while its handle is opened, granted, identified or closed. */
  lemma StageMoves(k: Kernel, k': Kernel, pid: ProcessId, p: Process, t: nat, stage: Stage)
    requires ProcessOk(k, pid, p) && t in p.tasks && (p.tasks[t].registered || stage.Leaving?)
    requires var p' := SetStage(p, t, stage); var s0 := OfTask(t);
      && (forall h :: h in k.handles && HandleAt(p, s0) != Some(h) ==> UntouchedHandle(k, k', h))
      && (forall h :: h in k'.handles && h !in k.handles ==> HandleAt(p', s0) == Some(h))
      && (HasSlot(p, s0) && HandleAt(p', s0) != HandleAt(p, s0) ==> SlotHandle(p, s0) !in k'.handles)
      && (HasSlot(p', s0) ==> SlotBacked(k', pid, p', s0))
      && (HasSlot(p', s0) && HandleAt(p', s0) != HandleAt(p, s0) ==> SlotHandle(p', s0) !in k.handles)
    requires stage.Completed? ==> GuardNames(k', stage.guard) && stage.guard.waitRetained
    requires stage.Waiting? || stage.Granted? ==>
      stage.handle in k'.handles && k'.handles[stage.handle].path == p.tasks[t].path
    ensures ProcessOk(k', pid, SetStage(p, t, stage))
  {
    var p', s0 := SetStage(p, t, stage), OfTask(t);
    assert SameElsewhere(p, p', s0);
    OneSlotChanges(k, k', pid, p, p', s0);
    GuardsStayNamed(k, k', pid, p, s0);
    StageKeepsTable(p, t, stage);
  }

  /** A wait that leaves with its handle closed. */
  lemma WaitDropped(k: Kernel, pid: ProcessId, p: Process, t: nat, outcome: WaitOutcome)
    requires Consistent(k) && ProcessOk(k, pid, p) && HasSlot(p, OfTask(t))
    ensures var h := SlotHandle(p, OfTask(t));
      && h in k.handles && k.handles[h].process == pid
      && ProcessOk(Close(k, h), pid, SetStage(p, t, Leaving(outcome)))
  {
    var h := SlotHandle(p, OfTask(t));
    assert SlotBacked(k, pid, p, OfTask(t));
    ClosedHandle(k, h, pid);
    StageMoves(k, Close(k, h), pid, p, t, Leaving(outcome));
  }

  /** A completed wait's guard moves into the registry: same handle, other slot. */
  lemma GuardMoved(k: Kernel, pid: ProcessId, p: Process, t: nat, id: string, outcome: WaitOutcome)
    requires ProcessOk(k, pid, p) && t in p.tasks && p.tasks[t].stage.Completed? && id !in p.registry.guards
    ensures ProcessOk(k, pid, SetStage(p.(registry := Insert(p.registry, id, Some(p.tasks[t].stage.guard))),
                                       t, Leaving(outcome)))
  {
    var p1 := p.(registry := Insert(p.registry, id, Some(p.tasks[t].stage.guard)));
    var p' := SetStage(p1, t, Leaving(outcome));
    SlotMoved(k, pid, p, p', t, id);
    StageKeepsTable(p1, t, Leaving(outcome));
  }

  lemma SlotMoved(k: Kernel, pid: ProcessId, p: Process, p': Process, t: nat, id: string)
    requires HandlesAccounted(k, pid, p) && t in p.tasks && p.tasks[t].stage.Completed?
    requires id !in p.registry.guards
    requires p'.registry.guards == p.registry.guards[id := p.tasks[t].stage.guard]
    requires p'.tasks.Keys == p.tasks.Keys && p'.tasks[t].stage.Leaving?
    requires forall u :: u in p.tasks && u != t ==> p'.tasks[u] == p.tasks[u]
    ensures HandlesAccounted(k, pid, p')
  {
    var before, after := OfTask(t), OfGuard(id);
    forall s | s != before && s != after
      ensures HasSlot(p', s) <==> HasSlot(p, s)
      ensures HasSlot(p, s) ==> SlotHandle(p', s) == SlotHandle(p, s) && (SlotLocked(p', s) <==> SlotLocked(p, s))
    {}
    assert HasSlot(p, before) && !HasSlot(p', before) && HasSlot(p', after) && !HasSlot(p, after);
    assert SlotHandle(p', after) == SlotHandle(p, before) && SlotLocked(p', after) && SlotLocked(p, before);
    hide HasSlot, SlotHandle, SlotLocked;
    forall s | HasSlot(p', s)
      ensures SlotBacked(k, pid, p', s)
    {
      assert SlotBacked(k, pid, p, if s == after then before else s);
    }
    forall s, s' | HasSlot(p', s) && HasSlot(p', s') && SlotHandle(p', s) == SlotHandle(p', s')
      ensures s == s'
    {
      var a, b := if s == after then before else s, if s' == after then before else s';
      assert HasSlot(p, a) && HasSlot(p, b) && SlotHandle(p, a) == SlotHandle(p, b);
    }
    forall h | h in k.handles && k.handles[h].process == pid
      ensures Held(p', h)
    {
      assert Held(p, h);
      var s :| HasSlot(p, s) && SlotHandle(p, s) == h;
      var s' := if s == before then after else s;
      assert HasSlot(p', s') && SlotHandle(p', s') == h;
    }
  }
}
