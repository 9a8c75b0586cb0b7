/** Delay, making and reclaiming resources, and locks keep the invariant. */
module CallSteps {
  import opened Pipe
  import opened KernelState
  import opened Placement
  import opened Holding
  import opened Family
  import opened KernelInvariant
  import opened KernelSteps

  /** A process other than idle is on the CPU, in user mode or back in a suspended call. */
  ghost predicate Calls(s: State) {
    Runs(s) && s.current != IDLE
  }

  ghost predicate CallsFromUser(s: State) {
    Calls(s) && s.procs[s.current].pc == User
  }

  lemma DelayInv(s: State, n: int)
    requires CallsFromUser(s)
    ensures var s' := Delay(s, n); Inv(s', s'.current) && Alive(s', s'.current)
  {
    if n <= 0 {
      ReturnInv(s, if n < 0 then ERROR else SUCCESS);
    } else {
      DelayBlockInv(s, n);
    }
  }

  lemma DelayBlockInv(s: State, n: int)
    requires CallsFromUser(s)
    ensures var s' := Block(SetProc(s, s.current, s.procs[s.current].(ticks := n)), Delayed, AfterDelay);
      Inv(s', s'.current) && Alive(s', s'.current)
  {
    var f := s.procs[s.current].(ticks := n);
    SelfInv(s, f);
    BlockAlive(SetProc(s, s.current, f), Delayed, AfterDelay);
  }

  lemma BlockAlive(s: State, a: Place, pc: Resume)
    requires Calls(s) && (a == Ready || WaitPlace(pc) == a)
    requires pc != User && pc != AfterWait && !pc.AfterAcquire? && !a.TtyTransmit? && !a.LockWait?
    requires pc.AfterPipeRead? ==> pc.pipe in s.pipes
    requires a.TtyReceive? ==> Lines(s, a.tty) == []
    requires (pc.AfterTtyRead? ==> s.procs[s.current].rxBuffer) && (pc.AfterCvarWait? ==> pc.lock in s.locks)
    ensures var s' := Block(s, a, pc); Inv(s', s'.current) && Alive(s', s'.current)
  {
    assert Look(0);
    BlockInv(s, a, pc);
    ParkedPlaced(s, a, pc);
    DispatchPlaced(Parked(s, a, pc));
  }

  // ---- resources ----

  /** A fresh id joins the locks, the cvars or the pipes. */
  ghost predicate Adds(s: State, s': State) {
    s' == s.(locks := s'.locks, cvars := s'.cvars, pipes := s'.pipes, linked := s.linked + {s.nextId}, nextId := s.nextId + 1)
    && (s'.locks == s.locks || s'.locks == s.locks[s.nextId := Lock(false, 0)])
    && Resourced(s')
  }

  lemma AddsPlaced(s: State, s': State)
    requires Placed(s, s.current) && Adds(s, s')
    ensures Placed(s', s.current)
  {
    assert forall a :: Q(s', a) == Q(s, a);
    SamePlaced(s, s', s.current);
  }

  lemma AddsLocked(s: State, s': State)
    requires Locked(s) && Resourced(s) && Adds(s, s')
    ensures Locked(s')
  {
    assert s.nextId !in s.locks;
    assert forall a :: Q(s', a) == Q(s, a);
    forall l | l in s'.locks ensures OwnerOk(s', l) {
      if l in s.locks {
        assert OwnerOk(s, l);
      }
    }
    forall p | p in s'.procs ensures OwnedOk(s', p) {
      assert OwnedOk(s, p);
    }
    forall l ensures WaitersOk(s', l) {
      assert WaitersOk(s, l);
    }
  }

  lemma AddsRest(s: State, s': State)
    requires Placed(s, s.current) && Related(s) && Wired(s) && Adds(s, s')
    ensures Related(s') && Wired(s')
  {
    assert forall a :: Q(s', a) == Q(s, a);
    FrameRelated(s, s');
    FrameWired(s, s');
  }

  lemma AddsInv(s: State, s': State)
    requires Runs(s) && Adds(s, s')
    ensures Runs(s')
  {
    assert Look(0);
    AddsPlaced(s, s');
    AddsLocked(s, s');
    AddsRest(s, s');
  }

  lemma ReturnIdInv(s: State, id: Id)
    requires Runs(s)
    ensures Inv(ReturnId(s, id), s.current)
  {
    var me := s.procs[s.current];
    SelfInv(s, me.(pc := User, rc := SUCCESS, status := id));
    assert s.procs[s.current := me.(pc := User, rc := SUCCESS)][s.current := me.(pc := User, rc := SUCCESS, status := id)]
        == s.procs[s.current := me.(pc := User, rc := SUCCESS, status := id)];
  }

  lemma LockInitInv(s: State)
    requires Calls(s)
    ensures Inv(LockInit(s), s.current)
  {
    assert Look(0);
    var s' := NewResource(s).(locks := s.locks[s.nextId := Lock(false, 0)]);
    assert s.nextId !in s.cvars && s.nextId !in s.pipes;
    AddsInv(s, s');
    ReturnIdInv(s', s.nextId);
  }

  lemma CvarInitInv(s: State)
    requires Calls(s)
    ensures Inv(CvarInit(s), s.current)
  {
    assert Look(0);
    var s' := NewResource(s).(cvars := s.cvars + {s.nextId});
    assert s.nextId !in s.locks && s.nextId !in s.pipes;
    AddsInv(s, s');
    ReturnIdInv(s', s.nextId);
  }

  lemma PipeInitInv(s: State)
    requires Calls(s)
    ensures Inv(PipeInit(s), s.current)
  {
    assert Look(0);
    var s' := NewResource(s).(pipes := s.pipes[s.nextId := EMPTY_PIPE]);
    assert s.nextId !in s.locks && s.nextId !in s.cvars;
    AddsInv(s, s');
    ReturnIdInv(s', s.nextId);
  }

  /** Which resources are on the kernel's lists matters only to lookups. */
  lemma LinkedInv(s: State, linked: set<Id>)
    requires Runs(s) && linked <= s.linked
    ensures Runs(s.(linked := linked))
  {
    assert Look(0);
    var s' := s.(linked := linked);
    assert forall a :: Q(s', a) == Q(s, a);
    SamePlaced(s, s', s.current);
    FrameLocked(s, s');
    FrameRelated(s, s');
    FrameWired(s, s');
  }

  lemma ReclaimInv(s: State, id: Id)
    requires Calls(s)
    ensures Inv(Reclaim(s, id), s.current)
  {
    LinkedInv(s, s.linked - {id});
    ReturnInv(s.(linked := s.linked - {id}), if id in s.linked && Idle(s, id) then SUCCESS else ERROR);
  }

  // ---- locks ----

  lemma TakeInv(s: State, l: Id)
    requires Runs(s) && l in s.locks && !s.locks[l].acquired && !s.procs[s.current].pc.AfterAcquire?
    ensures var me := s.procs[s.current];
      Runs(SetProc(s, s.current, me.(owned := me.owned + [l])).(locks := s.locks[l := Lock(true, s.current)]))
  {
    assert Look(0);
    var me := s.procs[s.current];
    var f := me.(owned := me.owned + [l]);
    var s' := SetProc(s, s.current, f).(locks := s.locks[l := Lock(true, s.current)]);
    assert forall a :: Q(s', a) == Q(s, a);
    SamePlaced(s, s', s.current);
    TakeLocked(s, l, s.current, f);
    assert OnlyLocks(s, s');
    OnlyLocksInv(s, s');
  }

  /** Waiting for a lock somebody else holds. */
  lemma LockBlockInv(s: State, l: Id)
    requires Calls(s) && l in s.locks && s.locks[l].acquired && s.locks[l].owner != s.current
    ensures var s' := Block(s, LockWait(l), AfterAcquire(l)); Inv(s', s'.current) && Alive(s', s'.current)
  {
    assert Look(0);
    var a, pc := LockWait(l), AfterAcquire(l);
    NotWaiting(s);
    ParkedPlaced(s, a, pc);
    WaitLocked(s, l, s.current, s.procs[s.current].(pc := pc));
    ParkedRelated(s, a, pc);
    ParkedWired(s, a, pc);
    FrameResourced(s, Parked(s, a, pc));
    DispatchInv(Parked(s, a, pc));
    DispatchPlaced(Parked(s, a, pc));
  }

  lemma AcquireInv(s: State, id: Id)
    requires Calls(s) && !s.procs[s.current].pc.AfterAcquire?
    ensures var s' := Acquire(s, id); Inv(s', s'.current) && Alive(s', s'.current)
  {
    if id !in s.linked || id !in s.locks {
      ReturnInv(s, ERROR);
    } else if Holds(s, s.current, id) {
      ReturnInv(s, SUCCESS);
    } else if !s.locks[id].acquired {
      TakeInv(s, id);
      var me := s.procs[s.current];
      ReturnInv(SetProc(s, s.current, me.(owned := me.owned + [id])).(locks := s.locks[id := Lock(true, s.current)]), SUCCESS);
    } else {
      LockBlockInv(s, id);
    }
  }

  /** The three asserts of KernelAcquire hold when a waiter resumes. */
  lemma AcquiredInv(s: State)
    requires Calls(s) && s.procs[s.current].pc.AfterAcquire?
    ensures var s' := Acquired(s, s.procs[s.current].pc.lock); Inv(s', s'.current) && Alive(s', s'.current)
  {
    assert Look(0);
    var l := s.procs[s.current].pc.lock;
    assert OwnedOk(s, s.current);
    assert s.current !in Q(s, LockWait(l));
    assert OwnerOk(s, l);
    ReturnInv(s, SUCCESS);
  }

  lemma ReleaseInv(s: State, id: Id)
    requires Calls(s) && !s.procs[s.current].pc.AfterAcquire?
    ensures Inv(Release(s, id), s.current) && Release(s, id).current == s.current && Alive(Release(s, id), s.current)
  {
    if CanRelease(s, id) {
      UnlockInv(s, id);
      ReturnInv(Unlock(s, id), SUCCESS);
    } else {
      ReturnInv(s, ERROR);
    }
  }
}
