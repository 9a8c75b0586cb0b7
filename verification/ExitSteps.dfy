/** Exit and wait keep the invariant, and exactly when an exit hangs. */
module ExitSteps {
  import opened Pipe
  import opened KernelState
  import opened Placement
  import opened Holding
  import opened Family
  import opened KernelInvariant
  import opened KernelSteps

  /** The release loop of an exit ends with nothing owned exactly when every owned lock is still on
      the kernel's list; otherwise it never ends. */
  lemma {:induction false} ReleaseAllInv(s: State)
    requires Runs(s) && !s.procs[s.current].pc.AfterAcquire?
    ensures var ids := s.procs[s.current].owned;
      var s' := ReleaseAll(s, ids);
      Inv(s', s.current) && Alive(s', s.current) && s'.current == s.current && s'.linked == s.linked
      && (if forall l | l in ids :: l in s.linked then
            s'.mode == s.mode && s'.procs[s.current] == s.procs[s.current].(owned := [])
          else s'.mode == Hung)
    decreases |s.procs[s.current].owned|
  {
    assert Look(0);
    var ids := s.procs[s.current].owned;
    if ids != [] {
      assert OwnedOk(s, s.current) && ids[0] in ids;
      assert ids == [ids[0]] + ids[1..];
      if ids[0] in s.linked {
        UnlockInv(s, ids[0]);
        assert Without(ids, ids[0]) == ids[1..];
        ReleaseAllInv(Unlock(s, ids[0]));
      } else {
        ModeInv(s, Hung);
      }
    }
  }

  lemma ModeInv(s: State, mode: Mode)
    requires Inv(s, s.current) && mode != Panic
    ensures Inv(s.(mode := mode), s.current)
  {
    assert Look(0);
    var s' := s.(mode := mode);
    assert forall a :: Q(s', a) == Q(s, a);
    SamePlaced(s, s', s.current);
    FrameLocked(s, s');
    FrameRelated(s, s');
    FrameWired(s, s');
    FrameResourced(s, s');
  }

  /** Some processes that are not live disappear, and family fields change. */
  ghost predicate OnlyKin(s: State, s': State) {
    s' == s.(procs := s'.procs)
    && (forall p :: Alive(s', p) <==> Alive(s, p))
    && (forall p | Alive(s, p) ::
      s'.procs[p] == s.procs[p].(parent := s'.procs[p].parent, live := s'.procs[p].live, zombies := s'.procs[p].zombies))
  }

  lemma OnlyKinPlaced(s: State, s': State, run: int)
    requires Placed(s, run) && OnlyKin(s, s')
    ensures Placed(s', run)
  {
    assert forall a :: Q(s', a) == Q(s, a);
    SamePlaced(s, s', run);
  }

  lemma OnlyKinLocked(s: State, s': State)
    requires Locked(s) && OnlyKin(s, s')
    ensures Locked(s')
  {
    assert forall a :: Q(s', a) == Q(s, a);
    FrameLocked(s, s');
  }

  lemma OnlyKinWired(s: State, s': State)
    requires Placed(s, s.current) && Wired(s) && OnlyKin(s, s')
    ensures Wired(s')
  {
    assert forall a :: Q(s', a) == Q(s, a);
    FrameWired(s, s');
  }

  lemma OnlyKinInv(s: State, s': State)
    requires Inv(s, s.current) && OnlyKin(s, s') && Related(s')
    ensures Inv(s', s.current)
  {
    assert Look(0);
    OnlyKinPlaced(s, s', s.current);
    OnlyKinLocked(s, s');
    OnlyKinWired(s, s');
    FrameResourced(s, s');
  }

  lemma OrphanShape(s: State)
    requires Related(s) && Alive(s, s.current)
    ensures OnlyKin(s, Orphan(s))
    ensures Orphan(s).procs[s.current] == s.procs[s.current].(live := [], zombies := [])
  {
    assert ListsOk(s, s.current);
  }

  lemma OrphanInv(s: State)
    requires Runs(s) && s.current != IDLE
    ensures Runs(Orphan(s))
  {
    assert Look(0);
    NotWaiting(s);
    OrphanShape(s);
    OrphanRelated(s);
    OnlyKinInv(s, Orphan(s));
  }

  /** The running process is gone or a zombie; if its parent was blocked in Wait, it is ready. */
  ghost predicate Buried(s: State, s': State)
    requires s.current in s.procs
  {
    var p, me := s.current, s.procs[s.current];
    s' == s.(procs := s'.procs, queues := s'.queues)
    && (forall a | a != Ready :: Q(s', a) == Q(s, a))
    && (forall r :: Alive(s', r) <==> Alive(s, r) && r != p)
    && (forall r | Alive(s', r) ::
      r in s.procs && s'.procs[r] == s.procs[r].(live := s'.procs[r].live, zombies := s'.procs[r].zombies, waiting := s'.procs[r].waiting))
    && (match me.parent
        case NoParent =>
          Q(s', Ready) == Q(s, Ready) && forall r | Alive(s', r) :: s'.procs[r].waiting == s.procs[r].waiting
        case Parent(pp) =>
          Alive(s', pp) && !s'.procs[pp].waiting
          && Q(s', Ready) == Q(s, Ready) + (if s.procs[pp].waiting then [pp] else [])
          && forall r | Alive(s', r) && r != pp :: s'.procs[r].waiting == s.procs[r].waiting)
  }

  lemma BuryQueues(s: State, status: int)
    requires Related(s) && Alive(s, s.current)
    ensures var s' := Bury(s, status);
      s' == s.(procs := s'.procs, queues := s'.queues) && (forall a | a != Ready :: Q(s', a) == Q(s, a))
      && match s.procs[s.current].parent
         case NoParent => Q(s', Ready) == Q(s, Ready)
         case Parent(pp) => pp in s.procs && Q(s', Ready) == Q(s, Ready) + (if s.procs[pp].waiting then [pp] else [])
  {
    assert ParentOk(s, s.current);
  }

  lemma BuryShape(s: State, status: int)
    requires Related(s) && Alive(s, s.current)
    ensures Buried(s, Bury(s, status))
  {
    BuryProcs(s, status);
    BuryQueues(s, status);
  }

  lemma BuriedPlaced(s: State, s': State)
    requires Placed(s, s.current) && Alive(s, s.current) && s.current != IDLE && Buried(s, s')
    ensures Placed(s', NOBODY)
  {
    var mid := s.(procs := s.procs - {s.current});
    assert forall a :: Q(mid, a) == Q(s, a);
    LeavePlaced(s, mid, s.current);
    if s.procs[s.current].parent.Parent? && s.procs[s.procs[s.current].parent.pid].waiting {
      ParentWoken(s, mid, s', s.procs[s.current].parent.pid);
    } else {
      SamePlaced(mid, s', NOBODY);
    }
  }

  lemma ParentWoken(s: State, mid: State, s': State, pp: Pid)
    requires Placed(mid, NOBODY) && Alive(s, s.current) && Buried(s, s') && s.procs[s.current].parent == Parent(pp)
    requires mid == s.(procs := s.procs - {s.current}) && s.procs[pp].waiting
    ensures Placed(s', NOBODY)
  {
    var f := mid.procs[pp].(waiting := false);
    var woken := Append(SetProc(mid, pp, f), Ready, pp);
    UnwaitPlaced(mid, woken, pp, f);
    assert forall a :: Q(s', a) == Q(woken, a);
    SamePlaced(woken, s', NOBODY);
  }

  lemma BuriedLocked(s: State, s': State)
    requires Locked(s) && Alive(s, s.current) && s.procs[s.current].owned == [] && Buried(s, s')
    ensures Locked(s')
  {
    FrameLocked(s, s');
  }

  lemma BuriedWired(s: State, s': State)
    requires Placed(s, s.current) && Wired(s) && Alive(s, s.current) && Buried(s, s')
    ensures Wired(s')
  {
    FrameWired(s, s');
  }

  lemma BuryInv(s: State, status: int)
    requires Runs(s) && s.current != IDLE && s.procs[s.current].owned == []
    requires s.procs[s.current].live == [] && s.procs[s.current].zombies == []
    ensures Inv(Bury(s, status), NOBODY)
  {
    assert Look(0);
    BuryShape(s, status);
    BuriedPlaced(s, Bury(s, status));
    BuriedLocked(s, Bury(s, status));
    BuryRelated(s, status);
    BuriedWired(s, Bury(s, status));
    FrameResourced(s, Bury(s, status));
  }

  lemma DepartInv(s: State, status: int)
    requires Runs(s) && s.current != IDLE && s.procs[s.current].owned == []
    ensures var s' := Depart(s, status);
      Inv(s', s'.current) && Alive(s', s'.current) && s'.mode == s.mode
  {
    assert Look(0);
    OrphanShape(s);
    OrphanInv(s);
    BuryInv(Orphan(s), status);
    BuryMode(Orphan(s), status);
    DispatchInv(Bury(Orphan(s), status));
    DispatchOnlyReady(Bury(Orphan(s), status));
  }

  lemma BuryMode(s: State, status: int)
    requires s.current in s.procs
    ensures Bury(s, status).mode == s.mode
  {
  }

  lemma ExitInv(s: State, status: int)
    requires Runs(s) && s.current != IDLE && !s.procs[s.current].pc.AfterAcquire? && s.mode == Running
    ensures var s' := Exit(s, status);
      Inv(s', s'.current) && Alive(s', s'.current)
      && (s'.mode == Hung <==> s.current != INIT && exists l :: l in s.procs[s.current].owned && l !in s.linked)
  {
    if s.current == INIT {
      ModeInv(s, Halted);
    } else {
      ReleaseAllInv(s);
      var s1 := ReleaseAll(s, s.procs[s.current].owned);
      if s1.mode != Hung {
        DepartInv(s1, status);
      }
    }
  }

  /** The kernel call a woken parent resumes in always finds a zombie. */
  lemma CollectInv(s: State)
    requires Inv(s, s.current) && Alive(s, s.current) && s.current != IDLE && s.procs[s.current].zombies != []
    ensures Inv(Collect(s), s.current) && Alive(Collect(s), s.current) && Collect(s).mode == s.mode
  {
    assert Look(0);
    NotWaiting(s);
    CollectRelated(s);
    CollectShape(s);
    CollectPlaced(s, Collect(s));
    CollectLocked(s, Collect(s));
    CollectWired(s, Collect(s));
    FrameResourced(s, Collect(s));
  }

  /** One dead process disappears, and the caller returns. */
  ghost predicate Collected(s: State, s': State)
    requires Alive(s, s.current)
  {
    s' == s.(procs := s'.procs)
    && (forall p :: Alive(s', p) <==> Alive(s, p))
    && (forall p | Alive(s, p) && p != s.current :: s'.procs[p] == s.procs[p])
    && s'.procs[s.current].owned == s.procs[s.current].owned && s'.procs[s.current].pc == User
    && !s'.procs[s.current].waiting
  }

  lemma CollectShape(s: State)
    requires Related(s) && Alive(s, s.current) && s.procs[s.current].zombies != [] && !s.procs[s.current].waiting
    ensures Collected(s, Collect(s))
  {
    assert ListsOk(s, s.current);
    assert s.procs[s.current].zombies[0] in s.procs[s.current].zombies;
  }

  lemma CollectPlaced(s: State, s': State)
    requires Placed(s, s.current) && Alive(s, s.current) && Collected(s, s')
    ensures Placed(s', s.current)
  {
    var f := s.procs[s.current].(pc := User, waiting := false);
    RunnerPlaced(s, s.current, f);
    assert forall a :: Q(s', a) == Q(SetProc(s, s.current, f), a);
    SamePlaced(SetProc(s, s.current, f), s', s.current);
  }

  lemma CollectLocked(s: State, s': State)
    requires Locked(s) && Alive(s, s.current) && Collected(s, s')
    ensures Locked(s')
  {
    assert forall a :: Q(s', a) == Q(s, a);
    FrameLocked(s, s');
  }

  lemma CollectWired(s: State, s': State)
    requires Placed(s, s.current) && Wired(s) && Alive(s, s.current) && Collected(s, s')
    ensures Wired(s')
  {
    assert forall a :: Q(s', a) == Q(s, a);
    FrameWired(s, s');
  }

  lemma WaitsPlaced(s: State)
    requires Placed(s, s.current) && Alive(s, s.current) && s.current != IDLE
    ensures Placed(Waits(s), NOBODY)
  {
    var s' := Waits(s);
    assert forall a :: Q(s', a) == Q(s, a);
    forall a, p | p in Q(s', a) ensures Listed(s', NOBODY, a, p) {
      assert p in Q(s, a) && Listed(s, s.current, a, p);
    }
    forall p | p in s'.procs ensures Somewhere(s', NOBODY, p) {
      assert Somewhere(s, s.current, p);
    }
  }

  lemma WaitsRelated(s: State)
    requires Related(s) && Alive(s, s.current) && s.procs[s.current].live != [] && s.procs[s.current].zombies == []
    ensures Related(Waits(s))
  {
    var s' := Waits(s);
    forall p | p in s'.procs ensures ListsOk(s', p) {
      assert ListsOk(s, p);
    }
    forall c | c in s'.procs ensures ParentOk(s', c) {
      assert ParentOk(s, c);
    }
  }

  lemma WaitsRest(s: State)
    requires Placed(s, s.current) && Locked(s) && Wired(s) && Alive(s, s.current)
    ensures Locked(Waits(s)) && Wired(Waits(s))
  {
    assert forall a :: Q(Waits(s), a) == Q(s, a);
    FrameLocked(s, Waits(s));
    FrameWired(s, Waits(s));
  }

  lemma WaitsInv(s: State)
    requires Runs(s) && s.current != IDLE && s.procs[s.current].live != [] && s.procs[s.current].zombies == []
    ensures Inv(Dispatch(Waits(s)), Dispatch(Waits(s)).current) && Alive(Dispatch(Waits(s)), Dispatch(Waits(s)).current)
  {
    assert Look(0);
    WaitsPlaced(s);
    WaitsRelated(s);
    WaitsRest(s);
    FrameResourced(s, Waits(s));
    DispatchInv(Waits(s));
    DispatchOnlyReady(Waits(s));
  }

  lemma WaitInv(s: State)
    requires Runs(s) && s.current != IDLE
    ensures var s' := Wait(s); Inv(s', s'.current) && Alive(s', s'.current)
  {
    if s.procs[s.current].zombies != [] {
      CollectInv(s);
      assert Wait(s) == Collect(s);
    } else if s.procs[s.current].live == [] {
      ReturnInv(s, ERROR);
    } else {
      WaitsInv(s);
      assert Wait(s) == Dispatch(Waits(s));
    }
  }
}
