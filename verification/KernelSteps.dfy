/** Waking, forking and passing locks on keep the invariant. */
module KernelSteps {
  import opened Pipe
  import opened KernelState
  import opened Placement
  import opened Holding
  import opened Family
  import opened KernelInvariant

  // ---- waking ----

  /** `s'` is `s` with process `p` moved from list `a` to the back of the ready queue. */
  lemma WakeInv(s: State, run: int, a: Place, p: Pid)
    requires Inv(s, run) && p in Q(s, a) && a != Ready && !a.LockWait? && !a.TtyTransmit?
    ensures Inv(Wake(s, a, p), run)
  {
    assert Look(0);
    WakePlaced(s, run, a, p);
    WakeLocked(s, a, p);
    WakeRelated(s, a, p);
    WakeWired(s, a, p);
    FrameResourced(s, Wake(s, a, p));
  }

  lemma WakeQueues(s: State, a: Place, p: Pid)
    requires a != Ready
    ensures forall b | b != a && b != Ready :: Q(Wake(s, a, p), b) == Q(s, b)
    ensures Q(Wake(s, a, p), a) == Without(Q(s, a), p) && Q(Wake(s, a, p), Ready) == Q(s, Ready) + [p]
  {
  }

  lemma WakeLocked(s: State, a: Place, p: Pid)
    requires Locked(s) && a != Ready && !a.LockWait?
    ensures Locked(Wake(s, a, p))
  {
    WakeQueues(s, a, p);
    FrameLocked(s, Wake(s, a, p));
  }

  lemma WakeRelated(s: State, a: Place, p: Pid)
    requires Related(s)
    ensures Related(Wake(s, a, p))
  {
    FrameRelated(s, Wake(s, a, p));
  }

  lemma WakeWired(s: State, a: Place, p: Pid)
    requires Wired(s) && a != Ready && !a.TtyTransmit?
    ensures Wired(Wake(s, a, p))
  {
    WakeQueues(s, a, p);
    forall t ensures WiredAt(Wake(s, a, p), t) {
      assert WiredAt(s, t);
      assert Without([], p) == [];
    }
  }

  // ---- fork ----

  /** What a fork does: the parent is ready again, and the child runs. */
  ghost predicate Forks(s: State, s': State) {
    var child, p := s.nextPid, s.current;
    Alive(s, p) && p != IDLE && child !in s.procs
    && s' == s.(nextPid := child + 1, procs := s'.procs, queues := s'.queues, current := child)
    && s'.procs == s.procs[p := s.procs[p].(pc := AfterFork(child), live := s.procs[p].live + [child])]
                          [child := NewProc(AfterFork(child), Parent(p))]
    && Q(s', Ready) == Q(s, Ready) + [p] && forall a | a != Ready :: Q(s', a) == Q(s, a)
  }

  lemma ForkShape(s: State)
    requires Related(s) && Alive(s, s.current) && s.current != IDLE
    ensures Forks(s, Fork(s, true))
  {
  }

  lemma ForkPlaced(s: State, s': State)
    requires Placed(s, s.current) && Forks(s, s')
    ensures Placed(s', s.nextPid)
  {
    var child, p := s.nextPid, s.current;
    NotWaiting(s);
    var parent := s.procs[p].(pc := AfterFork(child), live := s.procs[p].live + [child]);
    EnqueuePlaced(s, Ready, p, parent);
    var mid := Append(SetProc(s, p, parent), Ready, p);
    assert forall a :: Q(s', a) == Q(mid, a);
    forall a, r | r in Q(s', a) ensures Listed(s', child, a, r) {
      assert r in Q(mid, a) && Listed(mid, NOBODY, a, r);
    }
    forall r | r in s'.procs ensures Somewhere(s', child, r) {
      if r != child {
        assert Somewhere(mid, NOBODY, r);
      }
    }
  }

  lemma ForkWired(s: State, s': State)
    requires Placed(s, s.current) && Wired(s) && Forks(s, s')
    ensures Wired(s')
  {
    FrameWired(s, s');
  }

  lemma ForkLocked(s: State, s': State)
    requires Locked(s) && Forks(s, s')
    ensures Locked(s')
  {
    FrameLocked(s, s');
  }

  lemma ForkInv(s: State)
    requires Runs(s) && s.current != IDLE
    ensures var s' := Fork(s, true); Inv(s', s'.current) && Alive(s', s'.current)
  {
    assert Look(0);
    var s' := Fork(s, true);
    NotWaiting(s);
    ForkShape(s);
    ForkPlaced(s, s');
    ForkLocked(s, s');
    ForkRelated(s);
    ForkWired(s, s');
    FrameResourced(s, s');
  }

  lemma NamedInv(s: State)
    requires Runs(s)
    ensures Runs(s.(nextPid := s.nextPid + 1))
  {
    assert Look(0);
    var s' := s.(nextPid := s.nextPid + 1);
    assert forall a :: Q(s', a) == Q(s, a);
    SamePlaced(s, s', s.current);
    FrameLocked(s, s');
    FrameRelated(s, s');
    FrameWired(s, s');
    FrameResourced(s, s');
  }

  // ---- locks ----

  /** Nothing but the owned lists, the lock and its queue differ. */
  ghost predicate OnlyLocks(s: State, s': State) {
    s' == s.(procs := s'.procs, queues := s'.queues, locks := s'.locks)
    && s'.procs.Keys == s.procs.Keys && s'.locks.Keys == s.locks.Keys
    && (forall a | a != Ready && !a.LockWait? :: Q(s', a) == Q(s, a))
    && forall p | p in s.procs :: s'.procs[p] == s.procs[p].(owned := s'.procs[p].owned)
  }

  lemma OnlyLocksRelated(s: State, s': State)
    requires Related(s) && OnlyLocks(s, s')
    ensures Related(s')
  {
    FrameRelated(s, s');
  }

  lemma OnlyLocksWired(s: State, s': State)
    requires Placed(s, s.current) && Wired(s) && OnlyLocks(s, s')
    ensures Wired(s')
  {
    FrameWired(s, s');
  }

  lemma OnlyLocksInv(s: State, s': State)
    requires Runs(s) && OnlyLocks(s, s') && Placed(s', s.current) && Locked(s')
    ensures Runs(s')
  {
    assert Look(0);
    OnlyLocksRelated(s, s');
    OnlyLocksWired(s, s');
    FrameResourced(s, s');
  }

  lemma FreeShape(s: State, id: Id)
    requires s.current in s.procs && id in s.locks
    ensures OnlyLocks(s, FreeLock(s, id)) && forall a :: Q(FreeLock(s, id), a) == Q(s, a)
    ensures FreeLock(s, id).procs[s.current] == s.procs[s.current].(owned := Without(s.procs[s.current].owned, id))
  {
  }

  /** The lock has no waiters and is freed. */
  lemma FreeInv(s: State, id: Id)
    requires Runs(s) && Holds(s, s.current, id) && !s.procs[s.current].pc.AfterAcquire? && Q(s, LockWait(id)) == []
    ensures Runs(FreeLock(s, id))
  {
    assert Look(0);
    FreeShape(s, id);
    SamePlaced(s, FreeLock(s, id), s.current);
    FreeLocked(s, id, s.current, s.procs[s.current].(owned := Without(s.procs[s.current].owned, id)));
    OnlyLocksInv(s, FreeLock(s, id));
  }

  lemma Waiter(s: State, id: Id)
    requires Placed(s, s.current) && Q(s, LockWait(id)) != []
    ensures var w := Q(s, LockWait(id))[0];
      Alive(s, w) && w != s.current && s.procs[w].pc.AfterAcquire? && s.procs[w].pc.lock == id
      && forall k | w in Q(s, LockWait(k)) :: k == id
  {
    var w := Q(s, LockWait(id))[0];
    assert w in Q(s, LockWait(id)) && Listed(s, s.current, LockWait(id), w);
    assert forall k | w in Q(s, LockWait(k)) :: Listed(s, s.current, LockWait(k), w);
  }

  lemma HandOverShape(s: State, id: Id)
    requires Alive(s, s.current) && Holds(s, s.current, id) && Q(s, LockWait(id)) != []
    requires var w := Q(s, LockWait(id))[0]; Alive(s, w) && w != s.current
    ensures var w, s' := Q(s, LockWait(id))[0], HandOver(s, id);
      HandsOver(s, id, s.current, w, s') && OnlyLocks(s, s') && Q(s', Ready) == Q(s, Ready) + [w]
  {
    var w, s' := Q(s, LockWait(id))[0], HandOver(s, id);
    assert forall a | a != Ready && a != LockWait(id) :: Q(s', a) == Q(s, a);
  }

  lemma HandOverPlaced(s: State, id: Id, s': State)
    requires Placed(s, s.current) && Q(s, LockWait(id)) != []
    requires var w := Q(s, LockWait(id))[0]; HandsOver(s, id, s.current, w, s') && Q(s', Ready) == Q(s, Ready) + [w]
    requires OnlyLocks(s, s')
    ensures Placed(s', s.current)
  {
    var q := Q(s, LockWait(id));
    assert q[0] in Q(s, LockWait(id));
    WakePlaced(s, s.current, LockWait(id), q[0]);
    WakeQueues(s, LockWait(id), q[0]);
    assert Without(q, q[0]) == q[1..];
    SamePlaced(Wake(s, LockWait(id), q[0]), s', s.current);
  }

  lemma HandOverInv(s: State, id: Id)
    requires Runs(s) && Holds(s, s.current, id) && !s.procs[s.current].pc.AfterAcquire? && Q(s, LockWait(id)) != []
    ensures Q(s, LockWait(id))[0] in s.procs && Runs(HandOver(s, id))
    ensures HandOver(s, id).procs[s.current] == s.procs[s.current].(owned := Without(s.procs[s.current].owned, id))
  {
    assert Look(0);
    Waiter(s, id);
    HandOverShape(s, id);
    HandOverPlaced(s, id, HandOver(s, id));
    HandOverLocked(s, id, s.current, Q(s, LockWait(id))[0], HandOver(s, id));
    OnlyLocksInv(s, HandOver(s, id));
  }

  /** The assert of KernelRelease: a lock the process holds is on its list of owned locks. */
  lemma HeldOwned(s: State, id: Id)
    requires Inv(s, s.current) && Holds(s, s.current, id)
    ensures id != 0 && s.current in s.procs && id in s.procs[s.current].owned
  {
    assert Look(0);
    assert OwnerOk(s, id);
  }

  lemma UnlockInv(s: State, id: Id)
    requires Runs(s) && Holds(s, s.current, id) && !s.procs[s.current].pc.AfterAcquire?
    ensures Runs(Unlock(s, id)) && Unlock(s, id).current == s.current && Unlock(s, id).linked == s.linked
    ensures Unlock(s, id).mode == s.mode
    ensures Unlock(s, id).procs[s.current] == s.procs[s.current].(owned := Without(s.procs[s.current].owned, id))
  {
    HeldOwned(s, id);
    if Q(s, LockWait(id)) == [] {
      FreeInv(s, id);
    } else {
      HandOverInv(s, id);
    }
  }
}
