/** Who leaves a waiting list, when, and in what order. */
module QueueRuns {
  import opened Pipe
  import opened KernelState
  import opened Placement
  import opened Holding
  import opened Family
  import opened KernelInvariant
  import opened KernelSteps
  import opened ExitSteps
  import opened CallSteps
  import opened DataSteps
  import opened KernelRuns
  import opened StepEffects
  import opened Outcomes

  // ---- condition variables ----

  ghost predicate Finds(s: State, c: Id) {
    c in s.linked && c in s.cvars
  }

  /** What an event does to the waiters of a condition variable: a signal makes the oldest ready, a
      broadcast all of them in order, a wait adds the caller, which no longer holds the lock; and
      every other event of any kind leaves them alone. */
  ghost predicate CvarQueue(s: State, e: Event, c: Id)
    requires Enabled(s, e)
  {
    var s', q := Step(s, e), Q(s, CvarWait(c));
    if e == ESignal(c) && Finds(s, c) && q != [] then
      Q(s', CvarWait(c)) == q[1..] && Q(s', Ready) == Q(s, Ready) + [q[0]]
    else if e == EBroadcast(c) && Finds(s, c) then
      Q(s', CvarWait(c)) == [] && Q(s', Ready) == Q(s, Ready) + q
    else if e.ECvarWait? && e.id == c && Finds(s, c) && CanRelease(s, e.lock) then
      Q(s', CvarWait(c)) == q + [s.current] && !Holds(s', s.current, e.lock)
    else
      Q(s', CvarWait(c)) == q
  }

  lemma SignalQueue(s: State, c: Id)
    requires Enabled(s, ESignal(c))
    ensures CvarQueue(s, ESignal(c), c)
  {
    var q := Q(s, CvarWait(c));
    if q != [] {
      assert Without(q, q[0]) == q[1..];
    }
  }

  lemma BroadcastQueue(s: State, c: Id)
    requires Enabled(s, EBroadcast(c))
    ensures CvarQueue(s, EBroadcast(c), c)
  {
  }

  lemma WaitQueue(s: State, c: Id, lock: Id)
    requires Between(s) && Enabled(s, ECvarWait(c, lock))
    ensures CvarQueue(s, ECvarWait(c, lock), c)
  {
    if Finds(s, c) && CanRelease(s, lock) {
      UnlockGone(s, lock);
      UnlockCalm(s, lock);
      var s1 := Unlock(s, lock);
      BlockCalm(s1, CvarWait(c), AfterCvarWait(c, lock));
    }
  }

  lemma UnlockGone(s: State, id: Id)
    requires Between(s) && Holds(s, s.current, id)
    ensures !Holds(Unlock(s, id), s.current, id) && s.current in Unlock(s, id).procs && Unlock(s, id).mode != Panic
  {
    HeldOwned(s, id);
    assert Look(0);
    if Q(s, LockWait(id)) != [] {
      Waiter(s, id);
    }
  }

  lemma CvarQueues(s: State, e: Event, c: Id)
    requires Between(s) && Enabled(s, e)
    ensures CvarQueue(s, e, c)
  {
    if e == ESignal(c) {
      SignalQueue(s, c);
    } else if e == EBroadcast(c) {
      BroadcastQueue(s, c);
    } else if e.ECvarWait? && e.id == c {
      WaitQueue(s, c, e.lock);
    } else {
      OtherCvarQueue(s, e, c);
    }
  }

  lemma OtherCvarQueue(s: State, e: Event, c: Id)
    requires Between(s) && Enabled(s, e) && Touched(s, e) != CvarWait(c)
    ensures Q(Step(s, e), CvarWait(c)) == Q(s, CvarWait(c))
  {
    if e.EClock? {
      ClockTicked(s);
    } else if e.ETransmitted? {
      TransmittedOnly(s, e.tty);
    } else {
      StepLocal(s, e);
    }
  }

  // ---- locks ----

  /** A process that was queued for a lock returns SUCCESS and holds it. Acquire, and the end of a
      CvarWait, return SUCCESS only to the holder of the lock, ERROR only if the lock is off the kernel's
      list, and otherwise queue the caller behind a lock that somebody else holds. */
  lemma SuccessHolds(s: State, e: Event, l: Id, s': State)
    requires Between(s) && Enabled(s, e) && s' == Step(s, e)
    requires e == EAcquire(l)
      || (e.EResume? && (s.procs[s.current].pc == AfterAcquire(l)
                         || (s.procs[s.current].pc.AfterCvarWait? && s.procs[s.current].pc.lock == l)))
    ensures
      if s.procs[s.current].pc == AfterAcquire(l) then Returned(s, s', SUCCESS) && Holds(s', s.current, l)
      else AcquireOutcome(s, s', l)
  {
    if s.procs[s.current].pc == AfterAcquire(l) {
      WaiterHolds(s, l);
    } else {
      TriesLock(s, e, l);
      AcquireMeans(s, l);
    }
  }

  lemma TriesLock(s: State, e: Event, l: Id)
    requires Between(s) && Enabled(s, e)
    requires e == EAcquire(l) || (e.EResume? && s.procs[s.current].pc.AfterCvarWait? && s.procs[s.current].pc.lock == l)
    ensures CallsAgain(s) && Step(s, e) == Acquire(s, l)
  {
    assert Look(0);
  }

  lemma WaiterHolds(s: State, l: Id)
    requires Between(s) && s.procs[s.current].pc == AfterAcquire(l)
    ensures var s' := Acquired(s, l); Returned(s, s', SUCCESS) && Holds(s', s.current, l)
  {
    assert Look(0);
    AcquiredInv(s);
  }

  /** Waiters join a lock's list at the back and leave it from the front, when they are given the lock. */
  ghost predicate LockQueue(s: State, s': State, l: Id) {
    var q, q' := Q(s, LockWait(l)), Q(s', LockWait(l));
    q' == q || q' == q + [s.current] || (q != [] && q' == q[1..] && Holds(s', q[0], l))
  }

  /** At most one hand-over. */
  ghost predicate Passed(s: State, s': State, l: Id) {
    var q, q' := Q(s, LockWait(l)), Q(s', LockWait(l));
    q' == q || (q != [] && q' == q[1..] && Holds(s', q[0], l))
  }

  lemma UnlockPasses(s: State, id: Id, l: Id)
    requires s.current in s.procs && id in s.locks
    ensures Passed(s, Unlock(s, id), l)
    ensures l != id ==> Q(Unlock(s, id), LockWait(l)) == Q(s, LockWait(l))
    ensures l != id && l in s.locks ==> Unlock(s, id).locks[l] == s.locks[l]
    ensures Unlock(s, id).locks.Keys == s.locks.Keys
  {
  }

  lemma {:induction false} ReleaseAllPasses(s: State, ids: seq<Id>, l: Id)
    requires s.current in s.procs && NoDup(ids)
    ensures var s' := ReleaseAll(s, ids);
      Passed(s, s', l) && (l !in ids ==> Q(s', LockWait(l)) == Q(s, LockWait(l)))
      && (l !in ids && l in s.locks ==> l in s'.locks && s'.locks[l] == s.locks[l])
    decreases |ids|
  {
    if ids != [] && CanRelease(s, ids[0]) {
      UnlockPasses(s, ids[0], l);
      ReleaseAllPasses(Unlock(s, ids[0]), ids[1..], l);
    }
  }

  lemma ExitPasses(s: State, status: int, l: Id)
    requires CallsAgain(s)
    ensures Passed(s, Exit(s, status), l)
  {
    if s.current != INIT {
      assert NoDup(s.procs[s.current].owned) by {
        assert Look(0);
        assert OwnedOk(s, s.current);
      }
      ReleaseAllInv(s);
      ReleaseAllPasses(s, s.procs[s.current].owned, l);
      var s1 := ReleaseAll(s, s.procs[s.current].owned);
      if s1.mode != Hung {
        DepartCalm(s1, status);
      }
    }
  }

  lemma HandsQueues(s: State, e: Event, l: Id)
    requires Between(s) && Enabled(s, e) && Hands(s, e)
    ensures LockQueue(s, Step(s, e), l)
  {
    assert CallsAgain(s) by {
      assert Look(0);
    }
    if e.EExit? {
      ExitPasses(s, e.status, l);
    } else if e.EResume? {
      ExitPasses(s, ERROR, l);
    } else if e.ERelease? {
      ReleaseQueue(s, e.id, l);
    } else {
      WaitPasses(s, e.id, e.lock, l);
    }
  }

  lemma ReleaseQueue(s: State, id: Id, l: Id)
    requires s.current in s.procs
    ensures Passed(s, Release(s, id), l)
  {
    if CanRelease(s, id) {
      UnlockPasses(s, id, l);
    }
  }

  lemma WaitPasses(s: State, c: Id, lock: Id, l: Id)
    requires s.current in s.procs
    ensures Passed(s, WaitOnCvar(s, c, lock), l)
  {
    if Finds(s, c) && CanRelease(s, lock) {
      UnlockPasses(s, lock, l);
      var s1 := Unlock(s, lock);
      if s1.current in s1.procs {
        BlockCalm(s1, CvarWait(c), AfterCvarWait(c, lock));
      }
    }
  }

  lemma AcquireQueue(s: State, id: Id, l: Id)
    requires s.current in s.procs
    ensures LockQueue(s, Acquire(s, id), l)
  {
    AcquireCalm(s, id);
    if id in s.linked && id in s.locks && !Holds(s, s.current, id) && s.locks[id].acquired {
      BlockCalm(s, LockWait(id), AfterAcquire(id));
    }
  }

  lemma InterruptQueues(s: State, e: Event, l: Id)
    requires Between(s) && Enabled(s, e) && (e.EClock? || e.ETransmitted?)
    ensures LockQueue(s, Step(s, e), l)
  {
    if e.EClock? {
      ClockTicked(s);
    } else {
      TransmittedOnly(s, e.tty);
    }
  }

  lemma LockQueues(s: State, e: Event, l: Id)
    requires Between(s) && Enabled(s, e)
    ensures LockQueue(s, Step(s, e), l)
  {
    if e.EClock? || e.ETransmitted? {
      InterruptQueues(s, e, l);
    } else if Hands(s, e) {
      HandsQueues(s, e, l);
    } else if e.EAcquire? {
      AcquireQueue(s, e.id, l);
    } else if e.EResume? && s.procs[s.current].pc.AfterCvarWait? {
      AcquireQueue(s, s.procs[s.current].pc.lock, l);
    } else {
      StepLocal(s, e);
    }
  }
}
