/** A process in CvarWait, from the call to the return, whatever the other processes do meanwhile. */
module CvarRuns {
  import opened Pipe
  import opened KernelState
  import opened Placement
  import opened Holding
  import opened KernelInvariant
  import opened CallSteps
  import opened KernelRuns
  import opened StepEffects
  import opened Outcomes
  import opened QueueRuns
  import opened ReturnRuns

  /** The process has called CvarWait and not returned: it waits for the condition variable, or was
      signalled and has still to get the lock. */
  ghost predicate Awaits(s: State, p: Pid, c: Id, l: Id) {
    Alive(s, p) && (s.procs[p].pc == AfterCvarWait(c, l) || s.procs[p].pc == AfterAcquire(l))
  }

  /** The step returns the process to its program: with SUCCESS and the lock, or with ERROR because the
      lock is no longer on the kernel's list. */
  ghost predicate Returns(s: State, e: Event, p: Pid, l: Id)
    requires Enabled(s, e)
  {
    var s' := Step(s, e);
    s.current == p && ((Returned(s, s', SUCCESS) && Holds(s', p, l)) || (Returned(s, s', ERROR) && l !in s.linked))
  }

  /** Some step of the run returns the process to its program in that way. */
  ghost predicate ComesBack(s: State, es: seq<Event>, p: Pid, l: Id)
    requires Possible(s, es)
    decreases |es|
  {
    es != [] && (Returns(s, es[0], p, l) || ComesBack(Step(s, es[0]), es[1..], p, l))
  }

  lemma StepAwaits(s: State, e: Event, p: Pid, c: Id, l: Id)
    requires Between(s) && Enabled(s, e) && Awaits(s, p, c, l)
    ensures Awaits(Step(s, e), p, c, l) || Returns(s, e, p, l)
  {
    if p != s.current {
      OthersStay(s, e, p);
    } else {
      SuccessHolds(s, e, l, Step(s, e));
      if s.procs[p].pc == AfterCvarWait(c, l) {
        WokenAgain(s, c, l, Step(s, e));
      }
    }
  }

  /** Back from the condition variable, the process takes the lock, fails, or waits for the lock. */
  lemma WokenAgain(s: State, c: Id, l: Id, s': State)
    requires Between(s) && s.procs[s.current].pc == AfterCvarWait(c, l) && AcquireOutcome(s, s', l)
    ensures Awaits(s', s.current, c, l) || (Returned(s, s', SUCCESS) && Holds(s', s.current, l))
      || (Returned(s, s', ERROR) && l !in s.linked)
  {
    LockThere(s, c, l);
    if l in s.linked && s.locks[l].acquired && s.locks[l].owner != s.current {
      LastResumes(s', l, s.current);
    }
  }

  lemma LockThere(s: State, c: Id, l: Id)
    requires Between(s) && s.procs[s.current].pc == AfterCvarWait(c, l)
    ensures l in s.locks
  {
    assert Look(0);
  }

  /** Who waits for a lock will resume in Acquire. */
  lemma LastResumes(s: State, l: Id, p: Pid)
    requires Between(s) && p in Q(s, LockWait(l))
    ensures Alive(s, p) && s.procs[p].pc == AfterAcquire(l)
  {
    assert Look(0);
    assert Listed(s, s.current, LockWait(l), p);
  }

  lemma {:induction false} AwaitsOn(s: State, es: seq<Event>, p: Pid, c: Id, l: Id)
    requires Between(s) && Possible(s, es) && Awaits(s, p, c, l)
    ensures Awaits(Run(s, es), p, c, l) || ComesBack(s, es, p, l)
    decreases |es|
  {
    if es != [] {
      StepAwaits(s, es[0], p, c, l);
      StepBetween(s, es[0]);
      if !Returns(s, es[0], p, l) {
        AwaitsOn(Step(s, es[0]), es[1..], p, c, l);
      }
    }
  }

  lemma StartsWaiting(s: State, c: Id, l: Id, s': State)
    requires Between(s) && Enabled(s, ECvarWait(c, l)) && Finds(s, c) && CanRelease(s, l)
    requires s' == Step(s, ECvarWait(c, l))
    ensures Awaits(s', s.current, c, l) && s.current in Q(s', CvarWait(c)) && !Holds(s', s.current, l)
  {
    StepBetween(s, ECvarWait(c, l));
    WaitQueue(s, c, l);
    assert s.current in Q(s', CvarWait(c));
    WaiterAlive(s', c, s.current);
    WaitSteps(s, c, l);
    WaitResumes(Unlock(s, l), CvarWait(c), AfterCvarWait(c, l));
  }

  lemma WaitSteps(s: State, c: Id, l: Id)
    requires Between(s) && Enabled(s, ECvarWait(c, l)) && Finds(s, c) && CanRelease(s, l)
    ensures s.current in Unlock(s, l).procs && Unlock(s, l).current == s.current
    ensures Step(s, ECvarWait(c, l)) == Block(Unlock(s, l), CvarWait(c), AfterCvarWait(c, l))
  {
    UnlockGone(s, l);
    UnlockCalm(s, l);
  }

  lemma WaiterAlive(s: State, c: Id, p: Pid)
    requires Between(s) && p in Q(s, CvarWait(c))
    ensures Alive(s, p)
  {
    assert Look(0);
    assert Listed(s, s.current, CvarWait(c), p);
  }

  lemma WaitResumes(s: State, a: Place, pc: Resume)
    requires s.current in s.procs
    ensures s.current in Block(s, a, pc).procs && Block(s, a, pc).procs[s.current].pc == pc
  {
  }

  /** CvarWait fails at once if the condition variable does not exist or the caller does not hold the lock.
      Otherwise it gives the lock up and waits; and in any continuation the caller is either still inside
      the call or has returned from it, holding the lock again unless the lock was reclaimed. */
  lemma CvarWaitReturns(s: State, c: Id, l: Id, es: seq<Event>)
    requires Between(s) && Enabled(s, ECvarWait(c, l)) && Possible(Step(s, ECvarWait(c, l)), es)
    ensures var p, s1 := s.current, Step(s, ECvarWait(c, l));
      if Finds(s, c) && CanRelease(s, l) then
        !Holds(s1, p, l) && p in Q(s1, CvarWait(c)) && (Awaits(Run(s1, es), p, c, l) || ComesBack(s1, es, p, l))
      else Returned(s, s1, ERROR)
  {
    var s1 := Step(s, ECvarWait(c, l));
    StepBetween(s, ECvarWait(c, l));
    if Finds(s, c) && CanRelease(s, l) {
      StartsWaiting(s, c, l, s1);
      AwaitsOn(s1, es, s.current, c, l);
    }
  }
}
