/** Locks and condition variables over whole runs: when exits terminate, who gets a lock, and what
    a condition variable's waiters can rely on. */
module LockRuns {
  import opened Pipe
  import opened KernelState
  import opened Placement
  import opened Holding
  import opened KernelInvariant
  import opened ExitSteps
  import opened CallSteps
  import opened TtySteps
  import opened KernelRuns
  import opened StepEffects

  // ---- exits that terminate ----

  /** The event is no Reclaim of a resource somebody holds or waits for. */
  ghost predicate Tidy(s: State, e: Event) {
    e.EReclaim? ==> Idle(s, e.id)
  }

  ghost predicate TidyRun(s: State, es: seq<Event>)
    requires Possible(s, es)
    decreases |es|
  {
    es == [] || (Tidy(s, es[0]) && TidyRun(Step(s, es[0]), es[1..]))
  }

  /** Every held lock is on the kernel's list, where KernelRelease looks for it. */
  ghost predicate HeldLinked(s: State) {
    forall l | l in s.locks && s.locks[l].acquired :: l in s.linked
  }

  ghost predicate Free(s: State) {
    s.mode != Hung && HeldLinked(s)
  }

  lemma UnlockFree(s: State, id: Id)
    requires HeldLinked(s) && CanRelease(s, id) && s.current in s.procs
    ensures HeldLinked(Unlock(s, id)) && Unlock(s, id).linked == s.linked
    ensures s.mode != Hung ==> Unlock(s, id).mode != Hung
  {
  }

  lemma {:induction false} ReleaseAllFree(s: State, ids: seq<Id>)
    requires HeldLinked(s) && s.current in s.procs
    ensures HeldLinked(ReleaseAll(s, ids))
    decreases |ids|
  {
    if ids != [] && CanRelease(s, ids[0]) {
      UnlockFree(s, ids[0]);
      ReleaseAllFree(Unlock(s, ids[0]), ids[1..]);
    }
  }

  lemma DepartFree(s: State, status: int)
    requires Runs(s) && s.current != IDLE && Free(s) && s.procs[s.current].owned == []
    ensures Free(Depart(s, status))
  {
    DepartInv(s, status);
    DepartCalm(s, status);
  }

  lemma ExitFree(s: State, status: int)
    requires CallsAgain(s) && s.mode == Running && HeldLinked(s)
    ensures Free(Exit(s, status))
  {
    ExitInv(s, status);
    OwnedHeld(s);
    if s.current != INIT {
      ReleaseAllInv(s);
      ReleaseAllFree(s, s.procs[s.current].owned);
      var s1 := ReleaseAll(s, s.procs[s.current].owned);
      if s1.mode != Hung {
        DepartFree(s1, status);
      }
    }
  }

  lemma OwnedHeld(s: State)
    requires Between(s)
    ensures forall l | l in s.procs[s.current].owned :: Holds(s, s.current, l)
  {
    assert Look(0);
    assert OwnedOk(s, s.current);
  }

  lemma ForkWaitFree(s: State, e: Event)
    requires Between(s) && Enabled(s, e) && HeldLinked(s) && (e.EFork? || e.EWait?)
    ensures Free(Step(s, e))
  {
    if e.EFork? {
      ForkCalm(s, e.memory);
    } else {
      WaitCalm(s) by {
        assert Look(0);
      }
    }
  }

  lemma DelayFree(s: State, n: int)
    requires s.current in s.procs && HeldLinked(s) && s.mode == Running
    ensures Free(Delay(s, n))
  {
    DelayCalm(s, n);
  }

  lemma PipeReadFree(s: State, id: Id, len: int)
    requires s.current in s.procs && HeldLinked(s) && s.mode == Running
    ensures Free(PipeRead(s, id, len))
  {
    PipeReadCalm(s, id, len);
  }

  lemma PipeWriteFree(s: State, id: Id, bytes: seq<Byte>)
    requires s.current in s.procs && HeldLinked(s) && s.mode == Running
    ensures Free(PipeWrite(s, id, bytes))
  {
    PipeWriteCalm(s, id, bytes);
  }

  lemma TtyReadFree(s: State, t: int, len: int)
    requires s.current in s.procs && HeldLinked(s) && s.mode == Running
    ensures Free(TtyRead(s, t, len))
  {
    TtyReadCalm(s, t, len);
  }

  lemma WriteFree(s: State, t: nat, bytes: seq<Byte>, kill: bool)
    requires Between(s) && HeldLinked(s) && s.mode == Running && t <= NUM_TERMINALS
    ensures Free(TtyWrite(s, t, bytes, kill))
  {
    TerminalWired(s, t);
    WritingIs(s, t, bytes, kill);
    TtyWriteCalm(s, t, bytes, kill);
  }

  lemma InitFree(s: State, e: Event)
    requires Between(s) && Enabled(s, e) && HeldLinked(s) && (e.ELockInit? || e.ECvarInit? || e.EPipeInit?)
    ensures Free(Step(s, e))
  {
    match e
    case ELockInit => LockInitCalm(s);
    case ECvarInit => CvarInitCalm(s);
    case EPipeInit => PipeInitCalm(s);
  }

  lemma SignalFree(s: State, id: Id)
    requires s.current in s.procs && HeldLinked(s) && s.mode == Running
    ensures Free(Signal(s, id)) && Free(Broadcast(s, id))
  {
    SignalCalm(s, id);
    BroadcastCalm(s, id);
  }

  lemma WaitOnCvarFree(s: State, id: Id, lock: Id)
    requires s.current in s.procs && HeldLinked(s) && s.mode == Running
    ensures Free(WaitOnCvar(s, id, lock))
  {
    if CanRelease(s, lock) {
      UnlockFree(s, lock);
    }
  }

  lemma AcquireFree(s: State, id: Id)
    requires s.current in s.procs && HeldLinked(s) && s.mode == Running
    ensures Free(Acquire(s, id))
  {
  }

  lemma LockFree(s: State, e: Event)
    requires Between(s) && Enabled(s, e) && HeldLinked(s) && (e.ERelease? || (e.EReclaim? && Tidy(s, e)))
    ensures Free(Step(s, e))
  {
    if e.EReclaim? {
      ReclaimCalm(s, e.id);
    } else if CanRelease(s, e.id) {
      UnlockFree(s, e.id);
    }
  }

  lemma ClockFree(s: State)
    requires s.current in s.procs && HeldLinked(s) && s.mode == Running
    ensures Free(Clock(s))
  {
    ClockTicked(s);
  }

  lemma TerminalFree(s: State, e: Event)
    requires Between(s) && Enabled(s, e) && HeldLinked(s) && (e.EReceived? || e.ETransmitted?)
    ensures Free(Step(s, e))
  {
    match e
    case EReceived(t, line) => ReceivedCalm(s, t, line);
    case ETransmitted(t) => TransmittedOnly(s, t);
  }

  lemma ResumeReturnFree(s: State)
    requires Resuming(s) && HeldLinked(s)
    requires var pc := s.procs[s.current].pc; pc.Preempted? || pc.AfterFork? || pc.AfterDelay? || pc.AfterTtyRead?
    ensures Free(Continue(s))
  {
    ResumeReturnLocal(s);
  }

  lemma ResumeWaitFree(s: State)
    requires Resuming(s) && HeldLinked(s)
    requires s.procs[s.current].pc.AfterWait? || s.procs[s.current].pc.AfterAcquire?
    ensures Free(Continue(s))
  {
    assert SameLocks(s, Continue(s));
  }

  lemma ResumePipeFree(s: State)
    requires Resuming(s) && HeldLinked(s) && s.procs[s.current].pc.AfterPipeRead?
    ensures Free(Continue(s))
  {
    var pc := s.procs[s.current].pc;
    if pc.pipe in s.pipes && s.pipes[pc.pipe].Valid() {
      ReadLoopCalm(s, pc.pipe, pc.len);
    }
  }

  lemma ResumeWriteFree(s: State)
    requires Resuming(s) && HeldLinked(s) && s.procs[s.current].pc.AfterTtyWrite?
    ensures Free(Continue(s))
  {
    if s.procs[s.current].pc.kill {
      assert Calls(s) by {
        assert Look(0);
      }
      ExitFree(s, ERROR);
    } else {
      ReturnCalm(s, s.procs[s.current].pc.len);
    }
  }

  lemma ResumeFree(s: State)
    requires Resuming(s) && HeldLinked(s)
    ensures Free(Continue(s))
  {
    match s.procs[s.current].pc
    case AfterCvarWait(_, lock) => AcquireFree(s, lock);
    case AfterPipeRead(_, _) => ResumePipeFree(s);
    case AfterTtyWrite(_, _, _) => ResumeWriteFree(s);
    case AfterWait => ResumeWaitFree(s);
    case AfterAcquire(_) => ResumeWaitFree(s);
    case _ => ResumeReturnFree(s);
  }

  lemma CallFree(s: State, e: Event)
    requires Between(s) && Enabled(s, e) && HeldLinked(s) && Tidy(s, e) && !Interrupt(e) && !e.EResume?
    ensures Free(Step(s, e))
  {
    match e
    case EExit(status) => ExitFree(s, status);
    case EFork(_) => ForkWaitFree(s, e);
    case EWait => ForkWaitFree(s, e);
    case EDelay(n) => DelayFree(s, n);
    case ELockInit => InitFree(s, e);
    case ECvarInit => InitFree(s, e);
    case EPipeInit => InitFree(s, e);
    case ESignal(id) => SignalFree(s, id);
    case EBroadcast(id) => SignalFree(s, id);
    case ECvarWait(id, lock) => WaitOnCvarFree(s, id, lock);
    case EAcquire(id) => AcquireFree(s, id);
    case ERelease(_) => LockFree(s, e);
    case EReclaim(_) => LockFree(s, e);
    case EPipeRead(id, len) => PipeReadFree(s, id, len);
    case EPipeWrite(id, bytes) => PipeWriteFree(s, id, bytes);
    case ETtyRead(t, len) => TtyReadFree(s, t, len);
    case EKill(message) => WriteFree(s, 0, message, true);
    case ETtyWrite(t, bytes) =>
      if 0 <= t < NUM_TERMINALS {
        WriteFree(s, t, bytes, false);
      }
  }

  lemma StepFree(s: State, e: Event)
    requires Between(s) && Enabled(s, e) && HeldLinked(s) && Tidy(s, e)
    ensures Free(Step(s, e))
  {
    match e
    case EResume => ResumeFree(s);
    case EClock => ClockFree(s);
    case EReceived(_, _) => TerminalFree(s, e);
    case ETransmitted(_) => TerminalFree(s, e);
    case _ => CallFree(s, e);
  }

  lemma {:induction false} RunFree(s: State, es: seq<Event>)
    requires Between(s) && Possible(s, es) && TidyRun(s, es) && Free(s)
    ensures Free(Run(s, es))
    decreases |es|
  {
    if es != [] {
      StepBetween(s, es[0]);
      StepFree(s, es[0]);
      RunFree(Step(s, es[0]), es[1..]);
    }
  }

  /** In a run that reclaims only idle resources every exit ends. */
  lemma ExitsEnd(es: seq<Event>)
    requires Possible(BOOT, es) && TidyRun(BOOT, es)
    ensures Run(BOOT, es).mode != Hung
  {
    BootBetween();
    RunFree(BOOT, es);
  }

  /** In any run, the exit of a process, by its own call or because it is killed, hangs exactly when the
      process owns a lock that was reclaimed. */
  lemma ExitHangs(es: seq<Event>, e: Event)
    requires Possible(BOOT, es) && Enabled(Run(BOOT, es), e) && Ends(Run(BOOT, es), e)
    ensures var s := Run(BOOT, es);
      Step(s, e).mode == Hung <==>
      s.current != INIT && exists l | l in s.procs[s.current].owned :: l !in s.linked
  {
    Reached(es);
    ExitEvent(Run(BOOT, es), e);
    ExitInv(Run(BOOT, es), Status(e));
  }

  /** Reclaiming a held lock fails, and yet its holder can no longer exit: the lock is already off
      the kernel's list when KernelReclaim finds out that it is busy. */
  lemma BusyReclaimHangs(s: State, id: Id, status: int)
    requires CallsFromUser(s) && s.mode == Running && Holds(s, s.current, id) && s.current != INIT
    ensures var s' := Reclaim(s, id);
      s'.procs[s.current].rc == ERROR && Exit(s', status).mode == Hung
  {
    var s' := Reclaim(s, id);
    assert id in s.procs[s.current].owned by {
      assert Look(0);
      assert OwnerOk(s, id);
    }
    ReclaimInv(s, id);
    ExitInv(s', status);
    assert id in s'.procs[s'.current].owned && id !in s'.linked;
  }
}
