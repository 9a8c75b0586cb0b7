/** Runs of the kernel: any interleaving of calls and interrupts from boot on. */
module KernelRuns {
  import opened Pipe
  import opened KernelState
  import opened Placement
  import opened Holding
  import opened Family
  import opened KernelInvariant
  import opened KernelSteps
  import opened ExitSteps
  import opened CallSteps
  import opened DataSteps
  import opened TtySteps

  /** What holds between two steps. */
  ghost predicate Between(s: State) {
    Inv(s, s.current) && Alive(s, s.current)
  }

  lemma BootBetween()
    ensures Between(BOOT)
  {
    var s := BOOT;
    assert forall a | a != Ready :: Q(s, a) == [];
    assert Q(s, Ready) == [INIT];
    BootPlaced();
    assert Locked(s) by {
      forall l ensures WaitersOk(s, l) {
      }
    }
    assert Related(s) by {
      forall p | p in s.procs ensures ListsOk(s, p) && ParentOk(s, p) {
      }
    }
    assert Wired(s) by {
      forall t ensures WiredAt(s, t) {
      }
    }
  }

  lemma BootPlaced()
    ensures Placed(BOOT, IDLE)
  {
    var s := BOOT;
    assert forall a | a != Ready :: Q(s, a) == [];
    assert Q(s, Ready) == [INIT];
    forall a, p | p in Q(s, a) ensures Listed(s, IDLE, a, p) {
    }
    forall p | p in s.procs ensures Somewhere(s, IDLE, p) {
    }
  }

  /** The next event is a call of the running process. */
  ghost predicate Calling(s: State) {
    Between(s) && s.mode == Running && s.current in s.procs && s.procs[s.current].pc == User && s.current != IDLE
  }

  lemma CallingFromUser(s: State)
    requires Calling(s)
    ensures CallsFromUser(s)
  {
    assert Look(0);
  }

  lemma ForkBetween(s: State, memory: bool)
    requires Calling(s)
    ensures Between(Fork(s, memory))
  {
    CallingFromUser(s);
    if memory {
      ForkInv(s);
    } else {
      NamedInv(s);
      ReturnInv(s.(nextPid := s.nextPid + 1), ERROR);
    }
  }

  lemma ExitBetween(s: State, status: int)
    requires Calling(s)
    ensures Between(Exit(s, status))
  {
    CallingFromUser(s);
    ExitInv(s, status);
  }

  lemma WaitBetween(s: State)
    requires Calling(s)
    ensures Between(Wait(s))
  {
    CallingFromUser(s);
    WaitInv(s);
  }

  lemma DelayBetween(s: State, n: int)
    requires Calling(s)
    ensures Between(Delay(s, n))
  {
    CallingFromUser(s);
    DelayInv(s, n);
  }

  lemma LockInitBetween(s: State)
    requires Calling(s)
    ensures Between(LockInit(s))
  {
    CallingFromUser(s);
    LockInitInv(s);
  }

  lemma CvarInitBetween(s: State)
    requires Calling(s)
    ensures Between(CvarInit(s))
  {
    CallingFromUser(s);
    CvarInitInv(s);
  }

  lemma PipeInitBetween(s: State)
    requires Calling(s)
    ensures Between(PipeInit(s))
  {
    CallingFromUser(s);
    PipeInitInv(s);
  }

  lemma AcquireBetween(s: State, id: Id)
    requires Calling(s)
    ensures Between(Acquire(s, id))
  {
    CallingFromUser(s);
    AcquireInv(s, id);
  }

  lemma ReleaseBetween(s: State, id: Id)
    requires Calling(s)
    ensures Between(Release(s, id))
  {
    CallingFromUser(s);
    ReleaseInv(s, id);
    assert Between(Release(s, id));
  }

  lemma SignalBetween(s: State, id: Id)
    requires Calling(s)
    ensures Between(Signal(s, id))
  {
    CallingFromUser(s);
    SignalInv(s, id);
  }

  lemma BroadcastBetween(s: State, id: Id)
    requires Calling(s)
    ensures Between(Broadcast(s, id))
  {
    CallingFromUser(s);
    BroadcastInv(s, id);
  }

  lemma WaitOnCvarBetween(s: State, id: Id, lock: Id)
    requires Calling(s)
    ensures Between(WaitOnCvar(s, id, lock))
  {
    CallingFromUser(s);
    WaitOnCvarInv(s, id, lock);
  }

  lemma ReclaimBetween(s: State, id: Id)
    requires Calling(s)
    ensures Between(Reclaim(s, id))
  {
    CallingFromUser(s);
    ReclaimInv(s, id);
  }

  lemma PipeReadBetween(s: State, id: Id, len: int)
    requires Calling(s)
    ensures Between(PipeRead(s, id, len))
  {
    CallingFromUser(s);
    PipeReadInv(s, id, len);
  }

  lemma PipeWriteBetween(s: State, id: Id, bytes: seq<Byte>)
    requires Calling(s)
    ensures Between(PipeWrite(s, id, bytes))
  {
    CallingFromUser(s);
    PipeWriteInv(s, id, bytes);
  }

  lemma TtyReadBetween(s: State, t: int, len: int)
    requires Calling(s)
    ensures Between(TtyRead(s, t, len))
  {
    CallingFromUser(s);
    TtyReadInv(s, t, len);
  }

  lemma TtyWriteBetween(s: State, t: nat, bytes: seq<Byte>, kill: bool)
    requires Calling(s) && t <= NUM_TERMINALS
    ensures Between(TtyWrite(s, t, bytes, kill))
  {
    CallingFromUser(s);
    TtyWriteInv(s, t, bytes, kill);
  }

  lemma RejectBetween(s: State, rc: int)
    requires Calling(s)
    ensures Between(Return(s, rc))
  {
    CallingFromUser(s);
    ReturnInv(s, rc);
  }

  lemma InterruptBetween(s: State, e: Event)
    requires Between(s) && Enabled(s, e) && Interrupt(e)
    ensures Between(Step(s, e))
  {
    assert Look(0);
    match e
    case EClock => ClockInv(s);
    case EReceived(t, line) => ReceivedInv(s, t, line);
    case ETransmitted(t) => TransmittedInv(s, t);
  }

  /** The resumed process finished a call. */
  ghost predicate Resuming(s: State) {
    Between(s) && s.mode == Running && s.current in s.procs && s.procs[s.current].pc != User
  }

  lemma ResumeSimple(s: State)
    requires Resuming(s)
    requires var pc := s.procs[s.current].pc; pc.AfterFork? || pc.AfterDelay?
    ensures Between(Continue(s))
  {
    match s.procs[s.current].pc
    case AfterFork(child) => ReturnInv(s, if child == s.current then 0 else child);
    case AfterDelay => ReturnInv(s, SUCCESS);
  }

  lemma ResumePreempted(s: State)
    requires Resuming(s) && s.procs[s.current].pc.Preempted?
    ensures Between(Continue(s))
  {
    SelfInv(s, s.procs[s.current].(pc := User));
  }

  lemma ResumeTtyRead(s: State)
    requires Resuming(s) && s.procs[s.current].pc.AfterTtyRead?
    ensures Between(Continue(s))
  {
    var rx := s.procs[s.current].rx;
    ReturnDataInv(s, |rx|, rx);
  }

  /** The process was woken by a child's exit, so there is a zombie. */
  lemma ResumeWait(s: State)
    requires Resuming(s) && s.procs[s.current].pc == AfterWait
    ensures Between(Continue(s))
  {
    assert Look(0);
    assert Somewhere(s, s.current, s.current) && ListsOk(s, s.current);
    CollectInv(s);
  }

  lemma ResumeAcquire(s: State)
    requires Resuming(s) && s.procs[s.current].pc.AfterAcquire?
    ensures Between(Continue(s))
  {
    assert Look(0);
    AcquiredInv(s);
  }

  lemma ResumesCalling(s: State)
    requires Resuming(s)
    requires s.procs[s.current].pc.AfterCvarWait? || s.procs[s.current].pc.AfterPipeRead?
    ensures Calls(s)
    ensures var pc := s.procs[s.current].pc; pc.AfterPipeRead? ==> pc.pipe in s.pipes && s.pipes[pc.pipe].Valid()
  {
    assert Look(0);
  }

  lemma ResumeCvarWait(s: State)
    requires Resuming(s) && s.procs[s.current].pc.AfterCvarWait?
    ensures Between(Continue(s))
  {
    ResumesCalling(s);
    AcquireInv(s, s.procs[s.current].pc.lock);
  }

  lemma ResumePipeRead(s: State)
    requires Resuming(s) && s.procs[s.current].pc.AfterPipeRead?
    ensures Between(Continue(s))
  {
    ResumesCalling(s);
    ReadLoopInv(s, s.procs[s.current].pc.pipe, s.procs[s.current].pc.len);
    assert Continue(s) == ReadLoop(s, s.procs[s.current].pc.pipe, s.procs[s.current].pc.len);
  }

  lemma ResumeTtyWrite(s: State)
    requires Resuming(s) && s.procs[s.current].pc.AfterTtyWrite?
    ensures Between(Continue(s))
  {
    assert Look(0);
    if s.procs[s.current].pc.kill {
      ExitInv(s, ERROR);
    } else {
      ReturnInv(s, s.procs[s.current].pc.len);
    }
  }

  /** Back in a suspended call: none of the kernel's asserts there fails. */
  lemma ContinueBetween(s: State)
    requires Resuming(s)
    ensures Between(Continue(s))
  {
    match s.procs[s.current].pc
    case AfterWait => ResumeWait(s);
    case AfterAcquire(_) => ResumeAcquire(s);
    case AfterCvarWait(_, _) => ResumeCvarWait(s);
    case AfterPipeRead(_, _) => ResumePipeRead(s);
    case AfterTtyWrite(_, _, _) => ResumeTtyWrite(s);
    case Preempted => ResumePreempted(s);
    case AfterTtyRead(_) => ResumeTtyRead(s);
    case _ => ResumeSimple(s);
  }

  lemma ProcessStep(s: State, e: Event)
    requires Between(s) && Enabled(s, e)
    requires e.EFork? || e.EExit? || e.EWait? || e.EDelay?
    ensures Between(Step(s, e))
  {
    match e
    case EFork(memory) => ForkBetween(s, memory);
    case EExit(status) => ExitBetween(s, status);
    case EWait => WaitBetween(s);
    case EDelay(n) => DelayBetween(s, n);
  }

  lemma WriteBetween(s: State, t: int, bytes: seq<Byte>, s': State)
    requires Calling(s) && s' == if t < 0 || t >= NUM_TERMINALS then Return(s, ERROR) else TtyWrite(s, t, bytes, false)
    ensures Between(s')
  {
    if t < 0 || t >= NUM_TERMINALS {
      RejectBetween(s, ERROR);
    } else {
      TtyWriteBetween(s, t, bytes, false);
    }
  }

  lemma ReadStep(s: State, e: Event)
    requires Between(s) && Enabled(s, e) && e.ETtyRead?
    ensures Between(Step(s, e))
  {
    TtyReadBetween(s, e.tty, e.len);
  }

  lemma WriteStep(s: State, e: Event)
    requires Between(s) && Enabled(s, e) && e.ETtyWrite?
    ensures Between(Step(s, e))
  {
    WriteBetween(s, e.tty, e.bytes, Step(s, e));
  }

  lemma KillStep(s: State, e: Event)
    requires Between(s) && Enabled(s, e) && e.EKill?
    ensures Between(Step(s, e))
  {
    TtyWriteBetween(s, 0, e.message, true);
  }

  lemma LockStep(s: State, e: Event)
    requires Between(s) && Enabled(s, e) && (e.ELockInit? || e.EAcquire? || e.ERelease?)
    ensures Between(Step(s, e))
  {
    match e
    case ELockInit => LockInitBetween(s);
    case EAcquire(id) => AcquireBetween(s, id);
    case ERelease(id) => ReleaseBetween(s, id);
  }

  lemma CvarStep(s: State, e: Event)
    requires Between(s) && Enabled(s, e) && (e.ECvarInit? || e.ESignal? || e.EBroadcast? || e.ECvarWait?)
    ensures Between(Step(s, e))
  {
    match e
    case ECvarInit => CvarInitBetween(s);
    case ESignal(id) => SignalBetween(s, id);
    case EBroadcast(id) => BroadcastBetween(s, id);
    case ECvarWait(id, lock) => WaitOnCvarBetween(s, id, lock);
  }

  lemma ResourceStep(s: State, e: Event)
    requires Between(s) && Enabled(s, e) && (e.EReclaim? || e.EPipeInit?)
    ensures Between(Step(s, e))
  {
    if e.EReclaim? {
      ReclaimBetween(s, e.id);
    } else {
      PipeInitBetween(s);
    }
  }

  lemma PipeStep(s: State, e: Event)
    requires Between(s) && Enabled(s, e) && (e.EPipeRead? || e.EPipeWrite?)
    ensures Between(Step(s, e))
  {
    match e
    case EPipeRead(id, len) => PipeReadBetween(s, id, len);
    case EPipeWrite(id, bytes) => PipeWriteBetween(s, id, bytes);
  }

  /** Every step keeps the invariant. */
  lemma StepBetween(s: State, e: Event)
    requires Between(s) && Enabled(s, e)
    ensures Between(Step(s, e))
  {
    match e
    case ELockInit => LockStep(s, e);
    case EAcquire(_) => LockStep(s, e);
    case ERelease(_) => LockStep(s, e);
    case ECvarInit => CvarStep(s, e);
    case ESignal(_) => CvarStep(s, e);
    case EBroadcast(_) => CvarStep(s, e);
    case ECvarWait(_, _) => CvarStep(s, e);
    case EReclaim(_) => ResourceStep(s, e);
    case EPipeInit => ResourceStep(s, e);
    case EPipeRead(_, _) => PipeStep(s, e);
    case EPipeWrite(_, _) => PipeStep(s, e);
    case EClock => InterruptBetween(s, e);
    case EReceived(_, _) => InterruptBetween(s, e);
    case ETransmitted(_) => InterruptBetween(s, e);
    case EResume => ContinueBetween(s);
    case ETtyRead(_, _) => ReadStep(s, e);
    case ETtyWrite(_, _) => WriteStep(s, e);
    case EKill(_) => KillStep(s, e);
    case _ => ProcessStep(s, e);
  }

  // ---- runs ----

  /** The events can happen one after the other from `s` on. */
  ghost predicate Possible(s: State, es: seq<Event>)
    decreases |es|
  {
    es == [] || (Enabled(s, es[0]) && Possible(Step(s, es[0]), es[1..]))
  }

  ghost function Run(s: State, es: seq<Event>): State
    requires Possible(s, es)
    decreases |es|
  {
    if es == [] then s else Run(Step(s, es[0]), es[1..])
  }

  lemma {:induction false} RunBetween(s: State, es: seq<Event>)
    requires Between(s) && Possible(s, es)
    ensures Between(Run(s, es))
    decreases |es|
  {
    if es != [] {
      StepBetween(s, es[0]);
      RunBetween(Step(s, es[0]), es[1..]);
    }
  }

  /** A run goes on. */
  lemma {:induction false} RunExtends(s: State, es: seq<Event>, e: Event)
    requires Possible(s, es) && Enabled(Run(s, es), e)
    ensures Possible(s, es + [e]) && Run(s, es + [e]) == Step(Run(s, es), e)
    decreases |es|
  {
    if es == [] {
      assert es + [e] == [e] && [e][1..] == [];
    } else {
      assert (es + [e])[1..] == es[1..] + [e];
      RunExtends(Step(s, es[0]), es[1..], e);
    }
  }

  lemma Reached(es: seq<Event>)
    requires Possible(BOOT, es)
    ensures Between(Run(BOOT, es))
  {
    BootBetween();
    RunBetween(BOOT, es);
  }

  /** In every run no kernel assert fails and the terminal hardware is never given a second chunk. */
  lemma NeverPanics(es: seq<Event>)
    requires Possible(BOOT, es)
    ensures Run(BOOT, es).mode != Panic
  {
    assert Look(0);
    Reached(es);
  }

  /** The process runs, waits for a child, or is on one list, once. */
  ghost predicate InOnePlace(s: State, p: Pid)
    requires Alive(s, p)
  {
    if p == s.current || s.procs[p].waiting then
      !(p == s.current && s.procs[p].waiting) && forall a :: p !in Q(s, a)
    else
      exists a :: p in Q(s, a) && NoDup(Q(s, a)) && forall b | p in Q(s, b) :: b == a
  }

  lemma ListedOnce(s: State, p: Pid, a: Place)
    requires Placed(s, s.current) && p in Q(s, a)
    ensures p != IDLE && p != s.current && Alive(s, p) && !s.procs[p].waiting && InOnePlace(s, p)
  {
    assert Listed(s, s.current, a, p);
    forall b | p in Q(s, b) ensures b == a {
      assert Listed(s, s.current, b, p);
    }
  }

  lemma PlacedOnce(s: State, p: Pid)
    requires Placed(s, s.current) && Alive(s, p)
    ensures if p == IDLE then forall a :: IDLE !in Q(s, a) else InOnePlace(s, p)
  {
    assert Somewhere(s, s.current, p);
    if a :| p in Q(s, a) {
      ListedOnce(s, p, a);
    }
  }

  lemma ExactlyOnePlace(es: seq<Event>, p: Pid)
    requires Possible(BOOT, es) && Alive(Run(BOOT, es), p)
    ensures var s := Run(BOOT, es);
      if p == IDLE then forall a :: IDLE !in Q(s, a) else InOnePlace(s, p)
  {
    assert Look(0);
    Reached(es);
    PlacedOnce(Run(BOOT, es), p);
  }

  /** A lock is held by exactly the process that lists it, which is not waiting for it; a lock
      with waiters is held. */
  ghost predicate LockAgrees(s: State, l: Id, p: Pid)
    requires Alive(s, p)
  {
    (Holds(s, p, l) <==> l in s.procs[p].owned)
    && NoDup(s.procs[p].owned)
    && (Q(s, LockWait(l)) != [] ==> exists h | Alive(s, h) :: Holds(s, h, l) && h !in Q(s, LockWait(l)))
  }

  lemma LockedAgrees(s: State, l: Id, p: Pid)
    requires Locked(s) && Alive(s, p)
    ensures LockAgrees(s, l, p)
  {
    assert OwnedOk(s, p) && WaitersOk(s, l);
    if l in s.locks {
      assert OwnerOk(s, l);
    }
    if Q(s, LockWait(l)) != [] {
      assert Q(s, LockWait(l))[0] in Q(s, LockWait(l));
      assert Alive(s, s.locks[l].owner) && Holds(s, s.locks[l].owner, l);
    }
  }

  lemma LocksAgree(es: seq<Event>, l: Id, p: Pid)
    requires Possible(BOOT, es) && Alive(Run(BOOT, es), p)
    ensures LockAgrees(Run(BOOT, es), l, p)
  {
    assert Look(0);
    Reached(es);
    LockedAgrees(Run(BOOT, es), l, p);
  }

  /** Live children and zombies are exactly the live and the exited processes that name their
      parent, and a process blocked in Wait has a live child and no zombie. */
  ghost predicate FamilyAgrees(s: State, p: Pid, c: Pid)
    requires Alive(s, p)
  {
    (c in s.procs[p].live <==> Alive(s, c) && s.procs[c].parent == Parent(p))
    && (c in s.procs[p].zombies <==> c in s.procs && !s.procs[c].alive && s.procs[c].parent == Parent(p))
    && NoDup(s.procs[p].live) && NoDup(s.procs[p].zombies)
    && (s.procs[p].waiting ==> s.procs[p].live != [] && s.procs[p].zombies == [])
  }

  lemma RelatedAgrees(s: State, p: Pid, c: Pid)
    requires Related(s) && Alive(s, p)
    ensures FamilyAgrees(s, p, c)
  {
    assert ListsOk(s, p);
    if c in s.procs {
      assert ParentOk(s, c);
    }
  }

  lemma FamiliesAgree(es: seq<Event>, p: Pid, c: Pid)
    requires Possible(BOOT, es) && Alive(Run(BOOT, es), p)
    ensures FamilyAgrees(Run(BOOT, es), p, c)
  {
    assert Look(0);
    Reached(es);
    RelatedAgrees(Run(BOOT, es), p, c);
  }
}
