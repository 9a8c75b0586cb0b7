/** From a suspended call to its return: what a process gets when it runs again, whatever the other processes
    do meanwhile. */
module ReturnRuns {
  import opened Pipe
  import opened KernelState
  import opened Placement
  import opened Holding
  import opened Family
  import opened KernelInvariant
  import opened KernelSteps
  import opened ExitSteps
  import opened CallSteps
  import opened DataSteps
  import opened KernelRuns
  import opened StepEffects
  import opened DelayRuns
  import opened Outcomes
  import opened QueueRuns

  // ---- one resumption ----

  /** What the rest of a suspended call does. A preempted process finds everything as it left it; fork
      returns 0 to the child and the child's id to the parent; a woken parent gets a zombie; a sleeper and a
      new owner of a lock get SUCCESS; a woken reader gets its bytes or waits again; a terminal read
      gives what was put into the buffer, and a write its length; and a killed process goes. */
  ghost predicate ResumeOutcome(s: State, s': State)
    requires s.current in s.procs
  {
    var p, me := s.current, s.procs[s.current];
    match me.pc
    case User => s' == s
    case Preempted => s' == s.(procs := s.procs[p := me.(pc := User)])
    case AfterFork(child) => Quiet(s, s') && Returned(s, s', if p == child then 0 else child)
    case AfterWait => me.zombies != [] && WaitOutcome(s, s')
    case AfterDelay => Quiet(s, s') && Returned(s, s', SUCCESS)
    case AfterAcquire(l) => Quiet(s, s') && Returned(s, s', SUCCESS) && Holds(s', p, l)
    case AfterCvarWait(_, l) => AcquireOutcome(s, s', l)
    case AfterPipeRead(id, len) => id in s.pipes && s.pipes[id].Valid() && ReadsOrWaits(s, s', id, len)
    case AfterTtyRead(_) => Quiet(s, s') && Returned(s, s', |me.rx|) && s'.procs[p].data == me.rx
    case AfterTtyWrite(_, len, kill) =>
      if kill then s'.mode == Hung || s'.mode == Halted || !Alive(s', p)
      else Quiet(s, s') && Returned(s, s', len)
  }

  lemma ResumesRunning(s: State)
    requires Resuming(s) && s.procs[s.current].pc != AfterWait
    ensures Runs(s) && (s.current == IDLE ==> s.procs[s.current].pc == Preempted)
  {
    assert Look(0);
  }

  lemma ParentGetsZombie(s: State)
    requires Resuming(s) && s.procs[s.current].pc == AfterWait
    ensures s.procs[s.current].zombies != [] && s.current != IDLE && Continue(s) == Collect(s)
  {
    assert Look(0);
    assert Somewhere(s, s.current, s.current) && ListsOk(s, s.current);
  }

  lemma InputMeans(s: State, s': State)
    requires Runs(s) && s.procs[s.current].pc.AfterTtyRead? && s' == Continue(s)
    ensures Quiet(s, s') && Returned(s, s', |s.procs[s.current].rx|) && s'.procs[s.current].data == s.procs[s.current].rx
  {
    assert Look(0);
    assert SameLists(s, s');
  }

  lemma KilledGoes(s: State, s': State)
    requires Resuming(s) && s.procs[s.current].pc.AfterTtyWrite? && s.procs[s.current].pc.kill && s' == Continue(s)
    ensures s'.mode == Hung || s'.mode == Halted || !Alive(s', s.current)
  {
    assert Enabled(s, EResume) by {
      ResumesRunning(s);
    }
    ExitEvent(s, EResume);
    if s.current != INIT {
      ReleaseAllInv(s);
      var s1 := ReleaseAll(s, s.procs[s.current].owned);
      if s1.mode != Hung {
        DepartDies(s1, ERROR);
      }
    }
  }

  lemma DepartDies(s: State, status: int)
    requires Inv(s, s.current) && Alive(s, s.current) && s.current != IDLE && s.procs[s.current].pc != AfterWait
    ensures !Alive(Depart(s, status), s.current)
  {
    OrphanInv(s);
    assert Look(0);
    OrphanShape(s);
    BuryShape(Orphan(s), status);
  }

  lemma ResumeMeans(s: State)
    requires Resuming(s)
    ensures Between(Continue(s)) && ResumeOutcome(s, Continue(s))
  {
    ContinueBetween(s);
    if s.procs[s.current].pc == AfterWait {
      ParentGetsZombie(s);
      CollectMeans(s);
    } else {
      ResumesRunning(s);
      RestMeans(s);
    }
  }

  lemma RestMeans(s: State)
    requires Resuming(s) && Runs(s) && (s.current == IDLE ==> s.procs[s.current].pc == Preempted)
    ensures ResumeOutcome(s, Continue(s))
  {
    match s.procs[s.current].pc
    case Preempted =>
    case AfterFork(child) => ReturnedOutcome(s, if s.current == child then 0 else child);
    case AfterDelay => ReturnedOutcome(s, SUCCESS);
    case AfterAcquire(l) =>
      WaiterHolds(s, l);
      ReturnedOutcome(s, SUCCESS);
    case AfterCvarWait(_, l) => AcquireMeans(s, l);
    case AfterPipeRead(id, len) => ReaderMeans(s);
    case AfterTtyRead(_) => InputMeans(s, Continue(s));
    case AfterTtyWrite(_, len, kill) =>
      if kill {
        KilledGoes(s, Continue(s));
      } else {
        ReturnedOutcome(s, len);
      }
  }

  lemma ReaderMeans(s: State)
    requires Resuming(s) && s.procs[s.current].pc.AfterPipeRead?
    ensures ResumeOutcome(s, Continue(s))
  {
    var pc := s.procs[s.current].pc;
    ResumesCalling(s);
    ReadLoopMeans(s, pc.pipe, pc.len, ReadLoop(s, pc.pipe, pc.len));
  }

  // ---- runs ----

  /** What is off the CPU stays where it will resume. */
  lemma OthersStay(s: State, e: Event, p: Pid)
    requires Between(s) && Enabled(s, e) && Alive(s, p) && p != s.current
    ensures Alive(Step(s, e), p) && Step(s, e).procs[p].pc == s.procs[p].pc
  {
    if e.EClock? {
      ClockTicked(s);
    } else if e.ETransmitted? {
      TransmittedOnly(s, e.tty);
    } else {
      StepLocal(s, e);
    }
  }

  /** The process is inside a call, which will go on there. */
  ghost predicate Suspended(s: State, p: Pid, pc: Resume) {
    Alive(s, p) && s.procs[p].pc == pc
  }

  /** The process runs again in the run, and then returns to its program with the result. */
  ghost predicate Answers(s: State, es: seq<Event>, p: Pid, rc: int)
    requires Possible(s, es)
    decreases |es|
  {
    es != []
    && (if es[0].EResume? && s.current == p then Returned(s, Step(s, es[0]), rc) else Answers(Step(s, es[0]), es[1..], p, rc))
  }

  /** Calls whose result is settled when they are suspended. */
  ghost predicate Promises(pc: Resume, p: Pid, rc: int) {
    match pc
    case AfterFork(child) => rc == if p == child then 0 else child
    case AfterDelay => rc == SUCCESS
    case AfterTtyWrite(_, len, kill) => !kill && rc == len
    case _ => false
  }

  lemma {:induction false} AnswersOn(s: State, es: seq<Event>, p: Pid, pc: Resume, rc: int)
    requires Between(s) && Possible(s, es) && Suspended(s, p, pc) && Promises(pc, p, rc)
    ensures Suspended(Run(s, es), p, pc) || Answers(s, es, p, rc)
    decreases |es|
  {
    if es != [] {
      StepBetween(s, es[0]);
      if s.current == p {
        ResumeMeans(s);
      } else {
        OthersStay(s, es[0], p);
        AnswersOn(Step(s, es[0]), es[1..], p, pc, rc);
      }
    }
  }

  /** A fork with memory: the child runs at once. In any continuation each of the two is still inside the
      fork or was given its result when it ran again: the child 0, the parent the id of the child. */
  lemma ForkReturns(s: State, es: seq<Event>)
    requires Between(s) && Enabled(s, EFork(true)) && Possible(Step(s, EFork(true)), es)
    ensures var p, child, s1 := s.current, s.nextPid, Step(s, EFork(true));
      p != child && s1.current == child
      && (Suspended(Run(s1, es), p, AfterFork(child)) || Answers(s1, es, p, child))
      && (Suspended(Run(s1, es), child, AfterFork(child)) || Answers(s1, es, child, 0))
  {
    var p, child, s1 := s.current, s.nextPid, Step(s, EFork(true));
    StepBetween(s, EFork(true));
    ForkMeans(s, true);
    AnswersOn(s1, es, p, AfterFork(child), child);
    AnswersOn(s1, es, child, AfterFork(child), 0);
  }

  /** Delay(n), n > 0, returns SUCCESS when the process runs again. */
  lemma DelayReturns(s: State, n: int, es: seq<Event>)
    requires Between(s) && Enabled(s, EDelay(n)) && n > 0 && Possible(Step(s, EDelay(n)), es)
    ensures var s1 := Step(s, EDelay(n));
      Suspended(Run(s1, es), s.current, AfterDelay) || Answers(s1, es, s.current, SUCCESS)
  {
    var s1 := Step(s, EDelay(n));
    StepBetween(s, EDelay(n));
    assert Alive(s, s.current);
    BlockedAt(SetProc(s, s.current, s.procs[s.current].(ticks := n)), Delayed, AfterDelay);
    DelayMeans(s, n);
    AnswersOn(s1, es, s.current, AfterDelay, SUCCESS);
  }

  /** A terminal write returns the number of bytes when the process runs again. */
  lemma WriteReturns(s: State, t: nat, bytes: seq<Byte>, es: seq<Event>)
    requires Between(s) && Enabled(s, ETtyWrite(t, bytes)) && t < NUM_TERMINALS && Possible(Step(s, ETtyWrite(t, bytes)), es)
    ensures var s1 := Step(s, ETtyWrite(t, bytes));
      Suspended(Run(s1, es), s.current, AfterTtyWrite(t, |bytes|, false)) || Answers(s1, es, s.current, |bytes|)
  {
    var s1 := Step(s, ETtyWrite(t, bytes));
    StepBetween(s, ETtyWrite(t, bytes));
    WriteMeans(s, t, bytes, false, s1);
    WriterSuspended(s, t, bytes);
    AnswersOn(s1, es, s.current, AfterTtyWrite(t, |bytes|, false), |bytes|);
  }

  lemma WriterSuspended(s: State, t: nat, bytes: seq<Byte>)
    requires s.current in s.procs && t < NUM_TERMINALS
    ensures var s1 := TtyWrite(s, t, bytes, false);
      s.current in s1.procs && s1.procs[s.current].pc == AfterTtyWrite(t, |bytes|, false)
  {
  }
}
