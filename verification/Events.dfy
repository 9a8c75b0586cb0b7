/** What every event means, on one page: calls, interrupts and resumptions, without the step functions. */
module Events {
  import opened Pipe
  import opened KernelState
  import opened Placement
  import opened Holding
  import opened KernelInvariant
  import opened KernelSteps
  import opened ExitSteps
  import opened TtySteps
  import opened KernelRuns
  import opened StepEffects
  import opened DelayRuns
  import opened Outcomes
  import opened HandOvers
  import opened TtyRuns
  import opened ReturnRuns
  import opened ReadRuns

  // ---- exits ----

  /** Init's exit halts the machine. Any other process is gone, and its locks are passed on, unless the exit hangs. */
  ghost predicate Goes(s: State, s': State)
    requires s.current in s.procs
  {
    if s.current == INIT then s'.mode == Halted
    else s'.mode == Hung || (ExitOutcome(s, s') && !Alive(s', s.current))
  }

  lemma GoesMeans(s: State, e: Event, s': State)
    requires Between(s) && Enabled(s, e) && Ends(s, e) && s' == Step(s, e)
    ensures Goes(s, s')
  {
    ExitEvent(s, e);
    if s.current != INIT && s'.mode != Hung {
      ExitMeans(s, Status(e), s');
      var s1 := ReleaseAll(s, s.procs[s.current].owned);
      ReleaseAllInv(s);
      LeavesThrough(s, s1, Status(e));
      DepartDies(s1, Status(e));
    }
  }

  // ---- the clock ----

  /** What is left of `q` when some of it is taken out. */
  ghost predicate InOrder(r: seq<Pid>, q: seq<Pid>)
    decreases |q|
  {
    r == [] || (q != [] && if r[0] == q[0] then InOrder(r[1..], q[1..]) else InOrder(r, q[1..]))
  }

  lemma {:induction false} TickInOrder(s: State, q: seq<Pid>)
    requires NoDup(q)
    ensures InOrder(Expired(s, q), q) && InOrder(Remaining(s, q), q)
  {
    if q != [] {
      TickInOrder(s, q[1..]);
      SkipsFirst(Expired(s, q[1..]), q);
      SkipsFirst(Remaining(s, q[1..]), q);
      assert ([q[0]] + Expired(s, q[1..]))[1..] == Expired(s, q[1..]);
      assert ([q[0]] + Remaining(s, q[1..]))[1..] == Remaining(s, q[1..]);
      assert [] + Expired(s, q[1..]) == Expired(s, q[1..]) && [] + Remaining(s, q[1..]) == Remaining(s, q[1..]);
    }
  }

  lemma {:induction false} SkipsFirst(r: seq<Pid>, q: seq<Pid>)
    requires q != [] && NoDup(q) && InOrder(r, q[1..])
    ensures InOrder(r, q)
  {
    if r != [] {
      OrderedFrom(r, q[1..]);
      assert q[0] !in q[1..];
    }
  }

  lemma {:induction false} OrderedFrom(r: seq<Pid>, q: seq<Pid>)
    requires r != [] && InOrder(r, q)
    ensures r[0] in q
    decreases |q|
  {
    if r[0] != q[0] {
      OrderedFrom(r, q[1..]);
    }
  }

  /** The processes in `up` have slept their last tick: exactly these leave the delay list, in order. */
  ghost predicate WakesUp(s: State, s': State, up: seq<Pid>) {
    var d := Q(s, Delayed);
    NoDup(up) && InOrder(up, d) && (forall p :: p in up <==> p in d && TicksOf(s, p) <= 1)
    && NoDup(Q(s', Delayed)) && InOrder(Q(s', Delayed), d) && forall p :: p in Q(s', Delayed) <==> p in d && p !in up
  }

  /** The process after the interrupt. */
  ghost function AfterClock(s: State, p: Pid): Proc
    requires p in s.procs
  {
    var ticks := if p in Q(s, Delayed) then s.procs[p].ticks - 1 else s.procs[p].ticks;
    s.procs[p].(ticks := ticks, pc := if p == s.current then Preempted else s.procs[p].pc)
  }

  /** Sleepers have one tick less; those at zero are in line behind the ready processes, and the preempted process
      is behind them. Nothing else changes. */
  ghost predicate ClockOutcome(s: State, s': State, up: seq<Pid>) {
    var all := Q(s, Ready) + up + (if s.current == IDLE then [] else [s.current]);
    WakesUp(s, s', up) && Line(s') == (if all == [] then [IDLE] else all)
    && SameData(s, s') && SameLocks(s, s') && (forall a | a != Ready && a != Delayed :: Q(s', a) == Q(s, a))
    && s'.procs.Keys == s.procs.Keys && forall p | p in s.procs :: s'.procs[p] == AfterClock(s, p)
  }

  lemma OneTickEach(s: State, s1: State)
    requires s1 == Tick(s)
    ensures s1.procs.Keys == s.procs.Keys
    ensures forall p | p in s.procs && p != s.current :: s1.procs[p] == AfterClock(s, p)
    ensures s.current in s.procs ==> s1.procs[s.current].(pc := Preempted) == AfterClock(s, s.current)
  {
  }

  lemma PreemptedProcs(s: State, s1: State, s2: State)
    requires s.current in s1.procs && s2.procs == s1.procs[s.current := s1.procs[s.current].(pc := Preempted)]
    requires s1.procs.Keys == s.procs.Keys && s1.procs[s.current].(pc := Preempted) == AfterClock(s, s.current)
    requires forall p | p in s.procs && p != s.current :: s1.procs[p] == AfterClock(s, p)
    ensures s2.procs.Keys == s.procs.Keys && forall p | p in s.procs :: s2.procs[p] == AfterClock(s, p)
  {
  }

  lemma ClockSwitches(s: State, s1: State, s2: State)
    requires s.current in s1.procs && s1 == Tick(s) && s2 == SetProc(s1, s.current, s1.procs[s.current].(pc := Preempted))
    requires s.current in s.procs
    ensures Clock(s).procs == s2.procs
  {
    if s.current == IDLE {
      DispatchCalm(s2);
    } else {
      DispatchCalm(Append(s2, Ready, s.current));
    }
  }

  lemma ClockProcs(s: State)
    requires s.current in s.procs
    ensures Clock(s).procs.Keys == s.procs.Keys && forall p | p in s.procs :: Clock(s).procs[p] == AfterClock(s, p)
  {
    var s1 := Tick(s);
    OneTickEach(s, s1);
    var s2 := SetProc(s1, s.current, s1.procs[s.current].(pc := Preempted));
    PreemptedProcs(s, s1, s2);
    ClockSwitches(s, s1, s2);
  }

  lemma ClockMeans(s: State)
    requires Between(s) && s.current in s.procs
    ensures ClockOutcome(s, Clock(s), Expired(s, Q(s, Delayed)))
  {
    var d := Q(s, Delayed);
    assert NoDup(d) by {
      assert Look(0);
    }
    ClockTicked(s);
    ClockLine(s);
    ClockProcs(s);
    TickSplits(s, d);
    TickInOrder(s, d);
  }

  // ---- terminal interrupts ----

  /** Nobody loses the CPU. With nobody waiting the line is kept; otherwise each process gets its part of the input,
      or nothing if the input does not reach it or it is not waiting, and what nobody asked for is kept. */
  ghost predicate ReceiveOutcome(s: State, s': State, t: nat, line: seq<Byte>) {
    s'.current == s.current && SameLocks(s, s') && s'.pipes == s.pipes && s'.busy == s.busy
    && (Q(s, TtyReceive(t)) == [] ==> SameLists(s, s') && s'.procs == s.procs && Lines(s', t) == Lines(s, t) + [line])
    && (Q(s, TtyReceive(t)) != [] ==>
          (exists k: nat, left :: Dealt(s, s', t, line, k, left)) && forall p | p in s.procs :: GetsPart(s, s', t, line, p))
  }

  ghost predicate GetsPart(s: State, s': State, t: nat, line: seq<Byte>, p: Pid) {
    if p in Q(s, TtyReceive(t)) && Reaches(s, t, line, p) then Fed(s, s', t, p, Part(s, t, line, p)) else Unfed(s, s', t, p)
  }

  lemma {:induction false} DeliverStays(s: State, t: nat, line: seq<Byte>)
    requires Readers(s, t)
    ensures var s' := Deliver(s, t, line);
      s'.current == s.current && SameLocks(s, s') && s'.pipes == s.pipes && s'.busy == s.busy
    decreases |Q(s, TtyReceive(t))|
  {
    var q := Q(s, TtyReceive(t));
    if q != [] && line != [] {
      DeliverGoesOn(s, t, line);
      DeliverStays(Served(s, t, q[0], line), t, line[Share(s, t, line)..]);
    } else if q != [] {
      assert q[0] in q;
    }
  }

  lemma ReceiveMeans(s: State, t: nat, line: seq<Byte>)
    requires Between(s)
    ensures ReceiveOutcome(s, Received(s, t, line), t, line)
  {
    var s' := Received(s, t, line);
    ReadersThere(s, t);
    ReceivedDistributes(s, t, line);
    if Q(s, TtyReceive(t)) == [] {
      assert SameLists(s, s');
    } else {
      DeliverStays(s, t, line);
      forall p | p in s.procs ensures GetsPart(s, s', t, line, p) {
        InputStep(s, line, p, t, s');
      }
    }
  }

  /** The writer with bytes left to send goes on with them; a writer that is done becomes ready, and the next one's
      first bytes are sent. */
  ghost predicate TransmitOutcome(s: State, s': State, t: nat) {
    var q := Q(s, TtyTransmit(t));
    TransmitOnly(s, s', t) && q != [] && q[0] in s.procs && (|q| > 1 ==> q[1] in s.procs)
    && var tx := s.procs[q[0]].tx;
      if |tx| > TERMINAL_MAX_LINE then
        SameLists(s, s') && s'.procs[q[0]].tx == tx[TERMINAL_MAX_LINE..]
        && t in s'.busy && s'.busy[t] == Chunk(tx[TERMINAL_MAX_LINE..])
        && forall p | p in s.procs && p != q[0] :: s'.procs[p] == s.procs[p]
      else
        Q(s', TtyTransmit(t)) == q[1..] && Q(s', Ready) == Q(s, Ready) + [q[0]] && s'.procs == s.procs
        && if |q| == 1 then t !in s'.busy else t in s'.busy && s'.busy[t] == Chunk(s.procs[q[1]].tx)
  }

  lemma TransmitMeans(s: State, t: nat)
    requires Between(s) && t in s.busy
    ensures TransmitOutcome(s, Transmitted(s, t), t)
  {
    var q := Q(s, TtyTransmit(t));
    TransmittedOnly(s, t);
    WritersThere(s, t);
    TransmittedIs(s, t);
    if |s.procs[q[0]].tx| > TERMINAL_MAX_LINE {
      assert SameLists(s, Transmitted(s, t));
    } else {
      WakeQueues(s, TtyTransmit(t), q[0]);
      assert Without(q, q[0]) == q[1..];
      NextLists(s, t, q);
    }
  }

  lemma NextLists(s: State, t: nat, q: seq<Pid>)
    requires q != [] && (|q| > 1 ==> q[1] in s.procs)
    ensures var s' := NextWriter(s, t, q); s'.procs == s.procs && s'.queues == Wake(s, TtyTransmit(t), q[0]).queues
    ensures var s' := NextWriter(s, t, q);
      if |q| == 1 then t !in s'.busy else t in s'.busy && s'.busy[t] == Chunk(s.procs[q[1]].tx)
  {
  }

  // ---- every event ----

  ghost predicate Means(s: State, e: Event, s': State)
    requires Enabled(s, e)
  {
    match e
    case EFork(memory) => ForkOutcome(s, s', memory)
    case EExit(_) => Goes(s, s')
    case EWait => WaitOutcome(s, s')
    case EDelay(n) => DelayOutcome(s, s', n)
    case ELockInit => InitOutcome(s, s', e)
    case EAcquire(id) => AcquireOutcome(s, s', id)
    case ERelease(id) => ReleaseOutcome(s, s', id)
    case ECvarInit => InitOutcome(s, s', e)
    case ESignal(id) => SignalOutcome(s, s', id)
    case EBroadcast(id) => BroadcastOutcome(s, s', id)
    case ECvarWait(id, lock) => CvarWaitOutcome(s, s', id, lock)
    case EReclaim(id) => ReclaimOutcome(s, s', id)
    case EPipeInit => InitOutcome(s, s', e)
    case EPipeRead(id, len) => PipeReadOutcome(s, s', id, len)
    case EPipeWrite(id, bytes) => PipeWriteOutcome(s, s', id, bytes)
    case ETtyRead(t, len) => ReadOutcome(s, s', t, len)
    case ETtyWrite(t, bytes) => if 0 <= t < NUM_TERMINALS then WriteOutcome(s, s', t, bytes) else Returned(s, s', ERROR) && Quiet(s, s')
    case EKill(message) => WriteOutcome(s, s', 0, message)
    case EClock => exists up :: ClockOutcome(s, s', up)
    case EReceived(t, line) => ReceiveOutcome(s, s', t, line)
    case ETransmitted(t) => TransmitOutcome(s, s', t)
    case EResume => ResumeOutcome(s, s') && (Ends(s, e) ==> Goes(s, s'))
  }

  lemma InterruptMeans(s: State, e: Event)
    requires Between(s) && Enabled(s, e) && Interrupt(e)
    ensures Means(s, e, Step(s, e))
  {
    match e
    case EClock => ClockMeans(s);
    case EReceived(t, line) => ReceiveMeans(s, t, line);
    case ETransmitted(t) => TransmitMeans(s, t);
  }

  lemma ProcessMeans(s: State, e: Event)
    requires Between(s) && Enabled(s, e) && (e.EFork? || e.EExit? || e.EWait? || e.EDelay? || e.EReclaim?)
    ensures Means(s, e, Step(s, e))
  {
    match e
    case EFork(memory) => ForkMeans(s, memory);
    case EExit(_) => GoesMeans(s, e, Step(s, e));
    case EWait => WaitMeans(s);
    case EDelay(n) => DelayMeans(s, n);
    case EReclaim(id) => ReclaimMeans(s, id);
  }

  lemma LockMeans(s: State, e: Event)
    requires Between(s) && Enabled(s, e)
    requires e.EAcquire? || e.ERelease? || e.ESignal? || e.EBroadcast? || e.ECvarWait?
    ensures Means(s, e, Step(s, e))
  {
    match e
    case EAcquire(id) =>
      CallingFromUser(s);
      AcquireMeans(s, id);
    case ERelease(id) => ReleaseMeans(s, id);
    case ESignal(id) => SignalMeans(s, id);
    case EBroadcast(id) => BroadcastMeans(s, id);
    case ECvarWait(id, lock) => CvarWaitMeans(s, id, lock);
  }

  lemma PipeMeans(s: State, e: Event)
    requires Between(s) && Enabled(s, e) && (e.EPipeRead? || e.EPipeWrite?)
    ensures Means(s, e, Step(s, e))
  {
    match e
    case EPipeRead(id, len) => PipeReadMeans(s, id, len);
    case EPipeWrite(id, bytes) => PipeWriteMeans(s, id, bytes);
  }

  lemma TerminalMeans(s: State, e: Event)
    requires Between(s) && Enabled(s, e) && (e.ETtyRead? || e.EKill?)
    ensures Means(s, e, Step(s, e))
  {
    match e
    case ETtyRead(t, len) => ReadMeans(s, t, len);
    case EKill(message) => WriteMeans(s, 0, message, true, Step(s, e));
  }

  lemma OutputMeans(s: State, e: Event)
    requires Between(s) && Enabled(s, e) && e.ETtyWrite?
    ensures Means(s, e, Step(s, e))
  {
    if 0 <= e.tty < NUM_TERMINALS {
      WriteMeans(s, e.tty, e.bytes, false, Step(s, e));
    } else {
      CallingFromUser(s);
      ReturnedOutcome(s, ERROR);
    }
  }

  /** Every event does what is said above, in every state the kernel can be in. */
  lemma StepMeans(s: State, e: Event)
    requires Between(s) && Enabled(s, e)
    ensures Means(s, e, Step(s, e))
  {
    if Interrupt(e) {
      InterruptMeans(s, e);
    } else if e.EResume? {
      ResumeMeans(s);
      if Ends(s, e) {
        GoesMeans(s, e, Step(s, e));
      }
    } else if e.ELockInit? || e.ECvarInit? || e.EPipeInit? {
      InitMeans(s, e);
    } else if e.EAcquire? || e.ERelease? || e.ESignal? || e.EBroadcast? || e.ECvarWait? {
      LockMeans(s, e);
    } else if e.EPipeRead? || e.EPipeWrite? {
      PipeMeans(s, e);
    } else if e.ETtyRead? || e.EKill? {
      TerminalMeans(s, e);
    } else if e.ETtyWrite? {
      OutputMeans(s, e);
    } else {
      ProcessMeans(s, e);
    }
  }
}
