/** Every event but a fork, an exit and the end of a wait leaves all families as they are. */
module KinSteps {
  import opened Pipe
  import opened KernelState
  import opened Placement
  import opened KernelInvariant
  import opened KernelSteps
  import opened CallSteps
  import opened DataSteps
  import opened TtySteps
  import opened KernelRuns
  import opened StepEffects

  ghost predicate Kin(f: Proc, g: Proc) {
    g.alive == f.alive && g.parent == f.parent && g.live == f.live && g.zombies == f.zombies && g.exitStatus == f.exitStatus
  }

  /** The same processes, live or exited, with the same parents, children and exit statuses. */
  ghost predicate SameKin(s: State, s': State) {
    s'.nextPid == s.nextPid && s'.procs.Keys == s.procs.Keys && forall p | p in s.procs :: Kin(s.procs[p], s'.procs[p])
  }

  lemma KinTrans(s: State, s1: State, s2: State)
    requires SameKin(s, s1) && SameKin(s1, s2)
    ensures SameKin(s, s2)
  {
  }

  lemma SelfKin(s: State, f: Proc)
    requires s.current in s.procs && Kin(s.procs[s.current], f)
    ensures SameKin(s, SetProc(s, s.current, f))
  {
  }

  lemma WakeKin(s: State, a: Place, p: Pid)
    ensures SameKin(s, Wake(s, a, p)) && Wake(s, a, p).procs == s.procs
  {
  }

  lemma ReturnKin(s: State, rc: int)
    requires s.current in s.procs
    ensures SameKin(s, Return(s, rc))
  {
  }

  lemma DispatchKin(s: State)
    ensures SameKin(s, Dispatch(s))
  {
  }

  lemma BlockKin(s: State, a: Place, pc: Resume)
    requires s.current in s.procs
    ensures SameKin(s, Block(s, a, pc))
  {
  }

  lemma HandOverKin(s: State, id: Id)
    requires s.current in s.procs && Q(s, LockWait(id)) != [] && Q(s, LockWait(id))[0] in s.procs
    ensures SameKin(s, HandOver(s, id))
  {
  }

  lemma UnlockKin(s: State, id: Id)
    requires s.current in s.procs && id in s.locks
    ensures SameKin(s, Unlock(s, id)) && Unlock(s, id).current == s.current
  {
    if Q(s, LockWait(id)) != [] && Q(s, LockWait(id))[0] in s.procs {
      HandOverKin(s, id);
    }
  }

  lemma {:induction false} ReleaseAllKin(s: State, ids: seq<Id>)
    requires s.current in s.procs
    ensures SameKin(s, ReleaseAll(s, ids)) && ReleaseAll(s, ids).current == s.current
    decreases |ids|
  {
    if ids != [] && CanRelease(s, ids[0]) {
      UnlockKin(s, ids[0]);
      ReleaseAllKin(Unlock(s, ids[0]), ids[1..]);
      KinTrans(s, Unlock(s, ids[0]), ReleaseAll(s, ids));
    }
  }

  lemma BlockingWaitKin(s: State)
    requires s.current in s.procs && s.procs[s.current].zombies == []
    ensures SameKin(s, Wait(s))
  {
    if s.procs[s.current].live == [] {
      ReturnKin(s, ERROR);
    } else {
      DispatchKin(Waits(s));
    }
  }

  lemma DelayKin(s: State, n: int)
    requires s.current in s.procs
    ensures SameKin(s, Delay(s, n))
  {
    if n > 0 {
      BlockKin(SetProc(s, s.current, s.procs[s.current].(ticks := n)), Delayed, AfterDelay);
    } else {
      ReturnKin(s, if n < 0 then ERROR else SUCCESS);
    }
  }

  lemma InitKin(s: State, e: Event)
    requires Enabled(s, e) && (e.ELockInit? || e.ECvarInit? || e.EPipeInit?)
    ensures SameKin(s, Step(s, e))
  {
  }

  lemma AcquireKin(s: State, id: Id)
    requires s.current in s.procs
    ensures SameKin(s, Acquire(s, id))
  {
    if id in s.linked && id in s.locks && !Holds(s, s.current, id) && s.locks[id].acquired {
      BlockKin(s, LockWait(id), AfterAcquire(id));
    }
  }

  lemma ReleaseKin(s: State, id: Id)
    requires s.current in s.procs
    ensures SameKin(s, Release(s, id))
  {
    if CanRelease(s, id) {
      UnlockKin(s, id);
      ReturnKin(Unlock(s, id), SUCCESS);
      KinTrans(s, Unlock(s, id), Release(s, id));
    } else {
      ReturnKin(s, ERROR);
    }
  }

  lemma ReclaimKin(s: State, id: Id)
    requires s.current in s.procs
    ensures SameKin(s, Reclaim(s, id))
  {
    ReturnKin(s.(linked := s.linked - {id}), if id in s.linked && Idle(s, id) then SUCCESS else ERROR);
  }

  lemma SignalKin(s: State, id: Id)
    requires s.current in s.procs
    ensures SameKin(s, Signal(s, id))
  {
    if id !in s.linked || id !in s.cvars {
      ReturnKin(s, ERROR);
    } else if Q(s, CvarWait(id)) == [] {
      ReturnKin(s, SUCCESS);
    } else {
      WakeKin(s, CvarWait(id), Q(s, CvarWait(id))[0]);
      ReturnKin(Wake(s, CvarWait(id), Q(s, CvarWait(id))[0]), SUCCESS);
    }
  }

  lemma BroadcastKin(s: State, id: Id)
    requires s.current in s.procs
    ensures SameKin(s, Broadcast(s, id))
  {
    if id !in s.linked || id !in s.cvars {
      ReturnKin(s, ERROR);
    } else if Q(s, CvarWait(id)) == [] {
      ReturnKin(s, SUCCESS);
    } else {
      ReturnKin(Broadcasts(s, id), SUCCESS);
    }
  }

  lemma WaitOnCvarKin(s: State, id: Id, lock: Id)
    requires s.current in s.procs
    ensures SameKin(s, WaitOnCvar(s, id, lock))
  {
    if id in s.linked && id in s.cvars && CanRelease(s, lock) {
      UnlockKin(s, lock);
      var s1 := Unlock(s, lock);
      if s1.mode != Panic && s1.current in s1.procs {
        BlockKin(s1, CvarWait(id), AfterCvarWait(id, lock));
        KinTrans(s, s1, Block(s1, CvarWait(id), AfterCvarWait(id, lock)));
      }
    }
  }

  lemma ReadLoopKin(s: State, id: Id, len: nat)
    requires s.current in s.procs && id in s.pipes && s.pipes[id].Valid()
    ensures SameKin(s, ReadLoop(s, id, len))
  {
    if s.pipes[id].available < len {
      BlockKin(s, PipeWait(id), AfterPipeRead(id, len));
    }
  }

  lemma PipeReadKin(s: State, id: Id, len: int)
    requires s.current in s.procs
    ensures SameKin(s, PipeRead(s, id, len))
  {
    if len > 0 && id in s.linked && id in s.pipes && s.pipes[id].Valid() {
      ReadLoopKin(s, id, len);
    }
  }

  lemma PipeWriteKin(s: State, id: Id, bytes: seq<Byte>)
    requires s.current in s.procs
    ensures SameKin(s, PipeWrite(s, id, bytes))
  {
    if bytes == [] || id !in s.linked || id !in s.pipes || !s.pipes[id].Valid() {
      ReturnKin(s, if bytes == [] then SUCCESS else ERROR);
    } else {
      var s1 := Return(s.(pipes := s.pipes[id := WriteBuffer(s.pipes[id], bytes)]), |bytes|);
      ReturnKin(s, |bytes|);
      assert SameKin(s, s1);
      var found := FirstSatisfied(s, Q(s, PipeWait(id)), WriteBuffer(s.pipes[id], bytes).available);
      if found != [] {
        WakeKin(s1, PipeWait(id), found[0]);
      }
    }
  }

  lemma TtyReadKin(s: State, t: int, len: int)
    requires s.current in s.procs
    ensures SameKin(s, TtyRead(s, t, len))
  {
    if t < 0 || t >= NUM_TERMINALS || len < 0 {
      ReturnKin(s, ERROR);
    } else if Lines(s, t) == [] {
      var f := s.procs[s.current].(rxBuffer := true, rxLen := len, rx := []);
      SelfKin(s, f);
      BlockKin(SetProc(s, s.current, f), TtyReceive(t), AfterTtyRead(t));
      KinTrans(s, SetProc(s, s.current, f), TtyRead(s, t, len));
    }
  }

  lemma TtyWriteKin(s: State, t: nat, bytes: seq<Byte>, kill: bool)
    requires s.current in s.procs
    ensures SameKin(s, TtyWrite(s, t, bytes, kill))
  {
    if t <= NUM_TERMINALS {
      var s1 := SetProc(s, s.current, s.procs[s.current].(tx := bytes));
      SelfKin(s, s.procs[s.current].(tx := bytes));
      var s2 := if Q(s, TtyTransmit(t)) == [] then Transmit(s1, t, Chunk(bytes)) else s1;
      assert s2.procs == s1.procs && s2.nextPid == s1.nextPid && s2.current == s.current;
      BlockKin(s2, TtyTransmit(t), AfterTtyWrite(t, |bytes|, kill));
      KinTrans(s, s2, TtyWrite(s, t, bytes, kill));
    }
  }

  lemma TickKin(s: State)
    ensures SameKin(s, Tick(s)) && Tick(s).current == s.current
  {
  }

  lemma ClockKin(s: State)
    requires s.current in s.procs
    ensures SameKin(s, Clock(s))
  {
    TickKin(s);
    var s1 := Tick(s);
    var s2 := SetProc(s1, s.current, s1.procs[s.current].(pc := Preempted));
    var s3 := if s.current != IDLE then Append(s2, Ready, s.current) else s2;
    assert SameKin(s1, s3);
    DispatchKin(s3);
    KinTrans(s, s1, s3);
    KinTrans(s, s3, Dispatch(s3));
  }

  lemma ServedKin(s: State, t: nat, p: Pid, input: seq<Byte>)
    requires p in s.procs
    ensures SameKin(s, Served(s, t, p, input))
  {
  }

  lemma {:induction false} DeliverKin(s: State, t: nat, input: seq<Byte>)
    ensures SameKin(s, Deliver(s, t, input))
    decreases |Q(s, TtyReceive(t))|
  {
    var q := Q(s, TtyReceive(t));
    if q != [] && q[0] in s.procs && input != [] && s.procs[q[0]].rxBuffer {
      var n := if |input| <= s.procs[q[0]].rxLen then |input| else s.procs[q[0]].rxLen;
      var s1 := Served(s, t, q[0], input);
      DeliverUnfolds(s, t, input);
      ServedKin(s, t, q[0], input);
      DeliverKin(s1, t, input[n..]);
      KinTrans(s, s1, Deliver(s1, t, input[n..]));
    }
  }

  lemma TerminalKin(s: State, e: Event)
    requires Between(s) && Enabled(s, e) && (e.EReceived? || e.ETransmitted?)
    ensures SameKin(s, Step(s, e))
  {
    if e.EReceived? {
      if Q(s, TtyReceive(e.tty)) != [] {
        DeliverKin(s, e.tty, e.line);
      }
    } else {
      TransmittedOnly(s, e.tty);
      TransmittedNames(s, e.tty);
    }
  }

  lemma TransmittedNames(s: State, t: nat)
    requires Between(s) && t in s.busy
    ensures Transmitted(s, t).procs.Keys == s.procs.Keys && Transmitted(s, t).nextPid == s.nextPid
  {
    WritersThere(s, t);
    TransmittedIs(s, t);
  }

  lemma ResumeReturnKin(s: State)
    requires Resuming(s)
    requires var pc := s.procs[s.current].pc; pc.Preempted? || pc.AfterFork? || pc.AfterDelay? || pc.AfterTtyRead?
    ensures SameKin(s, Continue(s))
  {
  }

  lemma ResumeKin(s: State)
    requires Resuming(s) && s.procs[s.current].pc != AfterWait
    requires var pc := s.procs[s.current].pc; !(pc.AfterTtyWrite? && pc.kill)
    ensures SameKin(s, Continue(s))
  {
    match s.procs[s.current].pc
    case AfterAcquire(lock) => ReturnKin(s, SUCCESS);
    case AfterCvarWait(_, lock) => AcquireKin(s, lock);
    case AfterPipeRead(id, len) =>
      if id in s.pipes && s.pipes[id].Valid() {
        ReadLoopKin(s, id, len);
      }
    case AfterTtyWrite(_, len, _) => ReturnKin(s, len);
    case _ => ResumeReturnKin(s);
  }

  lemma LockKin(s: State, e: Event)
    requires Enabled(s, e) && (e.EAcquire? || e.ERelease? || e.EReclaim?)
    ensures SameKin(s, Step(s, e))
  {
    match e
    case EAcquire(id) => AcquireKin(s, id);
    case ERelease(id) => ReleaseKin(s, id);
    case EReclaim(id) => ReclaimKin(s, id);
  }

  lemma CvarKin(s: State, e: Event)
    requires Enabled(s, e) && (e.ESignal? || e.EBroadcast? || e.ECvarWait?)
    ensures SameKin(s, Step(s, e))
  {
    match e
    case ESignal(id) => SignalKin(s, id);
    case EBroadcast(id) => BroadcastKin(s, id);
    case ECvarWait(id, lock) => WaitOnCvarKin(s, id, lock);
  }

  lemma ReadKin(s: State, e: Event)
    requires Enabled(s, e) && (e.EPipeRead? || e.ETtyRead?)
    ensures SameKin(s, Step(s, e))
  {
    match e
    case EPipeRead(id, len) => PipeReadKin(s, id, len);
    case ETtyRead(t, len) => TtyReadKin(s, t, len);
  }

  lemma WriteKin(s: State, e: Event)
    requires Enabled(s, e) && (e.ETtyWrite? || e.EKill?)
    ensures SameKin(s, Step(s, e))
  {
    if e.EKill? {
      TtyWriteKin(s, 0, e.message, true);
    } else if 0 <= e.tty < NUM_TERMINALS {
      TtyWriteKin(s, e.tty, e.bytes, false);
    } else {
      ReturnKin(s, ERROR);
    }
  }

  /** The event changes a family: a fork, an exit, or a wait that finds a zombie. */
  ghost predicate Domestic(s: State, e: Event)
    requires Enabled(s, e)
  {
    e.EFork? || Ends(s, e) || (e.EWait? && s.procs[s.current].zombies != [])
    || (e.EResume? && s.procs[s.current].pc == AfterWait)
  }

  lemma StepKin(s: State, e: Event)
    requires Between(s) && Enabled(s, e) && !Domestic(s, e)
    ensures SameKin(s, Step(s, e))
  {
    match e
    case EWait => BlockingWaitKin(s);
    case EDelay(n) => DelayKin(s, n);
    case ELockInit => InitKin(s, e);
    case ECvarInit => InitKin(s, e);
    case EPipeInit => InitKin(s, e);
    case EAcquire(_) => LockKin(s, e);
    case ERelease(_) => LockKin(s, e);
    case EReclaim(_) => LockKin(s, e);
    case ESignal(_) => CvarKin(s, e);
    case EBroadcast(_) => CvarKin(s, e);
    case ECvarWait(_, _) => CvarKin(s, e);
    case EPipeRead(_, _) => ReadKin(s, e);
    case EPipeWrite(id, bytes) => PipeWriteKin(s, id, bytes);
    case ETtyRead(_, _) => ReadKin(s, e);
    case ETtyWrite(_, _) => WriteKin(s, e);
    case EKill(_) => WriteKin(s, e);
    case EClock => ClockKin(s);
    case EReceived(_, _) => TerminalKin(s, e);
    case ETransmitted(_) => TerminalKin(s, e);
    case EResume => ResumeKin(s);
  }
}
