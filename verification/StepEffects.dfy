/** What each kind of step leaves alone: the facts the theorems about whole runs build on. */
module StepEffects {
  import opened Pipe
  import opened KernelState
  import opened Placement
  import opened Holding
  import opened Family
  import opened KernelInvariant
  import opened KernelSteps
  import opened ExitSteps
  import opened CallSteps
  import opened DataSteps
  import opened TtySteps
  import opened KernelRuns

  /** What the other processes and their lists see of a step: only list `x`, the ready queue and,
      if `locks`, the locks' waiting lists change, nobody else's clock, output or results, and the
      input of nobody but the readers on list `x`. */
  ghost predicate Calm(s: State, s': State, x: Place, locks: bool) {
    (forall a | a != Ready && a != x && !(locks && a.LockWait?) :: Q(s', a) == Q(s, a))
    && forall p | p != s.current && Alive(s, p) ::
      p in s'.procs && Peaceful(s.procs[p], s'.procs[p])
      && ((x.TtyReceive? && p in Q(s, x)) || SameInput(s.procs[p], s'.procs[p]))
  }

  /** What the program was given by its last call. */
  ghost predicate SameResults(f: Proc, g: Proc) {
    g.rc == f.rc && g.status == f.status && g.data == f.data
  }

  ghost predicate SameInput(f: Proc, g: Proc) {
    g.rx == f.rx && g.rxLen == f.rxLen
  }

  ghost predicate Peaceful(f: Proc, g: Proc) {
    g.alive && g.ticks == f.ticks && g.tx == f.tx && g.pc == f.pc && SameResults(f, g)
  }

  /** Pipe contents, buffered lines and outstanding transmissions. */
  ghost predicate SameData(s: State, s': State) {
    s'.pipes == s.pipes && s'.lines == s.lines && s'.busy == s.busy
  }

  ghost predicate SameLocks(s: State, s': State) {
    s'.locks == s.locks && s'.linked == s.linked
  }

  lemma ReturnCalm(s: State, rc: int)
    requires s.current in s.procs
    ensures Calm(s, Return(s, rc), Ready, false) && SameData(s, Return(s, rc)) && SameLocks(s, Return(s, rc))
  {
  }

  /** Only lists move. */
  lemma MoveCalm(s: State, s': State, x: Place)
    requires s'.procs == s.procs && forall a | a != Ready && a != x :: Q(s', a) == Q(s, a)
    ensures Calm(s, s', x, false)
  {
  }

  lemma DispatchCalm(s: State)
    ensures Calm(s, Dispatch(s), Ready, false) && SameData(s, Dispatch(s)) && SameLocks(s, Dispatch(s))
    ensures Dispatch(s).procs == s.procs
  {
    assert forall a | a != Ready :: Q(Dispatch(s), a) == Q(s, a);
    MoveCalm(s, Dispatch(s), Ready);
  }

  lemma BlockCalm(s: State, a: Place, pc: Resume)
    requires s.current in s.procs
    ensures Calm(s, Block(s, a, pc), a, false) && SameData(s, Block(s, a, pc)) && SameLocks(s, Block(s, a, pc))
    ensures a != Ready ==> Q(Block(s, a, pc), a) == Q(s, a) + [s.current]
  {
  }

  lemma ForkCalm(s: State, memory: bool)
    requires Between(s)
    ensures Calm(s, Fork(s, memory), Ready, false) && SameData(s, Fork(s, memory)) && SameLocks(s, Fork(s, memory))
  {
    assert s.nextPid !in s.procs by {
      assert Look(0);
    }
  }

  lemma HandOverCalm(s: State, id: Id)
    requires s.current in s.procs && Q(s, LockWait(id)) != [] && Q(s, LockWait(id))[0] in s.procs
    ensures var s' := HandOver(s, id);
      Calm(s, s', Ready, true) && SameData(s, s') && s'.current == s.current && s'.linked == s.linked
      && forall l | l != id :: Q(s', LockWait(l)) == Q(s, LockWait(l))
  {
  }

  lemma UnlockCalm(s: State, id: Id)
    requires s.current in s.procs && id in s.locks
    ensures Calm(s, Unlock(s, id), Ready, true) && SameData(s, Unlock(s, id))
    ensures forall l | l != id :: Q(Unlock(s, id), LockWait(l)) == Q(s, LockWait(l))
    ensures Unlock(s, id).current == s.current && Unlock(s, id).linked == s.linked
  {
    if Q(s, LockWait(id)) != [] && Q(s, LockWait(id))[0] in s.procs {
      HandOverCalm(s, id);
    }
  }

  lemma CalmTrans(s: State, s1: State, s2: State, x: Place, locks: bool)
    requires Calm(s, s1, x, locks) && Calm(s1, s2, x, locks) && s1.current == s.current
    requires x.TtyReceive? ==> forall p | p in Q(s1, x) :: p in Q(s, x) || p == s.current
    ensures Calm(s, s2, x, locks)
  {
  }

  lemma {:induction false} ReleaseAllCalm(s: State, ids: seq<Id>)
    requires s.current in s.procs
    ensures var s' := ReleaseAll(s, ids);
      Calm(s, s', Ready, true) && SameData(s, s') && s'.linked == s.linked && s'.current == s.current
    decreases |ids|
  {
    if ids != [] && CanRelease(s, ids[0]) {
      UnlockCalm(s, ids[0]);
      ReleaseAllCalm(Unlock(s, ids[0]), ids[1..]);
      CalmTrans(s, Unlock(s, ids[0]), ReleaseAll(s, ids), Ready, true);
    }
  }

  lemma OrphanCalm(s: State)
    requires Related(s) && Alive(s, s.current)
    ensures Calm(s, Orphan(s), Ready, false) && SameData(s, Orphan(s)) && SameLocks(s, Orphan(s))
  {
    assert ListsOk(s, s.current);
    assert forall a :: Q(Orphan(s), a) == Q(s, a);
  }

  lemma BuriedCalm(s: State, s': State)
    requires s.current in s.procs && Buried(s, s')
    ensures Calm(s, s', Ready, false) && SameData(s, s') && SameLocks(s, s')
  {
  }

  lemma DepartCalm(s: State, status: int)
    requires Runs(s) && s.current != IDLE
    ensures var s' := Depart(s, status); Calm(s, s', Ready, false) && SameData(s, s') && SameLocks(s, s')
  {
    var s1 := Orphan(s);
    var s2 := Bury(s1, status);
    OrphanInv(s);
    assert Look(0);
    OrphanCalm(s);
    BuryShape(s1, status);
    BuriedCalm(s1, s2);
    CalmTrans(s, s1, s2, Ready, false);
    DispatchCalm(s2);
    CalmTrans(s, s2, Dispatch(s2), Ready, false);
  }

  lemma ExitCalm(s: State, status: int)
    requires CallsAgain(s)
    ensures var s' := Exit(s, status); Calm(s, s', Ready, true) && SameData(s, s') && s'.linked == s.linked
  {
    if s.current != INIT {
      ReleaseAllInv(s);
      ReleaseAllCalm(s, s.procs[s.current].owned);
      var s1 := ReleaseAll(s, s.procs[s.current].owned);
      if s1.mode != Hung {
        assert s1.procs[s.current].pc == s.procs[s.current].pc by {
          assert Look(0);
        }
        DepartCalm(s1, status);
        CalmTrans(s, s1, Depart(s1, status), Ready, true);
      }
    }
  }

  /** A process other than idle is on the CPU, and not in the middle of Acquire or Wait. */
  ghost predicate CallsAgain(s: State) {
    Calls(s) && !s.procs[s.current].pc.AfterAcquire?
  }

  lemma CollectCalm(s: State)
    requires Related(s) && Alive(s, s.current) && s.procs[s.current].zombies != []
    ensures var s' := Collect(s); Calm(s, s', Ready, false) && SameData(s, s') && SameLocks(s, s')
  {
    assert ListsOk(s, s.current) && s.procs[s.current].zombies[0] in s.procs[s.current].zombies;
  }

  lemma WaitCalm(s: State)
    requires Related(s) && Alive(s, s.current)
    ensures var s' := Wait(s); Calm(s, s', Ready, false) && SameData(s, s') && SameLocks(s, s')
  {
    if s.procs[s.current].zombies != [] {
      CollectCalm(s);
    } else if s.procs[s.current].live != [] {
      DispatchCalm(Waits(s));
    }
  }

  lemma SetTicksCalm(s: State, n: int)
    requires s.current in s.procs
    ensures var s' := SetProc(s, s.current, s.procs[s.current].(ticks := n));
      Calm(s, s', Ready, false) && forall a :: Q(s', a) == Q(s, a)
  {
  }

  lemma DelayCalm(s: State, n: int)
    requires s.current in s.procs
    ensures var s' := Delay(s, n); Calm(s, s', Delayed, false) && SameData(s, s') && SameLocks(s, s')
    ensures var s' := Delay(s, n); Q(s', Delayed) == if n > 0 then Q(s, Delayed) + [s.current] else Q(s, Delayed)
  {
    if n > 0 {
      var s1 := SetProc(s, s.current, s.procs[s.current].(ticks := n));
      SetTicksCalm(s, n);
      BlockCalm(s1, Delayed, AfterDelay);
      CalmTrans(s, s1, Block(s1, Delayed, AfterDelay), Delayed, false);
    } else {
      ReturnCalm(s, if n < 0 then ERROR else SUCCESS);
    }
  }

  /** LockInit, CvarInit and PipeInit add a resource with a new id. */
  lemma ReturnIdCalm(s: State, s1: State, id: Id)
    requires s.current in s.procs && s1.queues == s.queues && s1.procs == s.procs && s1.current == s.current
    ensures Calm(s, ReturnId(s1, id), Ready, false) && SameData(s1, ReturnId(s1, id)) && SameLocks(s1, ReturnId(s1, id))
  {
    assert forall a :: Q(ReturnId(s1, id), a) == Q(s, a);
  }

  lemma LockInitCalm(s: State)
    requires s.current in s.procs
    ensures var s' := LockInit(s); Calm(s, s', Ready, false) && SameData(s, s')
    ensures var s' := LockInit(s); s'.locks == s.locks[s.nextId := Lock(false, 0)] && s'.linked == s.linked + {s.nextId}
  {
    ReturnIdCalm(s, NewResource(s).(locks := s.locks[s.nextId := Lock(false, 0)]), s.nextId);
  }

  lemma CvarInitCalm(s: State)
    requires s.current in s.procs
    ensures var s' := CvarInit(s);
      Calm(s, s', Ready, false) && SameData(s, s') && s'.locks == s.locks && s'.linked == s.linked + {s.nextId}
  {
    ReturnIdCalm(s, NewResource(s).(cvars := s.cvars + {s.nextId}), s.nextId);
  }

  lemma PipeInitCalm(s: State)
    requires s.current in s.procs
    ensures var s' := PipeInit(s);
      Calm(s, s', Ready, false) && s'.locks == s.locks && s'.linked == s.linked + {s.nextId}
      && s'.pipes == s.pipes[s.nextId := EMPTY_PIPE] && s'.lines == s.lines && s'.busy == s.busy
  {
    ReturnIdCalm(s, NewResource(s).(pipes := s.pipes[s.nextId := EMPTY_PIPE]), s.nextId);
  }

  lemma AcquireCalm(s: State, id: Id)
    requires s.current in s.procs
    ensures var s' := Acquire(s, id); Calm(s, s', LockWait(id), false) && SameData(s, s') && s'.linked == s.linked
  {
    if id in s.linked && id in s.locks && !Holds(s, s.current, id) && s.locks[id].acquired {
      BlockCalm(s, LockWait(id), AfterAcquire(id));
    }
  }

  lemma ReleaseCalm(s: State, id: Id)
    requires s.current in s.procs
    ensures var s' := Release(s, id); Calm(s, s', Ready, true) && SameData(s, s') && s'.linked == s.linked
  {
    if CanRelease(s, id) {
      UnlockCalm(s, id);
      ReturnCalm(Unlock(s, id), SUCCESS);
    }
  }

  lemma WakeCalm(s: State, a: Place, p: Pid)
    ensures Calm(s, Wake(s, a, p), a, false) && SameData(s, Wake(s, a, p)) && SameLocks(s, Wake(s, a, p))
    ensures Wake(s, a, p).current == s.current
  {
  }

  /** A step that wakes and then returns. */
  lemma WakeReturnCalm(s: State, a: Place, p: Pid, rc: int)
    requires s.current in s.procs
    ensures var s' := Return(Wake(s, a, p), rc); Calm(s, s', a, false) && SameData(s, s') && SameLocks(s, s')
  {
    WakeCalm(s, a, p);
    ReturnCalm(Wake(s, a, p), rc);
    CalmTrans(s, Wake(s, a, p), Return(Wake(s, a, p), rc), a, false);
  }

  lemma SignalCalm(s: State, id: Id)
    requires s.current in s.procs
    ensures var s' := Signal(s, id); Calm(s, s', CvarWait(id), false) && SameData(s, s') && SameLocks(s, s')
  {
    if id in s.linked && id in s.cvars && Q(s, CvarWait(id)) != [] {
      WakeReturnCalm(s, CvarWait(id), Q(s, CvarWait(id))[0], SUCCESS);
    } else {
      ReturnCalm(s, Signal(s, id).procs[s.current].rc);
    }
  }

  lemma BroadcastsCalm(s: State, id: Id)
    ensures var s' := Broadcasts(s, id); Calm(s, s', CvarWait(id), false) && SameData(s, s') && SameLocks(s, s')
  {
  }

  lemma BroadcastCalm(s: State, id: Id)
    requires s.current in s.procs
    ensures var s' := Broadcast(s, id); Calm(s, s', CvarWait(id), false) && SameData(s, s') && SameLocks(s, s')
  {
    if id in s.linked && id in s.cvars && Q(s, CvarWait(id)) != [] {
      BroadcastsCalm(s, id);
      ReturnCalm(Broadcasts(s, id), SUCCESS);
      CalmTrans(s, Broadcasts(s, id), Return(Broadcasts(s, id), SUCCESS), CvarWait(id), false);
    } else {
      ReturnCalm(s, Broadcast(s, id).procs[s.current].rc);
    }
  }

  lemma WaitOnCvarCalm(s: State, id: Id, lock: Id)
    requires s.current in s.procs
    ensures var s' := WaitOnCvar(s, id, lock); Calm(s, s', CvarWait(id), true) && SameData(s, s') && s'.linked == s.linked
  {
    if id in s.linked && id in s.cvars && CanRelease(s, lock) {
      UnlockCalm(s, lock);
      var s1 := Unlock(s, lock);
      if s1.current in s1.procs {
        BlockCalm(s1, CvarWait(id), AfterCvarWait(id, lock));
      }
    }
  }

  lemma ReclaimCalm(s: State, id: Id)
    requires s.current in s.procs
    ensures var s' := Reclaim(s, id);
      Calm(s, s', Ready, false) && SameData(s, s') && s'.locks == s.locks && s'.linked == s.linked - {id}
  {
    var s1 := s.(linked := s.linked - {id});
    assert forall a :: Q(s1, a) == Q(s, a);
    ReturnCalm(s1, if id in s.linked && Idle(s, id) then SUCCESS else ERROR);
    assert Reclaim(s, id) == Return(s1, if id in s.linked && Idle(s, id) then SUCCESS else ERROR);
  }

  /** Nothing but the contents of one pipe differs. */
  ghost predicate OnlyPipe(s: State, s': State, id: Id) {
    SameLocks(s, s') && s'.lines == s.lines && s'.busy == s.busy
    && forall i | i != id && i in s.pipes :: i in s'.pipes && s'.pipes[i] == s.pipes[i]
  }

  lemma ReadNowCalm(s: State, id: Id, b: PipeBuffer, rc: int, data: seq<Byte>)
    requires s.current in s.procs
    ensures var s1 := Return(s.(pipes := s.pipes[id := b]), rc);
      var s' := SetProc(s1, s.current, s1.procs[s.current].(data := data));
      Calm(s, s', Ready, false) && OnlyPipe(s, s', id)
  {
  }

  lemma ReadLoopCalm(s: State, id: Id, len: nat)
    requires s.current in s.procs && id in s.pipes && s.pipes[id].Valid()
    ensures var s' := ReadLoop(s, id, len); Calm(s, s', PipeWait(id), false) && OnlyPipe(s, s', id)
  {
    if s.pipes[id].available < len {
      BlockCalm(s, PipeWait(id), AfterPipeRead(id, len));
    } else {
      ReadNowCalm(s, id, ReadBuffer(s.pipes[id], len), len, s.pipes[id].Unread()[..len]);
    }
  }

  lemma PipeReadCalm(s: State, id: Id, len: int)
    requires s.current in s.procs
    ensures var s' := PipeRead(s, id, len); Calm(s, s', PipeWait(id), false) && OnlyPipe(s, s', id)
  {
    if len > 0 && id in s.linked && id in s.pipes && s.pipes[id].Valid() {
      ReadLoopCalm(s, id, len);
    } else {
      ReturnCalm(s, if len == 0 then SUCCESS else ERROR);
    }
  }

  lemma WriteNowCalm(s: State, id: Id, b: PipeBuffer, rc: int)
    requires s.current in s.procs
    ensures var s' := Return(s.(pipes := s.pipes[id := b]), rc);
      Calm(s, s', Ready, false) && OnlyPipe(s, s', id) && s'.current == s.current
  {
  }

  lemma PipeWriteCalm(s: State, id: Id, bytes: seq<Byte>)
    requires s.current in s.procs
    ensures var s' := PipeWrite(s, id, bytes); Calm(s, s', PipeWait(id), false) && OnlyPipe(s, s', id)
  {
    if bytes == [] || id !in s.linked || id !in s.pipes || !s.pipes[id].Valid() {
      ReturnCalm(s, if bytes == [] then SUCCESS else ERROR);
    } else {
      var b := WriteBuffer(s.pipes[id], bytes);
      var found := FirstSatisfied(s, Q(s, PipeWait(id)), b.available);
      var s1 := Return(s.(pipes := s.pipes[id := b]), |bytes|);
      WriteNowCalm(s, id, b, |bytes|);
      if found != [] {
        WakeCalm(s1, PipeWait(id), found[0]);
        CalmTrans(s, s1, Wake(s1, PipeWait(id), found[0]), PipeWait(id), false);
      }
    }
  }

  lemma AwaitLineCalm(s: State, t: nat, len: nat, s': State)
    requires s.current in s.procs
    requires s' == Block(SetProc(s, s.current, s.procs[s.current].(rxBuffer := true, rxLen := len, rx := [])),
                         TtyReceive(t), AfterTtyRead(t))
    ensures Calm(s, s', TtyReceive(t), false) && SameData(s, s') && SameLocks(s, s')
    ensures Q(s', TtyReceive(t)) == Q(s, TtyReceive(t)) + [s.current]
  {
    var s1 := SetProc(s, s.current, s.procs[s.current].(rxBuffer := true, rxLen := len, rx := []));
    assert forall a :: Q(s1, a) == Q(s, a);
    BlockCalm(s1, TtyReceive(t), AfterTtyRead(t));
    CalmTrans(s, s1, s', TtyReceive(t), false);
  }

  lemma TtyReadCalm(s: State, t: int, len: int)
    requires s.current in s.procs
    ensures var s' := TtyRead(s, t, len);
      Calm(s, s', TtyReceive(if t < 0 then 0 else t), false) && SameLocks(s, s') && s'.pipes == s.pipes && s'.busy == s.busy
  {
    if 0 <= t < NUM_TERMINALS && len >= 0 && Lines(s, t) == [] {
      AwaitLineCalm(s, t, len, TtyRead(s, t, len));
    }
  }

  lemma TtyWriteCalm(s: State, t: nat, bytes: seq<Byte>, kill: bool)
    requires s.current in s.procs && WiredAt(s, t) && t <= NUM_TERMINALS
    ensures var s' := TtyWrite(s, t, bytes, kill);
      Calm(s, s', TtyTransmit(t), false) && SameLocks(s, s') && s'.pipes == s.pipes && s'.lines == s.lines
      && Q(s', TtyTransmit(t)) == Q(s, TtyTransmit(t)) + [s.current]
      && (forall r | r != t :: r in s'.busy <==> r in s.busy) && (forall r | r != t && r in s.busy :: s'.busy[r] == s.busy[r])
      && (if Q(s, TtyTransmit(t)) == [] then t !in s.busy && t in s'.busy && s'.busy[t] == Chunk(bytes) else s'.busy == s.busy)
  {
    WritingIs(s, t, bytes, kill);
    DispatchCalm(Writing(s, t, bytes, AfterTtyWrite(t, |bytes|, kill)));
  }

  /** Receiving changes the buffered lines and the readers' buffers. */
  ghost predicate OnlyInput(s: State, s': State) {
    SameLocks(s, s') && s'.pipes == s.pipes && s'.busy == s.busy && s'.current == s.current
    && (s'.mode == s.mode || s'.mode == Panic)
  }

  lemma ServedCalm(s: State, t: nat, p: Pid, input: seq<Byte>)
    requires p in s.procs && p in Q(s, TtyReceive(t))
    ensures var s' := Served(s, t, p, input); Calm(s, s', TtyReceive(t), false) && OnlyInput(s, s')
  {
    var n := if |input| <= s.procs[p].rxLen then |input| else s.procs[p].rxLen;
    var s1 := SetProc(s, p, s.procs[p].(rx := input[..n], rxLen := n));
    assert Calm(s, s1, TtyReceive(t), false) by {
      assert forall a :: Q(s1, a) == Q(s, a);
    }
    WakeCalm(s1, TtyReceive(t), p);
    CalmTrans(s, s1, Served(s, t, p, input), TtyReceive(t), false);
  }

  lemma {:induction false} DeliverCalm(s: State, t: nat, input: seq<Byte>)
    ensures var s' := Deliver(s, t, input); Calm(s, s', TtyReceive(t), false) && OnlyInput(s, s')
    decreases |Q(s, TtyReceive(t))|
  {
    var q := Q(s, TtyReceive(t));
    if q != [] && q[0] in s.procs && input != [] && s.procs[q[0]].rxBuffer {
      var n := if |input| <= s.procs[q[0]].rxLen then |input| else s.procs[q[0]].rxLen;
      var s1 := Served(s, t, q[0], input);
      DeliverUnfolds(s, t, input);
      assert q[0] in q;
      ServedCalm(s, t, q[0], input);
      DeliverCalm(s1, t, input[n..]);
      CalmTrans(s, s1, Deliver(s1, t, input[n..]), TtyReceive(t), false);
    } else {
      DeliverStops(s, t, input);
    }
  }

  lemma DeliverStops(s: State, t: nat, input: seq<Byte>)
    requires var q := Q(s, TtyReceive(t)); q == [] || q[0] !in s.procs || input == [] || !s.procs[q[0]].rxBuffer
    ensures var s' := Deliver(s, t, input); Calm(s, s', TtyReceive(t), false) && OnlyInput(s, s')
  {
    assert forall a :: Q(Deliver(s, t, input), a) == Q(s, a);
  }

  lemma ReceivedCalm(s: State, t: nat, input: seq<Byte>)
    ensures var s' := Received(s, t, input); Calm(s, s', TtyReceive(t), false) && OnlyInput(s, s')
  {
    if Q(s, TtyReceive(t)) != [] {
      DeliverCalm(s, t, input);
    }
  }

  /** A tick takes one from every delayed process and touches nothing else of anyone. */
  ghost predicate Ticked(s: State, s': State) {
    SameData(s, s') && SameLocks(s, s') && (forall a | a != Ready && a != Delayed :: Q(s', a) == Q(s, a))
    && Q(s', Delayed) == Remaining(s, Q(s, Delayed))
    && forall p | Alive(s, p) :: p in s'.procs && OneTick(s.procs[p], s'.procs[p], p == s.current, p in Q(s, Delayed))
  }

  ghost predicate OneTick(f: Proc, g: Proc, runs: bool, delayed: bool) {
    g.alive && g.tx == f.tx && SameInput(f, g) && SameResults(f, g) && (!runs ==> g.pc == f.pc) && g.ticks == if delayed then f.ticks - 1 else f.ticks
  }

  lemma TickTicked(s: State)
    ensures Ticked(s, Tick(s)) && Q(Tick(s), Ready) == Q(s, Ready) + Expired(s, Q(s, Delayed))
  {
    TickQueues(s);
  }

  lemma PreemptTicked(s: State, s1: State, s2: State)
    requires Ticked(s, s1) && s1.current == s.current && s.current in s1.procs
    requires s2 == SetProc(s1, s.current, s1.procs[s.current].(pc := Preempted))
      || s2 == Append(SetProc(s1, s.current, s1.procs[s.current].(pc := Preempted)), Ready, s.current)
    ensures Ticked(s, Dispatch(s2))
  {
    assert forall a | a != Ready :: Q(s2, a) == Q(s1, a);
    DispatchCalm(s2);
  }

  lemma ClockTicked(s: State)
    requires s.current in s.procs
    ensures Ticked(s, Clock(s))
  {
    var s1 := Tick(s);
    var s2 := SetProc(s1, s.current, s1.procs[s.current].(pc := Preempted));
    TickTicked(s);
    PreemptTicked(s, s1, if s.current != IDLE then Append(s2, Ready, s.current) else s2);
  }

  /** The end of a transmission concerns the terminal's queue and the output of its first process. */
  ghost predicate TransmitOnly(s: State, s': State, t: nat) {
    SameLocks(s, s') && s'.pipes == s.pipes && s'.lines == s.lines && s'.current == s.current && s'.mode == s.mode
    && (forall a | a != Ready && a != TtyTransmit(t) :: Q(s', a) == Q(s, a))
    && (forall r | r != t :: if r in s.busy then r in s'.busy && s'.busy[r] == s.busy[r] else r !in s'.busy)
    && (forall p | p in s.procs :: p in s'.procs && s'.procs[p] == s.procs[p].(tx := s'.procs[p].tx))
    && forall p | p in s.procs && p !in Q(s, TtyTransmit(t)) :: s'.procs[p] == s.procs[p]
  }

  lemma NextChunkOnly(s: State, t: nat, p: Pid, rest: seq<Byte>)
    requires p in s.procs && p in Q(s, TtyTransmit(t))
    ensures TransmitOnly(s, NextChunk(s, t, p, rest), t)
  {
    assert forall a :: Q(NextChunk(s, t, p, rest), a) == Q(s, a);
  }

  lemma NextWriterOnly(s: State, t: nat, q: seq<Pid>)
    requires q != [] && (|q| > 1 ==> q[1] in s.procs)
    ensures TransmitOnly(s, NextWriter(s, t, q), t)
  {
    var s1, s' := Wake(s, TtyTransmit(t), q[0]), NextWriter(s, t, q);
    WakeCalm(s, TtyTransmit(t), q[0]);
    assert s'.procs == s.procs && forall a :: Q(s', a) == Q(s1, a);
  }

  lemma WritersThere(s: State, t: nat)
    requires Between(s) && t in s.busy
    ensures var q := Q(s, TtyTransmit(t)); q != [] && q[0] in s.procs && (|q| > 1 ==> q[1] in s.procs)
  {
    assert Look(0);
    assert WiredAt(s, t);
    WriterThere(s, t, 0);
    if |Q(s, TtyTransmit(t))| > 1 {
      WriterThere(s, t, 1);
    }
  }

  lemma TransmittedOnly(s: State, t: nat)
    requires Between(s) && t in s.busy
    ensures TransmitOnly(s, Transmitted(s, t), t)
  {
    var q := Q(s, TtyTransmit(t));
    WritersThere(s, t);
    TransmittedIs(s, t);
    if |s.procs[q[0]].tx| > TERMINAL_MAX_LINE {
      NextChunkOnly(s, t, q[0], s.procs[q[0]].tx[TERMINAL_MAX_LINE..]);
    } else {
      NextWriterOnly(s, t, q);
    }
  }

  // ---- one step ----

  /** The only list besides the ready queue and the locks' that an event can change. */
  ghost function Touched(s: State, e: Event): Place
    requires Enabled(s, e)
  {
    match e
    case EDelay(_) => Delayed
    case EAcquire(id) => LockWait(id)
    case ESignal(id) => CvarWait(id)
    case EBroadcast(id) => CvarWait(id)
    case ECvarWait(id, _) => CvarWait(id)
    case EPipeRead(id, _) => PipeWait(id)
    case EPipeWrite(id, _) => PipeWait(id)
    case ETtyRead(t, _) => TtyReceive(if t < 0 then 0 else t)
    case ETtyWrite(t, _) => if 0 <= t < NUM_TERMINALS then TtyTransmit(t) else Ready
    case EKill(_) => TtyTransmit(0)
    case EClock => Delayed
    case EReceived(t, _) => TtyReceive(t)
    case ETransmitted(t) => TtyTransmit(t)
    case EResume =>
      (match s.procs[s.current].pc
       case AfterCvarWait(_, lock) => LockWait(lock)
       case AfterPipeRead(id, _) => PipeWait(id)
       case _ => Ready)
    case _ => Ready
  }

  /** The running process calls Exit, or is killed: its message is out and the handler calls exit. */
  ghost predicate Ends(s: State, e: Event)
    requires Enabled(s, e)
  {
    e.EExit? || (e.EResume? && s.procs[s.current].pc.AfterTtyWrite? && s.procs[s.current].pc.kill)
  }

  ghost function Status(e: Event): int {
    if e.EExit? then e.status else ERROR
  }

  /** The exit that the event is. */
  lemma ExitEvent(s: State, e: Event)
    requires Between(s) && Enabled(s, e) && Ends(s, e)
    ensures CallsAgain(s) && Step(s, e) == Exit(s, Status(e))
  {
    ExitCaller(s);
  }

  lemma ExitCaller(s: State)
    requires Between(s) && s.procs[s.current].pc != AfterWait && !s.procs[s.current].pc.AfterAcquire?
    requires s.current == IDLE ==> s.procs[s.current].pc.AfterTtyWrite?
    ensures CallsAgain(s)
  {
    assert Look(0);
  }

  /** The event can hand locks over. */
  ghost predicate Hands(s: State, e: Event)
    requires Enabled(s, e)
  {
    e.ERelease? || e.ECvarWait? || Ends(s, e)
  }

  /** A step stays within its list and the data behind it. */
  ghost predicate Local(s: State, s': State, x: Place, locks: bool) {
    Calm(s, s', x, locks)
    && (forall i | i in s.pipes && x != PipeWait(i) :: i in s'.pipes && s'.pipes[i] == s.pipes[i])
    && (!x.TtyTransmit? ==> s'.busy == s.busy) && (!x.TtyReceive? ==> s'.lines == s.lines)
  }

  lemma ProcessLocal(s: State, e: Event)
    requires Between(s) && Enabled(s, e) && (e.EFork? || e.EExit? || e.EWait? || e.EDelay?)
    ensures Local(s, Step(s, e), Touched(s, e), Hands(s, e))
  {
    match e
    case EFork(memory) => ForkCalm(s, memory);
    case EExit(status) => ExitCalm(s, status);
    case EWait =>
      WaitCalm(s) by {
        assert Look(0);
      }
    case EDelay(n) => DelayCalm(s, n);
  }

  lemma LockLocal(s: State, e: Event)
    requires Between(s) && Enabled(s, e) && (e.ELockInit? || e.EAcquire? || e.ERelease? || e.EReclaim?)
    ensures Local(s, Step(s, e), Touched(s, e), Hands(s, e))
  {
    match e
    case ELockInit => LockInitCalm(s);
    case EAcquire(id) => AcquireCalm(s, id);
    case ERelease(id) => ReleaseCalm(s, id);
    case EReclaim(id) => ReclaimCalm(s, id);
  }

  lemma CvarLocal(s: State, e: Event)
    requires Between(s) && Enabled(s, e) && (e.ECvarInit? || e.ESignal? || e.EBroadcast? || e.ECvarWait?)
    ensures Local(s, Step(s, e), Touched(s, e), Hands(s, e))
  {
    match e
    case ECvarInit => CvarInitCalm(s);
    case ESignal(id) => SignalCalm(s, id);
    case EBroadcast(id) => BroadcastCalm(s, id);
    case ECvarWait(id, lock) => WaitOnCvarCalm(s, id, lock);
  }

  lemma PipeLocal(s: State, e: Event)
    requires Between(s) && Enabled(s, e) && (e.EPipeInit? || e.EPipeRead? || e.EPipeWrite?)
    ensures Local(s, Step(s, e), Touched(s, e), Hands(s, e))
  {
    match e
    case EPipeInit =>
      PipeInitCalm(s);
      assert s.nextId !in s.pipes by {
        assert Look(0);
      }
    case EPipeRead(id, len) => PipeReadCalm(s, id, len);
    case EPipeWrite(id, bytes) => PipeWriteCalm(s, id, bytes);
  }

  lemma ReceiveLocal(s: State, e: Event)
    requires Between(s) && Enabled(s, e) && (e.ETtyRead? || e.EReceived?)
    ensures Local(s, Step(s, e), Touched(s, e), Hands(s, e))
  {
    match e
    case ETtyRead(t, len) => TtyReadCalm(s, t, len);
    case EReceived(t, line) => ReceivedCalm(s, t, line);
  }

  lemma TransmitLocal(s: State, e: Event)
    requires Between(s) && Enabled(s, e) && (e.ETtyWrite? || e.EKill?)
    ensures Local(s, Step(s, e), Touched(s, e), Hands(s, e))
  {
    match e
    case ETtyWrite(t, bytes) =>
      if t < 0 || t >= NUM_TERMINALS {
        ReturnCalm(s, ERROR);
      } else {
        TerminalWired(s, t);
        TtyWriteCalm(s, t, bytes, false);
      }
    case EKill(message) =>
      TerminalWired(s, 0);
      TtyWriteCalm(s, 0, message, true);
  }

  lemma TerminalWired(s: State, t: nat)
    requires Between(s)
    ensures WiredAt(s, t)
  {
    assert Look(0);
  }

  lemma ResumeDataLocal(s: State)
    requires Resuming(s) && (s.procs[s.current].pc.Preempted? || s.procs[s.current].pc.AfterTtyRead?)
    ensures Local(s, Continue(s), Ready, false)
  {
    assert forall a :: Q(Continue(s), a) == Q(s, a);
  }

  lemma ResumeReturnLocal(s: State)
    requires Resuming(s)
    requires var pc := s.procs[s.current].pc;
      pc.Preempted? || pc.AfterFork? || pc.AfterDelay? || pc.AfterTtyRead? || (pc.AfterTtyWrite? && !pc.kill)
    ensures Local(s, Continue(s), Ready, false)
  {
    match s.procs[s.current].pc
    case AfterFork(child) => ReturnCalm(s, if child == s.current then 0 else child);
    case AfterDelay => ReturnCalm(s, SUCCESS);
    case AfterTtyWrite(_, len, _) => ReturnCalm(s, len);
    case _ => ResumeDataLocal(s);
  }

  lemma ResumeWaitLocal(s: State)
    requires Resuming(s) && s.procs[s.current].pc == AfterWait
    ensures Local(s, Continue(s), Ready, false)
  {
    assert Look(0);
    assert Somewhere(s, s.current, s.current) && ListsOk(s, s.current);
    CollectCalm(s);
  }

  lemma ResumeAcquireLocal(s: State)
    requires Resuming(s) && s.procs[s.current].pc.AfterAcquire?
    ensures Local(s, Continue(s), Ready, false)
  {
    ReturnCalm(s, SUCCESS);
    assert forall a :: Q(Continue(s), a) == Q(s, a);
  }

  lemma ResumeLoopLocal(s: State)
    requires Resuming(s) && s.procs[s.current].pc.AfterPipeRead?
    ensures Local(s, Continue(s), PipeWait(s.procs[s.current].pc.pipe), false)
  {
    var pc := s.procs[s.current].pc;
    if pc.pipe in s.pipes && s.pipes[pc.pipe].Valid() {
      ReadLoopCalm(s, pc.pipe, pc.len);
    } else {
      assert forall a :: Q(Continue(s), a) == Q(s, a);
    }
  }

  lemma ResumeKillLocal(s: State)
    requires Resuming(s) && s.procs[s.current].pc.AfterTtyWrite? && s.procs[s.current].pc.kill
    ensures Local(s, Continue(s), Ready, true)
  {
    assert s.current != IDLE by {
      assert Look(0);
    }
    ExitCalm(s, ERROR);
  }

  lemma ResumeLocal(s: State)
    requires Resuming(s) && Enabled(s, EResume)
    ensures Local(s, Continue(s), Touched(s, EResume), Hands(s, EResume))
  {
    match s.procs[s.current].pc
    case AfterWait => ResumeWaitLocal(s);
    case AfterAcquire(_) => ResumeAcquireLocal(s);
    case AfterCvarWait(_, lock) => AcquireCalm(s, lock);
    case AfterPipeRead(_, _) => ResumeLoopLocal(s);
    case AfterTtyWrite(_, _, kill) =>
      if kill {
        ResumeKillLocal(s);
      } else {
        ResumeReturnLocal(s);
      }
    case _ => ResumeReturnLocal(s);
  }

  /** Every step but a clock tick and the end of a transmission is local. */
  lemma StepLocal(s: State, e: Event)
    requires Between(s) && Enabled(s, e) && !e.EClock? && !e.ETransmitted?
    ensures Local(s, Step(s, e), Touched(s, e), Hands(s, e))
  {
    match e
    case EFork(_) => ProcessLocal(s, e);
    case EExit(_) => ProcessLocal(s, e);
    case EWait => ProcessLocal(s, e);
    case EDelay(_) => ProcessLocal(s, e);
    case ELockInit => LockLocal(s, e);
    case EAcquire(_) => LockLocal(s, e);
    case ERelease(_) => LockLocal(s, e);
    case EReclaim(_) => LockLocal(s, e);
    case ECvarInit => CvarLocal(s, e);
    case ESignal(_) => CvarLocal(s, e);
    case EBroadcast(_) => CvarLocal(s, e);
    case ECvarWait(_, _) => CvarLocal(s, e);
    case EPipeInit => PipeLocal(s, e);
    case EPipeRead(_, _) => PipeLocal(s, e);
    case EPipeWrite(_, _) => PipeLocal(s, e);
    case EResume => ResumeLocal(s);
    case ETtyRead(_, _) => ReceiveLocal(s, e);
    case EReceived(_, _) => ReceiveLocal(s, e);
    case _ => TransmitLocal(s, e);
  }
}
